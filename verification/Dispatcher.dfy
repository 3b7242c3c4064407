/**
  filter/stream_dispatcher.go and filter/dispatcher_factory.go: a batch goes to the first
  of the configured streams whose sender takes it whole, and what is given up is counted.
 */
module Dispatcher {
  import Q = QueueMachine
  import opened Kinesis
  import opened Messages
  import opened Options
  import opened Sender
  import opened Sequences

  /** A stream and the retries of the sender built for it. */
  datatype Route = Route(target: Target, retries: nat)

  /** One call of submitBatch: the attempts of its OnEvent. */
  datatype Try = Try(target: Target, attempts: seq<seq<Exchange>>)

  function OneTry(svc: Service, k: nat, route: Route, items: seq<Item>): (y: Try)
    ensures y.attempts != [] && y.target == route.target
  {
    Try(route.target, Attempts(svc, k, route.target, items, route.retries + 1))
  }

  function TryTrace(y: Try): seq<Exchange>
  {
    Flatten(y.attempts)
  }

  /** submitBatch returns nil. */
  predicate TryOk(y: Try)
  {
    y.attempts != [] && Accepted(LastOf(y.attempts))
  }

  /** The streams tried, in order, up to the first that takes the batch. */
  function Failover(svc: Service, k: nat, routes: seq<Route>, items: seq<Item>): (tries: seq<Try>)
    ensures |tries| <= |routes| && (routes != [] ==> tries != [])
    decreases |routes|
  {
    if routes == [] then [] else
      var y := OneTry(svc, k, routes[0], items);
      if TryOk(y) then [y] else [y] + Failover(svc, k + |TryTrace(y)|, routes[1..], items)
  }

  /** All the calls of the service that a list of tries made. */
  function Calls(tries: seq<Try>): seq<Exchange>
    decreases |tries|
  {
    if tries == [] then [] else Calls(tries[..|tries| - 1]) + TryTrace(tries[|tries| - 1])
  }

  lemma {:induction false} CallsCons(y: Try, tries: seq<Try>)
    ensures Calls([y] + tries) == TryTrace(y) + Calls(tries)
    decreases |tries|
  {
    if tries == [] {
      assert [y] + tries == [y] && [y][..0] == [];
      assert Calls([y]) == [] + TryTrace(y) == TryTrace(y) + [];
    } else {
      hide TryTrace;
      var n := |tries| - 1;
      CallsCons(y, tries[..n]);
      assert [y] + tries == ([y] + tries[..n]) + [tries[n]];
      assert ([y] + tries)[..n + 1] == [y] + tries[..n];
      assert TryTrace(y) + (Calls(tries[..n]) + TryTrace(tries[n])) == TryTrace(y) + Calls(tries[..n]) + TryTrace(tries[n]);
    }
  }

  /** Failover order: which stream is tried when, on what, and that only a refusal leads to the next. */
  lemma {:induction false} FailoverAt(svc: Service, k: nat, routes: seq<Route>, items: seq<Item>, i: nat)
    requires i < |Failover(svc, k, routes, items)|
    ensures var tries := Failover(svc, k, routes, items);
      && i < |tries| <= |routes|
      && tries[i] == OneTry(svc, k + |Calls(tries[..i])|, routes[i], items)
      && (i + 1 == |tries| <==> TryOk(tries[i]) || i + 1 == |routes|)
    decreases |routes|
  {
    hide Failover, OneTry, TryOk, TryTrace;
    FailoverFirst(svc, k, routes, items);
    if i == 0 {
      assert Calls(Failover(svc, k, routes, items)[..0]) == [];
    } else {
      hide Calls;
      var tries, y := Failover(svc, k, routes, items), OneTry(svc, k, routes[0], items);
      FailoverCons(svc, k, routes, items);
      FailoverAt(svc, k + |TryTrace(y)|, routes[1..], items, i - 1);
      TakeAfterHead(tries, i);
      CallsCons(y, tries[1..][..i - 1]);
      assert tries[..i] == [y] + tries[1..][..i - 1];
    }
  }

  lemma FailoverFirst(svc: Service, k: nat, routes: seq<Route>, items: seq<Item>)
    requires routes != []
    ensures var tries, y := Failover(svc, k, routes, items), OneTry(svc, k, routes[0], items);
      tries != [] && tries[0] == y && (|tries| == 1 <==> TryOk(y) || |routes| == 1)
  {
    hide OneTry, TryOk, TryTrace;
  }

  /** More than one try: the first was refused, and the others follow it. */
  lemma FailoverCons(svc: Service, k: nat, routes: seq<Route>, items: seq<Item>)
    requires |Failover(svc, k, routes, items)| > 1
    ensures var tries, y := Failover(svc, k, routes, items), OneTry(svc, k, routes[0], items);
      |routes| > 1 && !TryOk(y) && tries[0] == y && tries[1..] == Failover(svc, k + |TryTrace(y)|, routes[1..], items)
  {
    hide OneTry, TryOk, TryTrace;
  }

  /** One more try, and what follows it. */
  lemma FailoverStep(svc: Service, k: nat, routes: seq<Route>, items: seq<Item>, i: nat, tried: seq<Try>)
    requires i < |routes|
    ensures var y := OneTry(svc, k, routes[i], items);
      tried + Failover(svc, k, routes[i..], items) == tried + [y] +
        if TryOk(y) then [] else Failover(svc, k + |TryTrace(y)|, routes[i + 1..], items)
  {
    assert routes[i..][1..] == routes[i + 1..];
  }

  lemma NothingTried(log: seq<Exchange>, counted: seq<Drop>)
    ensures AllMade([]) && log == log + Calls([]) && counted == counted + AllTryDrops([])
    ensures AllTryDrops([]) == []
  {
  }

  lemma NothingLeft(svc: Service, k: nat, routes: seq<Route>, items: seq<Item>, tried: seq<Try>)
    ensures tried + Failover(svc, k, routes[|routes|..], items) == tried
  {
  }

  /** What Submit counts, given how its last try ended. */
  lemma {:induction false} DropsOfSubmit(id: string, routes: seq<Route>, msgs: seq<Message>, tries: seq<Try>, counted: seq<Drop>)
    requires AllMade(tries) && routes != [] && msgs != [] && tries != []
    ensures counted + SubmitDrops(id, routes, msgs, tries) ==
      if TryOk(tries[|tries| - 1]) then counted + AllTryDrops(tries)
      else counted + AllTryDrops(tries) + [Drop(routes[|routes| - 1].target.stream, AllFailed, |msgs|)]
  {
    var all, drop := AllTryDrops(tries), Drop(routes[|routes| - 1].target.stream, AllFailed, |msgs|);
    assert counted + all + [drop] == counted + (all + [drop]);
  }

  /** When Submit fails on some streams, the last count is the whole batch under the last stream's name. */
  lemma EndsAllFailed(id: string, routes: seq<Route>, msgs: seq<Message>, tries: seq<Try>, counted: seq<Drop>)
    requires AllMade(tries) && routes != [] && !SubmitOk(routes, msgs, tries)
    ensures var all := counted + SubmitDrops(id, routes, msgs, tries);
      |all| > |counted| && all[|all| - 1] == Drop(routes[|routes| - 1].target.stream, AllFailed, |msgs|)
  {
    hide AllTryDrops;
  }

  /** What one more try adds to the calls and to the counts. */
  lemma OneTryMore(log: seq<Exchange>, counted: seq<Drop>, tried: seq<Try>, y: Try)
    requires AllMade(tried) && y.attempts != []
    ensures AllMade(tried + [y])
    ensures log + Calls(tried) + TryTrace(y) == log + Calls(tried + [y])
    ensures counted + AllTryDrops(tried) + TryDrops(y) == counted + AllTryDrops(tried + [y])
  {
    assert (tried + [y])[..|tried|] == tried;
  }

  // Submit

  datatype Reason = NoStreams | AllFailed | SendError | SomeRecordsFailed

  /** One increment of the DroppedMessage counter. */
  datatype Drop = Drop(url: string, reason: Reason, amount: nat)

  function SubmitTries(svc: Service, k: nat, routes: seq<Route>, codec: Codec, msgs: seq<Message>): seq<Try>
  {
    if msgs == [] then [] else Failover(svc, k, routes, Marshaled(codec, msgs))
  }

  /** Submit returns nil. */
  predicate SubmitOk(routes: seq<Route>, msgs: seq<Message>, tries: seq<Try>)
  {
    routes != [] && (msgs == [] || (tries != [] && TryOk(tries[|tries| - 1])))
  }

  /** What submitBatch counts for a stream that did not take the batch. */
  function TryDrops(y: Try): seq<Drop>
    requires y.attempts != []
  {
    if Errored(LastOf(y.attempts)) then [Drop(y.target.stream, SendError, 1)]
    else if PutCount(LastOf(y.attempts)) > 0 then [Drop(y.target.stream, SomeRecordsFailed, 1)]
    else []
  }

  ghost predicate AllMade(tries: seq<Try>)
  {
    forall i :: 0 <= i < |tries| ==> tries[i].attempts != []
  }

  function AllTryDrops(tries: seq<Try>): seq<Drop>
    requires AllMade(tries)
    decreases |tries|
  {
    if tries == [] then [] else AllTryDrops(tries[..|tries| - 1]) + TryDrops(tries[|tries| - 1])
  }

  function SubmitDrops(id: string, routes: seq<Route>, msgs: seq<Message>, tries: seq<Try>): seq<Drop>
    requires AllMade(tries)
  {
    if routes == [] then [Drop(id, NoStreams, |msgs|)]
    else if SubmitOk(routes, msgs, tries) then AllTryDrops(tries)
    else AllTryDrops(tries) + [Drop(routes[|routes| - 1].target.stream, AllFailed, |msgs|)]
  }

  lemma {:induction false} FailoverMade(svc: Service, k: nat, routes: seq<Route>, items: seq<Item>)
    ensures AllMade(Failover(svc, k, routes, items))
    decreases |routes|
  {
    hide OneTry, TryOk, TryTrace;
    if routes != [] {
      FailoverMade(svc, k + |TryTrace(OneTry(svc, k, routes[0], items))|, routes[1..], items);
    }
  }

  /** How much the counter has been increased for a reason. */
  function Counted(drops: seq<Drop>, reason: Reason): nat
    decreases |drops|
  {
    if drops == [] then 0 else
      var last := drops[|drops| - 1];
      Counted(drops[..|drops| - 1], reason) + if last.reason == reason then last.amount else 0
  }

  lemma {:induction false} CountedConcat(a: seq<Drop>, b: seq<Drop>, reason: Reason)
    ensures Counted(a + b, reason) == Counted(a, reason) + Counted(b, reason)
    decreases |b|
  {
    if b == [] {
      assert a + b == a;
    } else {
      CountedConcat(a, b[..|b| - 1], reason);
      assert (a + b)[..|a + b| - 1] == a + b[..|b| - 1];
    }
  }

  lemma CountedOne(drop: Drop, reason: Reason)
    ensures Counted([drop], reason) == if drop.reason == reason then drop.amount else 0
  {
    assert [drop][..0] == [];
  }

  /** A try whose last attempt came back with an error. */
  function ErroredTry(y: Try): nat
  {
    if y.attempts != [] && y.attempts[|y.attempts| - 1] != [] && LastReply(y).err then 1 else 0
  }

  function LastReply(y: Try): Reply
    requires y.attempts != [] && y.attempts[|y.attempts| - 1] != []
  {
    var t := y.attempts[|y.attempts| - 1];
    t[|t| - 1].reply
  }

  /** A try whose last attempt came back without an error, and with records counted as failed. */
  function ShortTry(y: Try): nat
  {
    if y.attempts != [] && ErroredTry(y) == 0 && PutCount(y.attempts[|y.attempts| - 1]) > 0 then 1 else 0
  }

  lemma TryCounted(y: Try, reason: Reason)
    requires y.attempts != []
    ensures Counted(TryDrops(y), reason) ==
      match reason
      case NoStreams => 0
      case AllFailed => 0
      case SendError => ErroredTry(y)
      case SomeRecordsFailed => ShortTry(y)
  {
    hide Counted, PutCount;
    if TryDrops(y) != [] {
      CountedOne(TryDrops(y)[0], reason);
    }
    assert Counted([], reason) == 0 by {
      CountedNothing(reason);
    }
  }

  /** The three ways in which a try can end. */
  lemma TryMeans(y: Try)
    requires y.attempts != []
    ensures ErroredTry(y) == 1 ==> !TryOk(y) && TryDrops(y) == [Drop(y.target.stream, SendError, 1)]
    ensures ShortTry(y) == 1 ==> !TryOk(y) && TryDrops(y) == [Drop(y.target.stream, SomeRecordsFailed, 1)]
    ensures ErroredTry(y) == 0 && ShortTry(y) == 0 ==> TryOk(y) && TryDrops(y) == []
    ensures ErroredTry(y) <= 1 && ShortTry(y) <= 1
  {
    hide PutCount;
  }

  lemma CountedNothing(reason: Reason)
    ensures Counted([], reason) == 0
  {
  }

  lemma {:induction false} TriesCounted(tries: seq<Try>, reason: Reason)
    requires AllMade(tries)
    ensures Counted(AllTryDrops(tries), reason) ==
      match reason
      case NoStreams => 0
      case AllFailed => 0
      case SendError => Sum(tries, ErroredTry)
      case SomeRecordsFailed => Sum(tries, ShortTry)
    decreases |tries|
  {
    if tries == [] {
      CountedNothing(reason);
    } else {
      hide Counted, TryDrops, ErroredTry, ShortTry;
      var last := tries[|tries| - 1];
      TriesCounted(tries[..|tries| - 1], reason);
      CountedConcat(AllTryDrops(tries[..|tries| - 1]), TryDrops(last), reason);
      TryCounted(last, reason);
    }
  }

  /**
    The four reasons of the counter: the whole batch as `no_streams` when there is no stream,
    the whole batch as `all_failed` when there are streams and Submit fails, and one for each
    try that ended in an error or with failed records.
   */
  lemma DropsByReason(id: string, routes: seq<Route>, msgs: seq<Message>, tries: seq<Try>, reason: Reason)
    requires AllMade(tries) && (routes == [] ==> tries == [])
    ensures Counted(SubmitDrops(id, routes, msgs, tries), reason) ==
      match reason
      case NoStreams => if routes == [] then |msgs| else 0
      case AllFailed => if routes != [] && !SubmitOk(routes, msgs, tries) then |msgs| else 0
      case SendError => Sum(tries, ErroredTry)
      case SomeRecordsFailed => Sum(tries, ShortTry)
  {
    hide Counted, TryDrops, AllTryDrops;
    TriesCounted(tries, reason);
    if routes == [] {
      CountedOne(Drop(id, NoStreams, |msgs|), reason);
    } else if !SubmitOk(routes, msgs, tries) {
      var drop := Drop(routes[|routes| - 1].target.stream, AllFailed, |msgs|);
      CountedOne(drop, reason);
      CountedConcat(AllTryDrops(tries), [drop], reason);
    }
  }

  /** Messages given up, by the two reasons that count messages. */
  function Lost(drops: seq<Drop>): nat
  {
    Counted(drops, NoStreams) + Counted(drops, AllFailed)
  }

  /** The `no_streams` and `all_failed` counts grow by the whole batch when Submit fails and not at all when it succeeds. */
  lemma LostIffFailed(id: string, routes: seq<Route>, msgs: seq<Message>, tries: seq<Try>)
    requires AllMade(tries) && (routes == [] ==> tries == [])
    ensures Lost(SubmitDrops(id, routes, msgs, tries)) == if SubmitOk(routes, msgs, tries) then 0 else |msgs|
  {
    hide Counted;
    DropsByReason(id, routes, msgs, tries, NoStreams);
    DropsByReason(id, routes, msgs, tries, AllFailed);
  }

  // The objects

  datatype Stream = Stream(name: string, configItems: seq<(string, string)>)

  /** The configuration items as a map: a later item replaces an earlier one of the same key. */
  function ConfigMap(items: seq<(string, string)>): map<string, string>
    decreases |items|
  {
    if items == [] then map[] else
      var last := items[|items| - 1];
      ConfigMap(items[..|items| - 1])[last.0 := last.1]
  }

  /** The last item of a key gives its value, and a key without an item has none. */
  lemma {:induction false} LastItemWins(items: seq<(string, string)>, key: string)
    ensures key in ConfigMap(items) <==> exists i :: 0 <= i < |items| && items[i].0 == key
    ensures forall i :: 0 <= i < |items| && items[i].0 == key && (forall j :: i < j < |items| ==> items[j].0 != key) ==>
      key in ConfigMap(items) && ConfigMap(items)[key] == items[i].1
    decreases |items|
  {
    if items != [] {
      var n := |items| - 1;
      LastItemWins(items[..n], key);
      assert forall i :: 0 <= i < n ==> items[..n][i] == items[i];
    }
  }

  /** GetConfigMap */
  method GetConfigMap(stream: Stream) returns (config: map<string, string>)
    ensures config == ConfigMap(stream.configItems)
  {
    config := map[];
    var items := stream.configItems;
    for i := 0 to |items|
      invariant config == ConfigMap(items[..i])
    {
      assert items[..i + 1][..i] == items[..i];
      config := config[items[i].0 := items[i].1];
    }
    assert items[..|items|] == items;
  }

  function RoutesOf(streams: seq<Stream>, senders: seq<KinesisSender>): (r: seq<Route>)
    requires |streams| == |senders|
    ensures |r| == |streams|
    ensures forall i :: 0 <= i < |r| ==> r[i] == Route(Target(senders[i].kc.config, streams[i].name), senders[i].retries)
  {
    seq(|streams|, i requires 0 <= i < |streams| => Route(Target(senders[i].kc.config, streams[i].name), senders[i].retries))
  }

  class StreamDispatcher {
    const id: string
    const senders: seq<KinesisSender>
    const streams: seq<Stream>
    const net: Network
    const codec: Codec
    /** What its queue is made with; one goroutine runs the queue's Start. */
    const queue: Q.QueueConfig
    var drops: seq<Drop>

    constructor (id: string, senders: seq<KinesisSender>, streams: seq<Stream>, queue: Q.QueueConfig,
                 net: Network, codec: Codec)
      ensures this.id == id && this.senders == senders && this.streams == streams && this.queue == queue
      ensures this.net == net && this.codec == codec && drops == []
    {
      this.queue := queue;
      this.id := id;
      this.senders := senders;
      this.streams := streams;
      this.net := net;
      this.codec := codec;
      drops := [];
    }

    /** A sender for each stream, all on the one network. */
    ghost predicate Valid()
    {
      && |senders| == |streams|
      && forall i :: 0 <= i < |senders| ==> senders[i].kc.net == net && senders[i].codec == codec
    }

    method Submit(msgs: seq<Message>) returns (err: bool)
      requires Valid()
      modifies this`drops, net
      ensures var routes := RoutesOf(streams, senders);
        var tries := SubmitTries(net.svc, |old(net.log)|, routes, codec, msgs);
        && AllMade(tries)
        && net.log == old(net.log) + Calls(tries)
        && drops == old(drops) + SubmitDrops(id, routes, msgs, tries)
        && err == !SubmitOk(routes, msgs, tries)
      ensures streams == [] ==>
        err && net.log == old(net.log) && drops == old(drops) + [Drop(id, NoStreams, |msgs|)]
      ensures streams != [] && msgs == [] ==> !err && net.log == old(net.log) && drops == old(drops)
      ensures streams != [] && err ==>
        |drops| > |old(drops)| && drops[|drops| - 1] == Drop(streams[|streams| - 1].name, AllFailed, |msgs|)
    {
      ghost var routes := RoutesOf(streams, senders);
      ghost var tries := SubmitTries(net.svc, |net.log|, routes, codec, msgs);
      if |streams| == 0 {
        drops := drops + [Drop(id, NoStreams, |msgs|)];
        return true;
      }
      if |msgs| == 0 {
        NothingTried(net.log, drops);
        return false;
      }
      ghost var counted := drops;
      err := SubmitToStreams(msgs);
      hide SubmitTries, SubmitDrops, Calls, RoutesOf;
      if err {
        EndsAllFailed(id, routes, msgs, tries, counted);
      }
    }

    /** The service and the counter have seen the tries made since they were at `log` and `counted`. */
    ghost predicate Made(log: seq<Exchange>, counted: seq<Drop>, tried: seq<Try>)
      reads this, net
    {
      AllMade(tried) && net.log == log + Calls(tried) && drops == counted + AllTryDrops(tried)
    }

    /** The loop of Submit, for some streams and some messages. */
    method SubmitToStreams(msgs: seq<Message>) returns (err: bool)
      requires Valid() && streams != [] && msgs != []
      modifies this`drops, net
      ensures var routes := RoutesOf(streams, senders);
        var tries := Failover(net.svc, |old(net.log)|, routes, Marshaled(codec, msgs));
        && AllMade(tries)
        && net.log == old(net.log) + Calls(tries)
        && drops == old(drops) + SubmitDrops(id, routes, msgs, tries)
        && err == !TryOk(tries[|tries| - 1])
    {
      hide Failover, Marshaled, TryOk, RoutesOf, Calls, AllMade, SubmitDrops, StreamDispatcher.Made, StreamDispatcher.ToTry;
      ghost var tries := Failover(net.svc, |net.log|, RoutesOf(streams, senders), Marshaled(codec, msgs));
      ghost var tried: seq<Try> := [];
      NothingMade(tries, msgs);
      err := false;
      var i := 0;
      var s := streams[0].name;
      while true
        invariant i == |tried| <= |streams| && (i > 0 ==> err && !TryOk(tried[i - 1]))
        invariant ToTry(tries, tried, msgs)
        invariant Made(old(net.log), old(drops), tried)
        invariant s == streams[if i == 0 then 0 else i - 1].name
        decreases |streams| - i
      {
        if i == |streams| {
          AllRefused(old(net.log), old(drops), tries, tried, msgs);
          drops := drops + [Drop(s, AllFailed, |msgs|)];
          break;
        }
        s := streams[i].name;
        err, tried := TryStream(i, msgs, old(net.log), old(drops), tries, tried);
        if !err {
          LastTook(old(net.log), old(drops), tries, msgs);
          break;
        }
        i := i + 1;
      }
    }

    /** Before the first try. */
    lemma NothingMade(tries: seq<Try>, msgs: seq<Message>)
      requires Valid()
      requires tries == Failover(net.svc, |net.log|, RoutesOf(streams, senders), Marshaled(codec, msgs))
      ensures ToTry(tries, [], msgs) && Made(net.log, drops, [])
    {
      hide Failover;
      NothingTried(net.log, drops);
      Whole(RoutesOf(streams, senders));
      Whole(tries);
    }

    /** After the last stream has refused, one more count makes up those of a failed Submit. */
    lemma AllRefused(log: seq<Exchange>, counted: seq<Drop>, tries: seq<Try>, tried: seq<Try>, msgs: seq<Message>)
      requires Valid() && streams != [] && msgs != [] && |tried| == |streams|
      requires ToTry(tries, tried, msgs) && Made(log, counted, tried) && !TryOk(tried[|tried| - 1])
      ensures tries == tried && AllMade(tries) && net.log == log + Calls(tries)
      ensures drops + [Drop(streams[|streams| - 1].name, AllFailed, |msgs|)] ==
        counted + SubmitDrops(id, RoutesOf(streams, senders), msgs, tries)
    {
      hide Failover, TryOk, Calls, AllTryDrops, SubmitDrops;
      NothingLeft(net.svc, |net.log|, RoutesOf(streams, senders), Marshaled(codec, msgs), tried);
      DropsOfSubmit(id, RoutesOf(streams, senders), msgs, tried, counted);
    }

    /** After a stream has taken the batch, the counts are those of a Submit that succeeds. */
    lemma LastTook(log: seq<Exchange>, counted: seq<Drop>, tries: seq<Try>, msgs: seq<Message>)
      requires Valid() && streams != [] && msgs != []
      requires Made(log, counted, tries) && tries != [] && TryOk(tries[|tries| - 1])
      ensures AllMade(tries) && net.log == log + Calls(tries)
      ensures drops == counted + SubmitDrops(id, RoutesOf(streams, senders), msgs, tries)
    {
      hide TryOk, Calls, AllTryDrops, SubmitDrops;
      DropsOfSubmit(id, RoutesOf(streams, senders), msgs, tries, counted);
    }

    /** The tries still to be made come after those made. */
    ghost predicate ToTry(tries: seq<Try>, tried: seq<Try>, msgs: seq<Message>)
      requires Valid() && |tried| <= |streams|
      reads net
    {
      tries == tried + Failover(net.svc, |net.log|, RoutesOf(streams, senders)[|tried|..], Marshaled(codec, msgs))
    }

    /** One round of the loop: stream i is tried. */
    method TryStream(i: nat, msgs: seq<Message>, ghost log: seq<Exchange>, ghost counted: seq<Drop>,
                     ghost tries: seq<Try>, ghost tried: seq<Try>) returns (err: bool, ghost now: seq<Try>)
      requires Valid() && i == |tried| < |streams| && Made(log, counted, tried)
      requires ToTry(tries, tried, msgs)
      modifies this`drops, net
      ensures |now| == i + 1 && err == !TryOk(now[i])
      ensures Made(log, counted, now)
      ensures if err then ToTry(tries, now, msgs) else tries == now
    {
      hide Failover, Attempts, Marshaled, TryOk, TryTrace, RoutesOf, Calls, AllTryDrops;
      ghost var k, routes, items := |net.log|, RoutesOf(streams, senders), Marshaled(codec, msgs);
      ghost var y := OneTry(net.svc, k, routes[i], items);
      err := SubmitBatch(streams[i].name, senders[i], msgs);
      OneTryMore(log, counted, tried, y);
      FailoverStep(net.svc, k, routes, items, i, tried);
      now := tried + [y];
    }

    method SubmitBatch(stream: string, sender: KinesisSender, msgs: seq<Message>) returns (err: bool)
      requires sender.kc.net == net && sender.codec == codec
      modifies this`drops, net
      ensures var y := OneTry(net.svc, |old(net.log)|, Route(Target(sender.kc.config, stream), sender.retries), Marshaled(codec, msgs));
        && net.log == old(net.log) + TryTrace(y)
        && drops == old(drops) + TryDrops(y)
        && err == !TryOk(y)
        && (ErroredTry(y) == 1 ==> err && drops == old(drops) + [Drop(stream, SendError, 1)])
        && (ShortTry(y) == 1 ==> err && drops == old(drops) + [Drop(stream, SomeRecordsFailed, 1)])
        && (ErroredTry(y) == 0 && ShortTry(y) == 0 ==> !err && drops == old(drops))
    {
      hide Attempts, Marshaled, PutCount, Flatten, SendInOrder, ErroredTry, ShortTry;
      TryMeans(OneTry(net.svc, |net.log|, Route(Target(sender.kc.config, stream), sender.retries), Marshaled(codec, msgs)));
      var sent := sender.OnEvent(msgs, stream);
      err := sent.err;
      if sent.err {
        drops := drops + [Drop(stream, SendError, 1)];
      } else if sent.failedRecordCount > 0 {
        drops := drops + [Drop(stream, SomeRecordsFailed, 1)];
        err := true;
      }
    }
  }

  // Building a dispatcher

  datatype DestType = Kinesis | Other

  /** The retries of a sender that is asked for some number of them. */
  function RetriesFor(retries: int): nat
  {
    if retries > 0 then retries else RETRIES
  }

  class DispatcherFactory {
    const retries: int
    const net: Network
    const codec: Codec
    /** Whether the cloud gives out a client with this configuration. */
    const provider: ClientConfig -> bool

    constructor (retries: int, net: Network, codec: Codec, provider: ClientConfig -> bool)
      ensures this.retries == retries && this.net == net && this.codec == codec && this.provider == provider
    {
      this.retries := retries;
      this.net := net;
      this.codec := codec;
      this.provider := provider;
    }

    /** A client needs a region and an endpoint. */
    predicate HasClient(client: ClientConfig)
    {
      client.region != "" && client.endpoint != "" && provider(client)
    }

    predicate Configured(dest: DestType, stream: Stream)
    {
      var config := ConfigMap(stream.configItems);
      config != map[] && dest.Kinesis? && HasClient(ClientOf(config))
    }

    method GetSender(retries: int, dest: DestType, config: map<string, string>) returns (r: Option<KinesisSender>)
      ensures r.Some? <==>
        && config != map[] && dest.Kinesis?
        && Lookup(config, "region") != "" && Lookup(config, "endpoint") != "" && provider(ClientOf(config))
      ensures r.Some? ==> var s := r.value;
        && fresh(s) && s.kc.net == net && s.codec == codec
        && s.kc.config == ClientOf(config) && s.retries == if retries > 0 then retries else 3
    {
      if config == map[] || dest.Other? {
        return None;
      }
      var client := ClientOf(config);
      if client.region == "" || client.endpoint == "" || !provider(client) {
        return None;
      }
      var kc := new KinesisClient(net, client);
      var s := new KinesisSender(retries, kc, codec);
      r := Some(s);
    }

    /** The sender for a stream: its client is made from that stream's own configuration. */
    ghost predicate BuiltFor(sender: KinesisSender, stream: Stream)
    {
      && sender.kc.net == net && sender.codec == codec
      && sender.kc.config == ClientOf(ConfigMap(stream.configItems))
      && sender.retries == RetriesFor(retries)
    }

    /** A dispatcher of this factory: sender i is the one for stream i. */
    ghost predicate Built(d: StreamDispatcher)
    {
      && d.Valid() && d.net == net && d.codec == codec
      && forall i :: 0 <= i < |d.streams| ==> BuiltFor(d.senders[i], d.streams[i])
    }

    /**
      A dispatcher for the streams, or none when one of them has no sender or the queue gets
      no name. Its queue has the given sizes and never submits just because it is empty.
     */
    method GetDispatcher(id: string, queueSize: int, batchSize: int, maxWorkers: int, dest: DestType,
                         streams: seq<Stream>) returns (r: Option<StreamDispatcher>)
      ensures r.Some? <==> id != "" && forall i :: 0 <= i < |streams| ==> Configured(dest, streams[i])
      ensures r.Some? ==> var d := r.value;
        && fresh(d) && Built(d) && d.id == id && d.streams == streams && d.drops == []
        && d.queue == Q.QueueConfig(queueSize, maxWorkers, batchSize, false)
    {
      var senders: seq<KinesisSender> := [];
      for i := 0 to |streams|
        invariant |senders| == i
        invariant forall j :: 0 <= j < i ==> Configured(dest, streams[j]) && BuiltFor(senders[j], streams[j])
      {
        var config := GetConfigMap(streams[i]);
        var s := GetSender(retries, dest, config);
        if s.None? {
          assert !Configured(dest, streams[i]);
          return None;
        }
        senders := senders + [s.value];
      }
      var queue := GetQueue(id, queueSize, batchSize, maxWorkers);
      if queue.None? {
        return None;
      }
      var d := new StreamDispatcher(id, senders, streams, queue.value, net, codec);
      r := Some(d);
    }

    /** QueueFactory.GetQueue: a queue needs a name, and the flag keeps its zero value. */
    function GetQueue(name: string, queueSize: int, batchSize: int, maxWorkers: int): Option<Q.QueueConfig>
    {
      if name == "" then None else Some(Q.QueueConfig(queueSize, maxWorkers, batchSize, false))
    }
  }

  /** Route i leads through the client made from stream i's own configuration. */
  lemma RoutesAreOwn(factory: DispatcherFactory, d: StreamDispatcher, i: nat)
    requires factory.Built(d) && i < |d.streams|
    ensures RoutesOf(d.streams, d.senders)[i] ==
      Route(Target(ClientOf(ConfigMap(d.streams[i].configItems)), d.streams[i].name), RetriesFor(factory.retries))
  {
  }
}
