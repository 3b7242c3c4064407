/** What a result of StreamDispatcher.Submit means for the stream, through all the layers below it. */
module Delivery {
  import opened Batch
  import opened Dispatcher
  import opened Int32
  import opened Kinesis
  import opened Messages
  import opened Sender
  import opened Sequences

  /** The attempt that decided a Submit. */
  function Decisive(tries: seq<Try>): seq<Exchange>
    requires AllMade(tries) && tries != []
  {
    LastOf(tries[|tries| - 1].attempts)
  }

  /**
    The streams are tried in configured order, each with the whole batch; every one before
    the last refused it, and the list ends early only with one that took it.
   */
  lemma FailoverOrder(svc: Service, k: nat, routes: seq<Route>, codec: Codec, msgs: seq<Message>)
    requires msgs != []
    ensures var tries := SubmitTries(svc, k, routes, codec, msgs);
      && AllMade(tries) && |tries| <= |routes|
      && (forall i :: 0 <= i < |tries| ==>
          tries[i] == OneTry(svc, k + |Calls(tries[..i])|, routes[i], Marshaled(codec, msgs)))
      && (forall i :: 0 <= i < |tries| - 1 ==> !TryOk(tries[i]))
      && (SubmitOk(routes, msgs, tries) <==> tries != [] && TryOk(tries[|tries| - 1]))
      && (!SubmitOk(routes, msgs, tries) ==> |tries| == |routes|)
  {
    hide Failover, OneTry, Calls, Marshaled, TryOk;
    var items := Marshaled(codec, msgs);
    var tries := SubmitTries(svc, k, routes, codec, msgs);
    FailoverMade(svc, k, routes, items);
    forall i: nat | i < |tries|
      ensures tries[i] == OneTry(svc, k + |Calls(tries[..i])|, routes[i], items)
      ensures i + 1 == |tries| <==> TryOk(tries[i]) || i + 1 == |routes|
    {
      FailoverAt(svc, k, routes, items, i);
    }
  }

  /** The last attempt of a try is one whole put, for some number of calls before it. */
  lemma LastAttempt(svc: Service, k: nat, route: Route, items: seq<Item>) returns (j: nat)
    ensures LastOf(OneTry(svc, k, route, items).attempts) == PutRecordsTrace(svc, j, route.target, items)
  {
    var a := Attempts(svc, k, route.target, items, route.retries + 1);
    AttemptAt(svc, k, route.target, items, route.retries + 1, |a| - 1);
    j := k + |Flatten(a[..|a| - 1])|;
  }

  lemma OnOneStream(svc: Service, k: nat, target: Target, items: seq<Item>)
    ensures var t := PutRecordsTrace(svc, k, target, items); forall i :: 0 <= i < |t| ==> t[i].target == target
  {
    hide PutTrace, Chunks;
    PutTraceSentUpToFirstError(svc, k, target, Chunks(MAX_PUT_RECORDS_BATCH_SIZE, items));
  }

  /** One stream acknowledged the marshalable messages, all of them and in order, in one attempt without a failed record. */
  ghost predicate Acknowledged(t: seq<Exchange>, target: Target, codec: Codec, msgs: seq<Message>)
  {
    && Clean(t)
    && (forall i :: 0 <= i < |t| ==> t[i].target == target && |t[i].records| <= 500)
    && RecordsInOrder(codec, msgs, Records(t))
  }

  /** A try is taken exactly when its stream acknowledged the batch, for fewer than 2^31 messages that marshal. */
  lemma TryOkIffAcknowledged(svc: Service, k: nat, route: Route, codec: Codec, msgs: seq<Message>)
    requires Honest(svc) && |Marshaled(codec, msgs)| < TWO_31
    ensures var y := OneTry(svc, k, route, Marshaled(codec, msgs));
      TryOk(y) <==> Acknowledged(LastOf(y.attempts), route.target, codec, msgs)
  {
    hide Attempts, PutRecordsTrace, Marshaled, FailedTotal, Records;
    var items := Marshaled(codec, msgs);
    var j := LastAttempt(svc, k, route, items);
    CountExactBelowLimit(svc, j, route.target, items);
    PutRecordsSendsPrefix(svc, j, route.target, items);
    OnOneStream(svc, j, route.target, items);
    MarshaledInOrder(codec, msgs, Records(PutRecordsTrace(svc, j, route.target, items)));
  }

  /** The last stream that was tried acknowledged the batch. */
  ghost predicate Delivered(routes: seq<Route>, codec: Codec, msgs: seq<Message>, tries: seq<Try>)
  {
    && tries != [] && AllMade(tries) && |tries| <= |routes|
    && Acknowledged(Decisive(tries), routes[|tries| - 1].target, codec, msgs)
  }

  /** Every stream was tried, and none acknowledged the batch. */
  ghost predicate NotDelivered(routes: seq<Route>, codec: Codec, msgs: seq<Message>, tries: seq<Try>)
  {
    && AllMade(tries) && |tries| == |routes|
    && forall i :: 0 <= i < |routes| ==> !Acknowledged(LastOf(tries[i].attempts), routes[i].target, codec, msgs)
  }

  /**
    End-to-end delivery: for a non-empty batch of which fewer than 2^31 messages marshal,
    Submit returns nil exactly when the last stream it tried acknowledged the batch, and an
    error exactly when there is no stream or every one of them was tried and none did.
   */
  lemma SubmitMeansAcknowledged(svc: Service, k: nat, routes: seq<Route>, codec: Codec, msgs: seq<Message>)
    requires Honest(svc) && msgs != [] && |Marshaled(codec, msgs)| < TWO_31
    ensures var tries := SubmitTries(svc, k, routes, codec, msgs);
      && (SubmitOk(routes, msgs, tries) <==> Delivered(routes, codec, msgs, tries))
      && (!SubmitOk(routes, msgs, tries) <==> NotDelivered(routes, codec, msgs, tries))
  {
    hide SubmitTries, OneTry, Calls, Marshaled, TryOk, Acknowledged;
    var tries := SubmitTries(svc, k, routes, codec, msgs);
    FailoverOrder(svc, k, routes, codec, msgs);
    forall i: nat | i < |tries|
      ensures TryOk(tries[i]) <==> Acknowledged(LastOf(tries[i].attempts), routes[i].target, codec, msgs)
    {
      TryOkIffAcknowledged(svc, k + |Calls(tries[..i])|, routes[i], codec, msgs);
    }
  }

  /** Some attempt on some stream was acknowledged. */
  ghost predicate SomeAttemptAcknowledged(routes: seq<Route>, codec: Codec, msgs: seq<Message>, tries: seq<Try>)
    requires |tries| <= |routes|
  {
    exists i, j :: 0 <= i < |tries| && 0 <= j < |tries[i].attempts| &&
      Acknowledged(tries[i].attempts[j], routes[i].target, codec, msgs)
  }

  /** Submit returns nil exactly when any of all the attempts it made was acknowledged: it stops at no other, and at that one. */
  lemma NilIffSomeAttemptAcknowledged(svc: Service, k: nat, routes: seq<Route>, codec: Codec, msgs: seq<Message>)
    requires Honest(svc) && msgs != [] && |Marshaled(codec, msgs)| < TWO_31
    ensures var tries := SubmitTries(svc, k, routes, codec, msgs);
      |tries| <= |routes| && (SubmitOk(routes, msgs, tries) <==> SomeAttemptAcknowledged(routes, codec, msgs, tries))
  {
    hide SubmitTries, OneTry, Calls, Marshaled, TryOk, Acknowledged;
    var tries := SubmitTries(svc, k, routes, codec, msgs);
    FailoverOrder(svc, k, routes, codec, msgs);
    SubmitMeansAcknowledged(svc, k, routes, codec, msgs);
    if SubmitOk(routes, msgs, tries) {
      var i := |tries| - 1;
      assert Acknowledged(tries[i].attempts[|tries[i].attempts| - 1], routes[i].target, codec, msgs);
    }
    forall i: nat, j: nat | i < |tries| && j < |tries[i].attempts| && Acknowledged(tries[i].attempts[j], routes[i].target, codec, msgs)
      ensures SubmitOk(routes, msgs, tries)
    {
      AcknowledgedIsLast(svc, k + |Calls(tries[..i])|, routes[i], codec, msgs, j);
      TryOkIffAcknowledged(svc, k + |Calls(tries[..i])|, routes[i], codec, msgs);
    }
  }

  /** After an attempt that was acknowledged there is no other. */
  lemma AcknowledgedIsLast(svc: Service, k: nat, route: Route, codec: Codec, msgs: seq<Message>, j: nat)
    requires j < |OneTry(svc, k, route, Marshaled(codec, msgs)).attempts|
    requires Acknowledged(OneTry(svc, k, route, Marshaled(codec, msgs)).attempts[j], route.target, codec, msgs)
    ensures j == |OneTry(svc, k, route, Marshaled(codec, msgs)).attempts| - 1
  {
    hide Attempts, PutRecordsTrace, Marshaled, RecordsInOrder, FailedTotal;
    AttemptAt(svc, k, route.target, Marshaled(codec, msgs), route.retries + 1, j);
    CleanTotal(OneTry(svc, k, route, Marshaled(codec, msgs)).attempts[j]);
  }

  /** A nil from Submit can be trusted, whatever an honest service does. */
  ghost predicate NilIsDelivery(routes: seq<Route>, codec: Codec, msgs: seq<Message>)
  {
    forall svc: Service, k: nat ::
      Honest(svc) && SubmitOk(routes, msgs, SubmitTries(svc, k, routes, codec, msgs)) ==>
        Delivered(routes, codec, msgs, SubmitTries(svc, k, routes, codec, msgs))
  }

  /** The first stream's put, when it comes back without an error and with a wrapped count. */
  lemma WrappedPut(routes: seq<Route>, items: seq<Item>)
    requires routes != [] && |items| >= TWO_31
    ensures var svc := FailFirst(TWO_31);
      var t := PutRecordsTrace(svc, 0, routes[0].target, items);
      Failover(svc, 0, routes, items) == [Try(routes[0].target, [t])] && Accepted(t) && !Clean(t)
  {
    hide PutTrace, Chunks;
    var svc := FailFirst(TWO_31);
    var t := PutRecordsTrace(svc, 0, routes[0].target, items);
    FailFirstTotal(TWO_31, 0, routes[0].target, items);
    assert Attempts(svc, 0, routes[0].target, items, routes[0].retries + 1) == [t];
    if Clean(t) {
      CleanTotal(t);
    }
  }

  /** The exact condition: below 2^31 marshalable messages it can, and from there on it cannot. */
  lemma NilIsDeliveryIff(routes: seq<Route>, codec: Codec, msgs: seq<Message>)
    requires routes != [] && msgs != []
    ensures NilIsDelivery(routes, codec, msgs) <==> |Marshaled(codec, msgs)| < TWO_31
  {
    hide Failover, Marshaled, PutRecordsTrace, Accepted, Clean;
    if |Marshaled(codec, msgs)| < TWO_31 {
      forall svc: Service, k: nat | Honest(svc) && SubmitOk(routes, msgs, SubmitTries(svc, k, routes, codec, msgs))
        ensures Delivered(routes, codec, msgs, SubmitTries(svc, k, routes, codec, msgs))
      {
        SubmitMeansAcknowledged(svc, k, routes, codec, msgs);
      }
    } else {
      var svc := FailFirst(TWO_31);
      WrappedPut(routes, Marshaled(codec, msgs));
      assert Honest(svc);
      assert SubmitOk(routes, msgs, SubmitTries(svc, 0, routes, codec, msgs));
      assert !Delivered(routes, codec, msgs, SubmitTries(svc, 0, routes, codec, msgs));
    }
  }

  // Work

  lemma MultiplyMonotone(a: nat, m: nat, n: nat)
    requires m <= n
    ensures 0 <= a * m <= a * n && m * a <= n * a
  {
    assert a * n == a * m + a * (n - m) && a * (n - m) >= 0 && a * m >= 0;
  }

  lemma {:induction false} FailoverCost(svc: Service, k: nat, routes: seq<Route>, items: seq<Item>, r: nat)
    requires forall i :: 0 <= i < |routes| ==> routes[i].retries <= r
    ensures |Calls(Failover(svc, k, routes, items))| <=
      |routes| * ((r + 1) * ChunkCount(MAX_PUT_RECORDS_BATCH_SIZE, |items|))
    decreases |routes|
  {
    hide Attempts, ChunkCount, TryOk, TryTrace, OneTry;
    if routes != [] {
      var cost := (r + 1) * ChunkCount(MAX_PUT_RECORDS_BATCH_SIZE, |items|);
      var y := OneTry(svc, k, routes[0], items);
      OneTryCost(svc, k, routes[0], items, r);
      var rest := Failover(svc, k + |TryTrace(y)|, routes[1..], items);
      FailoverCost(svc, k + |TryTrace(y)|, routes[1..], items, r);
      CallsCons(y, rest);
      CallsCons(y, []);
      assert [y] + [] == [y];
      OneMore(|routes| - 1, cost);
    }
  }

  lemma OneTryCost(svc: Service, k: nat, route: Route, items: seq<Item>, r: nat)
    requires route.retries <= r
    ensures |TryTrace(OneTry(svc, k, route, items))| <= (r + 1) * ChunkCount(MAX_PUT_RECORDS_BATCH_SIZE, |items|)
  {
    hide Attempts, ChunkCount;
    AttemptsCost(svc, k, route.target, items, route.retries + 1);
    MultiplyMonotone(ChunkCount(MAX_PUT_RECORDS_BATCH_SIZE, |items|), route.retries + 1, r + 1);
  }

  /** One Submit makes at most streams x (r + 1) x chunks calls of the service. */
  lemma WorkBound(svc: Service, k: nat, routes: seq<Route>, codec: Codec, msgs: seq<Message>, r: nat)
    requires forall i :: 0 <= i < |routes| ==> routes[i].retries <= r
    ensures |Calls(SubmitTries(svc, k, routes, codec, msgs))| <=
      |routes| * ((r + 1) * ChunkCount(500, |msgs|))
  {
    hide Failover, Marshaled, ChunkCount;
    var items := Marshaled(codec, msgs);
    var few, many := ChunkCount(MAX_PUT_RECORDS_BATCH_SIZE, |items|), ChunkCount(MAX_PUT_RECORDS_BATCH_SIZE, |msgs|);
    ChunkCountMonotone(MAX_PUT_RECORDS_BATCH_SIZE, |items|, |msgs|);
    MultiplyMonotone(r + 1, few, many);
    MultiplyMonotone(|routes|, (r + 1) * few, (r + 1) * many);
    FailoverCost(svc, k, routes, items, r);
  }

  /**
    What one stream entry is sent: at most r + 1 attempts, each a prefix of the records, none
    twice and none out of order; so over all of them a record is put at most r + 1 times
    for each time it is in the batch.
   */
  lemma RepeatBound(svc: Service, k: nat, routes: seq<Route>, codec: Codec, msgs: seq<Message>, i: nat, e: Entry)
    requires msgs != [] && i < |SubmitTries(svc, k, routes, codec, msgs)|
    ensures var y, records := SubmitTries(svc, k, routes, codec, msgs)[i], ToEntries(Marshaled(codec, msgs));
      && i < |routes|
      && |y.attempts| <= routes[i].retries + 1
      && (forall j :: 0 <= j < |y.attempts| ==> Records(y.attempts[j]) <= records)
      && Occurs(Records(TryTrace(y)), e) <= (routes[i].retries + 1) * Occurs(records, e)
  {
    hide Failover, Attempts, Marshaled, Calls, PutRecordsTrace, Occurs, Records, Flatten;
    var items := Marshaled(codec, msgs);
    var tries := SubmitTries(svc, k, routes, codec, msgs);
    var target, most := routes[i].target, routes[i].retries + 1;
    FailoverAt(svc, k, routes, items, i);
    var k' := k + |Calls(tries[..i])|;
    forall j: nat | j < |tries[i].attempts|
      ensures Records(tries[i].attempts[j]) <= ToEntries(items)
    {
      AttemptAt(svc, k', target, items, most, j);
      PutRecordsSendsPrefix(svc, k' + |Flatten(tries[i].attempts[..j])|, target, items);
    }
    AttemptsRepeat(svc, k', target, items, most, e);
  }

  /** Every call that is made for stream i goes to that stream through the client made from its own configuration. */
  lemma OwnClient(factory: DispatcherFactory, d: StreamDispatcher, svc: Service, k: nat, msgs: seq<Message>, i: nat)
    requires factory.Built(d) && msgs != []
    requires i < |SubmitTries(svc, k, RoutesOf(d.streams, d.senders), d.codec, msgs)|
    ensures var y := SubmitTries(svc, k, RoutesOf(d.streams, d.senders), d.codec, msgs)[i];
      && i < |d.streams|
      && |y.attempts| <= RetriesFor(factory.retries) + 1
      && forall j, c :: 0 <= j < |y.attempts| && 0 <= c < |y.attempts[j]| ==>
        y.attempts[j][c].target == Target(ClientOf(ConfigMap(d.streams[i].configItems)), d.streams[i].name)
  {
    hide Failover, Attempts, Marshaled, Calls, PutRecordsTrace, Flatten;
    var routes, items := RoutesOf(d.streams, d.senders), Marshaled(d.codec, msgs);
    var tries := SubmitTries(svc, k, routes, d.codec, msgs);
    FailoverAt(svc, k, routes, items, i);
    RoutesAreOwn(factory, d, i);
    var k' := k + |Calls(tries[..i])|;
    forall j: nat | j < |tries[i].attempts|
      ensures forall c :: 0 <= c < |tries[i].attempts[j]| ==> tries[i].attempts[j][c].target == routes[i].target
    {
      AttemptAt(svc, k', routes[i].target, items, routes[i].retries + 1, j);
      OnOneStream(svc, k' + |Flatten(tries[i].attempts[..j])|, routes[i].target, items);
    }
  }
}
