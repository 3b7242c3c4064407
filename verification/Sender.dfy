/**
  internal/sender/kinesis_sender.go: marshalling a batch and putting it, again and again
  until a put returns no error or the retries are used up.
 */
module Sender {
  import opened Batch
  import opened Kinesis
  import opened Messages
  import opened Options
  import opened Sequences

  const RETRIES: nat := 3

  /** The messages that marshal, in order, each with its session as the partition key. */
  function Marshaled(codec: Codec, msgs: seq<Message>): (items: seq<Item>)
    ensures |items| <= |msgs|
    decreases |msgs|
  {
    if msgs == [] then [] else
      var last := msgs[|msgs| - 1];
      Marshaled(codec, msgs[..|msgs| - 1]) +
      match codec(last) case None => [] case Some(data) => [Item(last.sessionID, data)]
  }

  /** How many of the first i messages marshal. */
  function Place(codec: Codec, msgs: seq<Message>, i: nat): (place: nat)
    requires i <= |msgs|
    ensures place <= i
  {
    if i == 0 then 0 else Place(codec, msgs, i - 1) + if codec(msgs[i - 1]).Some? then 1 else 0
  }

  /**
    The records of all the messages that marshal, in the order of the messages: the record of
    each, its data and its session, comes after those of the messages before it.
   */
  ghost predicate RecordsInOrder(codec: Codec, msgs: seq<Message>, records: seq<Entry>)
  {
    && |records| == Place(codec, msgs, |msgs|)
    && forall i :: 0 <= i < |msgs| && codec(msgs[i]).Some? ==>
      && Place(codec, msgs, i) < |records|
      && records[Place(codec, msgs, i)] == Entry(codec(msgs[i]).value, msgs[i].sessionID)
  }

  lemma {:induction false} PlaceInMost(codec: Codec, msgs: seq<Message>, n: nat, i: nat)
    requires i <= n <= |msgs|
    ensures Place(codec, msgs[..n], i) == Place(codec, msgs, i)
  {
    if i > 0 {
      PlaceInMost(codec, msgs, n, i - 1);
    }
  }

  lemma {:induction false} PlaceGrows(codec: Codec, msgs: seq<Message>, i: nat, j: nat)
    requires i < j <= |msgs| && codec(msgs[i]).Some?
    ensures Place(codec, msgs, i) < Place(codec, msgs, j)
    decreases j
  {
    if i < j - 1 {
      PlaceGrows(codec, msgs, i, j - 1);
    }
  }

  /** What one more message adds to the records. */
  lemma MarshaledLast(codec: Codec, msgs: seq<Message>)
    requires msgs != []
    ensures var most, last := msgs[..|msgs| - 1], msgs[|msgs| - 1];
      ToEntries(Marshaled(codec, msgs)) == ToEntries(Marshaled(codec, most)) +
        match codec(last) case None => [] case Some(data) => [Entry(data, last.sessionID)]
  {
    var last := msgs[|msgs| - 1];
    var added := match codec(last) case None => [] case Some(data) => [Item(last.sessionID, data)];
    ToEntriesConcat(Marshaled(codec, msgs[..|msgs| - 1]), added);
  }

  /** Records in order without the last one are the records in order without the last message, if that marshals. */
  lemma OrderMost(codec: Codec, msgs: seq<Message>, records: seq<Entry>)
    requires msgs != []
    ensures var n, last := |msgs| - 1, msgs[|msgs| - 1];
      RecordsInOrder(codec, msgs, records) <==>
      if codec(last).Some? then
        && records != [] && records[|records| - 1] == Entry(codec(last).value, last.sessionID)
        && RecordsInOrder(codec, msgs[..n], records[..|records| - 1])
      else RecordsInOrder(codec, msgs[..n], records)
  {
    hide Place;
    var n := |msgs| - 1;
    PlaceLast(codec, msgs);
    forall i: nat | i <= n
      ensures Place(codec, msgs[..n], i) == Place(codec, msgs, i)
    {
      PlaceInMost(codec, msgs, n, i);
    }
    forall i: nat | i < n && codec(msgs[i]).Some?
      ensures Place(codec, msgs, i) < Place(codec, msgs, n)
    {
      PlaceGrows(codec, msgs, i, n);
    }
    assert forall i: nat :: i < n ==> msgs[..n][i] == msgs[i];
  }

  lemma PlaceLast(codec: Codec, msgs: seq<Message>)
    requires msgs != []
    ensures var n := |msgs| - 1;
      Place(codec, msgs, |msgs|) == Place(codec, msgs, n) + if codec(msgs[n]).Some? then 1 else 0
  {
  }

  /** The marshal loop keeps the order: its records, and no other list, are those of the messages in order. */
  lemma {:induction false} MarshaledInOrder(codec: Codec, msgs: seq<Message>, records: seq<Entry>)
    ensures RecordsInOrder(codec, msgs, records) <==> records == ToEntries(Marshaled(codec, msgs))
    decreases |msgs|
  {
    if msgs != [] {
      hide Marshaled, RecordsInOrder;
      var n := |msgs| - 1;
      OrderMost(codec, msgs, records);
      MarshaledLast(codec, msgs);
      Whole(ToEntries(Marshaled(codec, msgs[..n])));
      if codec(msgs[n]).None? {
        MarshaledInOrder(codec, msgs[..n], records);
      } else if records != [] {
        MarshaledInOrder(codec, msgs[..n], records[..|records| - 1]);
        LastApart(records, ToEntries(Marshaled(codec, msgs[..n])), Entry(codec(msgs[n]).value, msgs[n].sessionID));
      }
    }
  }

  lemma LastApart<T>(a: seq<T>, most: seq<T>, last: T)
    requires a != []
    ensures a == most + [last] <==> a[..|a| - 1] == most && a[|a| - 1] == last
  {
    assert a == a[..|a| - 1] + [a[|a| - 1]];
  }

  /** No message that marshals is left out. */
  lemma {:induction false} MarshaledHas(codec: Codec, msgs: seq<Message>, m: Message)
    requires m in msgs && codec(m).Some?
    ensures Item(m.sessionID, codec(m).value) in Marshaled(codec, msgs)
    decreases |msgs|
  {
    var last := msgs[|msgs| - 1];
    if m != last {
      MarshaledHas(codec, msgs[..|msgs| - 1], m);
    }
  }

  /** The record that a message becomes, if it marshals. */
  function EntryOf(codec: Codec, m: Message): Option<Entry>
  {
    match codec(m) case None => None case Some(data) => Some(Entry(data, m.sessionID))
  }

  /** How many of the messages become this record. */
  ghost function Encoded(codec: Codec, msgs: seq<Message>, e: Entry): nat
    decreases |msgs|
  {
    if msgs == [] then 0 else
      Encoded(codec, msgs[..|msgs| - 1], e) + if EntryOf(codec, msgs[|msgs| - 1]) == Some(e) then 1 else 0
  }

  lemma {:induction false} EncodedConcat(codec: Codec, a: seq<Message>, b: seq<Message>, e: Entry)
    ensures Encoded(codec, a + b, e) == Encoded(codec, a, e) + Encoded(codec, b, e)
    decreases |b|
  {
    if b == [] {
      assert a + b == a;
    } else {
      EncodedConcat(codec, a, b[..|b| - 1], e);
      assert (a + b)[..|a + b| - 1] == a + b[..|b| - 1];
    }
  }

  /** A message that marshals is among those that become its record, as often as it comes. */
  lemma {:induction false} EncodedCountsMessage(codec: Codec, msgs: seq<Message>, m: Message)
    requires codec(m).Some?
    ensures Occurs(msgs, m) <= Encoded(codec, msgs, EntryOf(codec, m).value)
    decreases |msgs|
  {
    if msgs != [] {
      EncodedCountsMessage(codec, msgs[..|msgs| - 1], m);
    }
  }

  /** The marshal loop makes each record as often as there are messages that become it. */
  lemma {:induction false} MarshaledOccurs(codec: Codec, msgs: seq<Message>, e: Entry)
    ensures Occurs(ToEntries(Marshaled(codec, msgs)), e) == Encoded(codec, msgs, e)
    decreases |msgs|
  {
    hide Occurs;
    if msgs == [] {
      OccursNot(ToEntries([]), e);
    } else {
      var most, last := msgs[..|msgs| - 1], msgs[|msgs| - 1];
      var added := match codec(last) case None => [] case Some(data) => [Item(last.sessionID, data)];
      MarshaledOccurs(codec, most, e);
      ToEntriesConcat(Marshaled(codec, most), added);
      OccursConcat(ToEntries(Marshaled(codec, most)), ToEntries(added), e);
      OccursShort(ToEntries(added), e);
      assert ToEntries(added) == match EntryOf(codec, last) case None => [] case Some(x) => [x];
    }
  }

  /** The puts of one OnEvent: at most `tries`, and only the last may return no error. */
  function Attempts(svc: Service, k: nat, target: Target, items: seq<Item>, tries: nat): (a: seq<seq<Exchange>>)
    requires tries > 0
    ensures 1 <= |a| <= tries
    decreases tries
  {
    var t := PutRecordsTrace(svc, k, target, items);
    if !Errored(t) || tries == 1 then [t] else [t] + Attempts(svc, k + |t|, target, items, tries - 1)
  }

  /** The attempt that decides the result. */
  function LastOf(attempts: seq<seq<Exchange>>): seq<Exchange>
    requires attempts != []
  {
    attempts[|attempts| - 1]
  }

  lemma {:induction false} AttemptAt(svc: Service, k: nat, target: Target, items: seq<Item>, tries: nat, i: nat)
    requires tries > 0 && i < |Attempts(svc, k, target, items, tries)|
    ensures var a := Attempts(svc, k, target, items, tries);
      && a[i] == PutRecordsTrace(svc, k + |Flatten(a[..i])|, target, items)
      && (i + 1 == |a| <==> !Errored(a[i]) || i + 1 == tries)
    decreases tries
  {
    if i == 0 {
      assert Attempts(svc, k, target, items, tries)[..0] == [];
    } else {
      hide Attempts, PutRecordsTrace, Errored;
      var a, t := Attempts(svc, k, target, items, tries), PutRecordsTrace(svc, k, target, items);
      AttemptsCons(svc, k, target, items, tries);
      AttemptAt(svc, k + |t|, target, items, tries - 1, i - 1);
      TakeAfterHead(a, i);
    }
  }

  /** More than one attempt: the first erred, and the others follow it. */
  lemma AttemptsCons(svc: Service, k: nat, target: Target, items: seq<Item>, tries: nat)
    requires tries > 0 && |Attempts(svc, k, target, items, tries)| > 1
    ensures var a, t := Attempts(svc, k, target, items, tries), PutRecordsTrace(svc, k, target, items);
      tries > 1 && Errored(t) && a[0] == t && a[1..] == Attempts(svc, k + |t|, target, items, tries - 1)
  {
  }

  /** What the retries are meant to be: whole puts, each after an error, until one returns none or the tries are up. */
  ghost predicate AreAttempts(svc: Service, k: nat, target: Target, items: seq<Item>, tries: nat, a: seq<seq<Exchange>>)
  {
    && 1 <= |a| <= tries
    && forall i :: 0 <= i < |a| ==>
      && a[i] == PutRecordsTrace(svc, k + |Flatten(a[..i])|, target, items)
      && (i + 1 == |a| <==> !Errored(a[i]) || i + 1 == tries)
  }

  lemma AttemptsAreAttempts(svc: Service, k: nat, target: Target, items: seq<Item>, tries: nat)
    requires tries > 0
    ensures AreAttempts(svc, k, target, items, tries, Attempts(svc, k, target, items, tries))
  {
    hide Attempts, PutRecordsTrace, Errored, Flatten;
    var a := Attempts(svc, k, target, items, tries);
    forall i | 0 <= i < |a|
      ensures a[i] == PutRecordsTrace(svc, k + |Flatten(a[..i])|, target, items)
      ensures i + 1 == |a| <==> !Errored(a[i]) || i + 1 == tries
    {
      AttemptAt(svc, k, target, items, tries, i);
    }
  }

  /** Each attempt sends a prefix of the records of the messages in order, and all of them if it comes back without an error. */
  ghost predicate SendInOrder(codec: Codec, msgs: seq<Message>, attempts: seq<seq<Exchange>>)
  {
    exists records: seq<Entry> :: RecordsInOrder(codec, msgs, records) &&
      forall i :: 0 <= i < |attempts| ==>
        Records(attempts[i]) <= records && (!Errored(attempts[i]) ==> Records(attempts[i]) == records)
  }

  lemma AttemptsSendInOrder(svc: Service, k: nat, target: Target, codec: Codec, msgs: seq<Message>, tries: nat)
    requires tries > 0
    ensures SendInOrder(codec, msgs, Attempts(svc, k, target, Marshaled(codec, msgs), tries))
  {
    hide Attempts, PutRecordsTrace, Errored, Flatten, Records, Marshaled;
    var items := Marshaled(codec, msgs);
    var a, records := Attempts(svc, k, target, items, tries), ToEntries(items);
    MarshaledInOrder(codec, msgs, records);
    forall i: nat | i < |a|
      ensures Records(a[i]) <= records && (!Errored(a[i]) ==> Records(a[i]) == records)
    {
      AttemptAt(svc, k, target, items, tries, i);
      PutRecordsSendsPrefix(svc, k + |Flatten(a[..i])|, target, items);
    }
  }

  /** The calls of one OnEvent number at most the tries times the chunks. */
  lemma {:induction false} AttemptsCost(svc: Service, k: nat, target: Target, items: seq<Item>, tries: nat)
    requires tries > 0
    ensures |Flatten(Attempts(svc, k, target, items, tries))| <=
      tries * ChunkCount(MAX_PUT_RECORDS_BATCH_SIZE, |items|)
    decreases tries
  {
    hide Attempts, PutRecordsTrace, Records, Flatten, ChunkCount;
    var t := PutRecordsTrace(svc, k, target, items);
    PutRecordsSendsPrefix(svc, k, target, items);
    AttemptsFirst(svc, k, target, items, tries);
    OneMore(tries - 1, ChunkCount(MAX_PUT_RECORDS_BATCH_SIZE, |items|));
    if Errored(t) && tries > 1 {
      AttemptsCost(svc, k + |t|, target, items, tries - 1);
    }
  }

  /** All the attempts together send a record at most as often as the tries times its number among the items. */
  lemma {:induction false} AttemptsRepeat(svc: Service, k: nat, target: Target, items: seq<Item>, tries: nat, e: Entry)
    requires tries > 0
    ensures Occurs(Records(Flatten(Attempts(svc, k, target, items, tries))), e) <= tries * Occurs(ToEntries(items), e)
    decreases tries
  {
    hide Attempts, PutRecordsTrace, Records, Occurs;
    var t := PutRecordsTrace(svc, k, target, items);
    PutRecordsSendsPrefix(svc, k, target, items);
    OccursPrefix(Records(t), ToEntries(items), e);
    AttemptsFirst(svc, k, target, items, tries);
    OneMore(tries - 1, Occurs(ToEntries(items), e));
    if Errored(t) && tries > 1 {
      var rest := Flatten(Attempts(svc, k + |t|, target, items, tries - 1));
      AttemptsRepeat(svc, k + |t|, target, items, tries - 1, e);
      RecordsConcat(t, rest);
      OccursConcat(Records(t), Records(rest), e);
    }
  }

  /** The first attempt, and the others if there are any. */
  lemma AttemptsFirst(svc: Service, k: nat, target: Target, items: seq<Item>, tries: nat)
    requires tries > 0
    ensures var a := Attempts(svc, k, target, items, tries);
      var t := PutRecordsTrace(svc, k, target, items);
      if !Errored(t) || tries == 1 then Flatten(a) == t && LastOf(a) == t
      else var rest := Attempts(svc, k + |t|, target, items, tries - 1);
        Flatten(a) == t + Flatten(rest) && LastOf(a) == LastOf(rest)
  {
    var a := Attempts(svc, k, target, items, tries);
    var t := PutRecordsTrace(svc, k, target, items);
    if !Errored(t) || tries == 1 {
      assert a[1..] == [] && t + [] == t;
    } else {
      assert a[1..] == Attempts(svc, k + |t|, target, items, tries - 1);
    }
  }

  lemma OneMore(n: nat, cost: nat)
    ensures (n + 1) * cost == n * cost + cost && n * cost >= 0
  {
  }

  /** What the sender returns to the dispatcher. */
  datatype Sent = Sent(failedRecordCount: int, err: bool)

  /** A map's value for a key, empty when it has none. */
  function Lookup(config: map<string, string>, key: string): (value: string)
    ensures key in config ==> value == config[key]
    ensures key !in config ==> value == ""
  {
    if key in config then config[key] else ""
  }

  /** The client that a stream's configuration asks for. */
  function ClientOf(config: map<string, string>): (client: ClientConfig)
    ensures client.endpoint == Lookup(config, "endpoint") && client.region == Lookup(config, "region")
    ensures client.role == Lookup(config, "role") && client.accessKey == Lookup(config, "access_key")
    ensures client.secretKey == Lookup(config, "secret_key")
    ensures client.sessionToken == Lookup(config, "sessiontoken")
  {
    ClientConfig(Lookup(config, "endpoint"), Lookup(config, "region"), Lookup(config, "role"),
                 Lookup(config, "access_key"), Lookup(config, "secret_key"), Lookup(config, "sessiontoken"))
  }

  class KinesisSender {
    const kc: KinesisClient
    const codec: Codec
    const retries: nat

    constructor (retries: int, kc: KinesisClient, codec: Codec)
      ensures this.kc == kc && this.codec == codec
      ensures this.retries == if retries > 0 then retries else 3
    {
      this.kc := kc;
      this.codec := codec;
      this.retries := if retries <= 0 then RETRIES else retries;
    }

    method OnEvent(msgs: seq<Message>, url: string) returns (sent: Sent)
      modifies kc.net
      ensures var a := Attempts(kc.net.svc, |old(kc.net.log)|, Target(kc.config, url), Marshaled(codec, msgs), retries + 1);
        && kc.net.log == old(kc.net.log) + Flatten(a)
        && sent == Sent(PutCount(a[|a| - 1]), Errored(a[|a| - 1]))
        && SendInOrder(codec, msgs, a)
    {
      AttemptsSendInOrder(kc.net.svc, |kc.net.log|, Target(kc.config, url), codec, msgs, retries + 1);
      var items: seq<Item> := [];
      for i := 0 to |msgs|
        invariant items == Marshaled(codec, msgs[..i])
      {
        assert msgs[..i + 1][..i] == msgs[..i];
        var data := codec(msgs[i]);
        if data.None? {
          continue;
        }
        items := items + [Item(msgs[i].sessionID, data.value)];
      }
      assert msgs[..|msgs|] == msgs;
      sent := Run(items, url, retries + 1);
    }

    /** The retry runner: the put until its first nil error, at most `tries` times; the last result counts. */
    method Run(items: seq<Item>, url: string, tries: nat) returns (sent: Sent)
      requires tries > 0
      modifies kc.net
      ensures var a := Attempts(kc.net.svc, |old(kc.net.log)|, Target(kc.config, url), items, tries);
        && kc.net.log == old(kc.net.log) + Flatten(a)
        && sent == Sent(PutCount(LastOf(a)), Errored(LastOf(a)))
      decreases tries
    {
      hide Attempts, PutRecordsTrace, Errored;
      ghost var log, k, target := kc.net.log, |kc.net.log|, Target(kc.config, url);
      ghost var t := PutRecordsTrace(kc.net.svc, k, target, items);
      AttemptsFirst(kc.net.svc, k, target, items, tries);
      var failedRecordCount, err := kc.PutRecords(items, url);
      if err && tries > 1 {
        assert |kc.net.log| == k + |t|;
        ghost var rest := Flatten(Attempts(kc.net.svc, k + |t|, target, items, tries - 1));
        sent := Run(items, url, tries - 1);
        assert kc.net.log == log + t + rest == log + (t + rest);
      } else {
        sent := Sent(failedRecordCount, err);
      }
    }
  }
}
