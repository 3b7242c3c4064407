/**
  internal/kinesis/kinesis.go: putting a list of records in calls of at most 500.
  The service is a function from the number of earlier calls and the request to its
  reply, so a theorem about every Service is one about every run of replies, also
  those that other senders provoke in between.
 */
module Kinesis {
  import opened Batch
  import opened Int32
  import opened Options
  import opened Sequences

  const MAX_PUT_RECORDS_BATCH_SIZE: nat := 500

  type Bytes = seq<char>

  datatype Item = Item(partitionKey: string, data: Bytes)

  /** One record of a request: types.PutRecordsRequestEntry. */
  datatype Entry = Entry(data: Bytes, partitionKey: string)

  /** What a client is made with: where it connects to, and as whom. */
  datatype ClientConfig = ClientConfig(endpoint: string, region: string, role: string, accessKey: string,
                                       secretKey: string, sessionToken: string)

  /** Where a call goes: through a client, to a stream. */
  datatype Target = Target(client: ClientConfig, stream: string)

  /** `failed` is absent when the service returns no output value. */
  datatype Reply = Reply(failed: Option<int>, err: bool)

  /** One call of the service: what was sent and what came back. */
  datatype Exchange = Exchange(target: Target, records: seq<Entry>, reply: Reply)

  type Service = (nat, Target, seq<Entry>) -> Reply

  /** The assumption on the service: it reports between none and all of the records sent as failed. */
  ghost predicate Honest(svc: Service)
  {
    forall k: nat, target: Target, records: seq<Entry> ::
      var failed := svc(k, target, records).failed;
      failed.Some? ==> 0 <= failed.value <= |records|
  }

  function ToEntry(item: Item): Entry
  {
    Entry(item.data, item.partitionKey)
  }

  function ToEntries(items: seq<Item>): (r: seq<Entry>)
    ensures |r| == |items|
    ensures forall i :: 0 <= i < |r| ==> r[i] == ToEntry(items[i])
  {
    seq(|items|, i requires 0 <= i < |items| => ToEntry(items[i]))
  }

  /** The k-th call of the service, for one chunk. */
  function Call(svc: Service, k: nat, target: Target, chunk: seq<Item>): Exchange
  {
    var records := ToEntries(chunk);
    Exchange(target, records, svc(k, target, records))
  }

  /** The calls made for a list of chunks: in order, ending early with the first that errors. */
  function PutTrace(svc: Service, k: nat, target: Target, chunks: seq<seq<Item>>): (t: seq<Exchange>)
    decreases |chunks|
  {
    if chunks == [] then [] else
      var e := Call(svc, k, target, chunks[0]);
      if e.reply.err then [e] else [e] + PutTrace(svc, k + 1, target, chunks[1..])
  }

  function FailedIn(reply: Reply): int
  {
    match reply.failed case None => 0 case Some(n) => n
  }

  /** The mathematical sum of the failed counts over a run of calls. */
  function FailedTotal(t: seq<Exchange>): int
  {
    if t == [] then 0 else FailedIn(t[0].reply) + FailedTotal(t[1..])
  }

  /** The count that PutRecords returns: an int32 that wraps at every addition. */
  function PutCount(t: seq<Exchange>): int
  {
    ToInt32(FailedTotal(t))
  }

  lemma {:induction false} FailedTotalSnoc(t: seq<Exchange>, e: Exchange)
    ensures FailedTotal(t + [e]) == FailedTotal(t) + FailedIn(e.reply)
  {
    if t == [] {
      assert t + [e] == [e];
    } else {
      FailedTotalSnoc(t[1..], e);
      assert (t + [e])[1..] == t[1..] + [e];
    }
  }

  lemma PutCountSnoc(t: seq<Exchange>, e: Exchange)
    ensures PutCount(t + [e]) == ToInt32(PutCount(t) + FailedIn(e.reply))
    ensures e.reply.failed.None? ==> PutCount(t + [e]) == PutCount(t)
  {
    FailedTotalSnoc(t, e);
    ToInt32Add(FailedTotal(t), FailedIn(e.reply));
  }

  predicate Errored(t: seq<Exchange>)
  {
    t != [] && t[|t| - 1].reply.err
  }

  /** What one call of PutRecords sends for the items. */
  function PutRecordsTrace(svc: Service, k: nat, target: Target, items: seq<Item>): seq<Exchange>
  {
    PutTrace(svc, k, target, Chunks(MAX_PUT_RECORDS_BATCH_SIZE, items))
  }

  /** Every record was taken: each call came back without error and without a failed record. */
  predicate Clean(t: seq<Exchange>)
  {
    forall i :: 0 <= i < |t| ==> !t[i].reply.err && FailedIn(t[i].reply) == 0
  }

  /** The calls are exactly the chunks up to the first one that errors. */
  ghost predicate SentUpToFirstError(svc: Service, k: nat, target: Target, chunks: seq<seq<Item>>, t: seq<Exchange>)
  {
    && |t| <= |chunks|
    && (forall i :: 0 <= i < |t| ==> t[i] == Call(svc, k + i, target, chunks[i]))
    && (forall i :: 0 <= i < |t| - 1 ==> !t[i].reply.err)
    && (|t| < |chunks| ==> Errored(t))
  }

  lemma {:induction false} PutTraceAt(svc: Service, k: nat, target: Target, chunks: seq<seq<Item>>, i: nat)
    requires i < |PutTrace(svc, k, target, chunks)|
    ensures var t := PutTrace(svc, k, target, chunks);
      && i < |t| <= |chunks|
      && t[i] == Call(svc, k + i, target, chunks[i])
      && (i + 1 == |t| <==> t[i].reply.err || i + 1 == |chunks|)
    decreases |chunks|
  {
    var t := PutTrace(svc, k, target, chunks);
    var rest := PutTrace(svc, k + 1, target, chunks[1..]);
    if t[0].reply.err {
      assert i == 0;
    } else {
      assert t == [t[0]] + rest;
      if rest != [] {
        PutTraceAt(svc, k + 1, target, chunks[1..], if i == 0 then 0 else i - 1);
      }
    }
  }

  lemma PutTraceSentUpToFirstError(svc: Service, k: nat, target: Target, chunks: seq<seq<Item>>)
    ensures SentUpToFirstError(svc, k, target, chunks, PutTrace(svc, k, target, chunks))
  {
    var t := PutTrace(svc, k, target, chunks);
    forall i | 0 <= i < |t|
      ensures |t| <= |chunks| && t[i] == Call(svc, k + i, target, chunks[i])
      ensures i + 1 == |t| <==> t[i].reply.err || i + 1 == |chunks|
    {
      PutTraceAt(svc, k, target, chunks, i);
    }
  }

  /** On an error exactly the chunks up to the first failing call were sent, otherwise all of them. */
  lemma PutTraceIsSentUpToFirstError(
    svc: Service, k: nat, target: Target, chunks: seq<seq<Item>>, t: seq<Exchange>)
    ensures SentUpToFirstError(svc, k, target, chunks, t) <==> t == PutTrace(svc, k, target, chunks)
  {
    var full := PutTrace(svc, k, target, chunks);
    PutTraceSentUpToFirstError(svc, k, target, chunks);
    if SentUpToFirstError(svc, k, target, chunks, t) {
      var n := if |t| < |full| then |t| else |full|;
      assert forall i :: 0 <= i < n ==> t[i] == full[i];
      assert |t| == |full| && t == full;
    }
  }

  /** The records of the calls, in order. */
  function Records(t: seq<Exchange>): seq<Entry>
  {
    if t == [] then [] else t[0].records + Records(t[1..])
  }

  lemma {:induction false} RecordsConcat(a: seq<Exchange>, b: seq<Exchange>)
    ensures Records(a + b) == Records(a) + Records(b)
  {
    if a == [] {
      assert a + b == b;
    } else {
      RecordsConcat(a[1..], b);
      ConcatHead(a, b);
      Associate(a[0].records, Records(a[1..]), Records(b));
    }
  }

  lemma ToEntriesConcat(a: seq<Item>, b: seq<Item>)
    ensures ToEntries(a + b) == ToEntries(a) + ToEntries(b)
  {
  }

  lemma {:induction false} PutTraceRecords(svc: Service, k: nat, target: Target, chunks: seq<seq<Item>>)
    ensures var t := PutTrace(svc, k, target, chunks);
      && Records(t) <= ToEntries(Flatten(chunks))
      && (!Errored(t) ==> Records(t) == ToEntries(Flatten(chunks)))
    decreases |chunks|
  {
    if chunks != [] {
      var t := PutTrace(svc, k, target, chunks);
      var rest := PutTrace(svc, k + 1, target, chunks[1..]);
      PutTraceRecords(svc, k + 1, target, chunks[1..]);
      ToEntriesConcat(chunks[0], Flatten(chunks[1..]));
      if !t[0].reply.err {
        assert t[1..] == rest;
        assert rest != [] ==> t[|t| - 1] == rest[|rest| - 1];
      } else {
        assert t[1..] == [];
        assert Records(t) == t[0].records;
      }
    }
  }

  /**
    One call of PutRecords never sends a record twice or out of order, and without an
    error it has sent every item, in chunks of at most 500 of which only the last is short.
   */
  lemma PutRecordsSendsPrefix(svc: Service, k: nat, target: Target, items: seq<Item>)
    ensures var t := PutRecordsTrace(svc, k, target, items);
      && 1 <= |t| <= ChunkCount(500, |items|)
      && Records(t) <= ToEntries(items)
      && (!Errored(t) ==> Records(t) == ToEntries(items) && |t| == ChunkCount(500, |items|))
      && (forall i :: 0 <= i < |t| ==> |t[i].records| <= 500)
      && (forall i :: 0 <= i < |t| - 1 ==> |t[i].records| == 500)
  {
    hide PutTrace, Records, Chunks, ChunkCount;
    var chunks := Chunks(MAX_PUT_RECORDS_BATCH_SIZE, items);
    var t := PutRecordsTrace(svc, k, target, items);
    ChunksIsChunking(MAX_PUT_RECORDS_BATCH_SIZE, items);
    ChunksCount(MAX_PUT_RECORDS_BATCH_SIZE, items);
    PutTraceIsSentUpToFirstError(svc, k, target, chunks, t);
    PutTraceRecords(svc, k, target, chunks);
  }

  /** With an honest service the failed total lies between zero and the records sent. */
  lemma {:induction false} FailedTotalBounds(svc: Service, k: nat, target: Target, chunks: seq<seq<Item>>)
    requires Honest(svc)
    ensures var t := PutTrace(svc, k, target, chunks);
      && 0 <= FailedTotal(t) <= |Records(t)|
      && (FailedTotal(t) == 0 && !Errored(t) ==> Clean(t))
    decreases |chunks|
  {
    if chunks != [] {
      var t := PutTrace(svc, k, target, chunks);
      var rest := PutTrace(svc, k + 1, target, chunks[1..]);
      FailedTotalBounds(svc, k + 1, target, chunks[1..]);
      assert 0 <= FailedIn(svc(k, target, ToEntries(chunks[0]))) <= |chunks[0]|;
      if !t[0].reply.err {
        assert t == [t[0]] + rest && t[1..] == rest;
        assert rest != [] ==> t[|t| - 1] == rest[|rest| - 1];
      } else {
        assert t[1..] == [];
      }
    }
  }

  lemma {:induction false} CleanTotal(t: seq<Exchange>)
    requires Clean(t)
    ensures FailedTotal(t) == 0 && !Errored(t)
  {
    if t != [] {
      CleanTotal(t[1..]);
    }
  }

  /** The test that submitBatch applies to the result of a put: no error, and a count not above zero. */
  predicate Accepted(t: seq<Exchange>)
  {
    !Errored(t) && PutCount(t) <= 0
  }

  /** The test is right for these items whatever an honest service does. */
  ghost predicate CountSound(items: seq<Item>)
  {
    forall svc: Service, k: nat, target: Target ::
      Honest(svc) && Accepted(PutRecordsTrace(svc, k, target, items)) ==> Clean(PutRecordsTrace(svc, k, target, items))
  }

  /** Below 2^31 items the int32 count is the true sum, and the test accepts exactly the clean puts. */
  lemma CountExactBelowLimit(svc: Service, k: nat, target: Target, items: seq<Item>)
    requires Honest(svc) && |items| < TWO_31
    ensures var t := PutRecordsTrace(svc, k, target, items);
      && PutCount(t) == FailedTotal(t)
      && 0 <= FailedTotal(t) <= |items|
      && (Accepted(t) <==> Clean(t))
  {
    var t := PutRecordsTrace(svc, k, target, items);
    FailedTotalBounds(svc, k, target, Chunks(MAX_PUT_RECORDS_BATCH_SIZE, items));
    PutRecordsSendsPrefix(svc, k, target, items);
    if Clean(t) {
      CleanTotal(t);
    }
  }

  /** A service that fails the first `quota` records it is sent, counted in full chunks, and never errors. */
  function FailFirst(quota: nat): Service
  {
    (k: nat, target: Target, records: seq<Entry>) =>
      var left := if MAX_PUT_RECORDS_BATCH_SIZE * k >= quota then 0 else quota - MAX_PUT_RECORDS_BATCH_SIZE * k;
      Reply(Some(if left < |records| then left else |records|), false)
  }

  lemma {:induction false} FailFirstTotal(quota: nat, k: nat, target: Target, items: seq<Item>)
    requires MAX_PUT_RECORDS_BATCH_SIZE * k <= quota <= MAX_PUT_RECORDS_BATCH_SIZE * k + |items|
    ensures var t := PutRecordsTrace(FailFirst(quota), k, target, items);
      FailedTotal(t) == quota - MAX_PUT_RECORDS_BATCH_SIZE * k && !Errored(t)
    decreases |items|
  {
    var size := MAX_PUT_RECORDS_BATCH_SIZE;
    var svc := FailFirst(quota);
    var chunks := Chunks(size, items);
    var t := PutTrace(svc, k, target, chunks);
    var rest := PutTrace(svc, k + 1, target, chunks[1..]);
    assert t == [t[0]] + rest && t[1..] == rest;
    if |items| <= size {
      assert rest == [];
    } else {
      var tail := items[size..];
      assert chunks[1..] == Chunks(size, tail);
      if size * (k + 1) <= quota {
        FailFirstTotal(quota, k + 1, target, tail);
      } else {
        FailFirstSpent(quota, k + 1, target, chunks[1..]);
      }
      assert rest != [] ==> t[|t| - 1] == rest[|rest| - 1];
    }
  }

  lemma {:induction false} FailFirstSpent(quota: nat, k: nat, target: Target, chunks: seq<seq<Item>>)
    requires MAX_PUT_RECORDS_BATCH_SIZE * k >= quota
    ensures var t := PutTrace(FailFirst(quota), k, target, chunks); FailedTotal(t) == 0 && !Errored(t)
    decreases |chunks|
  {
    if chunks != [] {
      var t := PutTrace(FailFirst(quota), k, target, chunks);
      var rest := PutTrace(FailFirst(quota), k + 1, target, chunks[1..]);
      FailFirstSpent(quota, k + 1, target, chunks[1..]);
      assert t == [t[0]] + rest && t[1..] == rest;
      assert rest != [] ==> t[|t| - 1] == rest[|rest| - 1];
    }
  }

  /**
    The exact condition: the count test is right exactly when there are fewer than 2^31
    items. From 2^31 items on, a service that fails 2^31 of them drives the int32 total
    to its lowest value, which the test takes for success.
   */
  lemma CountSoundIff(items: seq<Item>)
    ensures CountSound(items) <==> |items| < TWO_31
  {
    if |items| < TWO_31 {
      forall svc: Service, k: nat, target: Target
        | Honest(svc) && Accepted(PutRecordsTrace(svc, k, target, items))
        ensures Clean(PutRecordsTrace(svc, k, target, items))
      {
        CountExactBelowLimit(svc, k, target, items);
      }
    } else {
      var svc, target := FailFirst(TWO_31), Target(ClientConfig("", "", "", "", "", ""), "");
      assert Honest(svc);
      FailFirstTotal(TWO_31, 0, target, items);
      var t := PutRecordsTrace(svc, 0, target, items);
      assert Accepted(t);
      if Clean(t) {
        CleanTotal(t);
      }
      assert !CountSound(items);
    }
  }

  /** The i-th call of a put sends the i-th batch; it is the last call if it errors or nothing is behind it. */
  lemma PutRecordsAt(svc: Service, k: nat, target: Target, items: seq<Item>, i: nat)
    requires i < |PutRecordsTrace(svc, k, target, items)|
    ensures MAX_PUT_RECORDS_BATCH_SIZE * i <= |items|
    ensures var t := PutRecordsTrace(svc, k, target, items);
      var (batch, more) := GetBatch(MAX_PUT_RECORDS_BATCH_SIZE * i, MAX_PUT_RECORDS_BATCH_SIZE, items);
      && t[i] == Call(svc, k + i, target, batch)
      && (i + 1 == |t| <==> t[i].reply.err || !more)
  {
    PutTraceAt(svc, k, target, Chunks(MAX_PUT_RECORDS_BATCH_SIZE, items), i);
    ChunkAt(MAX_PUT_RECORDS_BATCH_SIZE, items, i);
  }

  lemma PutRecordsStarts(svc: Service, k: nat, target: Target, items: seq<Item>)
    ensures PutRecordsTrace(svc, k, target, items) != []
  {
  }

  /** The service and the calls it has answered. */
  class Network {
    const svc: Service
    var log: seq<Exchange>

    constructor (svc: Service)
      ensures this.svc == svc && log == []
    {
      this.svc := svc;
      log := [];
    }

    method Put(target: Target, records: seq<Entry>) returns (reply: Reply)
      modifies this
      ensures reply == svc(|old(log)|, target, records)
      ensures log == old(log) + [Exchange(target, records, reply)]
    {
      reply := svc(|log|, target, records);
      log := log + [Exchange(target, records, reply)];
    }
  }

  class KinesisClient {
    const net: Network
    const config: ClientConfig

    constructor (net: Network, config: ClientConfig)
      ensures this.net == net && this.config == config
    {
      this.net := net;
      this.config := config;
    }

    /** Sends the chunks in order, adds up the failed counts in an int32 and stops at the first error. */
    method PutRecords(items: seq<Item>, stream: string) returns (failedRecordCount: int, err: bool)
      modifies net
      ensures var t := PutRecordsTrace(net.svc, |old(net.log)|, Target(config, stream), items);
        && net.log == old(net.log) + t
        && failedRecordCount == PutCount(t)
        && err == Errored(t)
    {
      hide PutTrace;
      var size := MAX_PUT_RECORDS_BATCH_SIZE;
      ghost var k, target := |net.log|, Target(config, stream);
      ghost var t := PutRecordsTrace(net.svc, k, target, items);
      ghost var i := 0;
      PutRecordsStarts(net.svc, k, target, items);
      var notDone := true;
      var start := 0;
      failedRecordCount := 0;
      while notDone
        invariant start == size * i && if notDone then 0 <= i < |t| else i == |t|
        invariant net.log == old(net.log) + t[..i]
        invariant i > 0 ==> !t[i - 1].reply.err
        invariant failedRecordCount == PutCount(t[..i])
        decreases |t| - i
      {
        PutRecordsAt(net.svc, k, target, items, i);
        var (batch, more) := GetBatch(start, size, items);
        notDone := more;
        start := start + size;
        var reply := PutBatch(batch, stream);
        assert t[..i + 1] == t[..i] + [t[i]];
        PutCountSnoc(t[..i], t[i]);
        if reply.failed.Some? {
          failedRecordCount := ToInt32(failedRecordCount + reply.failed.value);
        }
        i := i + 1;
        if reply.err {
          assert t[..i] == t;
          return failedRecordCount, true;
        }
      }
      assert t[..i] == t;
      err := false;
    }

    /** One call: an entry for each item, data and key each in its place. */
    method PutBatch(batch: seq<Item>, stream: string) returns (reply: Reply)
      modifies net
      ensures reply == net.svc(|old(net.log)|, Target(config, stream), ToEntries(batch))
      ensures net.log == old(net.log) + [Exchange(Target(config, stream), ToEntries(batch), reply)]
    {
      var records: seq<Entry> := [];
      for i := 0 to |batch|
        invariant records == ToEntries(batch[..i])
      {
        var entry := Entry(batch[i].data, batch[i].partitionKey);
        records := records + [entry];
      }
      assert batch[..|batch|] == batch;
      reply := net.Put(Target(config, stream), records);
    }
  }

}
