/** internal/batch/batch.go: cutting a list of items into batches. */
module Batch {
  import opened Sequences

  /** The batch that starts at `start`, and whether items are left behind it. */
  function GetBatch<T>(start: nat, batchSize: nat, items: seq<T>): (r: (seq<T>, bool))
    requires start <= |items|
    ensures r.0 <= items[start..] && |r.0| <= batchSize
    ensures r.1 <==> |r.0| < |items| - start
    ensures r.1 ==> |r.0| == batchSize
  {
    if |items| - start <= batchSize then (items[start..], false) else (items[start..start + batchSize], true)
  }

  /** The reference cut: full batches from the front, and what remains as the last one. */
  function Chunks<T>(size: nat, items: seq<T>): (cs: seq<seq<T>>)
    requires size > 0
    ensures |cs| >= 1
  {
    if |items| <= size then [items] else [items[..size]] + Chunks(size, items[size..])
  }

  /** What a cut into batches is meant to be, without saying how it is made. */
  ghost predicate IsChunking<T>(size: nat, items: seq<T>, cs: seq<seq<T>>)
  {
    && cs != []
    && Flatten(cs) == items
    && (forall i :: 0 <= i < |cs| - 1 ==> |cs[i]| == size)
    && |cs[|cs| - 1]| <= size
    && (|cs| > 1 ==> cs[|cs| - 1] != [])
  }

  lemma {:induction false} ChunksIsChunking<T>(size: nat, items: seq<T>)
    requires size > 0
    ensures IsChunking(size, items, Chunks(size, items))
  {
    var cs := Chunks(size, items);
    if |items| <= size {
      assert Flatten(cs) == items + Flatten<T>([]);
    } else {
      ChunksIsChunking(size, items[size..]);
      assert cs[1..] == Chunks(size, items[size..]);
      assert forall i :: 1 <= i < |cs| ==> cs[i] == cs[1..][i - 1];
    }
  }

  /** The cut is the only one of its kind: an independent characterisation of Chunks. */
  lemma {:induction false} ChunksUnique<T>(size: nat, items: seq<T>, cs: seq<seq<T>>)
    requires size > 0
    ensures IsChunking(size, items, cs) <==> cs == Chunks(size, items)
  {
    ChunksIsChunking(size, items);
    if IsChunking(size, items, cs) {
      if |cs| == 1 {
        assert cs[1..] == [] && cs == [cs[0]];
        assert Flatten(cs) == cs[0];
      } else {
        var rest := cs[1..];
        assert items == cs[0] + Flatten(rest);
        assert |Flatten(rest)| > 0 by {
          FlattenMember(rest, |rest| - 1, rest[|rest| - 1][0]);
        }
        assert items[size..] == Flatten(rest) && items[..size] == cs[0];
        assert forall i :: 0 <= i < |rest| ==> rest[i] == cs[i + 1];
        ChunksUnique(size, items[size..], rest);
      }
    }
  }

  /** The j-th chunk is the batch that starts at j times the size, and only the last has nothing behind it. */
  lemma {:induction false} ChunkAt<T>(size: nat, items: seq<T>, j: nat)
    requires size > 0 && j < |Chunks(size, items)|
    ensures size * j <= |items|
    ensures GetBatch(size * j, size, items) == (Chunks(size, items)[j], j + 1 < |Chunks(size, items)|)
  {
    if j > 0 {
      var rest := items[size..];
      ChunkAt(size, rest, j - 1);
      assert size * j == size * (j - 1) + size;
      var k := size * (j - 1);
      assert rest[k..] == items[size * j..];
      if k + size <= |rest| {
        assert rest[k..k + size] == items[size * j..size * j + size];
      }
    }
  }

  /** How many batches n items make: one for no items, otherwise n / size rounded up. */
  function ChunkCount(size: nat, n: nat): (c: nat)
    requires size > 0
    ensures c >= 1
    ensures n == 0 ==> c == 1
    ensures n > 0 ==> (c - 1) * size < n <= c * size
  {
    if n <= size then 1 else
      var rest := ChunkCount(size, n - size);
      assert (rest + 1) * size == rest * size + size && rest * size == (rest - 1) * size + size;
      rest + 1
  }

  lemma {:induction false} ChunksCount<T>(size: nat, items: seq<T>)
    requires size > 0
    ensures |Chunks(size, items)| == ChunkCount(size, |items|)
  {
    if |items| > size {
      ChunksCount(size, items[size..]);
    }
  }

  lemma {:induction false} ChunkCountMonotone(size: nat, m: nat, n: nat)
    requires size > 0 && m <= n
    ensures ChunkCount(size, m) <= ChunkCount(size, n)
  {
    if m > size {
      ChunkCountMonotone(size, m - size, n - size);
    }
  }

  /** The loop's cut so far, followed by the cut of what it has not reached, is the whole cut. */
  method GetBatches<T>(batchSize: nat, items: seq<T>) returns (batches: seq<seq<T>>)
    requires batchSize > 0
    ensures items == [] ==> batches == []
    ensures items != [] ==> IsChunking(batchSize, items, batches)
  {
    batches := [];
    if |items| == 0 {
      return;
    }
    var notDone := true;
    var start := 0;
    while notDone
      invariant notDone ==> 0 <= start < |items|
      invariant notDone ==> batches + Chunks(batchSize, items[start..]) == Chunks(batchSize, items)
      invariant !notDone ==> batches == Chunks(batchSize, items)
      decreases notDone, |items| - start
    {
      var (batch, more) := GetBatch(start, batchSize, items);
      ghost var rest := items[start..];
      notDone := more;
      start := start + batchSize;
      assert more ==> rest[batchSize..] == items[start..] && batch == rest[..batchSize];
      batches := batches + [batch];
    }
    ChunksIsChunking(batchSize, items);
  }
}
