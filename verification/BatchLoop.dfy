/**
  internal/queue/queue.go: what the consumer loop does with what it is given, as a
  function of the signals it sees. MyQueue runs this loop on real slices, and
  QueueMachine runs it in the middle of any number of concurrent producers and workers.
 */
module BatchLoop {
  import opened Batch
  import opened Sequences

  /**
    One round of the select. An item comes with the BatchSize and the channel length that
    the round reads and with whether the semaphore grants a permit; so does a tick.
   */
  datatype Signal<+T> =
    | Got(item: T, size: int, queued: nat, granted: bool)
    | Ticked(granted: bool)

  /** The batches handed to workers, in order, and the batch being filled. */
  datatype Progress<+T> = Progress(handed: seq<seq<T>>, current: seq<T>)

  /** The test in processItems. */
  predicate Ripe(n: nat, size: int, onEmpty: bool, queued: nat)
  {
    n >= size || (onEmpty && queued == 0)
  }

  function SubmitItems<T>(p: Progress<T>, granted: bool): Progress<T>
  {
    if p.current == [] || !granted then p else Progress(p.handed + [p.current], [])
  }

  function Round<T>(p: Progress<T>, signal: Signal<T>, onEmpty: bool): Progress<T>
  {
    match signal
    case Got(item, size, queued, granted) =>
      var q := Progress(p.handed, p.current + [item]);
      if Ripe(|q.current|, size, onEmpty, queued) then SubmitItems(q, granted) else q
    case Ticked(granted) => SubmitItems(p, granted)
  }

  function Loop<T>(script: seq<Signal<T>>, onEmpty: bool): Progress<T>
    decreases |script|
  {
    if script == [] then Progress([], []) else
      Round(Loop(script[..|script| - 1], onEmpty), script[|script| - 1], onEmpty)
  }

  lemma LoopSnoc<T>(script: seq<Signal<T>>, signal: Signal<T>, onEmpty: bool)
    ensures Loop(script + [signal], onEmpty) == Round(Loop(script, onEmpty), signal, onEmpty)
  {
    assert (script + [signal])[..|script|] == script;
  }

  /** The items received, in order. */
  function Received<T>(script: seq<Signal<T>>): seq<T>
    decreases |script|
  {
    if script == [] then [] else
      var last := script[|script| - 1];
      Received(script[..|script| - 1]) + if last.Got? then [last.item] else []
  }

  lemma ReceivedSnoc<T>(script: seq<Signal<T>>, signal: Signal<T>)
    ensures Received(script + [signal]) == Received(script) + if signal.Got? then [signal.item] else []
  {
    assert (script + [signal])[..|script|] == script;
  }

  /** Nothing is lost, duplicated or reordered, also when a permit is refused. */
  lemma {:induction false} LoopKeepsItems<T>(script: seq<Signal<T>>, onEmpty: bool)
    ensures var p := Loop(script, onEmpty); Flatten(p.handed) + p.current == Received(script)
    decreases |script|
  {
    if script != [] {
      var before := script[..|script| - 1];
      LoopKeepsItems(before, onEmpty);
      var p := Loop(before, onEmpty);
      var last := script[|script| - 1];
      var current := if last.Got? then p.current + [last.item] else p.current;
      FlattenSnoc(p.handed, current);
      assert Flatten(p.handed) + current + [] == Flatten(p.handed) + current;
      if last.Got? {
        assert Flatten(p.handed) + current == Flatten(p.handed) + p.current + [last.item];
      }
    }
  }

  /** No batch that was handed over is ever taken back or changed by a later round. */
  lemma {:induction false} LoopHandedGrows<T>(script: seq<Signal<T>>, more: seq<Signal<T>>, onEmpty: bool)
    ensures Loop(script, onEmpty).handed <= Loop(script + more, onEmpty).handed
    decreases |more|
  {
    if more == [] {
      assert script + more == script;
    } else {
      var most := more[..|more| - 1];
      LoopHandedGrows(script, most, onEmpty);
      LoopSnoc(script + most, more[|more| - 1], onEmpty);
      assert script + more == script + most + [more[|more| - 1]];
    }
  }

  ghost predicate AllGranted<T>(script: seq<Signal<T>>)
  {
    forall i :: 0 <= i < |script| ==> script[i].granted
  }

  ghost predicate SizesUpTo<T>(script: seq<Signal<T>>, bound: int)
  {
    forall i :: 0 <= i < |script| && script[i].Got? ==> script[i].size <= bound
  }

  ghost predicate BatchesWithin<T>(batches: seq<seq<T>>, bound: int)
  {
    forall i :: 0 <= i < |batches| ==> 1 <= |batches[i]| <= bound
  }

  function AtLeastOne(n: int): (m: int)
    ensures m >= 1 && m >= n && (m == 1 || m == n)
  {
    if n < 1 then 1 else n
  }

  lemma {:induction false} LoopNeverHandsNothing<T>(script: seq<Signal<T>>, onEmpty: bool)
    ensures forall i :: 0 <= i < |Loop(script, onEmpty).handed| ==> Loop(script, onEmpty).handed[i] != []
    decreases |script|
  {
    if script != [] {
      LoopNeverHandsNothing(script[..|script| - 1], onEmpty);
    }
  }

  /**
    While permits are granted, a batch has at least one item and at most the largest
    BatchSize that was read, or one when no BatchSize was positive.
   */
  lemma {:induction false} LoopBatchBounds<T>(script: seq<Signal<T>>, onEmpty: bool, bound: int)
    requires AllGranted(script) && SizesUpTo(script, bound)
    ensures var p := Loop(script, onEmpty);
      BatchesWithin(p.handed, AtLeastOne(bound)) && |p.current| < AtLeastOne(bound)
    decreases |script|
  {
    if script != [] {
      LoopBatchBounds(script[..|script| - 1], onEmpty, bound);
    }
  }

  /** With submit-on-empty, items are left in the batch only if the channel held more when they were counted. */
  lemma LoopStrandsNothing<T>(script: seq<Signal<T>>)
    requires AllGranted(script) && Loop(script, true).current != []
    ensures script[|script| - 1].Got? && script[|script| - 1].queued > 0
  {
    assert Loop(script, true) == Round(Loop(script[..|script| - 1], true), script[|script| - 1], true);
  }

  // No batch goes early without a cause.

  /** The batches with fewer than `low` items. */
  function Short<T>(batches: seq<seq<T>>, low: int): nat
    decreases |batches|
  {
    if batches == [] then 0 else
      Short(batches[..|batches| - 1], low) + if |batches[|batches| - 1]| < low then 1 else 0
  }

  /** The rounds that may hand over a short batch: ticks, and items taken from a channel that they left empty. */
  function Flushes<T>(script: seq<Signal<T>>, onEmpty: bool): nat
    decreases |script|
  {
    if script == [] then 0 else
      var last := script[|script| - 1];
      Flushes(script[..|script| - 1], onEmpty) +
      if last.Ticked? || (onEmpty && last.queued == 0) then 1 else 0
  }

  ghost predicate SizesFrom<T>(script: seq<Signal<T>>, low: int)
  {
    forall i :: 0 <= i < |script| && script[i].Got? ==> script[i].size >= low
  }

  /** At most one batch below the smallest BatchSize that was read for each tick and each emptied channel. */
  lemma {:induction false} LoopShortBatches<T>(script: seq<Signal<T>>, onEmpty: bool, low: int)
    requires SizesFrom(script, low)
    ensures Short(Loop(script, onEmpty).handed, low) <= Flushes(script, onEmpty)
    decreases |script|
  {
    if script != [] {
      var before := script[..|script| - 1];
      LoopShortBatches(before, onEmpty, low);
      var p, q := Loop(before, onEmpty), Loop(script, onEmpty);
      assert |q.handed| > |p.handed| ==> q.handed[..|q.handed| - 1] == p.handed;
    }
  }

  lemma {:induction false} NoneShort<T>(batches: seq<seq<T>>, low: int)
    requires Short(batches, low) == 0
    ensures forall i :: 0 <= i < |batches| ==> |batches[i]| >= low
    decreases |batches|
  {
    if batches != [] {
      NoneShort(batches[..|batches| - 1], low);
    }
  }

  /**
    With permits granted, one positive BatchSize and no round that flushes, the loop cuts
    what it receives just as GetBatches cuts a list, and the last batch is still being
    filled unless it is full.
   */
  lemma LoopCutsLikeGetBatches<T>(script: seq<Signal<T>>, onEmpty: bool, size: nat)
    requires size > 0 && AllGranted(script) && SizesFrom(script, size) && SizesUpTo(script, size)
    requires Flushes(script, onEmpty) == 0 && script != []
    ensures var p := Loop(script, onEmpty);
      p.handed + (if p.current == [] then [] else [p.current]) == Chunks(size, Received(script))
  {
    hide Loop;
    assert Received(script) != [];
    LoopShortBatches(script, onEmpty, size);
    NoneShort(Loop(script, onEmpty).handed, size);
    LoopBatchBounds(script, onEmpty, size);
    LoopKeepsItems(script, onEmpty);
    ProgressIsChunking(Loop(script, onEmpty), Received(script), size);
  }

  lemma ProgressIsChunking<T>(p: Progress<T>, items: seq<T>, size: nat)
    requires size > 0 && items != [] && Flatten(p.handed) + p.current == items
    requires (forall i :: 0 <= i < |p.handed| ==> |p.handed[i]| == size) && |p.current| < size
    ensures p.handed + (if p.current == [] then [] else [p.current]) == Chunks(size, items)
  {
    hide Chunks;
    if p.current == [] {
      assert p.handed + [] == p.handed && Flatten(p.handed) + [] == Flatten(p.handed);
      assert p.handed != [];
      ChunksUnique(size, items, p.handed);
    } else {
      FlattenSnoc(p.handed, p.current);
      ChunksUnique(size, items, p.handed + [p.current]);
    }
  }
}
