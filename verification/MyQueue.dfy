/**
  internal/queue/queue.go in its own imperative form, one goroutine at a time: the channel,
  the batch as a Go slice that is appended to in place, and the slices given to workers.
  The slice of a worker and the slice that the loop goes on with have different arrays, so
  no append can reach a batch that has been handed over.
 */
module MyQueue {
  import opened BatchLoop

  /** A Go slice: the first `len` places of an array that may have more. */
  datatype Slice<T> = Slice(arr: array<T>, len: nat)

  /** What the scheduler lets happen next: a call from outside, or a case of the select. */
  datatype Move<+T> = Arrive(x: T) | Resize(size: int) | Receive(granted: bool) | Tick(granted: bool)

  /** The queue as a value: all that the moves depend on and change, but for the slices. */
  datatype View<+T> = View(items: seq<T>, batchSize: int, dropped: nat, script: seq<Signal<T>>, sent: seq<T>)

  function PlayOne<T>(v: View<T>, cap: nat, move: Move<T>): View<T>
  {
    match move
    case Arrive(x) =>
      if |v.items| < cap then v.(items := v.items + [x], sent := v.sent + [x]) else v.(dropped := v.dropped + 1)
    case Resize(size) => v.(batchSize := size)
    case Receive(granted) =>
      if v.items == [] then v
      else v.(items := v.items[1..],
              script := v.script + [Got(v.items[0], v.batchSize, |v.items| - 1, granted)])
    case Tick(granted) => v.(script := v.script + [Ticked(granted)])
  }

  function Play<T>(v: View<T>, cap: nat, moves: seq<Move<T>>): View<T>
    decreases |moves|
  {
    if moves == [] then v else PlayOne(Play(v, cap, moves[..|moves| - 1]), cap, moves[|moves| - 1])
  }

  class MyQueue<T(0)> {
    const cap: nat
    const onEmpty: bool
    var items: seq<T>
    var batchSize: int
    var started: bool
    var droppedItems: nat
    var batch: Slice<T>
    var handed: seq<Slice<T>>
    ghost var script: seq<Signal<T>>
    ghost var sent: seq<T>

    constructor (cap: nat, batchSize: int, onEmpty: bool)
      ensures Valid() && !started && handed == [] && fresh(batch.arr)
      ensures this.cap == cap && this.onEmpty == onEmpty
      ensures AsView() == View([], batchSize, 0, [], [])
    {
      this.cap := cap;
      this.onEmpty := onEmpty;
      this.batchSize := batchSize;
      items, started, droppedItems, handed := [], false, 0, [];
      var empty := new T[0];
      batch := Slice(empty, 0);
      script, sent := [], [];
    }

    ghost function AsView(): View<T>
      reads this
    {
      View(items, batchSize, droppedItems, script, sent)
    }

    /** The arrays behind the slices of the workers. */
    function WorkerArrays(): set<array<T>>
      reads this`handed
    {
      set s | s in handed :: s.arr
    }

    /** Every slice is within its array and no two share one. */
    ghost predicate Separate()
      reads this`batch, this`handed
    {
      && batch.len <= batch.arr.Length
      && batch.arr !in WorkerArrays()
      && (forall i :: 0 <= i < |handed| ==> handed[i].len <= handed[i].arr.Length)
      && (forall i, j :: 0 <= i < j < |handed| ==> handed[i].arr != handed[j].arr)
    }

    /** What the workers see when they look at their slices now. */
    ghost function WorkerBatches(): (r: seq<seq<T>>)
      requires Separate()
      reads this`batch, this`handed, WorkerArrays()
      ensures |r| == |handed|
      ensures forall i :: 0 <= i < |handed| ==> r[i] == handed[i].arr[..handed[i].len]
    {
      var slices, arrays := handed, WorkerArrays();
      seq(|slices|, i requires 0 <= i < |slices| && slices[i].len <= slices[i].arr.Length && slices[i].arr in arrays
                      reads arrays =>
        slices[i].arr[..slices[i].len])
    }

    ghost function AsProgress(): Progress<T>
      requires Separate()
      reads this`batch, this`handed, batch.arr, WorkerArrays()
    {
      Progress(WorkerBatches(), batch.arr[..batch.len])
    }

    /** The arrays hold what the loop made of the rounds so far, and nothing sent is lost. */
    ghost predicate Valid()
      reads this, batch.arr, WorkerArrays()
    {
      && Separate()
      && AsProgress() == Loop(script, onEmpty)
      && sent == Received(script) + items
      && |items| <= cap
    }

    method AddItem(x: T)
      requires Valid()
      modifies this`items, this`droppedItems, this`sent
      ensures Valid() && AsView() == PlayOne(old(AsView()), cap, Arrive(x))
      ensures |old(items)| < cap ==>
        items == old(items) + [x] && sent == old(sent) + [x] && droppedItems == old(droppedItems)
      ensures |old(items)| >= cap ==>
        items == old(items) && sent == old(sent) && droppedItems == old(droppedItems) + 1
    {
      if |items| < cap {
        items := items + [x];
        sent := sent + [x];
        return;
      }
      droppedItems := droppedItems + 1;
    }

    method SetBatchSize(size: int)
      requires Valid()
      modifies this`batchSize
      ensures Valid() && AsView() == PlayOne(old(AsView()), cap, Resize(size)) && batchSize == size
    {
      batchSize := size;
    }

    /** Go's append: in place while the array has room, otherwise into a larger copy. */
    static method Append(s: Slice<T>, x: T) returns (r: Slice<T>)
      requires s.len <= s.arr.Length
      modifies s.arr
      ensures r.len == s.len + 1 <= r.arr.Length
      ensures r.arr[..r.len] == old(s.arr[..s.len]) + [x]
      ensures if s.len < s.arr.Length then r.arr == s.arr else fresh(r.arr)
    {
      if s.len < s.arr.Length {
        s.arr[s.len] := x;
        return Slice(s.arr, s.len + 1);
      }
      var size: nat :| size > s.len;
      var arr := new T[size];
      for i := 0 to s.len
        invariant forall j :: 0 <= j < i ==> arr[j] == s.arr[j]
        invariant s.arr[..] == old(s.arr[..])
      {
        arr[i] := s.arr[i];
      }
      arr[s.len] := x;
      assert arr[..s.len] == s.arr[..s.len];
      r := Slice(arr, s.len + 1);
    }

    /** submitItems: the worker gets the slice as it is, and the loop goes on with a fresh one. */
    method SubmitItems(granted: bool)
      requires Separate()
      modifies this`batch, this`handed
      ensures Separate() && AsProgress() == BatchLoop.SubmitItems(old(AsProgress()), granted)
      ensures old(handed) <= handed
      ensures batch == old(batch) || fresh(batch.arr)
    {
      if batch.len == 0 || !granted {
        return;
      }
      ghost var before, last := WorkerBatches(), batch.arr[..batch.len];
      handed := handed + [batch];
      var empty := new T[0];
      batch := Slice(empty, 0);
      assert forall s :: s in handed ==> s.arr != empty;
      assert Separate();
      assert WorkerBatches() == before + [last];
    }

    /** processItems, after the append. */
    method ProcessItems(granted: bool)
      requires Separate()
      modifies this`batch, this`handed
      ensures Separate()
      ensures AsProgress() == if Ripe(old(batch.len), batchSize, onEmpty, |items|)
                              then BatchLoop.SubmitItems(old(AsProgress()), granted) else old(AsProgress())
      ensures old(handed) <= handed
      ensures batch == old(batch) || fresh(batch.arr)
    {
      if batch.len >= batchSize || (onEmpty && |items| == 0) {
        SubmitItems(granted);
      }
    }

    /** The append of the loop: it may write to the array of the batch and to no other. */
    method AppendItem(x: T)
      requires Separate()
      modifies this`batch, batch.arr
      ensures Separate()
      ensures AsProgress() == Progress(old(WorkerBatches()), old(batch.arr[..batch.len]) + [x])
      ensures batch.arr == old(batch.arr) || fresh(batch.arr)
    {
      ghost var before := WorkerBatches();
      batch := Append(batch, x);
      assert WorkerBatches() == before;
    }

    /** Append and processItems: one round of the loop on the slices. */
    method TakeItem(x: T, granted: bool)
      requires Separate()
      modifies this`batch, this`handed, batch.arr
      ensures Separate()
      ensures AsProgress() == Round(old(AsProgress()), Got(x, batchSize, |items|, granted), onEmpty)
      ensures old(handed) <= handed
      ensures batch.arr == old(batch.arr) || fresh(batch.arr)
    {
      AppendItem(x);
      ProcessItems(granted);
    }

    /** The case of the select that receives: no batch with a worker is touched. */
    method ReceiveItem(granted: bool)
      requires Valid() && items != []
      modifies this, batch.arr
      ensures Valid() && AsView() == PlayOne(old(AsView()), cap, Receive(granted))
      ensures items == old(items)[1..] && sent == old(sent) && droppedItems == old(droppedItems)
      ensures batchSize == old(batchSize)
      ensures script == old(script) + [Got(old(items)[0], batchSize, |items|, granted)]
      ensures started == old(started) && old(handed) <= handed && old(WorkerBatches()) <= WorkerBatches()
      ensures batch.arr == old(batch.arr) || fresh(batch.arr)
    {
      hide Loop, Received, Round, PlayOne;
      PlayReceive(AsView(), cap, granted);
      var x := items[0];
      items := items[1..];
      ghost var p := AsProgress();
      TakeItem(x, granted);
      ghost var signal := Got(x, batchSize, |items|, granted);
      RoundGrows(p, signal, onEmpty);
      LoopSnoc(script, signal, onEmpty);
      ReceivedNext(script, signal, items);
      HeadAndRest(old(items));
      script := script + [signal];
    }

    /** The case of the select that ticks. */
    method TickOnce(granted: bool)
      requires Valid()
      modifies this
      ensures Valid() && AsView() == PlayOne(old(AsView()), cap, Tick(granted))
      ensures items == old(items) && sent == old(sent) && droppedItems == old(droppedItems)
      ensures batchSize == old(batchSize) && script == old(script) + [Ticked(granted)]
      ensures started == old(started) && old(handed) <= handed && old(WorkerBatches()) <= WorkerBatches()
      ensures batch.arr == old(batch.arr) || fresh(batch.arr)
    {
      hide Loop, Received;
      SubmitItems(granted);
      ghost var signal: Signal<T> := Ticked(granted);
      LoopSnoc(script, signal, onEmpty);
      ReceivedNext(script, signal, items);
      script := script + [signal];
    }

    /** What happens next. */
    method Take(move: Move<T>)
      requires Valid()
      modifies this, batch.arr
      ensures Valid() && AsView() == PlayOne(old(AsView()), cap, move)
      ensures started == old(started) && old(handed) <= handed && old(WorkerBatches()) <= WorkerBatches()
      ensures batch.arr == old(batch.arr) || fresh(batch.arr)
    {
      hide Loop, Received;
      match move
      case Arrive(x) => AddItem(x);
      case Resize(size) => SetBatchSize(size);
      case Receive(granted) =>
        if items != [] {
          ReceiveItem(granted);
        }
      case Tick(granted) => TickOnce(granted);
    }

    /**
      Start, for any schedule of what happens until the context is done. The first call runs
      the loop; any other returns at once. Batches handed over before or on the way are, at
      the end, what they were when they were handed over.
     */
    method Start(moves: seq<Move<T>>)
      requires Valid()
      modifies this, batch.arr
      ensures Valid() && started
      ensures AsView() == if old(started) then old(AsView()) else Play(old(AsView()), cap, moves)
      ensures old(handed) <= handed && old(WorkerBatches()) <= WorkerBatches()
    {
      if started {
        return;
      }
      started := true;
      hide Loop, Received, PlayOne, Play;
      PlayNothing(AsView(), cap, moves);
      for i := 0 to |moves|
        invariant Valid() && started
        invariant AsView() == Play(old(AsView()), cap, moves[..i])
        invariant old(handed) <= handed && old(WorkerBatches()) <= WorkerBatches()
        invariant batch.arr == old(batch.arr) || fresh(batch.arr)
      {
        PlayNext(old(AsView()), cap, moves, i);
        Take(moves[i]);
      }
      assert moves[..|moves|] == moves;
    }
  }

  /** The loop receives the items in the order in which AddItem let them in. */
  lemma {:induction false} PlayKeepsOrder<T>(v: View<T>, cap: nat, moves: seq<Move<T>>)
    requires v.sent == Received(v.script) + v.items && |v.items| <= cap
    ensures var w := Play(v, cap, moves); w.sent == Received(w.script) + w.items && |w.items| <= cap
    decreases |moves|
  {
    hide Received;
    if moves != [] {
      var most, last := moves[..|moves| - 1], moves[|moves| - 1];
      PlayKeepsOrder(v, cap, most);
      var w := Play(v, cap, most);
      var next := PlayOne(w, cap, last);
      if last.Arrive? {
        assert Received(w.script) + w.items + [last.x] == Received(w.script) + (w.items + [last.x]);
      } else if |next.script| > |w.script| {
        ReceivedNext(w.script, next.script[|w.script|], next.items);
        assert last.Receive? ==> w.items == [w.items[0]] + next.items;
      }
    }
  }

  /** How many arrivals of a schedule find the channel full. */
  function FullArrivals<T>(v: View<T>, cap: nat, moves: seq<Move<T>>): nat
    decreases |moves|
  {
    if moves == [] then 0 else
      var most := moves[..|moves| - 1];
      FullArrivals(v, cap, most) +
      if moves[|moves| - 1].Arrive? && |Play(v, cap, most).items| >= cap then 1 else 0
  }

  /** The items that arrive while the channel has room, in order. */
  function RoomyArrivals<T>(v: View<T>, cap: nat, moves: seq<Move<T>>): seq<T>
    decreases |moves|
  {
    if moves == [] then [] else
      var most, last := moves[..|moves| - 1], moves[|moves| - 1];
      RoomyArrivals(v, cap, most) + if last.Arrive? && |Play(v, cap, most).items| < cap then [last.x] else []
  }

  /** An arrival is sent when the channel has room, and dropped when it is full, and for no other reason. */
  lemma {:induction false} PlayDropsOnlyWhenFull<T>(v: View<T>, cap: nat, moves: seq<Move<T>>)
    ensures var w := Play(v, cap, moves);
      && w.dropped == v.dropped + FullArrivals(v, cap, moves)
      && w.sent == v.sent + RoomyArrivals(v, cap, moves)
    decreases |moves|
  {
    if moves == [] {
      assert v.sent + [] == v.sent;
    } else {
      var most := moves[..|moves| - 1];
      PlayDropsOnlyWhenFull(v, cap, most);
      var sent := RoomyArrivals(v, cap, most);
      var last := RoomyArrivals(v, cap, moves)[|sent|..];
      assert v.sent + sent + last == v.sent + (sent + last);
      assert RoomyArrivals(v, cap, moves) == sent + last;
    }
  }

  lemma PlayReceive<T>(v: View<T>, cap: nat, granted: bool)
    requires v.items != []
    ensures PlayOne(v, cap, Receive(granted)) == v.(items := v.items[1..],
      script := v.script + [Got(v.items[0], v.batchSize, |v.items[1..]|, granted)])
  {
  }

  lemma HeadAndRest<T>(a: seq<T>)
    requires a != []
    ensures a == [a[0]] + a[1..]
  {
  }

  lemma PlayNothing<T>(v: View<T>, cap: nat, moves: seq<Move<T>>)
    ensures Play(v, cap, moves[..0]) == v
  {
  }

  lemma PlayNext<T>(v: View<T>, cap: nat, moves: seq<Move<T>>, i: nat)
    requires i < |moves|
    ensures Play(v, cap, moves[..i + 1]) == PlayOne(Play(v, cap, moves[..i]), cap, moves[i])
  {
    assert moves[..i + 1][..i] == moves[..i];
  }

  lemma RoundGrows<T>(p: Progress<T>, signal: Signal<T>, onEmpty: bool)
    ensures p.handed <= Round(p, signal, onEmpty).handed
  {
  }

  /** An item goes from the front of the channel to the end of what was received; a tick receives nothing. */
  lemma ReceivedNext<T>(script: seq<Signal<T>>, signal: Signal<T>, items: seq<T>)
    ensures Received(script + [signal]) + items ==
      if signal.Got? then Received(script) + ([signal.item] + items) else Received(script) + items
  {
    ReceivedSnoc(script, signal);
    assert Received(script) + [] == Received(script);
    if signal.Got? {
      assert Received(script) + [signal.item] + items == Received(script) + ([signal.item] + items);
    }
  }
}
