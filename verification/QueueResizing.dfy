/**
  SetBatchSize while a batch is being filled: when what is left at rest is shorter than the
  BatchSize in force, and when it is not.
 */
module QueueResizing {
  import opened BatchLoop
  import opened Options
  import opened QueueGuarantees
  import opened QueueMachine
  import opened QueueProgress
  import opened QueueSafety

  /** No resize lowers the size in force; a size below one counts as one. */
  predicate NeverShrinks<T>(s: State<T>, steps: seq<Step<T>>)
    requires Run(s, steps)
    decreases |steps|
  {
    steps == [] ||
    ((steps[0].SetBatchSize? ==> AtLeastOne(steps[0].size) >= AtLeastOne(s.batchSize))
     && NeverShrinks(Apply(s, steps[0]), steps[1..]))
  }

  lemma {:induction false} NeverShrinksIsLargest<T>(s: State<T>, steps: seq<Step<T>>)
    requires Run(s, steps) && NeverShrinks(s, steps) && AtLeastOne(s.batchSize) == AtLeastOne(s.largest)
    ensures AtLeastOne(After(s, steps).batchSize) == AtLeastOne(After(s, steps).largest)
    decreases |steps|
  {
    if steps != [] {
      NeverShrinksIsLargest(Apply(s, steps[0]), steps[1..]);
    }
  }

  /** What is left at rest is shorter than the BatchSize in force. */
  ghost predicate LeftoverShort<T>(s: State<T>)
  {
    |Current(s)| < AtLeastOne(s.batchSize)
  }

  /** As long as no resize shrinks, what is left is shorter than the BatchSize in force. */
  lemma LeftoverIsShortUnlessShrunk<T>(cfg: Config, steps: seq<Step<T>>)
    requires RunOf(cfg, steps) && NeverShrinks(New(cfg), steps)
    requires Idle(Reached(cfg, steps)) && !Reached(cfg, steps).cancelled
    ensures LeftoverShort(Reached(cfg, steps))
  {
    LeftoverIsShort(cfg, steps);
    NeverShrinksIsLargest(New(cfg), steps);
  }

  // The runs that leave more

  ghost predicate ResizesWithin<T>(steps: seq<Step<T>>, sizes: set<int>)
  {
    forall i :: 0 <= i < |steps| && steps[i].SetBatchSize? ==> steps[i].size in sizes
  }

  ghost predicate Leads<T>(s: State<T>, steps: seq<Step<T>>, sizes: set<int>, end: State<T>)
  {
    Run(s, steps) && After(s, steps) == end && ResizesWithin(steps, sizes)
  }

  lemma LeadsOn<T>(s: State<T>, a: seq<Step<T>>, mid: State<T>, b: seq<Step<T>>, end: State<T>, sizes: set<int>)
    requires Leads(s, a, sizes, mid) && Leads(mid, b, sizes, end)
    ensures Leads(s, a + b, sizes, end)
  {
    RunConcat(s, a, b);
  }

  lemma LeadsStep<T>(s: State<T>, a: seq<Step<T>>, mid: State<T>, step: Step<T>, sizes: set<int>)
    requires Leads(s, a, sizes, mid) && Enabled(mid, step) && (step.SetBatchSize? ==> step.size in sizes)
    ensures Leads(s, a + [step], sizes, Apply(mid, step))
  {
    RunOne(mid, step);
    LeadsOn(s, a, mid, [step], Apply(mid, step), sizes);
  }

  /** The first goroutine is the consumer, at its select with m items, and nothing else is going on. */
  ghost predicate Waiting<T>(s: State<T>, m: nat)
  {
    && !s.onEmpty && !s.cancelled && s.lock.None? && s.owner == Some(0) && s.cap > 0
    && |s.threads| > 0 && s.threads[0].Looping? && s.threads[0].pc.Selecting? && |s.threads[0].items| == m
    && (forall t :: 0 < t < |s.threads| ==> s.threads[t].NotCalled?)
    && s.channel == [] && s.jobs == []
    && |s.producers| > 0 && forall p :: 0 <= p < |s.producers| ==> s.producers[p].Out?
  }

  lemma WaitingIsIdle<T>(s: State<T>, m: nat)
    requires Waiting(s, m)
    ensures Idle(s) && |Current(s)| == m
  {
  }

  /** Start is called, once. */
  lemma Begin<T>(cfg: Config, sizes: set<int>) returns (steps: seq<Step<T>>, end: State<T>)
    requires cfg.producers > 0 && cfg.threads > 0 && !cfg.queue.onEmpty
    ensures Leads(New(cfg), steps, sizes, end) && Waiting(end, 0) && end.batchSize == New<T>(cfg).batchSize
  {
    var s := New<T>(cfg);
    var call, lock, test := ByStarter(0, CallStart), ByStarter(0, Lock), ByStarter(0, TestStarted);
    LeadsStep(s, [], s, call, sizes);
    var called := Apply(s, call);
    LeadsStep(s, [] + [call], called, lock, sizes);
    var locked := Apply(called, lock);
    LeadsStep(s, [] + [call] + [lock], locked, test, sizes);
    steps, end := [] + [call] + [lock] + [test], Apply(locked, test);
  }

  /** One item goes from AddItem into the batch. */
  lemma TakeOne<T>(s: State<T>, m: nat, x: T, sizes: set<int>) returns (steps: seq<Step<T>>, end: State<T>)
    requires Waiting(s, m) && m + 1 < s.batchSize
    ensures Leads(s, steps, sizes, end) && Waiting(end, m + 1) && end.batchSize == s.batchSize
  {
    var sent, queued := SendOne(s, m, x, sizes);
    var received, taken := ReceiveOne(queued, m, x, sizes);
    steps, end := sent + received, taken;
    LeadsOn(s, sent, queued, received, taken, sizes);
  }

  /** Like Waiting, with one item in the channel. */
  ghost predicate Queued<T>(s: State<T>, m: nat, x: T)
  {
    s.channel == [x] && Waiting(s.(channel := []), m)
  }

  lemma SendOne<T>(s: State<T>, m: nat, x: T, sizes: set<int>) returns (steps: seq<Step<T>>, end: State<T>)
    requires Waiting(s, m)
    ensures Leads(s, steps, sizes, end) && Queued(end, m, x) && end.batchSize == s.batchSize
  {
    var offer, check, send := ByProducer(0, Offer(x)), ByProducer(0, CheckLength), ByProducer(0, Send);
    LeadsStep(s, [], s, offer, sizes);
    var offered := Apply(s, offer);
    LeadsStep(s, [] + [offer], offered, check, sizes);
    var checked := Apply(offered, check);
    LeadsStep(s, [] + [offer] + [check], checked, send, sizes);
    steps, end := [] + [offer] + [check] + [send], Apply(checked, send);
    assert end.producers == s.producers;
  }

  lemma ReceiveOne<T>(s: State<T>, m: nat, x: T, sizes: set<int>) returns (steps: seq<Step<T>>, end: State<T>)
    requires Queued(s, m, x) && m + 1 < s.batchSize
    ensures Leads(s, steps, sizes, end) && Waiting(end, m + 1) && end.batchSize == s.batchSize
  {
    var receive, append := ByConsumer(0, Receive), ByConsumer(0, Append);
    var size, empty := ByConsumer(0, TestSize), ByConsumer(0, TestEmpty);
    LeadsStep(s, [], s, receive, sizes);
    var held := Apply(s, receive);
    LeadsStep(s, [] + [receive], held, append, sizes);
    var appended := Apply(held, append);
    LeadsStep(s, [] + [receive] + [append], appended, size, sizes);
    var sized := Apply(appended, size);
    LeadsStep(s, [] + [receive] + [append] + [size], sized, empty, sizes);
    steps, end := [] + [receive] + [append] + [size] + [empty], Apply(sized, empty);
  }

  lemma {:induction false} TakeMany<T>(s: State<T>, m: nat, x: T, sizes: set<int>) returns (steps: seq<Step<T>>, end: State<T>)
    requires Waiting(s, 0) && m < s.batchSize
    ensures Leads(s, steps, sizes, end) && Waiting(end, m) && end.batchSize == s.batchSize
    decreases m
  {
    if m == 0 {
      steps, end := [], s;
    } else {
      var most, mid := TakeMany(s, m - 1, x, sizes);
      var one;
      one, end := TakeOne(mid, m - 1, x, sizes);
      LeadsOn(s, most, mid, one, end, sizes);
      steps := most + one;
    }
  }

  /** From a larger size to a smaller one with the smaller number of items in hand: all of them are left at rest. */
  lemma ShrinkLeavesMore<T>(cfg: Config, sizes: set<int>, large: int, small: int, x: T) returns (steps: seq<Step<T>>)
    requires cfg.producers > 0 && cfg.threads > 0 && !cfg.queue.onEmpty
    requires small in sizes && (large in sizes || large == New<T>(cfg).batchSize)
    requires AtLeastOne(small) < large
    ensures RunOf(cfg, steps) && ResizesWithin(steps, sizes)
    ensures var s := Reached(cfg, steps); Idle(s) && !s.cancelled && |Current(s)| == AtLeastOne(s.batchSize)
  {
    var s := New<T>(cfg);
    var begin, begun := Begin(cfg, sizes);
    var grow := if large == begun.batchSize then [] else [SetBatchSize(large)];
    var grown := begun.(batchSize := large, largest := if grow == [] then begun.largest else Max(begun.largest, large));
    if grow == [] {
      assert begin + grow == begin && grown == begun;
    } else {
      LeadsStep(s, begin, begun, SetBatchSize(large), sizes);
    }
    var take, taken := TakeMany(grown, AtLeastOne(small), x, sizes);
    LeadsOn(s, begin + grow, grown, take, taken, sizes);
    LeadsStep(s, begin + grow + take, taken, SetBatchSize(small), sizes);
    steps := begin + grow + take + [SetBatchSize(small)];
    WaitingIsIdle(Apply(taken, SetBatchSize(small)), AtLeastOne(small));
  }

  /** Whatever is left at rest is short, in every run that resizes to none but these sizes. */
  ghost predicate AlwaysLeftShort<T(!new)>(cfg: Config, sizes: set<int>)
  {
    forall steps: seq<Step<T>> ::
      RunOf(cfg, steps) && ResizesWithin(steps, sizes) && Idle(Reached(cfg, steps)) && !Reached(cfg, steps).cancelled ==>
        LeftoverShort(Reached(cfg, steps))
  }

  /** No size shrinks the first one or another one of them. */
  ghost predicate NoneSmaller(sizes: set<int>, first: int)
  {
    forall small, large :: small in sizes && (large in sizes || large == first) ==> AtLeastOne(small) >= AtLeastOne(large)
  }

  lemma {:induction false} NoneSmallerNeverShrinks<T>(s: State<T>, steps: seq<Step<T>>, sizes: set<int>, first: int)
    requires Run(s, steps) && ResizesWithin(steps, sizes) && NoneSmaller(sizes, first)
    requires s.batchSize in sizes || s.batchSize == first
    ensures NeverShrinks(s, steps)
    decreases |steps|
  {
    if steps != [] {
      assert ResizesWithin(steps[1..], sizes);
      NoneSmallerNeverShrinks(Apply(s, steps[0]), steps[1..], sizes, first);
    }
  }

  /**
    The exact condition, on what a caller sets: with submit-on-empty, or when no size that is
    ever set is smaller than the first one or than another one, what is left at rest is
    shorter than the BatchSize in force; and in no other case.
   */
  lemma AlwaysLeftShortIff<T(!new)>(cfg: Config, sizes: set<int>, x: T)
    requires cfg.producers > 0 && cfg.threads > 0
    ensures AlwaysLeftShort<T>(cfg, sizes) <==>
      cfg.queue.onEmpty || NoneSmaller(sizes, if cfg.queue.batchSize > 0 then cfg.queue.batchSize else 10)
  {
    var first := New<T>(cfg).batchSize;
    if cfg.queue.onEmpty || NoneSmaller(sizes, first) {
      forall steps: seq<Step<T>>
        | RunOf(cfg, steps) && ResizesWithin(steps, sizes) && Idle(Reached(cfg, steps)) && !Reached(cfg, steps).cancelled
        ensures LeftoverShort(Reached(cfg, steps))
      {
        LeftoverIsShort(cfg, steps);
        if cfg.queue.onEmpty {
          FlagStays(New(cfg), steps);
        } else {
          NoneSmallerNeverShrinks(New(cfg), steps, sizes, first);
          LeftoverIsShortUnlessShrunk(cfg, steps);
        }
      }
    } else {
      var small, large :| small in sizes && (large in sizes || large == first) && AtLeastOne(small) < AtLeastOne(large);
      var steps := ShrinkLeavesMore(cfg, sizes, large, small, x);
      assert !LeftoverShort(Reached(cfg, steps));
    }
  }

  lemma {:induction false} FlagStays<T>(s: State<T>, steps: seq<Step<T>>)
    requires Run(s, steps)
    ensures After(s, steps).onEmpty == s.onEmpty
    decreases |steps|
  {
    if steps != [] {
      FlagStays(Apply(s, steps[0]), steps[1..]);
    }
  }

  // What a resize does

  /** The size set last, or the first one. */
  function LastSet<T>(steps: seq<Step<T>>, first: int): int
    decreases |steps|
  {
    if steps == [] then first else LastSet(steps[1..], if steps[0].SetBatchSize? then steps[0].size else first)
  }

  lemma {:induction false} SizeIsLastSet<T>(s: State<T>, steps: seq<Step<T>>)
    requires Run(s, steps)
    ensures After(s, steps).batchSize == LastSet(steps, s.batchSize)
    decreases |steps|
  {
    if steps != [] {
      SizeIsLastSet(Apply(s, steps[0]), steps[1..]);
    }
  }

  ghost predicate ResizesUpTo<T>(steps: seq<Step<T>>, bound: int)
  {
    forall i :: 0 <= i < |steps| && steps[i].SetBatchSize? ==> steps[i].size <= bound
  }

  lemma {:induction false} LargestUpTo<T>(s: State<T>, steps: seq<Step<T>>, bound: int)
    requires Run(s, steps) && ResizesUpTo(steps, bound) && s.largest <= bound
    ensures After(s, steps).largest <= bound
    decreases |steps|
  {
    if steps != [] {
      assert ResizesUpTo(steps[1..], bound);
      LargestUpTo(Apply(s, steps[0]), steps[1..], bound);
    }
  }

  /** No batch is longer than a bound on the configured BatchSize and on all that were set. */
  lemma BatchSizeBoundByCaller<T>(cfg: Config, steps: seq<Step<T>>, bound: int)
    requires RunOf(cfg, steps) && !Reached(cfg, steps).cancelled && ResizesUpTo(steps, bound)
    requires (if cfg.queue.batchSize > 0 then cfg.queue.batchSize else 10) <= bound
    ensures forall w :: 0 <= w < |Reached(cfg, steps).jobs| ==> 1 <= |Reached(cfg, steps).jobs[w].batch| <= bound
  {
    var s := Reached(cfg, steps);
    AsConfigured(cfg, steps);
    LargestUpTo(New(cfg), steps, bound);
    BatchSizeBound(cfg, steps);
    forall w | 0 <= w < |s.jobs|
      ensures 1 <= |s.jobs[w].batch| <= bound
    {
      assert |Batches(s.jobs)[w]| <= AtLeastOne(s.largest);
    }
  }

  /** The batch against a size that it was tested with, by where the consumer is. */
  predicate Measured<T>(thread: Thread<T>, n: int)
  {
    match thread
    case Looping(Selecting, items) => |items| < AtLeastOne(n)
    case Looping(Holding(_), items) => |items| < AtLeastOne(n)
    case Looping(Sizing(_), items) => |items| <= AtLeastOne(n)
    case Looping(Emptying(_, _), items) => |items| < n
    case _ => true
  }

  lemma ConsumerKeepsMeasured<T>(s: State<T>, t: nat, op: LoopOp)
    requires CanLoop(s, t, op) && !s.cancelled && Measured(s.threads[t], s.batchSize)
    ensures Measured(LoopMove(s, t, op).thread, s.batchSize)
  {
  }

  lemma StarterKeepsMeasured<T>(s: State<T>, t: nat, op: StartOp)
    requires OneConsumer(s) && CanStart(s, t, op) && Measured(Consumer(s), s.batchSize)
    ensures Measured(Consumer(Start(s, t, op)), s.batchSize) && Start(s, t, op).batchSize == s.batchSize
  {
  }

  /** A step that neither resizes nor cancels. */
  predicate Ordinary<T>(step: Step<T>)
  {
    !step.SetBatchSize? && !step.Cancel?
  }

  lemma StepKeepsMeasured<T>(s: State<T>, step: Step<T>)
    requires OneConsumer(s) && Enabled(s, step) && Ordinary(step) && !s.cancelled && Measured(Consumer(s), s.batchSize)
    ensures var s' := Apply(s, step); s'.batchSize == s.batchSize && !s'.cancelled && Measured(Consumer(s'), s.batchSize)
  {
    hide LoopMove, Start, Measured;
    match step
    case ByConsumer(t, op) =>
      ConsumerIsOwner(s, t, op);
      ConsumerKeepsMeasured(s, t, op);
    case ByStarter(t, op) =>
      StarterKeepsMeasured(s, t, op);
      StarterLeavesProducers(s, t, op);
      assert !Start(s, t, op).cancelled by {
        StarterNeverCancels(s, t, op);
      }
    case ByProducer(p, op) => assert Consumer(Apply(s, step)) == Consumer(s);
    case ByWorker(w, op) => assert Consumer(Apply(s, step)) == Consumer(s);
  }

  lemma StarterNeverCancels<T>(s: State<T>, t: nat, op: StartOp)
    requires CanStart(s, t, op)
    ensures Start(s, t, op).cancelled == s.cancelled
  {
  }

  lemma {:induction false} RunKeepsMeasured<T>(s: State<T>, steps: seq<Step<T>>)
    requires Inv(s) && Run(s, steps) && (forall i :: 0 <= i < |steps| ==> Ordinary(steps[i]))
    requires !s.cancelled && Measured(Consumer(s), s.batchSize)
    ensures Measured(Consumer(After(s, steps)), s.batchSize)
    decreases |steps|
  {
    if steps != [] {
      hide Measured, Apply, Enabled;
      assert OneConsumer(s);
      StepKeepsInv(s, steps[0]);
      StepKeepsMeasured(s, steps[0]);
      RunKeepsMeasured(Apply(s, steps[0]), steps[1..]);
    }
  }

  /**
    A resize takes effect with the first round that is tested after it: from then on, as long
    as there is no other and the context is live, the consumer waits at its select with fewer
    items than the size set last.
   */
  lemma ResizeTakesEffect<T>(cfg: Config, before: seq<Step<T>>, t: nat, after: seq<Step<T>>)
    requires RunOf(cfg, before) && !Reached(cfg, before).cancelled && CanLoop(Reached(cfg, before), t, TestSize)
    requires Run(LoopStep(Reached(cfg, before), t, TestSize), after)
    requires forall i :: 0 <= i < |after| ==> Ordinary(after[i])
    ensures var end := After(LoopStep(Reached(cfg, before), t, TestSize), after);
      LeftBehind(Consumer(end)) ==>
        |Current(end)| < AtLeastOne(LastSet(before, if cfg.queue.batchSize > 0 then cfg.queue.batchSize else 10))
  {
    hide Inv, Measured;
    var s := Reached(cfg, before);
    AsConfigured(cfg, before);
    SizeIsLastSet(New(cfg), before);
    ReachedHasInv(cfg, before);
    ConsumerKeepsInv(s, t, TestSize);
    TestMeasures(s, t);
    RunKeepsMeasured(LoopStep(s, t, TestSize), after);
    var end := After(LoopStep(s, t, TestSize), after);
    if LeftBehind(Consumer(end)) {
      MeasuredAtSelect(end, s.batchSize);
    }
  }

  lemma TestMeasures<T>(s: State<T>, t: nat)
    requires Inv(s) && CanLoop(s, t, TestSize)
    ensures Measured(Consumer(LoopStep(s, t, TestSize)), s.batchSize)
    ensures LoopStep(s, t, TestSize).batchSize == s.batchSize && LoopStep(s, t, TestSize).cancelled == s.cancelled
  {
    ConsumerIsOwner(s, t, TestSize);
  }

  lemma MeasuredAtSelect<T>(s: State<T>, n: int)
    requires Measured(Consumer(s), n) && LeftBehind(Consumer(s))
    ensures |Current(s)| < AtLeastOne(n)
  {
  }
}
