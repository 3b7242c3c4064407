/** The queue's promises, for every configuration and every run from NewQueue on. */
module QueueGuarantees {
  import opened Batch
  import opened BatchLoop
  import opened QueueMachine
  import opened QueueSafety
  import opened Sequences

  datatype Config = Config(queue: QueueConfig, producers: nat, threads: nat)

  function New<T>(cfg: Config): State<T>
  {
    NewQueue(cfg.queue, cfg.producers, cfg.threads)
  }

  predicate RunOf<T>(cfg: Config, steps: seq<Step<T>>)
  {
    Run(New(cfg), steps)
  }

  function Reached<T>(cfg: Config, steps: seq<Step<T>>): State<T>
    requires RunOf(cfg, steps)
  {
    After(New(cfg), steps)
  }

  lemma NewHasInv<T>(cfg: Config)
    ensures Inv(New<T>(cfg))
  {
  }

  lemma ReachedHasInv<T>(cfg: Config, steps: seq<Step<T>>)
    requires RunOf(cfg, steps)
    ensures Inv(Reached(cfg, steps))
  {
    NewHasInv<T>(cfg);
    RunKeepsInv(New(cfg), steps);
  }

  lemma {:induction false} SizesStay<T>(s: State<T>, steps: seq<Step<T>>)
    requires Run(s, steps)
    ensures var end := After(s, steps); end.cap == s.cap && end.pool == s.pool && end.onEmpty == s.onEmpty
    decreases |steps|
  {
    if steps != [] {
      SizesStay(Apply(s, steps[0]), steps[1..]);
    }
  }

  /** The channel, the pool and the first BatchSize are the configured ones, or 100, 10 and 10 where those are not positive. */
  lemma AsConfigured<T>(cfg: Config, steps: seq<Step<T>>)
    requires RunOf(cfg, steps)
    ensures var s, start, q := Reached(cfg, steps), New<T>(cfg), cfg.queue;
      && s.cap == (if q.channelSize > 0 then q.channelSize else 100)
      && s.pool == (if q.workerPoolSize > 0 then q.workerPoolSize else 10)
      && start.permits == (if q.workerPoolSize > 0 then q.workerPoolSize else 10)
      && start.batchSize == start.largest == (if q.batchSize > 0 then q.batchSize else 10)
      && s.onEmpty == q.onEmpty
  {
    SizesStay(New<T>(cfg), steps);
  }

  /** Of all the goroutines that call Start, at most one ever gets past the guard. */
  lemma AtMostOneConsumer<T>(cfg: Config, steps: seq<Step<T>>, t: nat, u: nat)
    requires RunOf(cfg, steps)
    requires t < |Reached(cfg, steps).threads| && u < |Reached(cfg, steps).threads|
    requires InOrOut(Reached(cfg, steps).threads[t]) && InOrOut(Reached(cfg, steps).threads[u])
    ensures t == u
  {
    ReachedHasInv(cfg, steps);
  }

  /** What the consumer has received and not handed over. A batch at Spawned is the worker's already. */
  function Current<T>(s: State<T>): seq<T>
  {
    match Consumer(s)
    case Looping(Spawned(_), _) => []
    case Looping(Holding(x), items) => items + [x]
    case thread => ItemsOf(thread)
  }

  /**
    First in, first out, in every interleaving: the batches in the order of hand-off, then
    the batch being filled, then the channel, are the items sent. Nothing is lost,
    duplicated or reordered, also when an Acquire fails.
   */
  lemma Fifo<T>(cfg: Config, steps: seq<Step<T>>)
    requires RunOf(cfg, steps)
    ensures var s := Reached(cfg, steps);
      s.sent == Flatten(Batches(s.jobs)) + Current(s) + s.channel
  {
    ReachedHasInv(cfg, steps);
    FifoOfInv(Reached(cfg, steps));
  }

  lemma FifoOfInv<T>(s: State<T>)
    requires RunsLoop(s) && InOrder(s)
    ensures s.sent == Flatten(Batches(s.jobs)) + Current(s) + s.channel
  {
    var p, thread := Loop(s.script, s.onEmpty), Consumer(s);
    LoopKeepsItems(s.script, s.onEmpty);
    FlattenSnoc(p.handed, ItemsOf(thread));
    HandedAndCurrent(s, p);
    Associate(Flatten(p.handed), p.current, InRound(thread));
  }

  lemma HandedAndCurrent<T>(s: State<T>, p: Progress<T>)
    requires InStep(p, Consumer(s), Batches(s.jobs), s.onEmpty)
    requires Flatten(p.handed + [ItemsOf(Consumer(s))]) == Flatten(p.handed) + ItemsOf(Consumer(s))
    ensures Flatten(Batches(s.jobs)) + Current(s) == Flatten(p.handed) + (p.current + InRound(Consumer(s)))
  {
    var thread := Consumer(s);
    if HandedOff(thread) {
      assert Current(s) == [] && InRound(thread) == Appended(thread);
      assert Flatten(Batches(s.jobs)) + [] == Flatten(Batches(s.jobs));
    } else {
      assert p.handed + [] == p.handed && p.current + [] == p.current;
      assert Current(s) == p.current + InRound(thread);
    }
  }

  /** At rest, the concurrent queue has done exactly what the sequential loop does on the rounds seen. */
  lemma RefinesLoop<T>(cfg: Config, steps: seq<Step<T>>)
    requires RunOf(cfg, steps)
    ensures var s := Reached(cfg, steps);
      !Consumer(s).Looping? || Consumer(s).pc.Selecting? ==>
        Loop(s.script, s.onEmpty) == Progress(Batches(s.jobs), ItemsOf(Consumer(s)))
  {
    ReachedHasInv(cfg, steps);
    var s := Reached(cfg, steps);
    var p := Loop(s.script, s.onEmpty);
    assert p.current + [] == p.current && p.handed + [] == p.handed;
  }

  /**
    No batch goes early: in every interleaving, when the consumer is at its select, batches
    below the smallest BatchSize it has read are no more than its ticks and the times it
    found the channel empty with submit-on-empty. With neither, and one BatchSize, what it
    has received is cut just as GetBatches cuts a list.
   */
  lemma NoBatchGoesEarly<T>(cfg: Config, steps: seq<Step<T>>, low: nat)
    requires RunOf(cfg, steps) && SizesFrom(Reached(cfg, steps).script, low)
    requires Consumer(Reached(cfg, steps)).Looping? && Consumer(Reached(cfg, steps)).pc.Selecting?
    ensures var s := Reached(cfg, steps);
      && Short(Batches(s.jobs), low) <= Flushes(s.script, s.onEmpty)
      && (0 < low == s.largest && !s.cancelled && s.script != [] && Flushes(s.script, s.onEmpty) == 0 ==>
          && Received(s.script) + s.channel == s.sent
          && Batches(s.jobs) + (if Current(s) == [] then [] else [Current(s)]) == Chunks(low, Received(s.script)))
  {
    var s := Reached(cfg, steps);
    ReachedHasInv(cfg, steps);
    RefinesLoop(cfg, steps);
    LoopShortBatches(s.script, s.onEmpty, low);
    assert Received(s.script) + [] == Received(s.script);
    if 0 < low == s.largest && !s.cancelled && s.script != [] && Flushes(s.script, s.onEmpty) == 0 {
      LoopCutsLikeGetBatches(s.script, s.onEmpty, low);
    }
  }

  /**
    With a live context every batch has at least one item and at most the largest BatchSize
    in force so far, or one if none was positive, wherever SetBatchSize came in between.
   */
  lemma BatchSizeBound<T>(cfg: Config, steps: seq<Step<T>>)
    requires RunOf(cfg, steps)
    ensures var s := Reached(cfg, steps);
      && BatchesNonEmpty(s.jobs)
      && (!s.cancelled ==> BatchesWithin(Batches(s.jobs), AtLeastOne(s.largest))
                           && |Current(s)| <= AtLeastOne(s.largest)
                           && (LeftBehind(Consumer(s)) ==> |Current(s)| < AtLeastOne(s.largest)))
  {
    ReachedHasInv(cfg, steps);
    var s := Reached(cfg, steps);
    BatchSizeOfInv(s);
  }

  ghost predicate BatchesNonEmpty<T>(jobs: seq<Job<T>>)
  {
    forall w :: 0 <= w < |jobs| ==> jobs[w].batch != []
  }

  lemma BatchSizeOfInv<T>(s: State<T>)
    requires Inv(s)
    ensures BatchesNonEmpty(s.jobs)
    ensures !s.cancelled ==> BatchesWithin(Batches(s.jobs), AtLeastOne(s.largest))
    ensures !s.cancelled ==> |Current(s)| <= AtLeastOne(s.largest)
    ensures !s.cancelled && LeftBehind(Consumer(s)) ==> |Current(s)| < AtLeastOne(s.largest)
  {
    hide Loop, InOrder, PermitsAddUp, SubmitsOnce, NoneStranded;
    LoopNeverHandsNothing(s.script, s.onEmpty);
    var p := Loop(s.script, s.onEmpty);
    JobsAreHanded(s, p);
    if !s.cancelled {
      LoopBatchBounds(s.script, s.onEmpty, s.largest);
    }
  }

  /** Each job's batch is one that the loop handed over or the one at Spawned. */
  lemma JobsAreHanded<T>(s: State<T>, p: Progress<T>)
    requires InStep(p, Consumer(s), Batches(s.jobs), s.onEmpty)
    ensures forall w :: 0 <= w < |s.jobs| ==>
      s.jobs[w].batch == if w < |p.handed| then p.handed[w] else p.current + Appended(Consumer(s))
    ensures |s.jobs| > |p.handed| ==> p.current + Appended(Consumer(s)) != []
    ensures |Current(s)| <= |p.current| + 1
    ensures LeftBehind(Consumer(s)) ==> Current(s) == p.current
    ensures |Appended(Consumer(s))| <= 1
  {
    var thread, batches := Consumer(s), Batches(s.jobs);
    forall w | 0 <= w < |s.jobs|
      ensures s.jobs[w].batch == if w < |p.handed| then p.handed[w] else ItemsOf(thread)
    {
      assert batches[w] == s.jobs[w].batch;
    }
    assert p.current + [] == p.current;
  }

  /** The jobs whose goroutine has not finished. */
  function InFlight<T>(s: State<T>): nat
  {
    Sum(s.jobs, Unreleased)
  }

  /** Workers in flight and free permits make up the configured pool, but for the permit between acquire and go. */
  lemma WorkerBound<T>(cfg: Config, steps: seq<Step<T>>)
    requires RunOf(cfg, steps)
    ensures var s := Reached(cfg, steps);
      var pool := if cfg.queue.workerPoolSize > 0 then cfg.queue.workerPoolSize else 10;
      && InFlight(s) <= pool
      && InFlight(s) + s.permits == pool - HoldsPermit(Consumer(s))
  {
    AsConfigured(cfg, steps);
    ReachedHasInv(cfg, steps);
  }

  /** A job is submitted once if its worker has got that far and not at all if it has not. */
  lemma EachBatchSubmittedOnce<T>(cfg: Config, steps: seq<Step<T>>, w: nat)
    requires RunOf(cfg, steps)
    ensures var s := Reached(cfg, steps);
      Occurs(s.submits, w) == if w < |s.jobs| && !s.jobs[w].phase.Ready? then 1 else 0
  {
    ReachedHasInv(cfg, steps);
  }

  /** With submit-on-empty and a live context, the consumer never waits on a partial batch and an empty channel. */
  lemma NothingStranded<T>(cfg: Config, steps: seq<Step<T>>)
    requires RunOf(cfg, steps)
    ensures var s := Reached(cfg, steps);
      s.onEmpty && !s.cancelled && LeftBehind(Consumer(s)) ==> s.channel != []
  {
    ReachedHasInv(cfg, steps);
  }

  /** A batch, once handed over, is the same batch in every later state. */
  lemma {:induction false} HandedStays<T>(s: State<T>, steps: seq<Step<T>>)
    requires Run(s, steps)
    ensures Batches(s.jobs) <= Batches(After(s, steps).jobs)
    decreases |steps|
  {
    if steps != [] {
      StepKeepsBatches(s, steps[0]);
      HandedStays(Apply(s, steps[0]), steps[1..]);
    }
  }

  lemma StepKeepsBatches<T>(s: State<T>, step: Step<T>)
    requires Enabled(s, step)
    ensures Batches(s.jobs) <= Batches(Apply(s, step).jobs)
  {
    hide LoopStep, Work, Start;
    match step
    case ByProducer(p, op) => assert Apply(s, step).jobs == s.jobs;
    case ByStarter(t, op) => StarterLeavesProducers(s, t, op);
    case ByConsumer(t, op) => ConsumerAddsReadyJobs(s, t, op);
    case ByWorker(w, op) => WorkerKeepsBatches(s, w, op);
    case SetBatchSize(_) =>
    case Cancel =>
  }

  // Accounting

  datatype Outcome = Running | Succeeded | Failed

  function OutcomeOf(phase: Phase): Outcome
  {
    match phase
    case Ready => Running
    case Submitting => Running
    case Returned(ok) => if ok then Succeeded else Failed
    case Released(ok) => if ok then Succeeded else Failed
  }

  /** The items in the jobs with an outcome. */
  function ItemsWith<T>(jobs: seq<Job<T>>, outcome: Outcome): seq<T>
    decreases |jobs|
  {
    if jobs == [] then [] else
      var last := jobs[|jobs| - 1];
      ItemsWith(jobs[..|jobs| - 1], outcome) + if OutcomeOf(last.phase) == outcome then last.batch else []
  }

  /** The last job adds its items to those with its outcome, and to no others. */
  lemma LastOutcome<T>(jobs: seq<Job<T>>, outcome: Outcome, x: T)
    requires jobs != []
    ensures var most, last := jobs[..|jobs| - 1], jobs[|jobs| - 1];
      Occurs(ItemsWith(jobs, outcome), x) ==
      Occurs(ItemsWith(most, outcome), x) + if OutcomeOf(last.phase) == outcome then Occurs(last.batch, x) else 0
  {
    hide Occurs;
    var most, last := jobs[..|jobs| - 1], jobs[|jobs| - 1];
    if OutcomeOf(last.phase) == outcome {
      OccursConcat(ItemsWith(most, outcome), last.batch, x);
    } else {
      assert ItemsWith(most, outcome) + [] == ItemsWith(most, outcome);
    }
  }

  lemma LastBatch<T>(jobs: seq<Job<T>>, x: T)
    requires jobs != []
    ensures var most, last := jobs[..|jobs| - 1], jobs[|jobs| - 1];
      Occurs(Flatten(Batches(jobs)), x) == Occurs(Flatten(Batches(most)), x) + Occurs(last.batch, x)
  {
    hide Occurs, Flatten;
    var most, last := jobs[..|jobs| - 1], jobs[|jobs| - 1];
    assert Batches(jobs) == Batches(most) + [last.batch];
    FlattenSnoc(Batches(most), last.batch);
    OccursConcat(Flatten(Batches(most)), last.batch, x);
  }

  lemma {:induction false} OutcomesAddUp<T>(jobs: seq<Job<T>>, x: T)
    ensures Occurs(Flatten(Batches(jobs)), x) ==
      Occurs(ItemsWith(jobs, Running), x) + Occurs(ItemsWith(jobs, Succeeded), x) + Occurs(ItemsWith(jobs, Failed), x)
    decreases |jobs|
  {
    if jobs == [] {
      assert Batches(jobs) == [];
    } else {
      hide Occurs, Flatten, ItemsWith, Batches;
      OutcomesAddUp(jobs[..|jobs| - 1], x);
      LastBatch(jobs, x);
      LastOutcome(jobs, Running, x);
      LastOutcome(jobs, Succeeded, x);
      LastOutcome(jobs, Failed, x);
    }
  }

  /**
    Every offered item is in exactly one place: dropped at a full channel, with a producer
    that has not sent it, in the channel, in the batch being filled, with a running worker,
    in a batch whose Submit succeeded or in one whose Submit failed.
   */
  lemma EveryItemAccountedFor<T>(cfg: Config, steps: seq<Step<T>>, x: T)
    requires RunOf(cfg, steps)
    ensures var s := Reached(cfg, steps);
      && Occurs(s.offered, x) ==
         Occurs(s.dropped, x) + Held(s.producers, x) + Occurs(s.channel, x) + Occurs(Current(s), x)
         + Occurs(ItemsWith(s.jobs, Running), x) + Occurs(ItemsWith(s.jobs, Succeeded), x)
         + Occurs(ItemsWith(s.jobs, Failed), x)
      && s.droppedItems == |s.dropped|
      && s.submitErrors == Sum(s.jobs, Failure)
  {
    ReachedHasInv(cfg, steps);
    var s := Reached(cfg, steps);
    NewHoldsNothing<T>(cfg.producers, x);
    RunKeepsOffers(New(cfg), steps, x);
    FifoOfInv(s);
    OccursConcat(Flatten(Batches(s.jobs)) + Current(s), s.channel, x);
    OccursConcat(Flatten(Batches(s.jobs)), Current(s), x);
    OutcomesAddUp(s.jobs, x);
  }

  lemma {:induction false} NewHoldsNothing<T>(producers: nat, x: T)
    ensures Held(seq<Producer<T>>(producers, i => Out), x) == 0
  {
    if producers > 0 {
      NewHoldsNothing(producers - 1, x);
      var all := seq<Producer<T>>(producers, i => Out);
      assert all[..producers - 1] == seq<Producer<T>>(producers - 1, i => Out);
    }
  }
}
