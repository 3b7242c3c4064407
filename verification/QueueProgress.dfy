/**
  Draining: with a live context and no new calls, the queue's own steps come to an end, and
  they come to it only when nothing is pending. A tick then clears the partial batch.
 */
module QueueProgress {
  import opened BatchLoop
  import opened QueueGuarantees
  import opened QueueMachine
  import opened QueueSafety
  import opened Sequences

  /** The steps the queue takes by itself: no new call, no tick, no change of size, no cancel. */
  predicate Drains<T>(step: Step<T>)
  {
    match step
    case ByProducer(_, op) => !op.Offer?
    case ByStarter(_, op) => !op.CallStart?
    case ByConsumer(_, op) => !op.Tick?
    case ByWorker(_, _) => true
    case SetBatchSize(_) => false
    case Cancel => false
  }

  // The measure: the steps that each producer, item, caller of Start, round and job can still cause.

  const ITEM_WEIGHT: nat := 11

  function ProducerWeight<T>(producer: Producer<T>): nat
  {
    match producer
    case Out => 0
    case Calling(_) => ITEM_WEIGHT + 2
    case Cleared(_) => ITEM_WEIGHT + 1
  }

  function ThreadWeight<T>(thread: Thread<T>): nat
  {
    match thread
    case AtLock => 2
    case Guarded => 1
    case Looping(pc, _) =>
      (match pc
       case Selecting => 0
       case Holding(_) => 10
       case Sizing(_) => 9
       case Emptying(_, _) => 8
       case Acquiring(_) => 7
       case Permitted(_) => 6
       case Spawned(_) => 2)
    case _ => 0
  }

  function JobWeight<T>(job: Job<T>): nat
  {
    match job.phase
    case Ready => 3
    case Submitting => 2
    case Returned(_) => 1
    case Released(_) => 0
  }

  function Measure<T>(s: State<T>): nat
  {
    Sum(s.producers, ProducerWeight) + ITEM_WEIGHT * |s.channel| + Sum(s.threads, ThreadWeight)
    + Sum(s.jobs, JobWeight)
  }

  lemma AddLowersMeasure<T>(s: State<T>, p: nat, op: AddOp<T>)
    requires CanAdd(s, p, op) && !op.Offer?
    ensures Measure(Add(s, p, op)) < Measure(s)
  {
    SumUpdate(s.producers, p, Add(s, p, op).producers[p], ProducerWeight);
  }

  lemma StartLowersMeasure<T>(s: State<T>, t: nat, op: StartOp)
    requires CanStart(s, t, op) && !op.CallStart?
    ensures Measure(Start(s, t, op)) < Measure(s)
  {
    SumUpdate(s.threads, t, Start(s, t, op).threads[t], ThreadWeight);
  }

  lemma LoopLowersMeasure<T>(s: State<T>, t: nat, op: LoopOp)
    requires CanLoop(s, t, op) && !op.Tick? && !s.cancelled
    ensures Measure(LoopStep(s, t, op)) < Measure(s)
  {
    var m := LoopMove(s, t, op);
    SumUpdate(s.threads, t, m.thread, ThreadWeight);
    if op.Spawn? {
      SumSnoc(s.jobs, Job(s.threads[t].items, Ready), JobWeight);
    }
  }

  lemma WorkLowersMeasure<T>(s: State<T>, w: nat, op: WorkOp)
    requires CanWork(s, w, op)
    ensures Measure(Work(s, w, op)) < Measure(s)
  {
    SumUpdate(s.jobs, w, Work(s, w, op).jobs[w], JobWeight);
  }

  lemma DrainLowersMeasure<T>(s: State<T>, step: Step<T>)
    requires Enabled(s, step) && Drains(step) && !s.cancelled
    ensures Measure(Apply(s, step)) < Measure(s) && !Apply(s, step).cancelled
  {
    match step
    case ByProducer(p, op) => AddLowersMeasure(s, p, op);
    case ByStarter(t, op) => StartLowersMeasure(s, t, op);
    case ByConsumer(t, op) => LoopLowersMeasure(s, t, op);
    case ByWorker(w, op) => WorkLowersMeasure(s, w, op);
  }

  ghost predicate AllDrain<T>(steps: seq<Step<T>>)
  {
    forall i :: 0 <= i < |steps| ==> Drains(steps[i])
  }

  /** No run of the queue's own steps is longer than the measure of the state it starts from. */
  lemma {:induction false} DrainRunsEnd<T>(s: State<T>, steps: seq<Step<T>>)
    requires Run(s, steps) && AllDrain(steps) && !s.cancelled
    ensures |steps| <= Measure(s) - Measure(After(s, steps)) && !After(s, steps).cancelled
    decreases |steps|
  {
    if steps != [] {
      DrainLowersMeasure(s, steps[0]);
      DrainRunsEnd(Apply(s, steps[0]), steps[1..]);
    }
  }

  // Where a drain ends

  ghost predicate StartWasCalled<T>(s: State<T>)
  {
    exists t :: 0 <= t < |s.threads| && !s.threads[t].NotCalled?
  }

  ghost predicate Stuck<T(!new)>(s: State<T>)
  {
    forall step: Step<T> :: Drains(step) ==> !Enabled(s, step)
  }

  /** Nothing is pending: no call under way, no item in the channel, no worker running, the consumer at its select. */
  ghost predicate Idle<T>(s: State<T>)
  {
    && (forall p :: 0 <= p < |s.producers| ==> s.producers[p].Out?)
    && s.channel == []
    && (forall t :: 0 <= t < |s.threads| ==> !s.threads[t].AtLock? && !s.threads[t].Guarded?)
    && (forall w :: 0 <= w < |s.jobs| ==> s.jobs[w].phase.Released?)
    && Consumer(s).Looping? && Consumer(s).pc.Selecting?
  }

  lemma IdleIsStuck<T(!new)>(s: State<T>)
    requires OneConsumer(s) && Idle(s) && !s.cancelled
    ensures Stuck(s)
  {
    forall step: Step<T> | Drains(step)
      ensures !Enabled(s, step)
    {
      match step
      case ByConsumer(t, op) =>
        if Enabled(s, step) {
          ConsumerIsOwner(s, t, op);
        }
      case _ =>
    }
  }

  /** What Submit returns for the batch of a job. */
  type Submitter<!T> = (nat, seq<T>) -> bool

  /** The result that a worker sees is the submitter's. */
  predicate AnsweredBy<T>(submitter: Submitter<T>, s: State<T>, step: Step<T>)
    requires Enabled(s, step)
  {
    step.ByWorker? && step.work.SubmitReturns? ==> step.work.result == submitter(step.w, s.jobs[step.w].batch)
  }

  predicate RunWith<T>(submitter: Submitter<T>, s: State<T>, steps: seq<Step<T>>)
    requires Run(s, steps)
    decreases |steps|
  {
    steps == [] || (AnsweredBy(submitter, s, steps[0]) && RunWith(submitter, Apply(s, steps[0]), steps[1..]))
  }

  lemma {:induction false} RunWithConcat<T>(submitter: Submitter<T>, s: State<T>, a: seq<Step<T>>, b: seq<Step<T>>)
    requires Run(s, a) && Run(After(s, a), b) && Run(s, a + b)
    requires RunWith(submitter, s, a) && RunWith(submitter, After(s, a), b)
    ensures RunWith(submitter, s, a + b)
    decreases |a|
  {
    if a == [] {
      assert a + b == b;
    } else {
      ConcatHead(a, b);
      RunWithConcat(submitter, Apply(s, a[0]), a[1..], b);
    }
  }

  /** Some job's worker can go on while a job is unfinished. */
  lemma WorkerCanGoOn<T>(s: State<T>, w: nat, submitter: Submitter<T>) returns (step: Step<T>)
    requires w < |s.jobs| && !s.jobs[w].phase.Released?
    ensures Drains(step) && Enabled(s, step) && AnsweredBy(submitter, s, step)
  {
    step := match s.jobs[w].phase
      case Ready => ByWorker(w, CallSubmit)
      case Submitting => ByWorker(w, SubmitReturns(submitter(w, s.jobs[w].batch)))
      case Returned(_) => ByWorker(w, Release);
  }

  /** In a round the consumer can go on, or the mutex holder or a worker can. */
  lemma RoundCanGoOn<T>(s: State<T>, t: nat, submitter: Submitter<T>) returns (step: Step<T>)
    requires OneConsumer(s) && PermitsAddUp(s) && t < |s.threads|
    requires s.threads[t].Looping? && !s.threads[t].pc.Selecting?
    ensures Drains(step) && Enabled(s, step) && AnsweredBy(submitter, s, step)
  {
    if s.lock.Some? {
      step := ByStarter(s.lock.value, TestStarted);
    } else if s.threads[t].pc.Acquiring? && s.permits == 0 {
      SumPositive(s.jobs, Unreleased);
      var w: nat :| w < |s.jobs| && Unreleased(s.jobs[w]) > 0;
      step := WorkerCanGoOn(s, w, submitter);
    } else {
      step := ByConsumer(t, match s.threads[t].pc
        case Holding(_) => Append
        case Sizing(_) => TestSize
        case Emptying(_, _) => TestEmpty
        case Acquiring(_) => Acquire
        case Permitted(_) => Spawn
        case Spawned(_) => Reset);
    }
  }

  /** Deadlock freedom: unless the queue is idle, it has a step of its own to take, whatever Submit returns. */
  lemma CanGoOn<T>(s: State<T>, submitter: Submitter<T>) returns (step: Step<T>)
    requires Inv(s) && !s.cancelled && StartWasCalled(s) && !Idle(s)
    ensures Drains(step) && Enabled(s, step) && AnsweredBy(submitter, s, step)
  {
    if w: nat :| w < |s.jobs| && !s.jobs[w].phase.Released? {
      step := WorkerCanGoOn(s, w, submitter);
    } else if s.lock.Some? {
      step := ByStarter(s.lock.value, TestStarted);
    } else if t: nat :| t < |s.threads| && s.threads[t].AtLock? {
      step := ByStarter(t, Lock);
    } else if p: nat :| p < |s.producers| && s.producers[p].Calling? {
      step := ByProducer(p, CheckLength);
    } else {
      StartedIsOwned(s);
      var t := s.owner.value;
      if !s.threads[t].pc.Selecting? {
        step := RoundCanGoOn(s, t, submitter);
      } else if s.channel != [] {
        step := ByConsumer(t, Receive);
      } else {
        var p: nat :| p < |s.producers| && !s.producers[p].Out?;
        step := ByProducer(p, Send);
      }
    }
  }

  /** When no call of Start is waiting at the guard, one of them has become the consumer. */
  lemma StartedIsOwned<T>(s: State<T>)
    requires Inv(s) && !s.cancelled && StartWasCalled(s)
    requires s.lock.None? && forall t :: 0 <= t < |s.threads| ==> !s.threads[t].AtLock?
    ensures s.owner.Some? && s.threads[s.owner.value].Looping?
    ensures Consumer(s) == s.threads[s.owner.value]
  {
    var t :| 0 <= t < |s.threads| && !s.threads[t].NotCalled?;
    assert s.threads[t].Turned? || InOrOut(s.threads[t]);
  }

  /** Both directions: in a reachable state with a live context the queue is stuck exactly when it is idle. */
  lemma StuckIffIdle<T(!new)>(cfg: Config, steps: seq<Step<T>>)
    requires RunOf(cfg, steps)
    requires !Reached(cfg, steps).cancelled && StartWasCalled(Reached(cfg, steps))
    ensures Stuck(Reached(cfg, steps)) <==> Idle(Reached(cfg, steps))
  {
    var s := Reached(cfg, steps);
    ReachedHasInv(cfg, steps);
    if Idle(s) {
      IdleIsStuck(s);
    } else {
      var step := CanGoOn(s, (w, batch) => true);
    }
  }

  lemma StartStaysCalled<T>(s: State<T>, step: Step<T>)
    requires Enabled(s, step) && StartWasCalled(s)
    ensures StartWasCalled(Apply(s, step))
  {
    hide LoopStep, Start, Work;
    var t :| 0 <= t < |s.threads| && !s.threads[t].NotCalled?;
    match step
    case ByStarter(u, op) => StarterKeepsCalled(s, u, op, t);
    case ByConsumer(c, op) => ConsumerKeepsCalled(s, c, op, t);
    case ByWorker(w, op) => WorkerKeepsThreads(s, w, op);
    case _ => assert Apply(s, step).threads == s.threads;
  }

  lemma StarterKeepsCalled<T>(s: State<T>, u: nat, op: StartOp, t: nat)
    requires CanStart(s, u, op) && t < |s.threads| && !s.threads[t].NotCalled?
    ensures t < |Start(s, u, op).threads| && !Start(s, u, op).threads[t].NotCalled?
  {
  }

  lemma ConsumerKeepsCalled<T>(s: State<T>, c: nat, op: LoopOp, t: nat)
    requires CanLoop(s, c, op) && t < |s.threads| && !s.threads[t].NotCalled?
    ensures t < |LoopStep(s, c, op).threads| && !LoopStep(s, c, op).threads[t].NotCalled?
  {
    hide LoopMove;
    ConsumerStaysInOrOut(s, c, op);
  }

  lemma WorkerKeepsThreads<T>(s: State<T>, w: nat, op: WorkOp)
    requires CanWork(s, w, op)
    ensures Work(s, w, op).threads == s.threads
  {
  }

  /** From any state the queue can drain, in no more steps than its measure, whatever Submit returns. */
  lemma CanDrain<T>(s: State<T>, submitter: Submitter<T>) returns (steps: seq<Step<T>>)
    requires Inv(s) && !s.cancelled && StartWasCalled(s)
    ensures Run(s, steps) && AllDrain(steps) && Idle(After(s, steps)) && |steps| <= Measure(s)
    ensures RunWith(submitter, s, steps)
    decreases Measure(s)
  {
    hide Measure, Inv, Idle, StartWasCalled, Apply;
    steps := [];
    if !Idle(s) {
      hide Enabled, Drains, AnsweredBy, AllDrain, Run, After, RunWith;
      var step := CanGoOn(s, submitter);
      DrainLowersMeasure(s, step);
      StepKeepsInv(s, step);
      StartStaysCalled(s, step);
      var rest := CanDrain(Apply(s, step), submitter);
      StepThenRun(submitter, s, step, rest);
      steps := [step] + rest;
    }
  }

  lemma StepThenRun<T>(submitter: Submitter<T>, s: State<T>, step: Step<T>, rest: seq<Step<T>>)
    requires Enabled(s, step) && Drains(step) && AnsweredBy(submitter, s, step)
    requires Run(Apply(s, step), rest) && AllDrain(rest) && RunWith(submitter, Apply(s, step), rest)
    ensures var steps := [step] + rest;
      Run(s, steps) && AllDrain(steps) && RunWith(submitter, s, steps) && After(s, steps) == After(Apply(s, step), rest)
  {
    hide Apply, Enabled, Drains, AnsweredBy;
    assert ([step] + rest)[1..] == rest;
  }

  // What is left, and the tick that clears it

  /** Whatever is left when the queue is idle is shorter than the largest BatchSize so far, and nothing with submit-on-empty. */
  lemma LeftoverIsShort<T>(cfg: Config, steps: seq<Step<T>>)
    requires RunOf(cfg, steps) && Idle(Reached(cfg, steps)) && !Reached(cfg, steps).cancelled
    ensures var s := Reached(cfg, steps);
      && |Current(s)| < AtLeastOne(s.largest)
      && (s.onEmpty ==> Current(s) == [])
      && s.sent == Flatten(Batches(s.jobs)) + Current(s)
  {
    var s := Reached(cfg, steps);
    ReachedHasInv(cfg, steps);
    BatchSizeOfInv(s);
    FifoOfInv(s);
    assert Current(s) == ItemsOf(Consumer(s));
    assert Flatten(Batches(s.jobs)) + Current(s) + [] == Flatten(Batches(s.jobs)) + Current(s);
  }

  /** No call is under way, the channel is empty and what the consumer holds is on its way to a worker. */
  ghost predicate Flushing<T>(s: State<T>)
  {
    && (forall p :: 0 <= p < |s.producers| ==> s.producers[p].Out?)
    && (forall t :: 0 <= t < |s.threads| ==> !s.threads[t].AtLock? && !s.threads[t].Guarded?)
    && s.channel == [] && !s.cancelled
    && Consumer(s).Looping?
    && (Consumer(s).pc.Selecting? ==> Consumer(s).items == [])
    && (Consumer(s).pc.Selecting? || Consumer(s).pc.Acquiring? || Consumer(s).pc.Permitted? || Consumer(s).pc.Spawned?)
  }

  lemma DrainKeepsFlushing<T>(s: State<T>, step: Step<T>)
    requires OneConsumer(s) && Flushing(s) && Enabled(s, step) && Drains(step)
    ensures Flushing(Apply(s, step))
  {
    match step
    case ByConsumer(t, op) => ConsumerKeepsFlushing(s, t, op);
    case ByWorker(w, op) => WorkerKeepsFlushing(s, w, op);
    case ByProducer(p, op) => assert false;
    case ByStarter(t, op) => assert false;
  }

  lemma WorkerKeepsFlushing<T>(s: State<T>, w: nat, op: WorkOp)
    requires Flushing(s) && CanWork(s, w, op)
    ensures Flushing(Work(s, w, op))
  {
  }

  lemma ConsumerKeepsFlushing<T>(s: State<T>, t: nat, op: LoopOp)
    requires OneConsumer(s) && Flushing(s) && CanLoop(s, t, op) && !op.Tick?
    ensures Flushing(LoopStep(s, t, op))
  {
    ConsumerIsOwner(s, t, op);
  }

  lemma {:induction false} DrainRunKeepsFlushing<T>(s: State<T>, steps: seq<Step<T>>)
    requires Inv(s) && Flushing(s) && Run(s, steps) && AllDrain(steps)
    ensures Flushing(After(s, steps)) && Inv(After(s, steps))
    decreases |steps|
  {
    if steps != [] {
      StepKeepsInv(s, steps[0]);
      DrainKeepsFlushing(s, steps[0]);
      DrainRunKeepsFlushing(Apply(s, steps[0]), steps[1..]);
    }
  }

  /** All that was sent is in a batch that was submitted once and whose worker has finished. */
  ghost predicate AllDelivered<T>(s: State<T>)
  {
    && Current(s) == []
    && s.sent == Flatten(Batches(s.jobs))
    && forall w: nat :: w < |s.jobs| ==> s.jobs[w].phase.Released? && Occurs(s.submits, w) == 1
  }

  lemma FlushedIsDelivered<T>(s: State<T>)
    requires Inv(s) && Flushing(s) && Idle(s)
    ensures AllDelivered(s)
  {
    FifoOfInv(s);
    assert Current(s) == ItemsOf(Consumer(s)) == [];
    assert Flatten(Batches(s.jobs)) + [] + [] == Flatten(Batches(s.jobs));
    forall w: nat | w < |s.jobs|
      ensures Occurs(s.submits, w) == 1
    {
      assert Occurs(s.submits, w) == Once(s.jobs, w);
    }
  }

  lemma TickFlushes<T>(s: State<T>, t: nat)
    requires OneConsumer(s) && Idle(s) && !s.cancelled && CanLoop(s, t, Tick)
    ensures Flushing(LoopStep(s, t, Tick))
  {
    ConsumerIsOwner(s, t, Tick);
  }

  /** One tick clears an idle queue: once the queue is idle again, everything ever sent has been delivered to Submit. */
  lemma OneTickClears<T>(cfg: Config, steps: seq<Step<T>>, t: nat, more: seq<Step<T>>)
    requires RunOf(cfg, steps) && Idle(Reached(cfg, steps)) && !Reached(cfg, steps).cancelled
    requires CanLoop(Reached(cfg, steps), t, Tick)
    requires Run(LoopStep(Reached(cfg, steps), t, Tick), more) && AllDrain(more)
    requires Idle(After(LoopStep(Reached(cfg, steps), t, Tick), more))
    ensures AllDelivered(After(LoopStep(Reached(cfg, steps), t, Tick), more))
  {
    var s := Reached(cfg, steps);
    ReachedHasInv(cfg, steps);
    ConsumerKeepsInv(s, t, Tick);
    TickFlushes(s, t);
    DrainRunKeepsFlushing(LoopStep(s, t, Tick), more);
    FlushedIsDelivered(After(LoopStep(s, t, Tick), more));
  }
}
