/**
  internal/queue/queue.go as a concurrent machine: goroutines that call AddItem, goroutines
  that call Start, one goroutine for each batch handed over, the channel, the semaphore and
  the mutex. A step is one access to shared state, so a run is any interleaving of them.
  Go channels are FIFO and bounded, and Acquire fails only when the context is done.
 */
module QueueMachine {
  import opened BatchLoop
  import opened Options

  const DEFAULT_BATCH_SIZE: int := 10
  const DEFAULT_WORKER_POOL_SIZE: int := 10
  const DEFAULT_CHANNEL_SIZE: int := 100

  /** A goroutine in AddItem: not there, before the length check, or past it and not yet sent. */
  datatype Producer<+T> = Out | Calling(item: T) | Cleared(item: T)

  /** Why the consumer is in submitItems, with what it read on the way. */
  datatype Cause<+T> = ByItem(item: T, size: int, queued: nat) | ByTick

  /** Where the consumer is in its loop. */
  datatype Pc<+T> =
    | Selecting
    | Holding(item: T)             // received, not yet appended
    | Sizing(item: T)              // appended, about to compare with BatchSize
    | Emptying(item: T, size: int) // shorter than BatchSize, about to look at the channel
    | Acquiring(cause: Cause<T>)
    | Permitted(cause: Cause<T>)   // has the permit, worker not yet started
    | Spawned(cause: Cause<T>)     // worker started, slice not yet replaced

  /** A goroutine that calls Start. */
  datatype Thread<+T> =
    | NotCalled
    | AtLock
    | Guarded                      // holds the mutex, about to test `started`
    | Turned                       // found `started` set and returned
    | Looping(pc: Pc<T>, items: seq<T>)
    | Stopped(items: seq<T>)       // returned because the context is done

  datatype Phase = Ready | Submitting | Returned(ok: bool) | Released(ok: bool)

  /** A worker goroutine and its batch. */
  datatype Job<+T> = Job(batch: seq<T>, phase: Phase)

  datatype State<T> = State(
    cap: nat, pool: nat, onEmpty: bool, batchSize: int,
    channel: seq<T>, producers: seq<Producer<T>>, threads: seq<Thread<T>>,
    lock: Option<nat>, started: bool, permits: nat, jobs: seq<Job<T>>, cancelled: bool,
    droppedItems: nat, submitErrors: nat,
    // Histories, which no step reads: the items of the AddItem calls, those dropped, those
    // sent; the goroutine that set `started`; the rounds it completed; the calls of Submit;
    // the largest BatchSize so far.
    offered: seq<T>, dropped: seq<T>, sent: seq<T>,
    owner: Option<nat>, script: seq<Signal<T>>, submits: seq<nat>, largest: int)

  function OrDefault(n: int, default: int): (r: int)
    ensures n > 0 ==> r == n
    ensures n <= 0 ==> r == default
  {
    if n <= 0 then default else n
  }

  datatype QueueConfig = QueueConfig(channelSize: int, workerPoolSize: int, batchSize: int, onEmpty: bool)

  /** NewQueue, with room for any numbers of goroutines on either side. */
  function NewQueue<T>(q: QueueConfig, producers: nat, threads: nat): (s: State<T>)
    ensures s.cap > 0 && s.pool > 0 && s.batchSize > 0
  {
    var cap := OrDefault(q.channelSize, DEFAULT_CHANNEL_SIZE);
    var pool := OrDefault(q.workerPoolSize, DEFAULT_WORKER_POOL_SIZE);
    var size := OrDefault(q.batchSize, DEFAULT_BATCH_SIZE);
    State(cap, pool, q.onEmpty, size, [], seq(producers, i => Out), seq(threads, i => NotCalled),
          None, false, pool, [], false, 0, 0, [], [], [], None, [], [], size)
  }

  datatype AddOp<+T> =
    | Offer(x: T)                  // AddItem is called
    | CheckLength                  // the length check, and the drop when it fails
    | Send

  datatype StartOp =
    | CallStart
    | Lock
    | TestStarted                  // test, set and unlock

  datatype LoopOp =
    | Receive | Append | TestSize | TestEmpty | Tick
    | Acquire | AcquireFails | Spawn | Reset | Stop

  datatype WorkOp = CallSubmit | SubmitReturns(result: bool) | Release

  datatype Step<+T> =
    | ByProducer(p: nat, add: AddOp<T>)
    | ByStarter(t: nat, start: StartOp)
    | ByConsumer(c: nat, loop: LoopOp)
    | ByWorker(w: nat, work: WorkOp)
    | SetBatchSize(size: int)
    | Cancel

  // Producers

  predicate CanAdd<T>(s: State<T>, p: nat, op: AddOp<T>)
  {
    p < |s.producers| &&
    match op
    case Offer(_) => s.producers[p].Out?
    case CheckLength => s.producers[p].Calling?
    case Send => s.producers[p].Cleared? && |s.channel| < s.cap
  }

  function Add<T>(s: State<T>, p: nat, op: AddOp<T>): State<T>
    requires CanAdd(s, p, op)
  {
    match op
    case Offer(x) =>
      s.(producers := s.producers[p := Calling(x)], offered := s.offered + [x])
    case CheckLength =>
      var x := s.producers[p].item;
      if |s.channel| < s.cap then s.(producers := s.producers[p := Cleared(x)])
      else s.(producers := s.producers[p := Out], droppedItems := s.droppedItems + 1, dropped := s.dropped + [x])
    case Send =>
      var x := s.producers[p].item;
      s.(producers := s.producers[p := Out], channel := s.channel + [x], sent := s.sent + [x])
  }

  // Calls of Start

  predicate CanStart<T>(s: State<T>, t: nat, op: StartOp)
  {
    t < |s.threads| &&
    match op
    case CallStart => s.threads[t].NotCalled?
    case Lock => s.threads[t].AtLock? && s.lock.None?
    case TestStarted => s.threads[t].Guarded?
  }

  function SetThread<T>(s: State<T>, t: nat, thread: Thread<T>): State<T>
    requires t < |s.threads|
  {
    s.(threads := s.threads[t := thread])
  }

  function Start<T>(s: State<T>, t: nat, op: StartOp): State<T>
    requires CanStart(s, t, op)
  {
    match op
    case CallStart => SetThread(s, t, AtLock)
    case Lock => SetThread(s, t, Guarded).(lock := Some(t))
    case TestStarted =>
      if s.started then SetThread(s, t, Turned).(lock := None)
      else SetThread(s, t, Looping(Selecting, [])).(lock := None, started := true, owner := Some(t))
  }

  // The consumer

  predicate CanLoop<T>(s: State<T>, t: nat, op: LoopOp)
  {
    t < |s.threads| && s.threads[t].Looping? &&
    var pc := s.threads[t].pc;
    match op
    case Receive => pc.Selecting? && s.channel != []
    case Append => pc.Holding? && s.lock.None?
    case TestSize => pc.Sizing?
    case TestEmpty => pc.Emptying?
    case Tick => pc.Selecting?
    case Acquire => pc.Acquiring? && s.permits > 0
    case AcquireFails => pc.Acquiring? && s.cancelled
    case Spawn => pc.Permitted?
    case Reset => pc.Spawned? && s.lock.None?
    case Stop => pc.Selecting? && s.cancelled
  }

  function SignalOf<T>(cause: Cause<T>, granted: bool): Signal<T>
  {
    match cause
    case ByItem(item, size, queued) => Got(item, size, queued, granted)
    case ByTick => Ticked(granted)
  }

  /** What a step of the consumer leaves behind, and the round it ends, if it ends one. */
  datatype Move<T> = Move(thread: Thread<T>, channel: seq<T>, permits: nat, jobs: seq<Job<T>>, ended: Option<Signal<T>>)

  function LoopMove<T>(s: State<T>, t: nat, op: LoopOp): Move<T>
    requires CanLoop(s, t, op)
  {
    var pc, items := s.threads[t].pc, s.threads[t].items;
    match op
    case Receive => Move(Looping(Holding(s.channel[0]), items), s.channel[1..], s.permits, s.jobs, None)
    case Append => Within(s, Sizing(pc.item), items + [pc.item])
    case TestSize =>
      if |items| >= s.batchSize then Within(s, Acquiring(ByItem(pc.item, s.batchSize, |s.channel|)), items)
      else Within(s, Emptying(pc.item, s.batchSize), items)
    case TestEmpty =>
      var cause := ByItem(pc.item, pc.size, |s.channel|);
      if s.onEmpty && s.channel == [] then Within(s, Acquiring(cause), items)
      else EndRound(s, items, SignalOf(cause, true))
    case Tick =>
      if items == [] then EndRound(s, items, Ticked(true)) else Within(s, Acquiring(ByTick), items)
    case Acquire => Move(Looping(Permitted(pc.cause), items), s.channel, s.permits - 1, s.jobs, None)
    case AcquireFails => EndRound(s, items, SignalOf(pc.cause, false))
    case Spawn => Move(Looping(Spawned(pc.cause), items), s.channel, s.permits, s.jobs + [Job(items, Ready)], None)
    case Reset => EndRound(s, [], SignalOf(pc.cause, true))
    case Stop => Move(Stopped(items), s.channel, s.permits, s.jobs, None)
  }

  /** A move inside the round that touches nothing shared. */
  function Within<T>(s: State<T>, pc: Pc<T>, items: seq<T>): Move<T>
  {
    Move(Looping(pc, items), s.channel, s.permits, s.jobs, None)
  }

  /** Back to the select. */
  function EndRound<T>(s: State<T>, items: seq<T>, signal: Signal<T>): Move<T>
  {
    Move(Looping(Selecting, items), s.channel, s.permits, s.jobs, Some(signal))
  }

  function LoopStep<T>(s: State<T>, t: nat, op: LoopOp): State<T>
    requires CanLoop(s, t, op)
  {
    var m := LoopMove(s, t, op);
    s.(threads := s.threads[t := m.thread], channel := m.channel, permits := m.permits, jobs := m.jobs,
       script := if m.ended.Some? then s.script + [m.ended.value] else s.script)
  }

  // Workers

  predicate CanWork<T>(s: State<T>, w: nat, op: WorkOp)
  {
    w < |s.jobs| &&
    match op
    case CallSubmit => s.jobs[w].phase.Ready?
    case SubmitReturns(_) => s.jobs[w].phase.Submitting?
    case Release => s.jobs[w].phase.Returned?
  }

  function SetPhase<T>(s: State<T>, w: nat, phase: Phase): State<T>
    requires w < |s.jobs|
  {
    s.(jobs := s.jobs[w := Job(s.jobs[w].batch, phase)])
  }

  function Work<T>(s: State<T>, w: nat, op: WorkOp): State<T>
    requires CanWork(s, w, op)
  {
    match op
    case CallSubmit => SetPhase(s, w, Submitting).(submits := s.submits + [w])
    case SubmitReturns(ok) =>
      SetPhase(s, w, Returned(ok)).(submitErrors := s.submitErrors + if ok then 0 else 1)
    case Release => SetPhase(s, w, Released(s.jobs[w].phase.ok)).(permits := s.permits + 1)
  }

  // All together

  function Max(a: int, b: int): int
  {
    if a < b then b else a
  }

  predicate Enabled<T>(s: State<T>, step: Step<T>)
  {
    match step
    case ByProducer(p, op) => CanAdd(s, p, op)
    case ByStarter(t, op) => CanStart(s, t, op)
    case ByConsumer(t, op) => CanLoop(s, t, op)
    case ByWorker(w, op) => CanWork(s, w, op)
    case SetBatchSize(_) => true
    case Cancel => true
  }

  function Apply<T>(s: State<T>, step: Step<T>): State<T>
    requires Enabled(s, step)
  {
    match step
    case ByProducer(p, op) => Add(s, p, op)
    case ByStarter(t, op) => Start(s, t, op)
    case ByConsumer(t, op) => LoopStep(s, t, op)
    case ByWorker(w, op) => Work(s, w, op)
    case SetBatchSize(size) => s.(batchSize := size, largest := Max(s.largest, size))
    case Cancel => s.(cancelled := true)
  }

  /** Every step of the list can be taken where it comes. */
  predicate Run<T>(s: State<T>, steps: seq<Step<T>>)
    decreases |steps|
  {
    steps == [] || (Enabled(s, steps[0]) && Run(Apply(s, steps[0]), steps[1..]))
  }

  function After<T>(s: State<T>, steps: seq<Step<T>>): State<T>
    requires Run(s, steps)
    decreases |steps|
  {
    if steps == [] then s else After(Apply(s, steps[0]), steps[1..])
  }

  /** A run of one step. */
  lemma RunOne<T>(s: State<T>, step: Step<T>)
    requires Enabled(s, step)
    ensures Run(s, [step]) && After(s, [step]) == Apply(s, step)
  {
    var rest := [step][1..];
    assert rest == [] && Run(Apply(s, step), rest) && After(Apply(s, step), rest) == Apply(s, step);
  }

  /** A run in two parts. */
  lemma {:induction false} RunConcat<T>(s: State<T>, a: seq<Step<T>>, b: seq<Step<T>>)
    requires Run(s, a) && Run(After(s, a), b)
    ensures Run(s, a + b) && After(s, a + b) == After(After(s, a), b)
    decreases |a|
  {
    if a == [] {
      assert a + b == b;
    } else {
      RunConcat(Apply(s, a[0]), a[1..], b);
      assert (a + b)[1..] == a[1..] + b && (a + b)[0] == a[0];
    }
  }
}
