/** What holds in every state that any interleaving of the queue's goroutines can reach. */
module QueueSafety {
  import opened BatchLoop
  import opened Options
  import opened QueueMachine
  import opened Sequences

  // One consumer

  predicate InOrOut<T>(thread: Thread<T>)
  {
    thread.Looping? || thread.Stopped?
  }

  /** The mutex and `started` let one goroutine into the loop, however many call Start. */
  ghost predicate OneConsumer<T>(s: State<T>)
  {
    && (s.lock.Some? ==> s.lock.value < |s.threads| && s.threads[s.lock.value].Guarded?)
    && (s.owner.Some? ==> s.owner.value < |s.threads| && InOrOut(s.threads[s.owner.value]))
    && (s.started <==> s.owner.Some?)
    && (forall t :: 0 <= t < |s.threads| && s.threads[t].Guarded? ==> s.lock == Some(t))
    && (forall t :: 0 <= t < |s.threads| && InOrOut(s.threads[t]) ==> s.owner == Some(t))
    && (forall t :: 0 <= t < |s.threads| && s.threads[t].Turned? ==> s.started)
  }

  lemma StarterKeepsOneConsumer<T>(s: State<T>, t: nat, op: StartOp)
    requires OneConsumer(s) && CanStart(s, t, op)
    ensures OneConsumer(Start(s, t, op))
  {
  }

  lemma ConsumerStaysInOrOut<T>(s: State<T>, t: nat, op: LoopOp)
    requires CanLoop(s, t, op)
    ensures InOrOut(LoopMove(s, t, op).thread)
  {
  }

  lemma ConsumerKeepsOneConsumer<T>(s: State<T>, t: nat, op: LoopOp)
    requires OneConsumer(s) && CanLoop(s, t, op)
    ensures OneConsumer(LoopStep(s, t, op))
  {
    ConsumerStaysInOrOut(s, t, op);
    SetThreadKeepsOneConsumer(s, t, LoopMove(s, t, op).thread);
  }

  lemma SetThreadKeepsOneConsumer<T>(s: State<T>, t: nat, thread: Thread<T>)
    requires OneConsumer(s) && t < |s.threads| && InOrOut(s.threads[t]) && InOrOut(thread)
    ensures OneConsumer(SetThread(s, t, thread))
  {
  }

  /** The goroutine in the loop, or the one that was in it. */
  function Consumer<T>(s: State<T>): Thread<T>
  {
    if s.owner.Some? && s.owner.value < |s.threads| then s.threads[s.owner.value] else NotCalled
  }

  // The consumer runs the loop

  function Batches<T>(jobs: seq<Job<T>>): (r: seq<seq<T>>)
    ensures |r| == |jobs|
    ensures forall w :: 0 <= w < |jobs| ==> r[w] == jobs[w].batch
  {
    seq(|jobs|, w requires 0 <= w < |jobs| => jobs[w].batch)
  }

  function ItemsOf<T>(thread: Thread<T>): seq<T>
  {
    match thread
    case Looping(_, items) => items
    case Stopped(items) => items
    case _ => []
  }

  function CauseItem<T>(cause: Cause<T>): seq<T>
  {
    match cause case ByItem(x, _, _) => [x] case ByTick => []
  }

  /** The item that the current round has appended to the batch. */
  function Appended<T>(thread: Thread<T>): seq<T>
  {
    match thread
    case Looping(Sizing(x), _) => [x]
    case Looping(Emptying(x, _), _) => [x]
    case Looping(Acquiring(cause), _) => CauseItem(cause)
    case Looping(Permitted(cause), _) => CauseItem(cause)
    case Looping(Spawned(cause), _) => CauseItem(cause)
    case _ => []
  }

  /** The worker has the batch and the consumer still points at it. */
  predicate HandedOff<T>(thread: Thread<T>)
  {
    thread.Looping? && thread.pc.Spawned?
  }

  predicate Due<T>(n: nat, cause: Cause<T>, onEmpty: bool)
  {
    n > 0 && match cause case ByItem(_, size, queued) => Ripe(n, size, onEmpty, queued) case ByTick => true
  }

  /** What the tests of the current round have shown. */
  predicate Tested<T>(thread: Thread<T>, onEmpty: bool)
  {
    match thread
    case Looping(Sizing(_), items) => items != []
    case Looping(Emptying(_, size), items) => 0 < |items| < size
    case Looping(Acquiring(cause), items) => Due(|items|, cause, onEmpty)
    case Looping(Permitted(cause), items) => Due(|items|, cause, onEmpty)
    case Looping(Spawned(cause), items) => Due(|items|, cause, onEmpty)
    case _ => true
  }

  /** The batches and the consumer's slice are those of the sequential loop's progress and the round under way. */
  ghost predicate InStep<T>(p: Progress<T>, thread: Thread<T>, batches: seq<seq<T>>, onEmpty: bool)
  {
    && ItemsOf(thread) == p.current + Appended(thread)
    && batches == p.handed + (if HandedOff(thread) then [ItemsOf(thread)] else [])
    && Tested(thread, onEmpty)
  }

  ghost predicate RunsLoop<T>(s: State<T>)
  {
    InStep(Loop(s.script, s.onEmpty), Consumer(s), Batches(s.jobs), s.onEmpty)
  }

  lemma StarterKeepsRunsLoop<T>(s: State<T>, t: nat, op: StartOp)
    requires OneConsumer(s) && RunsLoop(s) && CanStart(s, t, op)
    ensures RunsLoop(Start(s, t, op))
  {
    assert ItemsOf(Consumer(Start(s, t, op))) == ItemsOf(Consumer(s));
  }

  lemma ConsumerIsOwner<T>(s: State<T>, t: nat, op: LoopOp)
    requires OneConsumer(s) && CanLoop(s, t, op)
    ensures s.owner == Some(t) && Consumer(s) == s.threads[t]
    ensures Consumer(LoopStep(s, t, op)) == LoopMove(s, t, op).thread
  {
  }

  /** One move of the consumer against one round of the sequential loop, or none. */
  lemma MoveInStep<T>(s: State<T>, t: nat, op: LoopOp, p: Progress<T>)
    requires CanLoop(s, t, op) && InStep(p, s.threads[t], Batches(s.jobs), s.onEmpty)
    ensures var m := LoopMove(s, t, op);
      InStep(if m.ended.Some? then Round(p, m.ended.value, s.onEmpty) else p, m.thread, Batches(m.jobs), s.onEmpty)
  {
    assert p.current + [] == p.current && p.handed + [] == p.handed;
    if op.Spawn? {
      assert Batches(LoopMove(s, t, op).jobs) == Batches(s.jobs) + [s.threads[t].items];
    }
  }

  lemma ConsumerKeepsRunsLoop<T>(s: State<T>, t: nat, op: LoopOp)
    requires OneConsumer(s) && RunsLoop(s) && CanLoop(s, t, op)
    ensures RunsLoop(LoopStep(s, t, op))
  {
    var m := LoopMove(s, t, op);
    ConsumerIsOwner(s, t, op);
    MoveInStep(s, t, op, Loop(s.script, s.onEmpty));
    if m.ended.Some? {
      LoopSnoc(s.script, m.ended.value, s.onEmpty);
    }
  }

  // First in, first out

  /** The item that the current round has taken from the channel. */
  function InRound<T>(thread: Thread<T>): seq<T>
  {
    match thread
    case Looping(Holding(x), _) => [x]
    case _ => Appended(thread)
  }

  ghost predicate InOrder<T>(s: State<T>)
  {
    && s.sent == Received(s.script) + InRound(Consumer(s)) + s.channel
    && |s.channel| <= s.cap && s.cap > 0
    && s.droppedItems == |s.dropped|
  }

  function EndedItem<T>(m: Move<T>): seq<T>
  {
    if m.ended.Some? && m.ended.value.Got? then [m.ended.value.item] else []
  }

  lemma MoveInOrder<T>(s: State<T>, t: nat, op: LoopOp)
    requires CanLoop(s, t, op)
    ensures var m := LoopMove(s, t, op);
      EndedItem(m) + InRound(m.thread) + m.channel == InRound(s.threads[t]) + s.channel
    ensures |LoopMove(s, t, op).channel| <= |s.channel|
  {
    var none: seq<T> := [];
    assert none + none + s.channel == s.channel;
    if op.Receive? {
      var x, rest := s.channel[0], s.channel[1..];
      assert none + [x] + rest == s.channel && none + s.channel == s.channel;
    } else {
      var m := LoopMove(s, t, op);
      assert m.channel == s.channel;
      assert EndedItem(m) + InRound(m.thread) == InRound(s.threads[t]);
    }
  }

  lemma Regroup<T>(r: seq<T>, a: seq<T>, b: seq<T>, c: seq<T>, d: seq<T>, e: seq<T>)
    requires a + b + c == d + e
    ensures r + a + b + c == r + d + e
  {
    assert r + a + b + c == r + (a + b + c);
    assert r + d + e == r + (d + e);
  }

  lemma ConsumerKeepsInOrder<T>(s: State<T>, t: nat, op: LoopOp)
    requires OneConsumer(s) && InOrder(s) && CanLoop(s, t, op)
    ensures InOrder(LoopStep(s, t, op))
  {
    var m := LoopMove(s, t, op);
    ConsumerIsOwner(s, t, op);
    MoveInOrder(s, t, op);
    Regroup(Received(s.script), EndedItem(m), InRound(m.thread), m.channel, InRound(s.threads[t]), s.channel);
    ScriptReceives(s.script, m);
  }

  lemma ScriptReceives<T>(script: seq<Signal<T>>, m: Move<T>)
    ensures Received(if m.ended.Some? then script + [m.ended.value] else script) == Received(script) + EndedItem(m)
  {
    if m.ended.Some? {
      ReceivedSnoc(script, m.ended.value);
    }
    assert Received(script) + [] == Received(script);
  }

  lemma ProducerKeepsInOrder<T>(s: State<T>, p: nat, op: AddOp<T>)
    requires InOrder(s) && CanAdd(s, p, op)
    ensures InOrder(Add(s, p, op))
  {
    var before := Received(s.script) + InRound(Consumer(s));
    if op.Send? {
      var x := s.producers[p].item;
      assert before + s.channel + [x] == before + (s.channel + [x]);
    }
  }

  lemma StarterKeepsInOrder<T>(s: State<T>, t: nat, op: StartOp)
    requires OneConsumer(s) && InOrder(s) && CanStart(s, t, op)
    ensures InOrder(Start(s, t, op))
  {
    assert InRound(Consumer(Start(s, t, op))) == InRound(Consumer(s));
  }

  // Workers and permits

  function Unreleased<T>(job: Job<T>): nat
  {
    if job.phase.Released? then 0 else 1
  }

  function Failure<T>(job: Job<T>): nat
  {
    if (job.phase.Returned? || job.phase.Released?) && !job.phase.ok then 1 else 0
  }

  function HoldsPermit<T>(thread: Thread<T>): nat
  {
    if thread.Looping? && thread.pc.Permitted? then 1 else 0
  }

  /** Every permit is free, held by a worker that has not finished, or held between acquire and go. */
  ghost predicate PermitsAddUp<T>(s: State<T>)
  {
    s.permits + Sum(s.jobs, Unreleased) + HoldsPermit(Consumer(s)) == s.pool && s.pool > 0
  }

  lemma ConsumerKeepsPermits<T>(s: State<T>, t: nat, op: LoopOp)
    requires OneConsumer(s) && PermitsAddUp(s) && CanLoop(s, t, op)
    ensures PermitsAddUp(LoopStep(s, t, op))
  {
    ConsumerIsOwner(s, t, op);
    MoveKeepsPermits(s, t, op);
  }

  lemma MoveKeepsPermits<T>(s: State<T>, t: nat, op: LoopOp)
    requires CanLoop(s, t, op)
    ensures var m := LoopMove(s, t, op);
      m.permits + Sum(m.jobs, Unreleased) + HoldsPermit(m.thread) ==
      s.permits + Sum(s.jobs, Unreleased) + HoldsPermit(s.threads[t])
  {
    hide Sum;
    if op.Spawn? {
      SumSnoc(s.jobs, Job(s.threads[t].items, Ready), Unreleased);
    }
  }

  lemma WorkerKeepsPermits<T>(s: State<T>, w: nat, op: WorkOp)
    requires PermitsAddUp(s) && CanWork(s, w, op)
    ensures PermitsAddUp(Work(s, w, op))
  {
    SumUpdate(s.jobs, w, Work(s, w, op).jobs[w], Unreleased);
  }

  lemma StarterKeepsPermits<T>(s: State<T>, t: nat, op: StartOp)
    requires OneConsumer(s) && PermitsAddUp(s) && CanStart(s, t, op)
    ensures PermitsAddUp(Start(s, t, op))
  {
    assert HoldsPermit(Consumer(Start(s, t, op))) == HoldsPermit(Consumer(s));
  }

  lemma ConsumerAddsReadyJobs<T>(s: State<T>, t: nat, op: LoopOp)
    requires CanLoop(s, t, op)
    ensures var jobs := LoopStep(s, t, op).jobs;
      jobs == s.jobs || (|jobs| == |s.jobs| + 1 && jobs[..|s.jobs|] == s.jobs && jobs[|s.jobs|].phase.Ready?)
  {
  }

  function Once<T>(jobs: seq<Job<T>>, w: nat): nat
  {
    if w < |jobs| && !jobs[w].phase.Ready? then 1 else 0
  }

  /** Each job calls Submit once, when its worker runs, and SubmitErrors counts the failed ones. */
  ghost predicate SubmitsOnce<T>(s: State<T>)
  {
    && (forall w: nat :: Occurs(s.submits, w) == Once(s.jobs, w))
    && s.submitErrors == Sum(s.jobs, Failure)
  }

  lemma WorkerKeepsSubmitsOnce<T>(s: State<T>, w: nat, op: WorkOp)
    requires SubmitsOnce(s) && CanWork(s, w, op)
    ensures SubmitsOnce(Work(s, w, op))
  {
    var s' := Work(s, w, op);
    SumUpdate(s.jobs, w, s'.jobs[w], Failure);
    forall v: nat
      ensures Occurs(s'.submits, v) == Once(s'.jobs, v)
    {
      OccursSnoc(s.submits, w, v);
    }
  }

  lemma ConsumerKeepsSubmitsOnce<T>(s: State<T>, t: nat, op: LoopOp)
    requires SubmitsOnce(s) && CanLoop(s, t, op)
    ensures SubmitsOnce(LoopStep(s, t, op))
  {
    if op.Spawn? {
      SumSnoc(s.jobs, Job(s.threads[t].items, Ready), Failure);
    }
  }

  // Producers

  ghost function HeldBy<T>(producer: Producer<T>, x: T): nat
  {
    if !producer.Out? && producer.item == x then 1 else 0
  }

  /** How often an item is held by calls of AddItem that are under way. */
  ghost function Held<T>(producers: seq<Producer<T>>, x: T): nat
    decreases |producers|
  {
    if producers == [] then 0
    else Held(producers[..|producers| - 1], x) + HeldBy(producers[|producers| - 1], x)
  }

  lemma {:induction false} HeldUpdate<T>(producers: seq<Producer<T>>, p: nat, producer: Producer<T>, x: T)
    requires p < |producers|
    ensures Held(producers[p := producer], x) + HeldBy(producers[p], x) == Held(producers, x) + HeldBy(producer, x)
    decreases |producers|
  {
    var n := |producers| - 1;
    if p < n {
      HeldUpdate(producers[..n], p, producer, x);
      assert producers[p := producer][..n] == producers[..n][p := producer];
    } else {
      assert producers[p := producer][..n] == producers[..n];
    }
  }

  /** Each item offered is dropped, held by a producer or sent, as often as it was offered. */
  ghost predicate OffersAddUp<T>(s: State<T>, x: T)
  {
    Occurs(s.offered, x) == Occurs(s.dropped, x) + Held(s.producers, x) + Occurs(s.sent, x)
  }

  lemma ProducerKeepsOffers<T>(s: State<T>, p: nat, op: AddOp<T>, x: T)
    requires OffersAddUp(s, x) && CanAdd(s, p, op)
    ensures OffersAddUp(Add(s, p, op), x)
  {
    HeldUpdate(s.producers, p, Add(s, p, op).producers[p], x);
    if op.Offer? {
      OccursSnoc(s.offered, op.x, x);
    } else {
      OccursSnoc(s.dropped, s.producers[p].item, x);
      OccursSnoc(s.sent, s.producers[p].item, x);
    }
  }

  lemma {:induction false} RunKeepsOffers<T>(s: State<T>, steps: seq<Step<T>>, x: T)
    requires OffersAddUp(s, x) && Run(s, steps)
    ensures OffersAddUp(After(s, steps), x)
    decreases |steps|
  {
    if steps != [] {
      if steps[0].ByProducer? {
        ProducerKeepsOffers(s, steps[0].p, steps[0].add, x);
      }
      RunKeepsOffers(Apply(s, steps[0]), steps[1..], x);
    }
  }

  /** Only producers touch the calls of AddItem and what they have come to. */
  ghost predicate SameProducers<T>(s: State<T>, end: State<T>)
  {
    && end.producers == s.producers && end.offered == s.offered && end.dropped == s.dropped && end.sent == s.sent
    && end.droppedItems == s.droppedItems
  }

  lemma ConsumerLeavesProducers<T>(s: State<T>, t: nat, op: LoopOp)
    requires CanLoop(s, t, op)
    ensures SameProducers(s, LoopStep(s, t, op))
  {
  }

  lemma WorkerLeavesProducers<T>(s: State<T>, w: nat, op: WorkOp)
    requires CanWork(s, w, op)
    ensures SameProducers(s, Work(s, w, op))
    ensures Work(s, w, op).channel == s.channel && Work(s, w, op).cap == s.cap
  {
  }

  lemma StarterLeavesProducers<T>(s: State<T>, t: nat, op: StartOp)
    requires CanStart(s, t, op)
    ensures SameProducers(s, Start(s, t, op))
    ensures Start(s, t, op).channel == s.channel && Start(s, t, op).cap == s.cap && Start(s, t, op).jobs == s.jobs
  {
  }

  // Sizes

  predicate CauseWithin<T>(cause: Cause<T>, bound: int)
  {
    cause.ByItem? ==> cause.size <= bound
  }

  /** The BatchSize that the round has read is not above the bound. */
  predicate ReadWithin<T>(thread: Thread<T>, bound: int)
  {
    match thread
    case Looping(Emptying(_, size), _) => size <= bound
    case Looping(Acquiring(cause), _) => CauseWithin(cause, bound)
    case Looping(Permitted(cause), _) => CauseWithin(cause, bound)
    case Looping(Spawned(cause), _) => CauseWithin(cause, bound)
    case _ => true
  }

  ghost predicate SizesKnown<T>(s: State<T>)
  {
    && s.batchSize <= s.largest
    && ReadWithin(Consumer(s), s.largest)
    && SizesUpTo(s.script, s.largest)
    && (!s.cancelled ==> AllGranted(s.script))
  }

  lemma ConsumerKeepsSizes<T>(s: State<T>, t: nat, op: LoopOp)
    requires OneConsumer(s) && SizesKnown(s) && CanLoop(s, t, op)
    ensures SizesKnown(LoopStep(s, t, op))
  {
    ConsumerIsOwner(s, t, op);
    var m := LoopMove(s, t, op);
    assert ReadWithin(m.thread, s.largest);
    assert m.ended.Some? && m.ended.value.Got? ==> m.ended.value.size <= s.largest;
    assert m.ended.Some? && !s.cancelled ==> m.ended.value.granted;
  }

  lemma StarterKeepsSizes<T>(s: State<T>, t: nat, op: StartOp)
    requires OneConsumer(s) && SizesKnown(s) && CanStart(s, t, op)
    ensures SizesKnown(Start(s, t, op))
  {
    assert ReadWithin(Consumer(Start(s, t, op)), s.largest);
  }

  // Stranding

  predicate LeftBehind<T>(thread: Thread<T>)
  {
    thread.Looping? && thread.pc.Selecting? && thread.items != []
  }

  /** With submit-on-empty, a partial batch waits at the select only while the channel has more. */
  ghost predicate NoneStranded<T>(s: State<T>)
  {
    && (s.onEmpty && !s.cancelled && LeftBehind(Consumer(s)) ==> s.channel != [])
    && (Consumer(s).Stopped? ==> s.cancelled)
  }

  lemma ConsumerKeepsNoneStranded<T>(s: State<T>, t: nat, op: LoopOp)
    requires OneConsumer(s) && NoneStranded(s) && CanLoop(s, t, op)
    ensures NoneStranded(LoopStep(s, t, op))
  {
    ConsumerIsOwner(s, t, op);
  }

  lemma StarterKeepsNoneStranded<T>(s: State<T>, t: nat, op: StartOp)
    requires OneConsumer(s) && NoneStranded(s) && CanStart(s, t, op)
    ensures NoneStranded(Start(s, t, op))
  {
    assert LeftBehind(Consumer(Start(s, t, op))) == LeftBehind(Consumer(s));
    assert Consumer(Start(s, t, op)).Stopped? == Consumer(s).Stopped?;
  }

  // All together

  ghost predicate Inv<T>(s: State<T>)
  {
    OneConsumer(s) && RunsLoop(s) && InOrder(s) && PermitsAddUp(s) && SubmitsOnce(s)
    && SizesKnown(s) && NoneStranded(s)
  }

  lemma ProducerKeepsLoop<T>(s: State<T>, p: nat, op: AddOp<T>)
    requires CanAdd(s, p, op)
    ensures OneConsumer(s) ==> OneConsumer(Add(s, p, op))
    ensures RunsLoop(s) ==> RunsLoop(Add(s, p, op))
    ensures NoneStranded(s) ==> NoneStranded(Add(s, p, op))
  {
    hide Loop, InStep, InOrOut;
    var s' := Add(s, p, op);
    assert s'.threads == s.threads && s'.owner == s.owner && s'.jobs == s.jobs && s'.script == s.script;
    assert s.channel != [] ==> s'.channel != [];
  }

  lemma ProducerKeepsCounts<T>(s: State<T>, p: nat, op: AddOp<T>)
    requires CanAdd(s, p, op)
    ensures PermitsAddUp(s) ==> PermitsAddUp(Add(s, p, op))
    ensures SubmitsOnce(s) ==> SubmitsOnce(Add(s, p, op))
    ensures SizesKnown(s) ==> SizesKnown(Add(s, p, op))
  {
  }

  lemma ProducerKeepsInv<T>(s: State<T>, p: nat, op: AddOp<T>)
    requires Inv(s) && CanAdd(s, p, op)
    ensures Inv(Add(s, p, op))
  {
    ProducerKeepsLoop(s, p, op);
    ProducerKeepsCounts(s, p, op);
    ProducerKeepsInOrder(s, p, op);
  }

  lemma StarterKeepsInv<T>(s: State<T>, t: nat, op: StartOp)
    requires Inv(s) && CanStart(s, t, op)
    ensures Inv(Start(s, t, op))
  {
    StarterKeepsOneConsumer(s, t, op);
    StarterKeepsRunsLoop(s, t, op);
    StarterKeepsInOrder(s, t, op);
    StarterKeepsPermits(s, t, op);
    StarterKeepsSizes(s, t, op);
    StarterKeepsNoneStranded(s, t, op);
  }

  lemma ConsumerKeepsInv<T>(s: State<T>, t: nat, op: LoopOp)
    requires Inv(s) && CanLoop(s, t, op)
    ensures Inv(LoopStep(s, t, op))
  {
    ConsumerKeepsOneConsumer(s, t, op);
    ConsumerKeepsRunsLoop(s, t, op);
    ConsumerKeepsInOrder(s, t, op);
    ConsumerKeepsPermits(s, t, op);
    ConsumerKeepsSubmitsOnce(s, t, op);
    ConsumerKeepsSizes(s, t, op);
    ConsumerKeepsNoneStranded(s, t, op);
  }

  lemma WorkerKeepsBatches<T>(s: State<T>, w: nat, op: WorkOp)
    requires CanWork(s, w, op)
    ensures Batches(Work(s, w, op).jobs) == Batches(s.jobs)
  {
  }

  lemma WorkerKeepsInv<T>(s: State<T>, w: nat, op: WorkOp)
    requires Inv(s) && CanWork(s, w, op)
    ensures Inv(Work(s, w, op))
  {
    WorkerKeepsBatches(s, w, op);
    WorkerKeepsPermits(s, w, op);
    WorkerKeepsSubmitsOnce(s, w, op);
  }

  lemma StepKeepsInv<T>(s: State<T>, step: Step<T>)
    requires Inv(s) && Enabled(s, step)
    ensures Inv(Apply(s, step))
  {
    match step
    case ByProducer(p, op) => ProducerKeepsInv(s, p, op);
    case ByStarter(t, op) => StarterKeepsInv(s, t, op);
    case ByConsumer(t, op) => ConsumerKeepsInv(s, t, op);
    case ByWorker(w, op) => WorkerKeepsInv(s, w, op);
    case SetBatchSize(_) =>
    case Cancel =>
  }

  lemma {:induction false} RunKeepsInv<T>(s: State<T>, steps: seq<Step<T>>)
    requires Inv(s) && Run(s, steps)
    ensures Inv(After(s, steps))
    decreases |steps|
  {
    if steps != [] {
      StepKeepsInv(s, steps[0]);
      RunKeepsInv(Apply(s, steps[0]), steps[1..]);
    }
  }
}
