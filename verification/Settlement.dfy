/**
  What has become of a message when the queue in front of a dispatcher has nothing left to
  do, and when a message can be gone without a trace.
 */
module Settlement {
  import opened Batch
  import opened Dispatcher
  import opened EndToEnd
  import opened Int32
  import opened Kinesis
  import opened Messages
  import opened QueueGuarantees
  import opened QueueMachine
  import opened QueueProgress
  import opened QueueResizing
  import opened QueueSafety
  import opened Sender
  import opened Sequences

  ghost predicate AllHonest(services: nat -> Service)
  {
    forall w: nat :: Honest(services(w))
  }

  /** At rest, with nothing left in the queue. */
  ghost predicate Cleared(s: State<Message>)
  {
    Idle(s) && AllDelivered(s)
  }

  /** How often streams acknowledged the record that a message becomes; never, if it becomes none. */
  ghost function Acked(env: Setting, jobs: seq<Job<Message>>, m: Message): nat
  {
    match EntryOf(env.codec, m) case None => 0 case Some(e) => AckedRecords(env, jobs, e)
  }

  /** A message was offered more often than it was dropped at a full channel, acknowledged, or in a batch counted as lost. */
  ghost predicate LostSilently(env: Setting, s: State<Message>, m: Message)
  {
    Occurs(s.offered, m) > Occurs(s.dropped, m) + Acked(env, s.jobs, m) + Occurs(ItemsWith(s.jobs, Failed), m)
  }

  /**
    Each time m was offered it was dropped at a full channel, is in a batch that succeeded or
    in one counted as lost. It was lost silently exactly if it does not marshal and is in a
    batch that succeeded.
   */
  ghost predicate Settled(env: Setting, id: string, s: State<Message>, m: Message)
  {
    && Occurs(s.offered, m) == Occurs(s.dropped, m)
       + Occurs(ItemsWith(s.jobs, Succeeded), m) + Occurs(ItemsWith(s.jobs, Failed), m)
    && SuccessesDelivered(env, s.jobs)
    && LostBy(env, id, s.jobs) == |ItemsWith(s.jobs, Failed)|
    && s.droppedItems == |s.dropped|
    && (CountsExact(env, s.jobs) ==>
        (LostSilently(env, s, m) <==> env.codec(m).None? && Occurs(ItemsWith(s.jobs, Succeeded), m) > 0))
  }

  /** When nothing is left in the queue, every message is settled. */
  lemma {:induction false} ClearedIsSettled(env: Setting, id: string, cfg: Config, steps: seq<Step<Message>>, m: Message)
    requires RunOf(cfg, steps) && DispatcherRun(env, New(cfg), steps)
    requires AllHonest(env.services) && Cleared(Reached(cfg, steps))
    ensures Settled(env, id, Reached(cfg, steps), m)
  {
    hide Honest, SuccessesDelivered, LostBy, Occurs, Held, ItemsWith, CountsExact, AckedRecords, Encoded;
    var s := Reached(cfg, steps);
    EveryMessageAccountedFor(env, id, cfg, steps, m);
    NobodyHolds(s.producers, m);
    NothingRuns(s.jobs);
    OccursNot(Current(s), m);
    OccursNot(s.channel, m);
    OccursNot(ItemsWith(s.jobs, Running), m);
    if env.codec(m).Some? {
      EncodedCountsMessage(env.codec, ItemsWith(s.jobs, Succeeded), m);
    }
  }

  lemma {:induction false} NobodyHolds<T>(producers: seq<Producer<T>>, x: T)
    requires forall p :: 0 <= p < |producers| ==> producers[p].Out?
    ensures Held(producers, x) == 0
    decreases |producers|
  {
    if producers != [] {
      NobodyHolds(producers[..|producers| - 1], x);
    }
  }

  lemma {:induction false} NothingRuns<T>(jobs: seq<Job<T>>)
    requires forall w :: 0 <= w < |jobs| ==> jobs[w].phase.Released?
    ensures ItemsWith(jobs, Running) == []
    decreases |jobs|
  {
    if jobs != [] {
      NothingRuns(jobs[..|jobs| - 1]);
    }
  }

  /** A run, one tick and more steps, as one run. */
  lemma TickRun(env: Setting, s: State<Message>, a: seq<Step<Message>>, t: nat, b: seq<Step<Message>>)
    requires Run(s, a) && CanLoop(After(s, a), t, Tick) && Run(LoopStep(After(s, a), t, Tick), b)
    requires DispatcherRun(env, s, a) && DispatcherRun(env, LoopStep(After(s, a), t, Tick), b)
    ensures var all := a + ([ByConsumer(t, Tick)] + b);
      Run(s, all) && After(s, all) == After(LoopStep(After(s, a), t, Tick), b) && DispatcherRun(env, s, all)
  {
    hide LoopStep;
    var mid, tail := After(s, a), [ByConsumer(t, Tick)] + b;
    assert tail[1..] == b && Apply(mid, tail[0]) == LoopStep(mid, t, Tick);
    RunConcat(s, a, tail);
    RunWithConcat(Dispatching(env), s, a, tail);
  }

  /**
    Let any run come to rest, let the timer tick once, and let the queue come to rest again, in
    any order of its steps: then every message ever offered is settled.
   */
  lemma {:induction false} TickSettles(env: Setting, id: string, cfg: Config, steps: seq<Step<Message>>, t: nat,
                                       more: seq<Step<Message>>, m: Message)
    requires RunOf(cfg, steps) && Idle(Reached(cfg, steps)) && !Reached(cfg, steps).cancelled
    requires CanLoop(Reached(cfg, steps), t, Tick)
    requires Run(LoopStep(Reached(cfg, steps), t, Tick), more) && AllDrain(more)
    requires Idle(After(LoopStep(Reached(cfg, steps), t, Tick), more))
    requires DispatcherRun(env, New(cfg), steps)
    requires DispatcherRun(env, LoopStep(Reached(cfg, steps), t, Tick), more)
    requires AllHonest(env.services)
    ensures Settled(env, id, After(LoopStep(Reached(cfg, steps), t, Tick), more), m)
  {
    hide AllHonest, Settled, AllDelivered, Idle, LoopStep, DispatcherRun;
    TickRun(env, New(cfg), steps, t, more);
    OneTickClears(cfg, steps, t, more);
    ClearedIsSettled(env, id, cfg, steps + ([ByConsumer(t, Tick)] + more), m);
  }

  // Every run can be settled

  /** A step that the queue or its timer takes without a new call. */
  predicate IsOwn<T>(step: Step<T>)
  {
    Drains(step) || (step.ByConsumer? && step.loop.Tick?)
  }

  ghost predicate AllOwn<T>(steps: seq<Step<T>>)
  {
    forall i :: 0 <= i < |steps| ==> IsOwn(steps[i])
  }

  /** At rest the consumer can take a tick, and goes on with a live context. */
  lemma IdleCanTick<T>(s: State<T>) returns (t: nat)
    requires Inv(s) && Idle(s) && !s.cancelled
    ensures CanLoop(s, t, Tick) && Inv(LoopStep(s, t, Tick))
    ensures StartWasCalled(LoopStep(s, t, Tick)) && !LoopStep(s, t, Tick).cancelled
  {
    t := s.owner.value;
    ConsumerKeepsInv(s, t, Tick);
    assert !LoopStep(s, t, Tick).threads[t].NotCalled?;
  }

  /** From every state of a run with a dispatcher the queue and its timer can get to where every message is settled. */
  lemma CanSettle(env: Setting, id: string, cfg: Config, steps: seq<Step<Message>>) returns (more: seq<Step<Message>>)
    requires RunOf(cfg, steps) && DispatcherRun(env, New(cfg), steps) && AllHonest(env.services)
    requires !Reached(cfg, steps).cancelled && StartWasCalled(Reached(cfg, steps))
    ensures AllOwn(more) && RunOf(cfg, steps + more) && DispatcherRun(env, New(cfg), steps + more)
    ensures Cleared(Reached(cfg, steps + more))
    ensures forall m :: Settled(env, id, Reached(cfg, steps + more), m)
  {
    hide AllHonest, Settled, AllDelivered, Idle, LoopStep, Inv, StartWasCalled, Apply, Measure;
    var s := Reached(cfg, steps);
    ReachedHasInv(cfg, steps);
    var drain := CanDrain(s, Dispatching(env));
    DrainRunsEnd(s, drain);
    var rested := After(s, drain);
    RunConcat(New(cfg), steps, drain);
    RunWithConcat(Dispatching(env), New(cfg), steps, drain);
    ReachedHasInv(cfg, steps + drain);
    var t := IdleCanTick(rested);
    var again := CanDrain(LoopStep(rested, t, Tick), Dispatching(env));
    TickRun(env, New(cfg), steps + drain, t, again);
    OneTickClears(cfg, steps + drain, t, again);
    more := drain + ([ByConsumer(t, Tick)] + again);
    Associate(steps, drain, [ByConsumer(t, Tick)] + again);
    forall m ensures Settled(env, id, Reached(cfg, steps + more), m) {
      ClearedIsSettled(env, id, cfg, steps + more, m);
    }
  }

  // When a message can be lost silently

  ghost predicate AllOut<T>(s: State<T>)
  {
    forall p :: 0 <= p < |s.producers| ==> s.producers[p].Out?
  }

  lemma {:induction false} OwnStepsOfferNothing<T>(s: State<T>, steps: seq<Step<T>>)
    requires Run(s, steps) && AllOwn(steps) && AllOut(s)
    ensures var end := After(s, steps); end.offered == s.offered && end.dropped == s.dropped && end.sent == s.sent
    decreases |steps|
  {
    if steps != [] {
      OwnStepOffersNothing(s, steps[0]);
      assert AllOwn(steps[1..]);
      OwnStepsOfferNothing(Apply(s, steps[0]), steps[1..]);
    }
  }

  lemma OwnStepOffersNothing<T>(s: State<T>, step: Step<T>)
    requires Enabled(s, step) && IsOwn(step) && AllOut(s)
    ensures var end := Apply(s, step);
      end.offered == s.offered && end.dropped == s.dropped && end.sent == s.sent && AllOut(end)
  {
    hide LoopStep, Work, Start;
    match step
    case ByConsumer(t, op) => ConsumerLeavesProducers(s, t, op);
    case ByWorker(w, op) => WorkerLeavesProducers(s, w, op);
    case ByStarter(t, op) => StarterLeavesProducers(s, t, op);
    case ByProducer(p, op) => assert false;
  }

  /** A service that takes everything: with it, every Submit returns nil after one put on the first stream. */
  lemma TakesEverything(env: Setting, w: nat, batch: seq<Message>)
    requires env.routes != [] && env.services(w) == FailFirst(0)
    ensures SubmitsOk(env, w, batch)
    ensures batch != [] ==> var target := env.routes[0].target;
      TriesOf(env, w, batch) == [Try(target, [PutRecordsTrace(FailFirst(0), 0, target, Marshaled(env.codec, batch))])]
  {
    if batch != [] {
      hide PutTrace, Chunks;
      var svc, items, route := FailFirst(0), Marshaled(env.codec, batch), env.routes[0];
      FailFirstSpent(0, 0, route.target, Chunks(MAX_PUT_RECORDS_BATCH_SIZE, items));
      var t := PutRecordsTrace(svc, 0, route.target, items);
      assert Attempts(svc, 0, route.target, items, route.retries + 1) == [t];
      assert Failover(svc, 0, env.routes, items) == [Try(route.target, [t])];
    }
  }

  lemma {:induction false} NothingMarshals(codec: Codec, msgs: seq<Message>)
    requires forall m :: m in msgs ==> codec(m).None?
    ensures Marshaled(codec, msgs) == []
    decreases |msgs|
  {
    if msgs != [] {
      NothingMarshals(codec, msgs[..|msgs| - 1]);
    }
  }

  /** For a batch of which nothing marshals, not one record is ever sent. */
  lemma NothingRecorded(env: Setting, w: nat, batch: seq<Message>)
    requires env.routes != [] && env.services(w) == FailFirst(0)
    requires forall m :: m in batch ==> env.codec(m).None?
    ensures Records(Calls(TriesOf(env, w, batch))) == []
  {
    if batch != [] {
      hide PutRecordsTrace, TriesOf, FailFirst, Marshaled;
      var target := env.routes[0].target;
      var t := PutRecordsTrace(FailFirst(0), 0, target, []);
      NothingMarshals(env.codec, batch);
      TakesEverything(env, w, batch);
      PutRecordsSendsPrefix(FailFirst(0), 0, target, []);
      CallsCons(Try(target, [t]), []);
      assert [Try(target, [t])] + [] == [Try(target, [t])] && Flatten([t]) == t + Flatten<Exchange>([]) == t;
    } else {
      assert TriesOf(env, w, batch) == [];
    }
  }

  lemma {:induction false} NothingFails(env: Setting, jobs: seq<Job<Message>>)
    requires OutcomesTrue(env, jobs) && forall w: nat :: w < |jobs| ==> SubmitsOk(env, w, jobs[w].batch)
    ensures ItemsWith(jobs, Failed) == []
    decreases |jobs|
  {
    hide SubmitsOk;
    if jobs != [] {
      NothingFails(env, jobs[..|jobs| - 1]);
    }
  }

  lemma {:induction false} NothingSucceeds(env: Setting, jobs: seq<Job<Message>>)
    requires OutcomesTrue(env, jobs) && env.routes == []
    ensures ItemsWith(jobs, Succeeded) == []
    decreases |jobs|
  {
    if jobs != [] {
      NothingSucceeds(env, jobs[..|jobs| - 1]);
    }
  }

  /** A call of AddItem with m that sends it, and a call of Start. */
  lemma OfferOne(cfg: Config, m: Message) returns (steps: seq<Step<Message>>)
    requires cfg.producers > 0 && cfg.threads > 0
    ensures RunOf(cfg, steps) && (forall i :: 0 <= i < |steps| ==> !steps[i].ByWorker?)
    ensures var s := Reached(cfg, steps);
      && s.offered == [m] && s.sent == [m] && s.dropped == []
      && AllOut(s) && StartWasCalled(s) && !s.cancelled
  {
    var s := New<Message>(cfg);
    var offer, check, send := ByProducer(0, Offer(m)), ByProducer(0, CheckLength), ByProducer(0, Send);
    var start := ByStarter(0, CallStart);
    LeadsStep(s, [], s, offer, {});
    var offered := Apply(s, offer);
    LeadsStep(s, [] + [offer], offered, check, {});
    var checked := Apply(offered, check);
    LeadsStep(s, [] + [offer] + [check], checked, send, {});
    var sent := Apply(checked, send);
    LeadsStep(s, [] + [offer] + [check] + [send], sent, start, {});
    steps := [] + [offer] + [check] + [send] + [start];
    assert !Apply(sent, start).threads[0].NotCalled?;
  }

  lemma {:induction false} NoWorkerNoAnswer<T>(submitter: Submitter<T>, s: State<T>, steps: seq<Step<T>>)
    requires Run(s, steps) && forall i :: 0 <= i < |steps| ==> !steps[i].ByWorker?
    ensures RunWith(submitter, s, steps)
    decreases |steps|
  {
    if steps != [] {
      NoWorkerNoAnswer(submitter, Apply(s, steps[0]), steps[1..]);
    }
  }

  /** A settled run in which a message that does not marshal is in no record, no drop and no count of lost messages. */
  lemma SilentLoss(routes: seq<Route>, codec: Codec, cfg: Config, m: Message) returns (env: Setting, steps: seq<Step<Message>>)
    requires routes != [] && codec(m).None? && cfg.producers > 0 && cfg.threads > 0
    ensures env.routes == routes && env.codec == codec && AllHonest(env.services)
    ensures RunOf(cfg, steps) && DispatcherRun(env, New(cfg), steps)
    ensures var s := Reached(cfg, steps);
      && Cleared(s) && CountsExact(env, s.jobs) && LostSilently(env, s, m)
      && s.offered == [m] && s.droppedItems == 0 && LostBy(env, "", s.jobs) == 0
      && forall w: nat :: w < |s.jobs| ==> Records(Calls(TriesOf(env, w, s.jobs[w].batch))) == []
  {
    hide FailFirst, AllDelivered, Idle, RunWith, StartWasCalled, Cleared;
    env := Setting(routes, codec, w => FailFirst(0));
    assert AllHonest(env.services) by {
      FailFirstIsHonest(0);
    }
    var offer := OfferOne(cfg, m);
    assert DispatcherRun(env, New(cfg), offer) by {
      NoWorkerNoAnswer(Dispatching(env), New(cfg), offer);
    }
    var more := CanSettle(env, "", cfg, offer);
    steps := offer + more;
    assert Settled(env, "", Reached(cfg, steps), m);
    RunSplit(New(cfg), offer, more);
    OwnStepsOfferNothing(Reached(cfg, offer), more);
    NothingFailsInRun(env, cfg, steps);
    SmallCountsExact(env, cfg, steps);
    OccursShort([m], m);
    var s := Reached(cfg, steps);
    forall w: nat | w < |s.jobs|
      ensures Records(Calls(TriesOf(env, w, s.jobs[w].batch))) == []
    {
      OnlySent(cfg, steps, w);
      NothingRecorded(env, w, s.jobs[w].batch);
    }
  }

  /** A batch has nothing that was not sent. */
  lemma OnlySent(cfg: Config, steps: seq<Step<Message>>, w: nat)
    requires RunOf(cfg, steps) && w < |Reached(cfg, steps).jobs|
    ensures forall m :: m in Reached(cfg, steps).jobs[w].batch ==> m in Reached(cfg, steps).sent
  {
    var s := Reached(cfg, steps);
    Fifo(cfg, steps);
    forall m | m in s.jobs[w].batch
      ensures m in s.sent
    {
      FlattenMember(Batches(s.jobs), w, m);
    }
  }

  lemma FailFirstIsHonest(quota: nat)
    ensures Honest(FailFirst(quota))
  {
  }

  lemma {:induction false} RunSplit<T>(s: State<T>, a: seq<Step<T>>, b: seq<Step<T>>)
    requires Run(s, a) && Run(s, a + b)
    ensures Run(After(s, a), b) && After(s, a + b) == After(After(s, a), b)
    decreases |a|
  {
    if a == [] {
      assert a + b == b;
    } else {
      ConcatHead(a, b);
      RunSplit(Apply(s, a[0]), a[1..], b);
    }
  }

  lemma NothingFailsInRun(env: Setting, cfg: Config, steps: seq<Step<Message>>)
    requires env.routes != [] && (forall w: nat :: env.services(w) == FailFirst(0))
    requires RunOf(cfg, steps) && DispatcherRun(env, New(cfg), steps)
    ensures ItemsWith(Reached(cfg, steps).jobs, Failed) == []
  {
    hide FailFirst, SubmitsOk;
    var s := Reached(cfg, steps);
    RunKeepsOutcomes(env, New(cfg), steps);
    forall w: nat | w < |s.jobs|
      ensures SubmitsOk(env, w, s.jobs[w].batch)
    {
      TakesEverything(env, w, s.jobs[w].batch);
    }
    NothingFails(env, s.jobs);
  }

  /** With fewer than 2^31 messages sent, no batch can make a count wrap. */
  lemma SmallCountsExact(env: Setting, cfg: Config, steps: seq<Step<Message>>)
    requires RunOf(cfg, steps) && |Reached(cfg, steps).sent| < TWO_31
    ensures CountsExact(env, Reached(cfg, steps).jobs)
  {
    var s := Reached(cfg, steps);
    Fifo(cfg, steps);
    forall w: nat | w < |s.jobs|
      ensures |Marshaled(env.codec, s.jobs[w].batch)| < TWO_31
    {
      FlattenPart(Batches(s.jobs), w);
    }
  }

  /** However the queue, the timer and honest services behave, m is not lost silently. */
  ghost predicate NeverLostSilently(routes: seq<Route>, codec: Codec, cfg: Config, m: Message)
  {
    forall services: nat -> Service, steps: seq<Step<Message>> ::
      var env := Setting(routes, codec, services);
      AllHonest(services) && RunOf(cfg, steps) && DispatcherRun(env, New(cfg), steps) &&
      Cleared(Reached(cfg, steps)) && CountsExact(env, Reached(cfg, steps).jobs) ==>
        !LostSilently(env, Reached(cfg, steps), m)
  }

  /**
    The exact condition: a message is never lost silently if it marshals, or if there is no
    stream, so that all is counted as lost; any other message can be, in every configuration.
   */
  lemma NeverLostSilentlyIff(routes: seq<Route>, codec: Codec, cfg: Config, m: Message)
    requires cfg.producers > 0 && cfg.threads > 0
    ensures NeverLostSilently(routes, codec, cfg, m) <==> routes == [] || codec(m).Some?
  {
    hide AllHonest, DispatcherRun, Cleared, CountsExact;
    if routes == [] || codec(m).Some? {
      forall services: nat -> Service, steps: seq<Step<Message>>
        | AllHonest(services) && RunOf(cfg, steps) && DispatcherRun(Setting(routes, codec, services), New(cfg), steps) &&
          Cleared(Reached(cfg, steps)) && CountsExact(Setting(routes, codec, services), Reached(cfg, steps).jobs)
        ensures !LostSilently(Setting(routes, codec, services), Reached(cfg, steps), m)
      {
        var env := Setting(routes, codec, services);
        ClearedIsSettled(env, "", cfg, steps, m);
        if routes == [] {
          NothingSucceedsInRun(env, cfg, steps);
          OccursNot([], m);
        }
      }
    } else {
      var env, steps := SilentLoss(routes, codec, cfg, m);
      assert env == Setting(routes, codec, env.services);
    }
  }

  lemma NothingSucceedsInRun(env: Setting, cfg: Config, steps: seq<Step<Message>>)
    requires env.routes == [] && RunOf(cfg, steps) && DispatcherRun(env, New(cfg), steps)
    ensures ItemsWith(Reached(cfg, steps).jobs, Succeeded) == []
  {
    RunKeepsOutcomes(env, New(cfg), steps);
    NothingSucceeds(env, Reached(cfg, steps).jobs);
  }
}
