/** The queue with a StreamDispatcher as its submitter: what becomes of every message. */
module EndToEnd {
  import opened BatchLoop
  import opened Dispatcher
  import opened Delivery
  import opened Int32
  import opened Kinesis
  import opened Messages
  import opened QueueGuarantees
  import opened QueueMachine
  import opened QueueProgress
  import opened QueueSafety
  import opened Sender
  import opened Sequences

  /**
    The routes of a dispatcher, and for each job the service as its worker meets it. Workers
    run at the same time, so each has replies of its own.
   */
  datatype Setting = Setting(routes: seq<Route>, codec: Codec, services: nat -> Service)

  function TriesOf(env: Setting, w: nat, batch: seq<Message>): seq<Try>
  {
    SubmitTries(env.services(w), 0, env.routes, env.codec, batch)
  }

  predicate SubmitsOk(env: Setting, w: nat, batch: seq<Message>)
  {
    SubmitOk(env.routes, batch, TriesOf(env, w, batch))
  }

  /** The dispatcher as the queue's submitter. */
  function Dispatching(env: Setting): Submitter<Message>
  {
    (w: nat, batch: seq<Message>) => SubmitsOk(env, w, batch)
  }

  /** A run in which each worker sees the result that Submit returns for its batch. */
  predicate DispatcherRun(env: Setting, s: State<Message>, steps: seq<Step<Message>>)
    requires Run(s, steps)
  {
    RunWith(Dispatching(env), s, steps)
  }

  /** The outcome of each finished job is that of its Submit. */
  ghost predicate OutcomesTrue(env: Setting, jobs: seq<Job<Message>>)
  {
    forall w: nat :: w < |jobs| && !OutcomeOf(jobs[w].phase).Running? ==>
      OutcomeOf(jobs[w].phase) == if SubmitsOk(env, w, jobs[w].batch) then Succeeded else Failed
  }

  lemma WorkerKeepsOutcomes(env: Setting, s: State<Message>, w: nat, op: WorkOp)
    requires CanWork(s, w, op) && AnsweredBy(Dispatching(env), s, ByWorker(w, op)) && OutcomesTrue(env, s.jobs)
    ensures OutcomesTrue(env, Work(s, w, op).jobs)
  {
    hide SubmitsOk;
  }

  lemma StepKeepsOutcomes(env: Setting, s: State<Message>, step: Step<Message>)
    requires Enabled(s, step) && AnsweredBy(Dispatching(env), s, step) && OutcomesTrue(env, s.jobs)
    ensures OutcomesTrue(env, Apply(s, step).jobs)
  {
    hide SubmitsOk, LoopStep, Work;
    match step
    case ByProducer(p, op) =>
    case ByStarter(t, op) =>
    case ByConsumer(t, op) => ConsumerAddsReadyJobs(s, t, op);
    case ByWorker(w, op) => WorkerKeepsOutcomes(env, s, w, op);
    case SetBatchSize(_) =>
    case Cancel =>
  }

  lemma {:induction false} RunKeepsOutcomes(env: Setting, s: State<Message>, steps: seq<Step<Message>>)
    requires Run(s, steps) && DispatcherRun(env, s, steps) && OutcomesTrue(env, s.jobs)
    ensures OutcomesTrue(env, After(s, steps).jobs)
    decreases |steps|
  {
    if steps != [] {
      StepKeepsOutcomes(env, s, steps[0]);
      RunKeepsOutcomes(env, Apply(s, steps[0]), steps[1..]);
    }
  }

  /** The finished jobs for whose batch Submit returned an error. */
  ghost function FailedSubmits(env: Setting, jobs: seq<Job<Message>>): nat
    decreases |jobs|
  {
    if jobs == [] then 0 else
      var w := |jobs| - 1;
      FailedSubmits(env, jobs[..w]) +
      if !OutcomeOf(jobs[w].phase).Running? && !SubmitsOk(env, w, jobs[w].batch) then 1 else 0
  }

  /** SubmitErrors counts the jobs for whose batch Submit returned an error. */
  lemma {:induction false} ErrorsAreFailedSubmits(env: Setting, jobs: seq<Job<Message>>)
    requires OutcomesTrue(env, jobs)
    ensures Sum(jobs, Failure) == FailedSubmits(env, jobs)
    decreases |jobs|
  {
    hide SubmitsOk;
    if jobs != [] {
      ErrorsAreFailedSubmits(env, jobs[..|jobs| - 1]);
    }
  }

  lemma TriesAreMade(env: Setting, w: nat, batch: seq<Message>)
    ensures AllMade(TriesOf(env, w, batch))
  {
    hide Failover, Marshaled;
    FailoverMade(env.services(w), 0, env.routes, Marshaled(env.codec, batch));
  }

  lemma NothingToTry(env: Setting, w: nat, batch: seq<Message>)
    ensures env.routes == [] ==> TriesOf(env, w, batch) == []
  {
  }

  /** What the dispatcher has counted as lost for the jobs that finished. */
  ghost function LostBy(env: Setting, id: string, jobs: seq<Job<Message>>): nat
    decreases |jobs|
  {
    if jobs == [] then 0 else
      var w := |jobs| - 1;
      TriesAreMade(env, w, jobs[w].batch);
      LostBy(env, id, jobs[..w]) +
      if OutcomeOf(jobs[w].phase).Running? then 0
      else Lost(SubmitDrops(id, env.routes, jobs[w].batch, TriesOf(env, w, jobs[w].batch)))
  }

  /** The counters of lost messages are exactly the messages in the failed batches. */
  lemma {:induction false} LostAreFailed(env: Setting, id: string, jobs: seq<Job<Message>>)
    requires OutcomesTrue(env, jobs)
    ensures LostBy(env, id, jobs) == |ItemsWith(jobs, Failed)|
    decreases |jobs|
  {
    hide TriesOf;
    if jobs != [] {
      var w := |jobs| - 1;
      LostAreFailed(env, id, jobs[..w]);
      TriesAreMade(env, w, jobs[w].batch);
      assert env.routes == [] ==> TriesOf(env, w, jobs[w].batch) == [] by {
        NothingToTry(env, w, jobs[w].batch);
      }
      LostIffFailed(id, env.routes, jobs[w].batch, TriesOf(env, w, jobs[w].batch));
    }
  }

  /** A stream has the records of all the messages of the batch of job w that marshal. */
  ghost predicate JobDelivered(env: Setting, w: nat, batch: seq<Message>)
  {
    Delivered(env.routes, env.codec, batch, TriesOf(env, w, batch))
  }

  lemma SuccessIsDelivered(env: Setting, jobs: seq<Job<Message>>, w: nat)
    requires OutcomesTrue(env, jobs) && w < |jobs| && OutcomeOf(jobs[w].phase).Succeeded?
    requires jobs[w].batch != [] && |Marshaled(env.codec, jobs[w].batch)| < TWO_31 && Honest(env.services(w))
    ensures JobDelivered(env, w, jobs[w].batch)
  {
    SubmitMeansAcknowledged(env.services(w), 0, env.routes, env.codec, jobs[w].batch);
  }

  /** Every succeeded job was acknowledged by a stream, if the failed count of its batch cannot wrap. */
  ghost predicate SuccessesDelivered(env: Setting, jobs: seq<Job<Message>>)
  {
    forall w: nat :: w < |jobs| && OutcomeOf(jobs[w].phase).Succeeded? && |Marshaled(env.codec, jobs[w].batch)| < TWO_31 ==>
      JobDelivered(env, w, jobs[w].batch)
  }

  /** No batch has so many messages that marshal that its failed count can wrap. */
  ghost predicate CountsExact(env: Setting, jobs: seq<Job<Message>>)
  {
    forall w: nat :: w < |jobs| ==> |Marshaled(env.codec, jobs[w].batch)| < TWO_31
  }

  /** The records of job w that its stream acknowledged. */
  ghost function AckedBy(env: Setting, w: nat, batch: seq<Message>): seq<Entry>
  {
    if JobDelivered(env, w, batch) then Records(Decisive(TriesOf(env, w, batch))) else []
  }

  /** How often streams acknowledged a record, over all succeeded jobs. */
  ghost function AckedRecords(env: Setting, jobs: seq<Job<Message>>, e: Entry): nat
    decreases |jobs|
  {
    if jobs == [] then 0 else
      var w := |jobs| - 1;
      AckedRecords(env, jobs[..w], e) +
      if OutcomeOf(jobs[w].phase).Succeeded? then Occurs(AckedBy(env, w, jobs[w].batch), e) else 0
  }

  /** Streams acknowledged each record exactly as often as the succeeded batches have messages that become it. */
  lemma {:induction false} AckedAreEncoded(env: Setting, jobs: seq<Job<Message>>, e: Entry)
    requires OutcomesTrue(env, jobs) && CountsExact(env, jobs) && BatchesNonEmpty(jobs)
    requires forall w: nat :: Honest(env.services(w))
    ensures AckedRecords(env, jobs, e) == Encoded(env.codec, ItemsWith(jobs, Succeeded), e)
    decreases |jobs|
  {
    hide SubmitsOk, Honest, JobDelivered, Occurs, Encoded, Marshaled, TriesOf;
    if jobs == [] {
      EncodedNothing(env.codec, e);
    } else {
      var w := |jobs| - 1;
      var most, batch := jobs[..w], jobs[w].batch;
      AckedAreEncoded(env, most, e);
      if OutcomeOf(jobs[w].phase).Succeeded? {
        SuccessIsDelivered(env, jobs, w);
        AckedIsEncoded(env, w, batch, e);
        EncodedConcat(env.codec, ItemsWith(most, Succeeded), batch, e);
      } else {
        assert ItemsWith(most, Succeeded) + [] == ItemsWith(most, Succeeded);
      }
    }
  }

  lemma EncodedNothing(codec: Codec, e: Entry)
    ensures Encoded(codec, [], e) == 0
  {
  }

  lemma AckedIsEncoded(env: Setting, w: nat, batch: seq<Message>, e: Entry)
    requires JobDelivered(env, w, batch)
    ensures Occurs(AckedBy(env, w, batch), e) == Encoded(env.codec, batch, e)
  {
    MarshaledInOrder(env.codec, batch, AckedBy(env, w, batch));
    MarshaledOccurs(env.codec, batch, e);
  }

  /**
    End-to-end accounting. In every run with honest services, each message offered is
    dropped at a full channel, with a producer, in the channel, in the batch being filled,
    with a running worker, in a batch that succeeded, or in one that the counters of lost
    messages include; and for a batch that succeeded, one stream acknowledged all its
    messages that marshal. The exception is a batch with 2^31 of them, which a BatchSize in
    an int32 rules out.
   */
  lemma EveryMessageAccountedFor(env: Setting, id: string, cfg: Config, steps: seq<Step<Message>>, m: Message)
    requires RunOf(cfg, steps) && DispatcherRun(env, New(cfg), steps)
    requires forall w: nat :: Honest(env.services(w))
    ensures var s := Reached(cfg, steps);
      && Occurs(s.offered, m) ==
         Occurs(s.dropped, m) + Held(s.producers, m) + Occurs(s.channel, m) + Occurs(Current(s), m)
         + Occurs(ItemsWith(s.jobs, Running), m) + Occurs(ItemsWith(s.jobs, Succeeded), m)
         + Occurs(ItemsWith(s.jobs, Failed), m)
      && SuccessesDelivered(env, s.jobs)
      && (CountsExact(env, s.jobs) ==>
          forall e :: AckedRecords(env, s.jobs, e) == Encoded(env.codec, ItemsWith(s.jobs, Succeeded), e))
      && LostBy(env, id, s.jobs) == |ItemsWith(s.jobs, Failed)|
      && s.droppedItems == |s.dropped|
      && s.submitErrors == FailedSubmits(env, s.jobs)
      && (!s.cancelled && s.largest < TWO_31 ==> CountsExact(env, s.jobs))
  {
    hide Honest, JobDelivered, LostBy, Marshaled, AckedRecords, FailedSubmits;
    var s := Reached(cfg, steps);
    EveryItemAccountedFor(cfg, steps, m);
    RunKeepsOutcomes(env, New(cfg), steps);
    LostAreFailed(env, id, s.jobs);
    ErrorsAreFailedSubmits(env, s.jobs);
    BatchSizeBound(cfg, steps);
    forall w: nat | w < |s.jobs| && OutcomeOf(s.jobs[w].phase).Succeeded? && |Marshaled(env.codec, s.jobs[w].batch)| < TWO_31
      ensures JobDelivered(env, w, s.jobs[w].batch)
    {
      SuccessIsDelivered(env, s.jobs, w);
    }
    if CountsExact(env, s.jobs) {
      forall e: Entry
        ensures AckedRecords(env, s.jobs, e) == Encoded(env.codec, ItemsWith(s.jobs, Succeeded), e)
      {
        AckedAreEncoded(env, s.jobs, e);
      }
    }
    if !s.cancelled && s.largest < TWO_31 {
      forall w: nat | w < |s.jobs|
        ensures |Marshaled(env.codec, s.jobs[w].batch)| < TWO_31
      {
        assert |Batches(s.jobs)[w]| <= AtLeastOne(s.largest);
      }
    }
  }

  /** Every message of a succeeded batch that marshals is among the records that its stream acknowledged. */
  lemma MessageAcknowledged(env: Setting, w: nat, batch: seq<Message>, m: Message)
    requires m in batch && env.codec(m).Some?
    ensures JobDelivered(env, w, batch) ==>
      Entry(env.codec(m).value, m.sessionID) in Records(Decisive(TriesOf(env, w, batch)))
  {
    hide TriesOf, Records, Marshaled, RecordsInOrder;
    if JobDelivered(env, w, batch) {
      MarshaledInOrder(env.codec, batch, Records(Decisive(TriesOf(env, w, batch))));
      MarshaledHas(env.codec, batch, m);
      var items := Marshaled(env.codec, batch);
      var i :| 0 <= i < |items| && items[i] == Item(m.sessionID, env.codec(m).value);
      assert ToEntries(items)[i] == ToEntry(items[i]);
    }
  }
}
