/**
  AddItem checks the length and sends in two steps. How many producers the gap between
  them can leave blocked at the send of a full channel.
 */
module QueueProducers {
  import opened QueueGuarantees
  import opened QueueMachine
  import opened QueueSafety
  import opened Sequences

  function Busy<T>(producer: Producer<T>): nat
  {
    if producer.Out? then 0 else 1
  }

  function Past<T>(producer: Producer<T>): nat
  {
    if producer.Cleared? then 1 else 0
  }

  /** The calls of AddItem under way. */
  function Callers<T>(s: State<T>): nat
  {
    Sum(s.producers, Busy)
  }

  /** Those past the length check that have not sent. */
  function Clears<T>(s: State<T>): nat
  {
    Sum(s.producers, Past)
  }

  /** The producers that cannot send because the channel is full. */
  function Blocked<T>(s: State<T>): nat
  {
    if |s.channel| >= s.cap then Clears(s) else 0
  }

  lemma {:induction false} PastAreBusy<T>(producers: seq<Producer<T>>)
    ensures Sum(producers, Past) <= Sum(producers, Busy)
    decreases |producers|
  {
    if producers != [] {
      PastAreBusy(producers[..|producers| - 1]);
    }
  }

  /** At no point of the run are more than n calls of AddItem under way. */
  predicate Simultaneous<T>(s: State<T>, steps: seq<Step<T>>, n: nat)
    requires Run(s, steps)
    decreases |steps|
  {
    Callers(s) <= n && (steps == [] || Simultaneous(Apply(s, steps[0]), steps[1..], n))
  }

  ghost predicate Overshoot<T>(s: State<T>, n: nat)
  {
    |s.channel| + Clears(s) <= s.cap + n - 1
  }

  lemma AddKeepsOvershoot<T>(s: State<T>, p: nat, op: AddOp<T>, n: nat)
    requires CanAdd(s, p, op) && Overshoot(s, n) && Callers(Add(s, p, op)) <= n
    ensures Overshoot(Add(s, p, op), n)
  {
    var s' := Add(s, p, op);
    SumUpdate(s.producers, p, s'.producers[p], Past);
    PastAreBusy(s'.producers);
  }

  lemma StepKeepsOvershoot<T>(s: State<T>, step: Step<T>, n: nat)
    requires Enabled(s, step) && Overshoot(s, n) && Callers(Apply(s, step)) <= n
    ensures Overshoot(Apply(s, step), n)
  {
    hide Add, LoopStep, Start, Work;
    match step
    case ByProducer(p, op) => AddKeepsOvershoot(s, p, op, n);
    case ByStarter(t, op) => StarterLeavesProducers(s, t, op);
    case ByConsumer(t, op) => ConsumerLeavesProducers(s, t, op); ConsumerOnlyTakes(s, t, op);
    case ByWorker(w, op) => WorkerLeavesProducers(s, w, op);
    case SetBatchSize(_) =>
    case Cancel =>
  }

  lemma ConsumerOnlyTakes<T>(s: State<T>, t: nat, op: LoopOp)
    requires CanLoop(s, t, op)
    ensures |LoopStep(s, t, op).channel| <= |s.channel| && LoopStep(s, t, op).cap == s.cap
  {
  }

  lemma {:induction false} RunKeepsOvershoot<T>(s: State<T>, steps: seq<Step<T>>, n: nat)
    requires Run(s, steps) && Simultaneous(s, steps, n) && Overshoot(s, n)
    ensures Overshoot(After(s, steps), n)
    decreases |steps|
  {
    if steps != [] {
      StepKeepsOvershoot(s, steps[0], n);
      RunKeepsOvershoot(Apply(s, steps[0]), steps[1..], n);
    }
  }

  lemma {:induction false} NobodyIn<T>(producers: seq<Producer<T>>, n: nat)
    requires forall p :: n <= p < |producers| ==> producers[p].Out?
    ensures Sum(producers, Busy) <= n
    decreases |producers|
  {
    if producers != [] {
      var k := |producers| - 1;
      if k >= n {
        NobodyIn(producers[..k], n);
      } else {
        NobodyIn(producers[..k], k);
      }
    }
  }

  /** With at most n simultaneous producers at most n - 1 are ever blocked. */
  lemma BlockedBound<T>(cfg: Config, steps: seq<Step<T>>, n: nat)
    requires n > 0 && RunOf(cfg, steps) && Simultaneous(New(cfg), steps, n)
    ensures var s := Reached(cfg, steps);
      var capacity := if cfg.queue.channelSize > 0 then cfg.queue.channelSize else 100;
      && |s.channel| <= capacity
      && |s.channel| + Clears(s) <= capacity + n - 1
      && Blocked(s) <= n - 1
  {
    AsConfigured(cfg, steps);
    ReachedHasInv(cfg, steps);
    var s := New<T>(cfg);
    NobodyIn(s.producers, 0);
    PastAreBusy(s.producers);
    RunKeepsOvershoot(s, steps, n);
  }

  /** How many length checks of a run find the channel full. */
  function FullChecks<T>(s: State<T>, steps: seq<Step<T>>): nat
    requires Run(s, steps)
    decreases |steps|
  {
    if steps == [] then 0 else
      (if steps[0].ByProducer? && steps[0].add.CheckLength? && |s.channel| >= s.cap then 1 else 0) +
      FullChecks(Apply(s, steps[0]), steps[1..])
  }

  /** An item is dropped for each length check that finds the channel full, and for no other reason. */
  lemma {:induction false} DropsOnlyWhenFull<T>(s: State<T>, steps: seq<Step<T>>)
    requires Run(s, steps)
    ensures After(s, steps).droppedItems == s.droppedItems + FullChecks(s, steps)
    decreases |steps|
  {
    if steps != [] {
      StepDrops(s, steps[0]);
      DropsOnlyWhenFull(Apply(s, steps[0]), steps[1..]);
    }
  }

  lemma StepDrops<T>(s: State<T>, step: Step<T>)
    requires Enabled(s, step)
    ensures Apply(s, step).droppedItems == s.droppedItems +
      if step.ByProducer? && step.add.CheckLength? && |s.channel| >= s.cap then 1 else 0
  {
    hide LoopStep, Work, Start;
    match step
    case ByProducer(p, op) =>
    case ByStarter(t, op) => StarterLeavesProducers(s, t, op);
    case ByConsumer(t, op) => ConsumerLeavesProducers(s, t, op);
    case ByWorker(w, op) => WorkerLeavesProducers(s, w, op);
    case SetBatchSize(_) =>
    case Cancel =>
  }

  // The bound is reached: n producers pass the check while one place is free.

  /** A run of s within the bound, and where it leads. */
  ghost predicate Leads<T>(s: State<T>, steps: seq<Step<T>>, n: nat, end: State<T>)
  {
    Run(s, steps) && Simultaneous(s, steps, n) && After(s, steps) == end
  }

  lemma {:induction false} LeadsOn<T>(s: State<T>, a: seq<Step<T>>, mid: State<T>, b: seq<Step<T>>, end: State<T>, n: nat)
    requires Leads(s, a, n, mid) && Leads(mid, b, n, end)
    ensures Leads(s, a + b, n, end)
    decreases |a|
  {
    if a == [] {
      assert a + b == b;
    } else {
      LeadsOn(Apply(s, a[0]), a[1..], mid, b, end, n);
      assert (a + b)[1..] == a[1..] + b && (a + b)[0] == a[0];
    }
  }

  lemma LeadsStep<T>(s: State<T>, step: Step<T>, n: nat)
    requires Enabled(s, step) && Callers(s) <= n && Callers(Apply(s, step)) <= n
    ensures Leads(s, [step], n, Apply(s, step))
  {
    RunOne(s, step);
    assert [step][1..] == [] && Simultaneous(Apply(s, step), [step][1..], n);
  }

  /** Where n producers stand: the first `cleared` past the check, those below `called` before it. */
  ghost predicate Lined<T>(s: State<T>, cleared: nat, called: nat, queued: nat)
  {
    && cleared <= called <= |s.producers|
    && (forall p :: 0 <= p < cleared ==> s.producers[p].Cleared?)
    && (forall p :: cleared <= p < called ==> s.producers[p].Calling?)
    && (forall p :: called <= p < |s.producers| ==> s.producers[p].Out?)
    && |s.channel| == queued
  }

  /** One producer fills the channel by itself up to a length. */
  lemma Fill<T>(s: State<T>, x: T, queued: nat, n: nat) returns (steps: seq<Step<T>>, end: State<T>)
    requires Lined(s, 0, 0, |s.channel|) && |s.channel| <= queued <= s.cap && 0 < n <= |s.producers|
    ensures Leads(s, steps, n, end) && Lined(end, 0, 0, queued) && end.cap == s.cap && |end.producers| == |s.producers|
    decreases queued - |s.channel|
  {
    NobodyIn(s.producers, n);
    if |s.channel| == queued {
      steps, end := [], s;
    } else {
      hide Add;
      var one, sent := SendOne(s, x, n);
      var rest;
      rest, end := Fill(sent, x, queued, n);
      steps := one + rest;
      LeadsOn(s, one, sent, rest, end, n);
    }
  }

  /** One producer sends one item. */
  lemma SendOne<T>(s: State<T>, x: T, n: nat) returns (steps: seq<Step<T>>, end: State<T>)
    requires Lined(s, 0, 0, |s.channel|) && |s.channel| < s.cap && 0 < n <= |s.producers|
    ensures Leads(s, steps, n, end) && Lined(end, 0, 0, |s.channel| + 1)
    ensures end.cap == s.cap && |end.producers| == |s.producers|
  {
    var offered := Add(s, 0, Offer(x));
    var checked := Add(offered, 0, CheckLength);
    end := Add(checked, 0, Send);
    NobodyIn(s.producers, n);
    NobodyIn(offered.producers, n);
    NobodyIn(checked.producers, n);
    NobodyIn(end.producers, n);
    LeadsStep(s, ByProducer(0, Offer(x)), n);
    LeadsStep(offered, ByProducer(0, CheckLength), n);
    LeadsStep(checked, ByProducer(0, Send), n);
    LeadsOn(s, [ByProducer(0, Offer(x))], offered, [ByProducer(0, CheckLength)], checked, n);
    var head := [ByProducer(0, Offer(x))] + [ByProducer(0, CheckLength)];
    LeadsOn(s, head, checked, [ByProducer(0, Send)], end, n);
    steps := head + [ByProducer(0, Send)];
  }

  /** The producers below n call AddItem, one after the other. */
  lemma CallAll<T>(s: State<T>, x: T, called: nat, n: nat) returns (steps: seq<Step<T>>, end: State<T>)
    requires called <= n <= |s.producers| && Lined(s, 0, called, |s.channel|)
    ensures Leads(s, steps, n, end) && Lined(end, 0, n, |s.channel|) && end.cap == s.cap
    ensures |end.producers| == |s.producers|
    decreases n - called
  {
    NobodyIn(s.producers, n);
    if called == n {
      steps, end := [], s;
    } else {
      var step := ByProducer(called, Offer(x));
      var next := Apply(s, step);
      NobodyIn(next.producers, n);
      LeadsStep(s, step, n);
      var rest;
      rest, end := CallAll(next, x, called + 1, n);
      steps := [step] + rest;
      LeadsOn(s, [step], next, rest, end, n);
    }
  }

  /** All of them pass the length check while a place is free. */
  lemma CheckAll<T>(s: State<T>, cleared: nat, n: nat) returns (steps: seq<Step<T>>, end: State<T>)
    requires cleared <= n <= |s.producers| && Lined(s, cleared, n, |s.channel|) && |s.channel| < s.cap
    ensures Leads(s, steps, n, end) && Lined(end, n, n, |s.channel|) && end.cap == s.cap
    ensures |end.producers| == |s.producers|
    decreases n - cleared
  {
    NobodyIn(s.producers, n);
    if cleared == n {
      steps, end := [], s;
    } else {
      var step := ByProducer(cleared, CheckLength);
      var next := Apply(s, step);
      NobodyIn(next.producers, n);
      LeadsStep(s, step, n);
      var rest;
      rest, end := CheckAll(next, cleared + 1, n);
      steps := [step] + rest;
      LeadsOn(s, [step], next, rest, end, n);
    }
  }

  lemma {:induction false} PastCount<T>(producers: seq<Producer<T>>, n: nat)
    requires n <= |producers|
    requires forall p :: 0 <= p < n ==> producers[p].Cleared?
    ensures Sum(producers, Past) >= n
    decreases |producers|
  {
    if producers != [] {
      var k := |producers| - 1;
      PastCount(producers[..k], if n <= k then n else k);
    }
  }

  /** For every configuration with n producers, a run within n simultaneous calls leaves n - 1 of them blocked. */
  lemma BlockedBoundReached<T>(cfg: Config, n: nat, x: T) returns (steps: seq<Step<T>>)
    requires 0 < n <= cfg.producers
    ensures RunOf(cfg, steps) && Simultaneous(New(cfg), steps, n)
    ensures Blocked(Reached(cfg, steps)) >= n - 1
  {
    var s := New<T>(cfg);
    var fill, filled := Fill(s, x, s.cap - 1, n);
    var call, called := CallAll(filled, x, 0, n);
    var check, checked := CheckAll(called, 0, n);
    var send := ByProducer(0, Send);
    var end := Apply(checked, send);
    SumUpdate(checked.producers, 0, Out, Past);
    PastCount(checked.producers, n);
    NobodyIn(checked.producers, n);
    NobodyIn(end.producers, n);
    LeadsStep(checked, send, n);
    LeadsOn(s, fill, filled, call, called, n);
    LeadsOn(s, fill + call, called, check, checked, n);
    LeadsOn(s, fill + call + check, checked, [send], end, n);
    steps := fill + call + check + [send];
  }

  /** No run with at most n simultaneous producers ever has one blocked in AddItem. */
  ghost predicate AddItemNeverBlocks<T(!new)>(cfg: Config, n: nat)
  {
    forall steps: seq<Step<T>> :: RunOf(cfg, steps) && Simultaneous(New(cfg), steps, n) ==>
      Blocked(Reached(cfg, steps)) == 0
  }

  /** AddItem drops instead of blocking exactly when there is at most one producer at a time. */
  lemma AddItemNeverBlocksIff<T(!new)>(cfg: Config, n: nat, x: T)
    requires n <= cfg.producers
    ensures AddItemNeverBlocks<T>(cfg, n) <==> n <= 1
  {
    if n <= 1 {
      forall steps: seq<Step<T>> | RunOf(cfg, steps) && Simultaneous(New(cfg), steps, n)
        ensures Blocked(Reached(cfg, steps)) == 0
      {
        SimultaneousGrows(New(cfg), steps, n, 1);
        BlockedBound(cfg, steps, 1);
      }
    } else {
      var steps := BlockedBoundReached(cfg, n, x);
      assert Blocked(Reached(cfg, steps)) > 0;
    }
  }

  lemma {:induction false} SimultaneousGrows<T>(s: State<T>, steps: seq<Step<T>>, m: nat, n: nat)
    requires m <= n && Run(s, steps) && Simultaneous(s, steps, m)
    ensures Simultaneous(s, steps, n)
    decreases |steps|
  {
    if steps != [] {
      SimultaneousGrows(Apply(s, steps[0]), steps[1..], m, n);
    }
  }
}
