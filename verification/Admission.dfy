/**
  The gate in front of the queues. A request past the gate calls AddItem of one queue after
  the other before it returns (request_handler.go, event_handler.go, filter_manager.go,
  filter.go, stream_dispatcher.go), so the gate bounds the producers on the queues.
 */
module Admission {
  import G = Gate
  import Q = QueueMachine
  import opened Int32
  import opened QueueGuarantees
  import opened QueueProducers
  import opened Sequences

  /** Handler h of the gate is producer h of every queue. */
  datatype State<T> = State(gate: G.State, queues: seq<Q.State<T>>)

  datatype Step<T> = OnGate(gate: G.Step) | OnQueue(q: nat, queue: Q.Step<T>)

  predicate InNoQueue<T>(s: State<T>, h: nat)
  {
    forall q :: 0 <= q < |s.queues| && h < |s.queues[q].producers| ==> s.queues[q].producers[h].Out?
  }

  /** A call of AddItem comes from a handler past the gate that is in no other call; no handler leaves from within one. */
  predicate Enabled<T>(s: State<T>, step: Step<T>)
  {
    match step
    case OnGate(g) =>
      G.Enabled(s.gate, g) && (g.Leave? ==> InNoQueue(s, g.h))
    case OnQueue(q, step) =>
      && q < |s.queues| && Q.Enabled(s.queues[q], step)
      && (step.ByProducer? && step.add.Offer? ==>
          step.p < |s.gate.handlers| && s.gate.handlers[step.p].Admitted? && InNoQueue(s, step.p))
  }

  function Apply<T>(s: State<T>, step: Step<T>): State<T>
    requires Enabled(s, step)
  {
    match step
    case OnGate(g) => s.(gate := G.Apply(s.gate, g))
    case OnQueue(q, step) => s.(queues := s.queues[q := Q.Apply(s.queues[q], step)])
  }

  predicate Run<T>(s: State<T>, steps: seq<Step<T>>)
    decreases |steps|
  {
    steps == [] || (Enabled(s, steps[0]) && Run(Apply(s, steps[0]), steps[1..]))
  }

  function After<T>(s: State<T>, steps: seq<Step<T>>): State<T>
    requires Run(s, steps)
    decreases |steps|
  {
    if steps == [] then s else After(Apply(s, steps[0]), steps[1..])
  }

  /** The handlers in a call of AddItem of one queue. */
  function BusyIn<T>(queue: Q.State<T>): set<nat>
  {
    set h: nat | h < |queue.producers| && !queue.producers[h].Out?
  }

  ghost predicate Synchronous<T>(s: State<T>)
  {
    && (forall q :: 0 <= q < |s.queues| ==> BusyIn(s.queues[q]) <= G.PastGate(s.gate))
    && (forall q, r :: 0 <= q < r < |s.queues| ==> BusyIn(s.queues[q]) !! BusyIn(s.queues[r]))
  }

  lemma {:induction false} CallersAreBusy<T>(producers: seq<Q.Producer<T>>)
    ensures Sum(producers, Busy) == |set h: nat | h < |producers| && !producers[h].Out?|
    decreases |producers|
  {
    var busy := set h: nat | h < |producers| && !producers[h].Out?;
    if producers == [] {
      assert busy == {};
    } else {
      var n := |producers| - 1;
      var fewer := producers[..n];
      CallersAreBusy(fewer);
      assert busy == (set h: nat | h < |fewer| && !fewer[h].Out?) + if producers[n].Out? then {} else {n};
    }
  }

  /** The calls under way on all queues are made by different handlers. */
  lemma {:induction false} CallersWithin<T>(queues: seq<Q.State<T>>, past: set<nat>)
    requires forall q :: 0 <= q < |queues| ==> BusyIn(queues[q]) <= past
    requires forall q, r :: 0 <= q < r < |queues| ==> BusyIn(queues[q]) !! BusyIn(queues[r])
    ensures Sum(queues, Callers) <= |past|
    decreases |queues|
  {
    if queues != [] {
      var n := |queues| - 1;
      var busy := BusyIn(queues[n]);
      CallersAreBusy(queues[n].producers);
      CallersWithin(queues[..n], past - busy);
      assert past == (past - busy) + busy;
    }
  }

  lemma GateKeepsSynchronous<T>(s: State<T>, g: G.Step)
    requires Synchronous(s) && Enabled(s, OnGate(g))
    ensures Synchronous(Apply(s, OnGate(g)))
  {
    var s' := Apply(s, OnGate(g));
    forall q | 0 <= q < |s.queues|
      ensures BusyIn(s.queues[q]) <= G.PastGate(s'.gate)
    {
      assert g.Enter? ==> g.h !in G.PastGate(s.gate);
    }
  }

  /** Only a call of AddItem makes a handler busy in a queue. */
  lemma QueueStepBusy<T>(queue: Q.State<T>, step: Q.Step<T>)
    requires Q.Enabled(queue, step)
    ensures BusyIn(Q.Apply(queue, step)) <=
      BusyIn(queue) + if step.ByProducer? && step.add.Offer? then {step.p} else {}
  {
  }

  lemma QueueKeepsSynchronous<T>(s: State<T>, q: nat, step: Q.Step<T>)
    requires Synchronous(s) && Enabled(s, OnQueue(q, step))
    ensures Synchronous(Apply(s, OnQueue(q, step)))
  {
    var s' := Apply(s, OnQueue(q, step));
    QueueStepBusy(s.queues[q], step);
    var more := if step.ByProducer? && step.add.Offer? then {step.p} else {};
    assert more <= G.PastGate(s.gate);
    forall r | 0 <= r < |s.queues| && r != q
      ensures BusyIn(s'.queues[q]) !! BusyIn(s'.queues[r])
    {
      assert BusyIn(s.queues[q]) !! BusyIn(s.queues[r]) && more !! BusyIn(s.queues[r]);
    }
  }

  ghost predicate Inv<T>(s: State<T>, max: nat)
  {
    && s.gate.max == max > 0 && |s.gate.handlers| < TWO_31
    && G.Inv(s.gate)
    && Synchronous(s)
    && forall q :: 0 <= q < |s.queues| ==> Overshoot(s.queues[q], max)
  }

  lemma CallersBound<T>(s: State<T>)
    requires G.Inv(s.gate) && s.gate.max > 0 && Synchronous(s)
    ensures Sum(s.queues, Callers) <= s.gate.max
    ensures forall q :: 0 <= q < |s.queues| ==> Callers(s.queues[q]) <= s.gate.max
  {
    G.LimitOfInv(s.gate);
    CallersWithin(s.queues, G.PastGate(s.gate));
    forall q | 0 <= q < |s.queues|
      ensures Callers(s.queues[q]) <= s.gate.max
    {
      CallersAreBusy(s.queues[q].producers);
      SubsetCardinality(BusyIn(s.queues[q]), G.PastGate(s.gate));
    }
  }

  lemma StepKeepsInv<T>(s: State<T>, step: Step<T>, max: nat)
    requires Inv(s, max) && Enabled(s, step)
    ensures Inv(Apply(s, step), max)
  {
    match step
    case OnGate(g) =>
      G.StepKeepsInv(s.gate, g);
      GateKeepsSynchronous(s, g);
    case OnQueue(q, qstep) =>
      QueueKeepsSynchronous(s, q, qstep);
      CallersBound(Apply(s, step));
      assert Apply(s, step).queues[q] == Q.Apply(s.queues[q], qstep);
      StepKeepsOvershoot(s.queues[q], qstep, max);
  }

  lemma {:induction false} RunKeepsInv<T>(s: State<T>, steps: seq<Step<T>>, max: nat)
    requires Inv(s, max) && Run(s, steps)
    ensures Inv(After(s, steps), max)
    decreases |steps|
  {
    if steps != [] {
      StepKeepsInv(s, steps[0], max);
      RunKeepsInv(Apply(s, steps[0]), steps[1..], max);
    }
  }

  /** A gate and queues as New leaves them, with a producer for each place at the gate. */
  function System<T>(max: int, places: nat, configs: seq<Config>): State<T>
  {
    State(G.New(max, places),
          seq(|configs|, q requires 0 <= q < |configs| => New<T>(configs[q].(producers := places))))
  }

  /** The steps that one queue takes in a run. */
  function StepsOf<T>(steps: seq<Step<T>>, q: nat): seq<Q.Step<T>>
    decreases |steps|
  {
    if steps == [] then [] else
      (if steps[0].OnQueue? && steps[0].q == q then [steps[0].queue] else []) + StepsOf(steps[1..], q)
  }

  /** Each queue behind the gate is the queue by itself on its own steps, so all its promises hold here too. */
  lemma {:induction false} QueueRuns<T>(s: State<T>, steps: seq<Step<T>>, q: nat)
    requires Run(s, steps) && q < |s.queues|
    ensures |After(s, steps).queues| == |s.queues|
    ensures Q.Run(s.queues[q], StepsOf(steps, q))
    ensures Q.After(s.queues[q], StepsOf(steps, q)) == After(s, steps).queues[q]
    decreases |steps|
  {
    if steps != [] {
      var rest := StepsOf(steps[1..], q);
      QueueRuns(Apply(s, steps[0]), steps[1..], q);
      if steps[0].OnQueue? && steps[0].q == q {
        assert ([steps[0].queue] + rest)[1..] == rest;
      } else {
        assert [] + rest == rest;
      }
    }
  }

  /**
    When HTTP requests are the only callers, the calls of AddItem under way on all queues
    together are at most the limit, so one less than the limit can be blocked on a queue.
   */
  lemma GateBoundsProducers<T>(max: nat, places: nat, configs: seq<Config>, steps: seq<Step<T>>)
    requires max > 0 && places < TWO_31 && Run(System<T>(max, places, configs), steps)
    ensures var s := After(System<T>(max, places, configs), steps);
      && Sum(s.queues, Callers) <= max
      && forall q :: 0 <= q < |s.queues| ==> Blocked(s.queues[q]) <= max - 1
  {
    var s := System<T>(max, places, configs);
    G.NewHasInv(max, places);
    forall q | 0 <= q < |s.queues|
      ensures BusyIn(s.queues[q]) == {} && Overshoot(s.queues[q], max)
    {
      NobodyIn(s.queues[q].producers, 0);
      PastAreBusy(s.queues[q].producers);
    }
    RunKeepsInv(s, steps, max);
    CallersBound(After(s, steps));
  }
}
