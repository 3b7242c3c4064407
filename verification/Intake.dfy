/**
  From the request to the queues, for any number of requests at once: the gate, the filters
  that each accepted message is shown to, one after the other in any order, and the queues
  of those that match. A run is any interleaving of all their steps.
 */
module Intake {
  import A = Admission
  import G = Gate
  import Q = QueueMachine
  import opened Int32
  import opened Messages
  import opened QueueGuarantees
  import opened QueueProducers
  import opened QueueSafety
  import opened Routing
  import opened Sequences

  /** The filter of queue q is the one with the q-th configuration. */
  datatype Filters = Filters(engine: Engine, configs: seq<FilterConfig>)

  /** What a request has come to; `todo` are the filters that its message has yet to be shown to. */
  datatype Request = Arrived | Offering(msg: Message, todo: set<nat>) | Accepted(msg: Message) | Rejected

  /**
    The requests by the number of their arrival. The last part is a history: for each queue,
    the requests that have called its AddItem, in order.
   */
  datatype State = State(system: A.State<Message>, requests: seq<Request>, callers: seq<seq<nat>>)

  datatype Step =
    | Enter(h: nat)
    | Compare(h: nat)
    | Read(h: nat, msg: Message)      // the body is a message, and the manager has it
    | Skip(h: nat, q: nat)            // a filter that does not match
    | Call(h: nat, q: nat)            // a filter that matches calls AddItem of its queue
    | InQueue(q: nat, queue: Q.Step<Message>)
    | Accept(h: nat)                  // 202
    | Reject(h: nat)                  // 503 from the gate, or 400

  /** The filter of queue q matches. */
  ghost predicate Matches(f: Filters, q: nat, msg: Message)
  {
    q < |f.configs| &&
    Routing.Accepts(f.engine, f.configs[q].events, DeviceMatchers(f.configs[q].deviceIds), msg)
  }

  /** The request of a handler. */
  function RequestOf(s: State, h: nat): nat
    requires h < |s.system.gate.handlers| && !s.system.gate.handlers[h].Absent?
  {
    s.system.gate.handlers[h].arrival
  }

  predicate PastGate(s: State, h: nat)
  {
    h < |s.system.gate.handlers| && s.system.gate.handlers[h].Admitted? && RequestOf(s, h) < |s.requests|
  }

  /** Handler h is about to show its message to the filter of queue q. */
  predicate Showing(s: State, h: nat, q: nat)
  {
    && PastGate(s, h) && s.requests[RequestOf(s, h)].Offering? && q in s.requests[RequestOf(s, h)].todo
    && A.InNoQueue(s.system, h)
  }

  function Offered(s: State, h: nat, q: nat): A.Step<Message>
    requires Showing(s, h, q)
  {
    A.OnQueue(q, Q.ByProducer(h, Q.Offer(s.requests[RequestOf(s, h)].msg)))
  }

  ghost predicate Enabled(f: Filters, s: State, step: Step)
  {
    match step
    case Enter(h) => A.Enabled(s.system, A.OnGate(G.Enter(h)))
    case Compare(h) => A.Enabled(s.system, A.OnGate(G.Compare(h)))
    case Read(h, _) => PastGate(s, h) && s.requests[RequestOf(s, h)].Arrived?
    case Skip(h, q) => Showing(s, h, q) && !Matches(f, q, s.requests[RequestOf(s, h)].msg)
    case Call(h, q) =>
      && Showing(s, h, q) && Matches(f, q, s.requests[RequestOf(s, h)].msg)
      && q < |s.callers| && A.Enabled(s.system, Offered(s, h, q))
    case InQueue(q, queue) =>
      !(queue.ByProducer? && queue.add.Offer?) && A.Enabled(s.system, A.OnQueue(q, queue))
    case Accept(h) =>
      && PastGate(s, h) && s.requests[RequestOf(s, h)].Offering? && s.requests[RequestOf(s, h)].todo == {}
      && A.Enabled(s.system, A.OnGate(G.Leave(h)))
    case Reject(h) =>
      && A.Enabled(s.system, A.OnGate(G.Leave(h))) && RequestOf(s, h) < |s.requests|
      && (s.system.gate.handlers[h].Admitted? ==> s.requests[RequestOf(s, h)].Arrived?)
  }

  /** The step that the gate and the queues take, if they take one. */
  function SystemSteps(f: Filters, s: State, step: Step): seq<A.Step<Message>>
    requires Enabled(f, s, step)
  {
    match step
    case Enter(h) => [A.OnGate(G.Enter(h))]
    case Compare(h) => [A.OnGate(G.Compare(h))]
    case Read(_, _) => []
    case Skip(_, _) => []
    case Call(h, q) => [Offered(s, h, q)]
    case InQueue(q, queue) => [A.OnQueue(q, queue)]
    case Accept(h) => [A.OnGate(G.Leave(h))]
    case Reject(h) => [A.OnGate(G.Leave(h))]
  }

  function Requests(f: Filters, s: State, step: Step): seq<Request>
    requires Enabled(f, s, step)
  {
    match step
    case Enter(_) => s.requests + [Arrived]
    case Compare(_) => s.requests
    case Read(h, msg) => s.requests[RequestOf(s, h) := Offering(msg, NumbersBelow(|s.callers|))]
    case Skip(h, q) => Shown(s, RequestOf(s, h), q)
    case Call(h, q) => Shown(s, RequestOf(s, h), q)
    case InQueue(_, _) => s.requests
    case Accept(h) => s.requests[RequestOf(s, h) := Accepted(s.requests[RequestOf(s, h)].msg)]
    case Reject(h) => s.requests[RequestOf(s, h) := Rejected]
  }

  function Shown(s: State, r: nat, q: nat): seq<Request>
    requires r < |s.requests| && s.requests[r].Offering?
  {
    s.requests[r := s.requests[r].(todo := s.requests[r].todo - {q})]
  }

  function Apply(f: Filters, s: State, step: Step): State
    requires Enabled(f, s, step)
  {
    var taken := SystemSteps(f, s, step);
    State(if taken == [] then s.system else A.Apply(s.system, taken[0]), Requests(f, s, step),
          if step.Call? then s.callers[step.q := s.callers[step.q] + [RequestOf(s, step.h)]] else s.callers)
  }

  ghost predicate Run(f: Filters, s: State, steps: seq<Step>)
    decreases |steps|
  {
    steps == [] || (Enabled(f, s, steps[0]) && Run(f, Apply(f, s, steps[0]), steps[1..]))
  }

  function After(f: Filters, s: State, steps: seq<Step>): State
    requires Run(f, s, steps)
    decreases |steps|
  {
    if steps == [] then s else After(f, Apply(f, s, steps[0]), steps[1..])
  }

  /** Requests that have not come, a gate and a queue for each configuration. */
  function New(max: int, places: nat, queues: seq<Config>): State
  {
    State(A.System(max, places, queues), [], seq(|queues|, q => []))
  }

  // Once per queue

  /** How often a request has called AddItem of queue q, given what it has come to. */
  ghost function Expected(f: Filters, request: Request, q: nat): nat
  {
    match request
    case Arrived => 0
    case Rejected => 0
    case Offering(msg, todo) => if q !in todo && Matches(f, q, msg) then 1 else 0
    case Accepted(msg) => if Matches(f, q, msg) then 1 else 0
  }

  ghost predicate CalledAsExpected(f: Filters, s: State)
  {
    forall q: nat, r: nat :: q < |s.callers| && r < |s.requests| ==>
      Occurs(s.callers[q], r) == Expected(f, s.requests[r], q)
  }

  predicate HasMessage(s: State, r: nat)
  {
    r < |s.requests| && (s.requests[r].Offering? || s.requests[r].Accepted?)
  }

  /** A queue has been offered the messages of the requests that called it, in that order, and nothing else. */
  ghost predicate OfferedByCallers(s: State, q: nat)
    requires q < |s.callers| && q < |s.system.queues|
  {
    && |s.system.queues[q].offered| == |s.callers[q]|
    && forall i :: 0 <= i < |s.callers[q]| ==>
      HasMessage(s, s.callers[q][i]) && s.requests[s.callers[q][i]].msg == s.system.queues[q].offered[i]
  }

  ghost predicate OffersAreCalls(s: State)
  {
    && |s.callers| == |s.system.queues|
    && forall q: nat :: q < |s.callers| ==> OfferedByCallers(s, q)
  }

  /** A handler in flight has a request of its own, on which nothing has happened until the gate lets it through. */
  ghost predicate OwnRequests(gate: G.State, requests: seq<Request>)
  {
    && gate.clock == |requests|
    && (forall h: nat :: h in G.InFlight(gate) ==> gate.handlers[h].arrival < gate.clock)
    && (forall g: nat, h: nat :: g in G.InFlight(gate) && h in G.InFlight(gate) && g != h ==>
        gate.handlers[g].arrival != gate.handlers[h].arrival)
    && (forall h: nat :: h in G.InFlight(gate) && !gate.handlers[h].Admitted? ==>
        requests[gate.handlers[h].arrival].Arrived?)
  }

  ghost predicate Inv(f: Filters, s: State)
  {
    CalledAsExpected(f, s) && OffersAreCalls(s) && OwnRequests(s.system.gate, s.requests)
  }

  lemma EnterKeepsOwn(gate: G.State, requests: seq<Request>, h: nat)
    requires OwnRequests(gate, requests) && G.Enabled(gate, G.Enter(h))
    ensures OwnRequests(G.Apply(gate, G.Enter(h)), requests + [Arrived])
  {
    var gate' := G.Apply(gate, G.Enter(h));
    assert G.InFlight(gate') == G.InFlight(gate) + {h};
    assert forall j: nat :: j in G.InFlight(gate) ==> gate'.handlers[j] == gate.handlers[j];
  }

  lemma CompareKeepsOwn(gate: G.State, requests: seq<Request>, h: nat)
    requires OwnRequests(gate, requests) && G.Enabled(gate, G.Compare(h))
    ensures OwnRequests(G.Apply(gate, G.Compare(h)), requests)
  {
    var gate' := G.Apply(gate, G.Compare(h));
    assert G.InFlight(gate') == G.InFlight(gate);
    assert forall j: nat :: j in G.InFlight(gate) ==> gate'.handlers[j].arrival == gate.handlers[j].arrival;
  }

  lemma LeaveKeepsOwn(gate: G.State, requests: seq<Request>, h: nat, x: Request)
    requires OwnRequests(gate, requests) && G.Enabled(gate, G.Leave(h)) && gate.handlers[h].arrival < |requests|
    ensures OwnRequests(G.Apply(gate, G.Leave(h)), requests[gate.handlers[h].arrival := x])
  {
    var gate' := G.Apply(gate, G.Leave(h));
    assert h in G.InFlight(gate) && G.InFlight(gate') == G.InFlight(gate) - {h};
    assert forall j: nat :: j in G.InFlight(gate') ==> gate'.handlers[j] == gate.handlers[j];
  }

  lemma ServingKeepsOwn(gate: G.State, requests: seq<Request>, h: nat, x: Request)
    requires OwnRequests(gate, requests) && h < |gate.handlers| && gate.handlers[h].Admitted?
    requires gate.handlers[h].arrival < |requests|
    ensures OwnRequests(gate, requests[gate.handlers[h].arrival := x])
  {
    assert h in G.InFlight(gate);
  }

  lemma StepKeepsOwnRequests(f: Filters, s: State, step: Step)
    requires OwnRequests(s.system.gate, s.requests) && Enabled(f, s, step)
    ensures OwnRequests(Apply(f, s, step).system.gate, Apply(f, s, step).requests)
  {
    hide OwnRequests, Matches, Q.Apply, Q.Enabled, G.Apply;
    var gate, requests := s.system.gate, s.requests;
    match step
    case Enter(h) => EnterKeepsOwn(gate, requests, h);
    case Compare(h) => CompareKeepsOwn(gate, requests, h);
    case Read(h, msg) => ServingKeepsOwn(gate, requests, h, Offering(msg, NumbersBelow(|s.callers|)));
    case Skip(h, q) => ServingKeepsOwn(gate, requests, h, Shown(s, RequestOf(s, h), q)[RequestOf(s, h)]);
    case Call(h, q) => ServingKeepsOwn(gate, requests, h, Shown(s, RequestOf(s, h), q)[RequestOf(s, h)]);
    case InQueue(_, _) =>
    case Accept(h) => LeaveKeepsOwn(gate, requests, h, Accepted(requests[RequestOf(s, h)].msg));
    case Reject(h) => LeaveKeepsOwn(gate, requests, h, Rejected);
  }

  /** A rejected request has called nothing. */
  lemma RejectedWasArrived(f: Filters, s: State, h: nat)
    requires OwnRequests(s.system.gate, s.requests) && Enabled(f, s, Reject(h))
    ensures s.requests[RequestOf(s, h)].Arrived?
  {
    assert h in G.InFlight(s.system.gate);
  }

  /** A message once read stays with its request. */
  lemma MessageStays(f: Filters, s: State, step: Step, r: nat)
    requires OwnRequests(s.system.gate, s.requests) && Enabled(f, s, step) && HasMessage(s, r)
    ensures HasMessage(Apply(f, s, step), r) && Apply(f, s, step).requests[r].msg == s.requests[r].msg
  {
    hide A.Apply, Matches, A.Enabled, OwnRequests;
    if step.Reject? {
      RejectedWasArrived(f, s, step.h);
    }
  }

  lemma StepKeepsCalls(f: Filters, s: State, step: Step)
    requires Inv(f, s) && Enabled(f, s, step)
    ensures CalledAsExpected(f, Apply(f, s, step))
  {
    hide A.Apply, Matches, A.Enabled, OwnRequests, OffersAreCalls, SystemSteps;
    var s' := Apply(f, s, step);
    if step.Reject? {
      RejectedWasArrived(f, s, step.h);
    }
    forall q: nat, r: nat | q < |s'.callers| && r < |s'.requests|
      ensures Occurs(s'.callers[q], r) == Expected(f, s'.requests[r], q)
    {
      if step.Call? && q == step.q {
        OccursSnoc(s.callers[q], RequestOf(s, step.h), r);
      }
      if step.Enter? && r == |s.requests| {
        NobodyCalls(s, q, r);
      }
    }
  }

  lemma NobodyCalls(s: State, q: nat, r: nat)
    requires OffersAreCalls(s) && q < |s.callers| && !HasMessage(s, r)
    ensures Occurs(s.callers[q], r) == 0
  {
    assert OfferedByCallers(s, q);
    OccursNot(s.callers[q], r);
  }

  /** What a step does to what the queues were offered. */
  lemma StepOffers(f: Filters, s: State, step: Step, q: nat)
    requires Enabled(f, s, step) && q < |s.system.queues|
    ensures var s' := Apply(f, s, step);
      && |s'.system.queues| == |s.system.queues|
      && s'.system.queues[q].offered == s.system.queues[q].offered +
         if step.Call? && step.q == q then [s.requests[RequestOf(s, step.h)].msg] else []
  {
    var before := s.system.queues[q].offered;
    assert before + [] == before;
    if step.InQueue? && step.q == q {
      OnlyOffersOffer(s.system.queues[q], step.queue);
    }
  }

  lemma OnlyOffersOffer(queue: Q.State<Message>, step: Q.Step<Message>)
    requires Q.Enabled(queue, step) && !(step.ByProducer? && step.add.Offer?)
    ensures Q.Apply(queue, step).offered == queue.offered
  {
    hide Q.LoopStep, Q.Work, Q.Start;
    match step
    case ByProducer(p, op) =>
    case ByStarter(t, op) => StarterLeavesProducers(queue, t, op);
    case ByConsumer(t, op) => ConsumerLeavesProducers(queue, t, op);
    case ByWorker(w, op) => WorkerLeavesProducers(queue, w, op);
    case SetBatchSize(_) =>
    case Cancel =>
  }

  /** What a step does to the callers. */
  lemma StepCalls(f: Filters, s: State, step: Step, q: nat)
    requires Enabled(f, s, step) && q < |s.callers|
    ensures var s' := Apply(f, s, step);
      && |s'.callers| == |s.callers|
      && s'.callers[q] == s.callers[q] + if step.Call? && step.q == q then [RequestOf(s, step.h)] else []
    ensures step.Call? ==> HasMessage(s, RequestOf(s, step.h))
  {
    hide SystemSteps, Requests, Matches, A.Enabled;
    assert s.callers[q] + [] == s.callers[q];
  }

  lemma StepKeepsQueueOffers(f: Filters, s: State, step: Step, q: nat)
    requires Inv(f, s) && Enabled(f, s, step) && q < |s.callers|
    ensures var s' := Apply(f, s, step); q < |s'.callers| && q < |s'.system.queues| && OfferedByCallers(s', q)
  {
    hide Apply, Enabled, CalledAsExpected, OwnRequests;
    assert OfferedByCallers(s, q);
    var s' := Apply(f, s, step);
    StepOffers(f, s, step, q);
    StepCalls(f, s, step, q);
    forall i | 0 <= i < |s'.callers[q]|
      ensures HasMessage(s', s'.callers[q][i]) && s'.requests[s'.callers[q][i]].msg == s'.system.queues[q].offered[i]
    {
      MessageStays(f, s, step, s'.callers[q][i]);
    }
  }

  lemma StepKeepsOffers(f: Filters, s: State, step: Step)
    requires Inv(f, s) && Enabled(f, s, step)
    ensures OffersAreCalls(Apply(f, s, step))
  {
    hide OfferedByCallers, CalledAsExpected, OwnRequests;
    var s' := Apply(f, s, step);
    SameQueues(f, s, step);
    forall q: nat | q < |s'.callers|
      ensures OfferedByCallers(s', q)
    {
      StepKeepsQueueOffers(f, s, step, q);
    }
  }

  lemma SameQueues(f: Filters, s: State, step: Step)
    requires Enabled(f, s, step)
    ensures |Apply(f, s, step).system.queues| == |s.system.queues|
    ensures |Apply(f, s, step).callers| == |s.callers|
  {
  }

  lemma {:induction false} RunKeepsInv(f: Filters, s: State, steps: seq<Step>)
    requires Inv(f, s) && Run(f, s, steps)
    ensures Inv(f, After(f, s, steps)) && |After(f, s, steps).callers| == |s.callers|
    decreases |steps|
  {
    if steps != [] {
      hide Inv, Apply, Enabled;
      StepKeepsInv(f, s, steps[0]);
      RunKeepsInv(f, Apply(f, s, steps[0]), steps[1..]);
    }
  }

  lemma StepKeepsInv(f: Filters, s: State, step: Step)
    requires Inv(f, s) && Enabled(f, s, step)
    ensures Inv(f, Apply(f, s, step)) && |Apply(f, s, step).callers| == |s.callers|
  {
    StepKeepsOwnRequests(f, s, step);
    StepKeepsCalls(f, s, step);
    StepKeepsOffers(f, s, step);
  }

  lemma NewHasInv(f: Filters, max: int, places: nat, queues: seq<Config>)
    ensures Inv(f, New(max, places, queues))
  {
    assert G.InFlight(G.New(max, places)) == {};
  }

  /** Request r has called AddItem of queue q as often as it should, by the configuration alone. */
  ghost predicate CalledRightly(f: Filters, s: State, q: nat, r: nat)
    requires q < |s.callers| && q < |f.configs| && r < |s.requests|
  {
    var calls, cfg := Occurs(s.callers[q], r), f.configs[q];
    match s.requests[r]
    case Arrived => calls == 0
    case Rejected => calls == 0
    case Offering(msg, _) => calls <= if Wanted(f.engine, cfg.events, cfg.deviceIds, msg) then 1 else 0
    case Accepted(msg) => calls == if Wanted(f.engine, cfg.events, cfg.deviceIds, msg) then 1 else 0
  }

  /**
    In every interleaving of any number of requests: a request that was accepted has called
    AddItem once, with its message, of each queue whose configuration wants the message, and
    of no other; a request that was rejected has called none; and a queue has been offered
    nothing but the messages of its callers, each in its turn.
   */
  lemma OncePerQueue(f: Filters, max: int, places: nat, queues: seq<Config>, steps: seq<Step>)
    requires Sound(f.engine) && |f.configs| == |queues| && Run(f, New(max, places, queues), steps)
    ensures var s := After(f, New(max, places, queues), steps);
      && |s.callers| == |queues| && OffersAreCalls(s)
      && forall q: nat, r: nat :: q < |queues| && r < |s.requests| ==> CalledRightly(f, s, q, r)
  {
    var s := After(f, New(max, places, queues), steps);
    NewHasInv(f, max, places, queues);
    RunKeepsInv(f, New(max, places, queues), steps);
    forall q: nat, r: nat | q < |queues| && r < |s.requests|
      ensures CalledRightly(f, s, q, r)
    {
      if HasMessage(s, r) {
        ShortCutPreservesMeaning(f.engine, f.configs[q].events, f.configs[q].deviceIds, s.requests[r].msg);
      }
    }
  }

  // The gate and the queues in it

  /** What the gate and the queues do in a run. */
  ghost function System(f: Filters, s: State, steps: seq<Step>): seq<A.Step<Message>>
    requires Run(f, s, steps)
    decreases |steps|
  {
    if steps == [] then [] else SystemSteps(f, s, steps[0]) + System(f, Apply(f, s, steps[0]), steps[1..])
  }

  lemma {:induction false} SystemRuns(f: Filters, s: State, steps: seq<Step>)
    requires Run(f, s, steps)
    ensures A.Run(s.system, System(f, s, steps))
    ensures A.After(s.system, System(f, s, steps)) == After(f, s, steps).system
    decreases |steps|
  {
    if steps != [] {
      var rest := System(f, Apply(f, s, steps[0]), steps[1..]);
      SystemRuns(f, Apply(f, s, steps[0]), steps[1..]);
      SystemStepTaken(f, s, steps[0], rest);
    }
  }

  lemma SystemStepTaken(f: Filters, s: State, step: Step, rest: seq<A.Step<Message>>)
    requires Enabled(f, s, step) && A.Run(Apply(f, s, step).system, rest)
    ensures var all := SystemSteps(f, s, step) + rest;
      A.Run(s.system, all) && A.After(s.system, all) == A.After(Apply(f, s, step).system, rest)
  {
    hide A.Apply;
    var taken := SystemSteps(f, s, step);
    if taken == [] {
      assert taken + rest == rest;
    } else {
      assert |taken| == 1 && A.Enabled(s.system, taken[0]);
      assert (taken + rest)[1..] == rest && (taken + rest)[0] == taken[0];
    }
  }

  /**
    So with requests as the only callers the gate bounds the calls under way, and each queue
    is a run of the queue by itself, of which all its promises hold.
   */
  lemma EachQueueRuns(f: Filters, max: nat, places: nat, queues: seq<Config>, steps: seq<Step>, q: nat)
    returns (own: seq<Q.Step<Message>>)
    requires max > 0 && places < TWO_31 && q < |queues| && Run(f, New(max, places, queues), steps)
    ensures var s := After(f, New(max, places, queues), steps).system;
      && |s.queues| == |queues|
      && Sum(s.queues, Callers) <= max && Blocked(s.queues[q]) <= max - 1
      && RunOf(queues[q].(producers := places), own)
      && Reached(queues[q].(producers := places), own) == s.queues[q]
  {
    hide Run, After, System;
    var start := New(max, places, queues);
    SystemRuns(f, start, steps);
    var taken := System(f, start, steps);
    A.QueueRuns(start.system, taken, q);
    A.GateBoundsProducers(max, places, queues, taken);
    own := A.StepsOf(taken, q);
  }
}
