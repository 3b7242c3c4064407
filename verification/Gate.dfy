/**
  internal/event/request_handler.go: the limit on outstanding requests. A handler adds one
  to an atomic int32 and keeps the sum as its ticket, later compares the ticket with the
  limit, and takes the one away again when it returns. A run is any interleaving of them.
 */
module Gate {
  import opened Int32
  import opened Sequences

  const MAX_OUTSTANDING_DEFAULT: int := 10000

  /** A place for one request at a time. `arrival` is a history: no step reads it. */
  datatype Handler =
    | Absent
    | Ticketed(ticket: int, arrival: nat)
    | Admitted(ticket: int, arrival: nat)
    | Refused(ticket: int, arrival: nat)

  datatype State = State(max: int, depth: int, handlers: seq<Handler>, clock: nat)

  datatype Step = Enter(h: nat) | Compare(h: nat) | Leave(h: nat)

  function New(max: int, places: nat): State
  {
    State(max, 0, seq(places, i => Absent), 0)
  }

  /** The 503 test. */
  predicate Full(max: int, ticket: int)
  {
    0 < max < ticket
  }

  predicate Enabled(s: State, step: Step)
  {
    step.h < |s.handlers| &&
    match step
    case Enter(h) => s.handlers[h].Absent?
    case Compare(h) => s.handlers[h].Ticketed?
    case Leave(h) => s.handlers[h].Admitted? || s.handlers[h].Refused?
  }

  function Apply(s: State, step: Step): State
    requires Enabled(s, step)
  {
    match step
    case Enter(h) =>
      var ticket := ToInt32(s.depth + 1);
      s.(depth := ticket, handlers := s.handlers[h := Ticketed(ticket, s.clock)], clock := s.clock + 1)
    case Compare(h) =>
      var Ticketed(ticket, arrival) := s.handlers[h];
      var next := if Full(s.max, ticket) then Refused(ticket, arrival) else Admitted(ticket, arrival);
      s.(handlers := s.handlers[h := next])
    case Leave(h) =>
      s.(depth := ToInt32(s.depth - 1), handlers := s.handlers[h := Absent])
  }

  predicate Run(s: State, steps: seq<Step>)
    decreases |steps|
  {
    steps == [] || (Enabled(s, steps[0]) && Run(Apply(s, steps[0]), steps[1..]))
  }

  function After(s: State, steps: seq<Step>): State
    requires Run(s, steps)
    decreases |steps|
  {
    if steps == [] then s else After(Apply(s, steps[0]), steps[1..])
  }

  /** The handlers that have entered and not left. */
  function InFlight(s: State): set<nat>
  {
    set h: nat | h < |s.handlers| && !s.handlers[h].Absent?
  }

  /** The handlers past the gate. */
  function PastGate(s: State): set<nat>
  {
    set h: nat | h < |s.handlers| && s.handlers[h].Admitted?
  }

  /** The handlers in flight that arrived no later than one of them. */
  function NoLater(s: State, h: nat): set<nat>
    requires h in InFlight(s)
  {
    set j: nat | j < |s.handlers| && !s.handlers[j].Absent? && s.handlers[j].arrival <= s.handlers[h].arrival
  }

  ghost predicate Inv(s: State)
  {
    && s.depth == |InFlight(s)|
    && (forall h :: h in InFlight(s) ==> s.handlers[h].arrival < s.clock && |NoLater(s, h)| <= s.handlers[h].ticket)
    && (forall h :: h in PastGate(s) ==> !Full(s.max, s.handlers[h].ticket))
  }

  lemma EnterKeepsInv(s: State, h: nat)
    requires Inv(s) && |s.handlers| < TWO_31 && Enabled(s, Enter(h))
    ensures Inv(Apply(s, Enter(h)))
  {
    hide NoLater;
    var s' := Apply(s, Enter(h));
    EnterCounts(s, h);
    EnterKeepsTickets(s, h);
    assert PastGate(s') == PastGate(s);
  }

  lemma EnterCounts(s: State, h: nat)
    requires s.depth == |InFlight(s)| && |s.handlers| < TWO_31 && Enabled(s, Enter(h))
    ensures InFlight(Apply(s, Enter(h))) == InFlight(s) + {h}
    ensures Apply(s, Enter(h)).depth == |InFlight(Apply(s, Enter(h)))|
  {
    IndexSetCardinality(InFlight(Apply(s, Enter(h))), |s.handlers|);
  }

  lemma EnterKeepsTickets(s: State, h: nat)
    requires Inv(s) && Enabled(s, Enter(h))
    ensures forall j :: j in InFlight(s) ==> NoLater(Apply(s, Enter(h)), j) == NoLater(s, j)
    ensures NoLater(Apply(s, Enter(h)), h) == InFlight(Apply(s, Enter(h)))
  {
  }

  lemma CompareKeepsInv(s: State, h: nat)
    requires Inv(s) && Enabled(s, Compare(h))
    ensures Inv(Apply(s, Compare(h)))
  {
    var s' := Apply(s, Compare(h));
    assert InFlight(s') == InFlight(s);
    forall j | j in InFlight(s) ensures NoLater(s', j) == NoLater(s, j) {
    }
  }

  lemma LeaveKeepsInv(s: State, h: nat)
    requires Inv(s) && |s.handlers| < TWO_31 && Enabled(s, Leave(h))
    ensures Inv(Apply(s, Leave(h)))
  {
    var s' := Apply(s, Leave(h));
    assert InFlight(s') == InFlight(s) - {h};
    IndexSetCardinality(InFlight(s), |s.handlers|);
    forall j | j in InFlight(s')
      ensures |NoLater(s', j)| <= s'.handlers[j].ticket
    {
      SubsetCardinality(NoLater(s', j), NoLater(s, j));
    }
  }

  lemma StepKeepsInv(s: State, step: Step)
    requires Inv(s) && |s.handlers| < TWO_31 && Enabled(s, step)
    ensures Inv(Apply(s, step)) && |Apply(s, step).handlers| == |s.handlers| && Apply(s, step).max == s.max
  {
    match step
    case Enter(h) => EnterKeepsInv(s, h);
    case Compare(h) => CompareKeepsInv(s, h);
    case Leave(h) => LeaveKeepsInv(s, h);
  }

  lemma {:induction false} RunKeepsInv(s: State, steps: seq<Step>)
    requires Inv(s) && |s.handlers| < TWO_31 && Run(s, steps)
    ensures Inv(After(s, steps)) && After(s, steps).max == s.max
    decreases |steps|
  {
    if steps != [] {
      StepKeepsInv(s, steps[0]);
      RunKeepsInv(Apply(s, steps[0]), steps[1..]);
    }
  }

  /** Of the handlers in a set, one arrived last. */
  lemma {:induction false} Latest(s: State, a: set<nat>) returns (h: nat)
    requires a != {} && a <= InFlight(s)
    ensures h in a && a <= NoLater(s, h)
  {
    h :| h in a;
    if a != {h} {
      var j := Latest(s, a - {h});
      assert a == a - {h} + {h};
      assert forall i :: i in a - {h} ==> s.handlers[i].arrival <= s.handlers[j].arrival;
      if s.handlers[h].arrival <= s.handlers[j].arrival {
        h := j;
      }
    }
    assert forall i :: i in a ==> i in InFlight(s) && s.handlers[i].arrival <= s.handlers[h].arrival;
  }

  /** The latest handler past the gate has a ticket that counts all of them. */
  lemma LimitOfInv(s: State)
    requires Inv(s) && s.max > 0
    ensures |PastGate(s)| <= s.max
  {
    if PastGate(s) != {} {
      var h := Latest(s, PastGate(s));
      SubsetCardinality(PastGate(s), NoLater(s, h));
    }
  }

  /** With fewer than 2^31 requests at a time the counter counts them and the limit holds in every interleaving. */
  lemma LimitHolds(max: int, places: nat, steps: seq<Step>)
    requires places < TWO_31 && Run(New(max, places), steps)
    ensures var s := After(New(max, places), steps);
      s.depth == |InFlight(s)| && (max > 0 ==> |PastGate(s)| <= max)
  {
    NewHasInv(max, places);
    RunKeepsInv(New(max, places), steps);
    if max > 0 {
      LimitOfInv(After(New(max, places), steps));
    }
  }

  lemma NewHasInv(max: int, places: nat)
    ensures Inv(New(max, places))
  {
    assert InFlight(New(max, places)) == {};
  }

  /** Who was turned away: nobody without a limit, and with one exactly those whose ticket is above it. */
  ghost predicate JudgedByTicket(s: State)
  {
    forall h :: 0 <= h < |s.handlers| ==>
      && (s.handlers[h].Refused? ==> 0 < s.max < s.handlers[h].ticket)
      && (s.handlers[h].Admitted? ==> s.max <= 0 || s.handlers[h].ticket <= s.max)
  }

  /** A request's ticket is the number of requests in flight when it entered, itself included. */
  lemma TicketCounts(max: int, places: nat, steps: seq<Step>, h: nat)
    requires places < TWO_31 && Run(New(max, places), steps) && Enabled(After(New(max, places), steps), Enter(h))
    ensures var s := After(New(max, places), steps);
      Apply(s, Enter(h)).handlers[h].Ticketed? && Apply(s, Enter(h)).handlers[h].ticket == |InFlight(s)| + 1
  {
    NewHasInv(max, places);
    RunKeepsInv(New(max, places), steps);
    var s := After(New(max, places), steps);
    assert |s.handlers| == places by {
      PlacesStay(New(max, places), steps);
    }
    EnterCounts(s, h);
    assert h !in InFlight(s);
  }

  lemma {:induction false} PlacesStay(s: State, steps: seq<Step>)
    requires Run(s, steps)
    ensures |After(s, steps).handlers| == |s.handlers| && After(s, steps).max == s.max
    decreases |steps|
  {
    if steps != [] {
      PlacesStay(Apply(s, steps[0]), steps[1..]);
    }
  }

  lemma {:induction false} RunJudgesByTicket(s: State, steps: seq<Step>)
    requires Run(s, steps) && JudgedByTicket(s)
    ensures JudgedByTicket(After(s, steps))
    decreases |steps|
  {
    if steps != [] {
      RunJudgesByTicket(Apply(s, steps[0]), steps[1..]);
    }
  }

  /** In every run of any number of requests, a request is refused exactly if there is a limit and its ticket is above it. */
  lemma RefusedIffOver(max: int, places: nat, steps: seq<Step>)
    requires Run(New(max, places), steps)
    ensures JudgedByTicket(After(New(max, places), steps)) && After(New(max, places), steps).max == max
  {
    RunJudgesByTicket(New(max, places), steps);
    PlacesStay(New(max, places), steps);
  }

  // From 2^31 requests at a time on, the counter wraps and the gate lets one too many through.

  lemma RunOne(s: State, step: Step)
    requires Enabled(s, step)
    ensures Run(s, [step]) && After(s, [step]) == Apply(s, step)
  {
    var rest := [step][1..];
    assert rest == [] && Run(Apply(s, step), rest) && After(Apply(s, step), rest) == Apply(s, step);
  }

  lemma {:induction false} RunConcat(s: State, a: seq<Step>, b: seq<Step>)
    requires Run(s, a) && Run(After(s, a), b)
    ensures Run(s, a + b) && After(s, a + b) == After(After(s, a), b)
    decreases |a|
  {
    if a == [] {
      assert a + b == b;
    } else {
      RunConcat(Apply(s, a[0]), a[1..], b);
      assert (a + b)[1..] == a[1..] + b && (a + b)[0] == a[0];
    }
  }

  /** The first n places have entered, one after the other, and the first m of them have compared. */
  ghost predicate Queue(s: State, m: nat, n: nat)
  {
    && m <= n <= |s.handlers|
    && s.depth == ToInt32(n)
    && (forall h :: 0 <= h < m ==> s.handlers[h].Admitted?)
    && (forall h :: m <= h < n ==> s.handlers[h].Ticketed? && s.handlers[h].ticket == ToInt32(h + 1))
    && (forall h :: n <= h < |s.handlers| ==> s.handlers[h].Absent?)
  }

  lemma EnterAll(s: State, n: nat) returns (steps: seq<Step>)
    requires Queue(s, 0, 0) && n <= |s.handlers|
    ensures Run(s, steps) && Queue(After(s, steps), 0, n) && After(s, steps).max == s.max
    ensures |After(s, steps).handlers| == |s.handlers|
    decreases n
  {
    if n == 0 {
      steps := [];
    } else {
      var before := EnterAll(s, n - 1);
      var mid := After(s, before);
      ToInt32Add(n - 1, 1);
      assert Enabled(mid, Enter(n - 1));
      steps := before + [Enter(n - 1)];
      RunOne(mid, Enter(n - 1));
      RunConcat(s, before, [Enter(n - 1)]);
    }
  }

  lemma CompareFirst(s: State, m: nat, n: nat) returns (steps: seq<Step>)
    requires Queue(s, 0, n) && m <= n && 0 < s.max < TWO_31 && m <= s.max
    ensures Run(s, steps) && Queue(After(s, steps), m, n) && After(s, steps).max == s.max
    ensures |After(s, steps).handlers| == |s.handlers|
    decreases m
  {
    if m == 0 {
      steps := [];
    } else {
      var before := CompareFirst(s, m - 1, n);
      var mid := After(s, before);
      assert Enabled(mid, Compare(m - 1)) && mid.handlers[m - 1].ticket == m;
      steps := before + [Compare(m - 1)];
      RunOne(mid, Compare(m - 1));
      RunConcat(s, before, [Compare(m - 1)]);
    }
  }

  lemma NewIsQueue(max: int, places: nat)
    ensures Queue(New(max, places), 0, 0)
  {
  }

  lemma OverLimit(max: int, places: nat) returns (steps: seq<Step>)
    requires 0 < max < TWO_31 && places >= TWO_31
    ensures Run(New(max, places), steps) && |PastGate(After(New(max, places), steps))| > max
  {
    hide Run, After, Apply, Enabled;
    var s := New(max, places);
    NewIsQueue(max, places);
    var enter := EnterAll(s, TWO_31);
    var mid := After(s, enter);
    var compare := CompareFirst(mid, max, TWO_31);
    var late := After(mid, compare);
    var last := Compare(TWO_31 - 1);
    LastWraps(late, max);
    RunOne(late, last);
    RunConcat(s, enter, compare);
    RunConcat(s, enter + compare, [last]);
    steps := enter + compare + [last];
  }

  /** With the first `max` past the gate, the place whose ticket has wrapped gets past it too. */
  lemma LastWraps(s: State, max: int)
    requires 0 < s.max == max < TWO_31 && Queue(s, max, TWO_31)
    ensures Enabled(s, Compare(TWO_31 - 1)) && |PastGate(Apply(s, Compare(TWO_31 - 1)))| > max
  {
    assert s.handlers[TWO_31 - 1].Ticketed? && s.handlers[TWO_31 - 1].ticket == ToInt32(TWO_31) == -TWO_31;
    SubsetCardinality(NumbersBelow(max) + {TWO_31 - 1}, PastGate(Apply(s, Compare(TWO_31 - 1))));
  }

  /** In every run, at most `max` requests are past the gate at once. */
  ghost predicate Limits(max: int, places: nat)
  {
    forall steps: seq<Step> :: Run(New(max, places), steps) ==> |PastGate(After(New(max, places), steps))| <= max
  }

  /** The exact condition on the number of simultaneous requests, for every limit an int32 can hold. */
  lemma LimitsIff(max: int, places: nat)
    requires 0 < max < TWO_31
    ensures Limits(max, places) <==> places < TWO_31
  {
    if places < TWO_31 {
      forall steps: seq<Step> | Run(New(max, places), steps)
        ensures |PastGate(After(New(max, places), steps))| <= max
      {
        LimitHolds(max, places, steps);
      }
    } else {
      var steps := OverLimit(max, places);
      assert Run(New(max, places), steps);
    }
  }
}
