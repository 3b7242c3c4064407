/** Facts about sequences and finite sets that several components share. */
module Sequences {

  lemma Associate<T>(a: seq<T>, b: seq<T>, c: seq<T>)
    ensures (a + b) + c == a + (b + c)
  {
  }

  lemma Whole<T>(a: seq<T>)
    ensures a[0..] == a && [] + a == a && a + [] == a
  {
  }

  lemma ConcatHead<T>(a: seq<T>, b: seq<T>)
    requires a != []
    ensures (a + b)[0] == a[0] && (a + b)[1..] == a[1..] + b
  {
  }

  lemma TakeAfterHead<T>(a: seq<T>, i: nat)
    requires 0 < i <= |a|
    ensures a[..i][0] == a[0] && a[..i][1..] == a[1..][..i - 1]
  {
  }

  /** The concatenation of a sequence of sequences. */
  function Flatten<T>(ss: seq<seq<T>>): (r: seq<T>)
  {
    if ss == [] then [] else ss[0] + Flatten(ss[1..])
  }

  lemma {:induction false} FlattenConcat<T>(ss: seq<seq<T>>, tt: seq<seq<T>>)
    ensures Flatten(ss + tt) == Flatten(ss) + Flatten(tt)
  {
    if ss == [] {
      assert ss + tt == tt;
    } else {
      FlattenConcat(ss[1..], tt);
      ConcatHead(ss, tt);
      Associate(ss[0], Flatten(ss[1..]), Flatten(tt));
    }
  }

  lemma FlattenSnoc<T>(ss: seq<seq<T>>, s: seq<T>)
    ensures Flatten(ss + [s]) == Flatten(ss) + s
  {
    FlattenConcat(ss, [s]);
    assert Flatten([s]) == s + Flatten<T>([]);
  }

  lemma {:induction false} FlattenMember<T>(ss: seq<seq<T>>, i: nat, x: T)
    requires i < |ss| && x in ss[i]
    ensures x in Flatten(ss)
  {
    if i > 0 {
      FlattenMember(ss[1..], i - 1, x);
    }
  }

  lemma {:induction false} FlattenPart<T>(ss: seq<seq<T>>, i: nat)
    requires i < |ss|
    ensures |ss[i]| <= |Flatten(ss)|
  {
    if i > 0 {
      FlattenPart(ss[1..], i - 1);
    }
  }

  lemma {:induction false} SubsetCardinality<T>(a: set<T>, b: set<T>)
    requires a <= b
    ensures |a| <= |b|
  {
    if a != {} {
      var x :| x in a;
      SubsetCardinality(a - {x}, b - {x});
    }
  }

  /** A set of indices below n has at most n members. */
  lemma {:induction false} IndexSetCardinality(a: set<nat>, n: nat)
    requires forall i :: i in a ==> i < n
    ensures |a| <= n
  {
    if n == 0 {
      assert a == {};
    } else {
      IndexSetCardinality(a - {n - 1}, n - 1);
      SubsetCardinality(a, a - {n - 1} + {n - 1});
    }
  }

  function NumbersBelow(n: nat): (r: set<nat>)
    ensures |r| == n && forall h: nat :: h in r <==> h < n
  {
    if n == 0 then {} else
      var fewer := NumbersBelow(n - 1);
      assert n - 1 !in fewer;
      fewer + {n - 1}
  }

  /** How often x is in s. */
  ghost function Occurs<T>(s: seq<T>, x: T): nat
    decreases |s|
  {
    if s == [] then 0 else Occurs(s[..|s| - 1], x) + if s[|s| - 1] == x then 1 else 0
  }

  lemma OccursSnoc<T>(s: seq<T>, y: T, x: T)
    ensures Occurs(s + [y], x) == Occurs(s, x) + if y == x then 1 else 0
  {
    assert (s + [y])[..|s|] == s;
  }

  lemma OccursShort<T>(s: seq<T>, x: T)
    requires |s| <= 1
    ensures Occurs(s, x) == if s == [x] then 1 else 0
  {
    assert s != [] ==> s[..|s| - 1] == [];
  }

  lemma {:induction false} OccursNot<T>(s: seq<T>, x: T)
    requires x !in s
    ensures Occurs(s, x) == 0
    decreases |s|
  {
    if s != [] {
      OccursNot(s[..|s| - 1], x);
    }
  }

  lemma {:induction false} OccursConcat<T>(s: seq<T>, t: seq<T>, x: T)
    ensures Occurs(s + t, x) == Occurs(s, x) + Occurs(t, x)
    decreases |t|
  {
    if t == [] {
      assert s + t == s;
    } else {
      OccursConcat(s, t[..|t| - 1], x);
      assert (s + t)[..|s + t| - 1] == s + t[..|t| - 1];
    }
  }

  lemma OccursPrefix<T>(s: seq<T>, t: seq<T>, x: T)
    requires s <= t
    ensures Occurs(s, x) <= Occurs(t, x)
  {
    OccursConcat(s, t[|s|..], x);
    assert t == s + t[|s|..];
  }

  /** The sum of a weight over a sequence. */
  function Sum<T>(s: seq<T>, weight: T -> nat): nat
    decreases |s|
  {
    if s == [] then 0 else Sum(s[..|s| - 1], weight) + weight(s[|s| - 1])
  }

  lemma SumSnoc<T>(s: seq<T>, x: T, weight: T -> nat)
    ensures Sum(s + [x], weight) == Sum(s, weight) + weight(x)
  {
    assert (s + [x])[..|s|] == s;
  }

  lemma {:induction false} SumUpdate<T>(s: seq<T>, i: nat, x: T, weight: T -> nat)
    requires i < |s|
    ensures Sum(s[i := x], weight) + weight(s[i]) == Sum(s, weight) + weight(x)
    decreases |s|
  {
    var n := |s| - 1;
    if i < n {
      SumUpdate(s[..n], i, x, weight);
      assert s[i := x][..n] == s[..n][i := x];
    } else {
      assert s[i := x][..n] == s[..n];
    }
  }

  lemma {:induction false} SumPositive<T>(s: seq<T>, weight: T -> nat)
    requires Sum(s, weight) > 0
    ensures exists i :: 0 <= i < |s| && weight(s[i]) > 0
    decreases |s|
  {
    var n := |s| - 1;
    if weight(s[n]) == 0 {
      SumPositive(s[..n], weight);
      var i :| 0 <= i < n && weight(s[..n][i]) > 0;
      assert weight(s[i]) > 0;
    }
  }
}
