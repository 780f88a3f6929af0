/** Sums and counts over sequences: additive over concatenation, blind to order. */
module Counting {

  ghost predicate Distinct<L>(labels: seq<L>) {
    forall i, j :: 0 <= i < j < |labels| ==> labels[i] != labels[j]
  }

  function Reversed<T>(s: seq<T>): (r: seq<T>)
    ensures |r| == |s| && forall i :: 0 <= i < |s| ==> r[i] == s[|s| - 1 - i]
  {
    if s == [] then [] else Reversed(s[1..]) + [s[0]]
  }

  function Sum<T>(s: seq<T>, f: T -> int): int {
    if s == [] then 0 else Sum(s[..|s| - 1], f) + f(s[|s| - 1])
  }

  function Count<T>(s: seq<T>, p: T -> bool): nat {
    if s == [] then 0 else Count(s[..|s| - 1], p) + if p(s[|s| - 1]) then 1 else 0
  }

  lemma CountAppend<T>(s: seq<T>, x: T, p: T -> bool)
    ensures Count(s + [x], p) == Count(s, p) + if p(x) then 1 else 0
  {
    assert (s + [x])[..|s|] == s;
  }

  lemma SumAppend<T>(s: seq<T>, x: T, f: T -> int)
    ensures Sum(s + [x], f) == Sum(s, f) + f(x)
  {
    assert (s + [x])[..|s|] == s;
  }

  lemma SumOne<T>(x: T, f: T -> int)
    ensures Sum([x], f) == f(x)
  {
    assert [x][..0] == [];
  }

  lemma {:induction false} SumConcat<T>(a: seq<T>, b: seq<T>, f: T -> int)
    ensures Sum(a + b, f) == Sum(a, f) + Sum(b, f)
  {
    if b == [] {
      assert a + b == a;
    } else {
      assert (a + b)[..|a + b| - 1] == a + b[..|b| - 1];
      SumConcat(a, b[..|b| - 1], f);
    }
  }

  lemma {:induction false} CountIsSum<T>(s: seq<T>, p: T -> bool)
    ensures Count(s, p) == Sum(s, x => if p(x) then 1 else 0)
  {
    if s != [] { CountIsSum(s[..|s| - 1], p); }
  }

  lemma CountConcat<T>(a: seq<T>, b: seq<T>, p: T -> bool)
    ensures Count(a + b, p) == Count(a, p) + Count(b, p)
  {
    CountIsSum(a, p);
    CountIsSum(b, p);
    CountIsSum(a + b, p);
    SumConcat(a, b, x => if p(x) then 1 else 0);
  }

  lemma SumMiddle<T>(x: seq<T>, e: T, y: seq<T>, f: T -> int)
    ensures Sum(x + [e] + y, f) == Sum(x + y, f) + f(e)
  {
    SumConcat(x, y, f);
    SumConcat(x + [e], y, f);
    SumConcat(x, [e], f);
    assert Sum([e], f) == f(e);
  }

  /** Where an element of the multiset stands in the sequence. */
  lemma SplitAt<T>(b: seq<T>, e: T) returns (x: seq<T>, y: seq<T>)
    requires e in multiset(b)
    ensures b == x + [e] + y && multiset(x + y) == multiset(b) - multiset{e}
  {
    var j :| 0 <= j < |b| && b[j] == e;
    x, y := b[..j], b[j + 1..];
    assert b == x + [e] + y;
    assert multiset(b) == multiset(x) + multiset{e} + multiset(y);
  }

  /** Sums do not depend on the order of the elements. */
  lemma {:induction false} SumPermutation<T>(a: seq<T>, b: seq<T>, f: T -> int)
    requires multiset(a) == multiset(b)
    ensures Sum(a, f) == Sum(b, f)
    decreases |a|
  {
    if a == [] {
      assert |multiset(b)| == 0;
    } else {
      var e := a[|a| - 1];
      assert a == a[..|a| - 1] + [e];
      assert e in multiset(a);
      var x, y := SplitAt(b, e);
      SumPermutation(a[..|a| - 1], x + y, f);
      SumMiddle(x, e, y, f);
    }
  }

  lemma CountPermutation<T>(a: seq<T>, b: seq<T>, p: T -> bool)
    requires multiset(a) == multiset(b)
    ensures Count(a, p) == Count(b, p)
  {
    CountIsSum(a, p);
    CountIsSum(b, p);
    SumPermutation(a, b, x => if p(x) then 1 else 0);
  }

  lemma {:induction false} CountAtMost<T>(s: seq<T>, p: T -> bool, q: T -> bool)
    requires forall i :: 0 <= i < |s| ==> (p(s[i]) ==> q(s[i]))
    ensures Count(s, p) <= Count(s, q) <= |s|
  {
    if s != [] { CountAtMost(s[..|s| - 1], p, q); }
  }

  lemma {:induction false} CountSame<T>(s: seq<T>, p: T -> bool, q: T -> bool)
    requires forall i :: 0 <= i < |s| ==> (p(s[i]) <==> q(s[i]))
    ensures Count(s, p) == Count(s, q)
  {
    if s != [] { CountSame(s[..|s| - 1], p, q); }
  }

  lemma {:induction false} CountAll<T>(s: seq<T>, p: T -> bool)
    ensures Count(s, p) <= |s|
    ensures Count(s, p) == |s| <==> forall i :: 0 <= i < |s| ==> p(s[i])
  {
    if s != [] { CountAll(s[..|s| - 1], p); }
  }

  lemma {:induction false} CountNone<T>(s: seq<T>, p: T -> bool)
    ensures Count(s, p) == 0 <==> forall i :: 0 <= i < |s| ==> !p(s[i])
  {
    if s != [] { CountNone(s[..|s| - 1], p); }
  }

  /** Two classes without a common element, both inside a third. */
  lemma {:induction false} CountDisjoint<T>(s: seq<T>, p: T -> bool, q: T -> bool, whole: T -> bool)
    requires forall i :: 0 <= i < |s| ==> !(p(s[i]) && q(s[i])) && (p(s[i]) || q(s[i]) ==> whole(s[i]))
    ensures Count(s, p) + Count(s, q) <= Count(s, whole)
  {
    if s != [] { CountDisjoint(s[..|s| - 1], p, q, whole); }
  }

  /** A class that falls into two parts. */
  lemma {:induction false} CountSplit<T>(s: seq<T>, p: T -> bool, q: T -> bool, whole: T -> bool)
    requires forall i :: 0 <= i < |s| ==> !(p(s[i]) && q(s[i])) && (p(s[i]) || q(s[i]) <==> whole(s[i]))
    ensures Count(s, p) + Count(s, q) == Count(s, whole)
  {
    if s != [] { CountSplit(s[..|s| - 1], p, q, whole); }
  }

  /** When every element falls in one of two classes, their counts add up to |s| exactly if none is in both. */
  lemma {:induction false} CountCover<T>(s: seq<T>, p: T -> bool, q: T -> bool)
    requires forall i :: 0 <= i < |s| ==> p(s[i]) || q(s[i])
    ensures Count(s, p) + Count(s, q) >= |s|
    ensures Count(s, p) + Count(s, q) == |s| <==> forall i :: 0 <= i < |s| ==> !(p(s[i]) && q(s[i]))
  {
    if s != [] { CountCover(s[..|s| - 1], p, q); }
  }

  /** The places of the elements with a property. */
  function Places<T>(s: seq<T>, p: T -> bool): set<nat> {
    set i: nat | i < |s| && p(s[i])
  }

  /** A count is the number of such places. */
  lemma {:induction false} CountIsSize<T>(s: seq<T>, p: T -> bool)
    ensures Count(s, p) == |Places(s, p)|
  {
    if s != [] {
      var n := |s| - 1;
      CountIsSize(s[..n], p);
      assert Places(s, p) == Places(s[..n], p) + if p(s[n]) then {n} else {};
    }
  }

  lemma {:induction false} SumSame<T>(s: seq<T>, f: T -> int, g: T -> int)
    requires forall i :: 0 <= i < |s| ==> f(s[i]) == g(s[i])
    ensures Sum(s, f) == Sum(s, g)
  {
    if s != [] { SumSame(s[..|s| - 1], f, g); }
  }

  function InClass<T, L(==)>(p: T -> bool, tag: T -> L, l: L): T -> bool {
    x => p(x) && tag(x) == l
  }

  /** The elements of a class, split by a label that takes its values in `labels`. */
  function CountByLabel<T, L(==)>(s: seq<T>, p: T -> bool, tag: T -> L, labels: seq<L>): nat {
    if labels == [] then 0
    else
      var l := labels[|labels| - 1];
      CountByLabel(s, p, tag, labels[..|labels| - 1]) + Count(s, InClass(p, tag, l))
  }

  lemma {:induction false} CountByLabelIsSum<T, L>(s: seq<T>, p: T -> bool, tag: T -> L, labels: seq<L>, g: L -> int)
    requires forall i :: 0 <= i < |labels| ==> g(labels[i]) == Count(s, InClass(p, tag, labels[i]))
    ensures Sum(labels, g) == CountByLabel(s, p, tag, labels)
  {
    if labels != [] { CountByLabelIsSum(s, p, tag, labels[..|labels| - 1], g); }
  }

  lemma {:induction false} CountByLabelStep<T, L>(s: seq<T>, x: T, p: T -> bool, tag: T -> L, labels: seq<L>)
    requires Distinct(labels)
    ensures CountByLabel(s + [x], p, tag, labels) ==
            CountByLabel(s, p, tag, labels) + if p(x) && tag(x) in labels then 1 else 0
  {
    if labels != [] {
      var rest, l := labels[..|labels| - 1], labels[|labels| - 1];
      CountByLabelStep(s, x, p, tag, rest);
      assert labels == rest + [l];
      assert (s + [x])[..|s|] == s;
    }
  }

  lemma {:induction false} CountByLabelEmpty<T, L>(p: T -> bool, tag: T -> L, labels: seq<L>)
    ensures CountByLabel([], p, tag, labels) == 0
  {
    if labels != [] { CountByLabelEmpty(p, tag, labels[..|labels| - 1]); }
  }

  /** Splitting by a label loses and duplicates nothing. */
  lemma {:induction false} LabelsPartition<T, L>(s: seq<T>, p: T -> bool, tag: T -> L, labels: seq<L>)
    requires Distinct(labels)
    requires forall i :: 0 <= i < |s| && p(s[i]) ==> tag(s[i]) in labels
    ensures CountByLabel(s, p, tag, labels) == Count(s, p)
  {
    if s == [] {
      CountByLabelEmpty(p, tag, labels);
    } else {
      var rest, x := s[..|s| - 1], s[|s| - 1];
      assert s == rest + [x];
      LabelsPartition(rest, p, tag, labels);
      CountByLabelStep(rest, x, p, tag, labels);
    }
  }

  // ----- sequences without repetition -----

  lemma TwoPlaces<T>(a: seq<T>, i: nat, j: nat)
    requires i < j < |a| && a[i] == a[j]
    ensures multiset(a)[a[i]] >= 2
  {
    assert a == a[..i] + [a[i]] + a[i + 1..j] + [a[j]] + a[j + 1..];
  }

  lemma OnceIsDistinct<T(!new)>(a: seq<T>)
    requires forall x :: multiset(a)[x] <= 1
    ensures Distinct(a)
  {
    forall i, j | 0 <= i < j < |a| ensures a[i] != a[j] {
      if a[i] == a[j] { TwoPlaces(a, i, j); }
    }
  }

  ghost function Elements<T>(s: seq<T>): set<T> {
    set i | 0 <= i < |s| :: s[i]
  }

  lemma {:induction false} DistinctSize<T>(s: seq<T>)
    requires Distinct(s)
    ensures |Elements(s)| == |s|
  {
    if s != [] {
      var rest, x := s[..|s| - 1], s[|s| - 1];
      DistinctSize(rest);
      assert Elements(s) == Elements(rest) + {x};
      assert x !in Elements(rest);
    }
  }

  /** Two lists of the same elements without repetition are equally long. */
  lemma SameElements<T>(s: seq<T>, t: seq<T>)
    requires Distinct(s) && Distinct(t)
    requires forall x :: x in s <==> x in t
    ensures |s| == |t|
  {
    DistinctSize(s);
    DistinctSize(t);
    forall x ensures x in Elements(s) <==> x in Elements(t) {
      assert x in s <==> x in Elements(s);
      assert x in t <==> x in Elements(t);
    }
    assert Elements(s) == Elements(t);
  }

  /** Counting over a list without repetitions counts elements. */
  lemma CountDistinct<T(!new)>(s: seq<T>, p: T -> bool, elements: set<T>)
    requires Distinct(s) && forall x :: x in elements <==> x in s && p(x)
    ensures Count(s, p) == |elements|
  {
    CountIsSize(s, p);
    var places := Places(s, p);
    forall x | x in elements ensures exists i :: i in places && s[i] == x {
      var i :| 0 <= i < |s| && s[i] == x;
      assert i in places;
    }
    SameSize(places, elements, (i: nat) requires i < |s| => s[i]);
  }

  /** A bijection between two finite sets. */
  lemma {:induction false} SameSize<S(!new), T(!new)>(a: set<S>, b: set<T>, f: S --> T)
    requires forall x :: x in a ==> f.requires(x) && f(x) in b
    requires forall x, y :: x in a && y in a && f(x) == f(y) ==> x == y
    requires forall y :: y in b ==> exists x :: x in a && f(x) == y
    ensures |a| == |b|
    decreases a
  {
    if a == {} {
      assert forall y :: y !in b;
    } else {
      var x :| x in a;
      forall y | y in b - {f(x)} ensures exists z :: z in a - {x} && f(z) == y {
        var z :| z in a && f(z) == y;
        assert z in a - {x};
      }
      SameSize(a - {x}, b - {f(x)}, f);
    }
  }

  /** Reversing keeps repetitions and makes none. */
  lemma ReversedDistinct<T>(s: seq<T>)
    ensures Distinct(Reversed(s)) <==> Distinct(s)
  {
    var t, n := Reversed(s), |s|;
    if !Distinct(s) {
      var i, j :| 0 <= i < j < n && s[i] == s[j];
      assert t[n - 1 - j] == t[n - 1 - i];
    }
    if !Distinct(t) {
      var i, j :| 0 <= i < j < n && t[i] == t[j];
      assert s[n - 1 - j] == s[n - 1 - i];
    }
  }

  lemma {:induction false} ReversedElements<T>(s: seq<T>)
    ensures multiset(Reversed(s)) == multiset(s)
  {
    if s != [] {
      ReversedElements(s[1..]);
      assert s == [s[0]] + s[1..];
    }
  }
}
