/** Lexicographic orders and the stable sort behind Python's `sorted`. */
module Ordering {
  import opened Counting

  // ----- orders -----

  /** Any two elements compare in exactly one way, and `less` is transitive. */
  ghost predicate StrictTotal<T(!new)>(less: (T, T) -> bool) {
    && (forall x, y :: less(x, y) || less(y, x) || x == y)
    && (forall x, y :: less(x, y) ==> x != y && !less(y, x))
    && (forall x, y, z :: less(x, y) && less(y, z) ==> less(x, z))
  }

  /** What a sort by key needs: elements with equal keys are not ordered. */
  ghost predicate WeakOrder<T(!new)>(less: (T, T) -> bool) {
    && (forall x, y :: less(x, y) ==> !less(y, x))
    && (forall x, y, z :: !less(x, y) && !less(y, z) ==> !less(x, z))
  }

  /** Python's comparison of two sequences: the first difference decides, a proper prefix is smaller. */
  predicate LexLess<T(==)>(a: seq<T>, b: seq<T>, less: (T, T) -> bool) {
    if b == [] then false
    else if a == [] then true
    else if a[0] == b[0] then LexLess(a[1..], b[1..], less)
    else less(a[0], b[0])
  }

  function Lex<T(==)>(less: (T, T) -> bool): (seq<T>, seq<T>) -> bool {
    (a, b) => LexLess(a, b, less)
  }

  /** The two sequences agree on their first `k` elements, and there `a` ends or has the smaller element. */
  ghost predicate LexAt<T>(a: seq<T>, b: seq<T>, less: (T, T) -> bool, k: nat) {
    k <= |a| && k < |b| && a[..k] == b[..k] && (k == |a| || (a[k] != b[k] && less(a[k], b[k])))
  }

  lemma {:induction false} LexIff<T>(a: seq<T>, b: seq<T>, less: (T, T) -> bool)
    ensures LexLess(a, b, less) <==> exists k: nat :: LexAt(a, b, less, k)
  {
    if a == [] || b == [] || a[0] != b[0] {
      if b != [] && (a == [] || less(a[0], b[0])) { assert LexAt(a, b, less, 0); }
      forall k: nat | 0 < k <= |a| && k <= |b| ensures a[..k] == b[..k] ==> a[0] == b[0] {
        assert a[..k][0] == a[0] && b[..k][0] == b[0];
      }
    } else {
      LexIff(a[1..], b[1..], less);
      assert a == [a[0]] + a[1..] && b == [b[0]] + b[1..];
      if k: nat :| LexAt(a[1..], b[1..], less, k) {
        assert a[..k + 1] == [a[0]] + a[1..][..k] && b[..k + 1] == [b[0]] + b[1..][..k];
        assert LexAt(a, b, less, k + 1);
      }
      if k: nat :| LexAt(a, b, less, k) {
        assert a[1..][..k - 1] == a[..k][1..] && b[1..][..k - 1] == b[..k][1..];
        assert LexAt(a[1..], b[1..], less, k - 1);
      }
    }
  }

  lemma {:induction false} LexTrichotomy<T(!new)>(a: seq<T>, b: seq<T>, less: (T, T) -> bool)
    requires StrictTotal(less)
    ensures LexLess(a, b, less) || LexLess(b, a, less) || a == b
    ensures LexLess(a, b, less) ==> a != b && !LexLess(b, a, less)
  {
    if a != [] && b != [] {
      if a[0] == b[0] {
        LexTrichotomy(a[1..], b[1..], less);
        assert a == [a[0]] + a[1..] && b == [b[0]] + b[1..];
      }
    }
  }

  lemma {:induction false} LexTransitive<T(!new)>(a: seq<T>, b: seq<T>, c: seq<T>, less: (T, T) -> bool)
    requires StrictTotal(less) && LexLess(a, b, less) && LexLess(b, c, less)
    ensures LexLess(a, c, less)
  {
    if a != [] && a[0] == b[0] && b[0] == c[0] {
      LexTransitive(a[1..], b[1..], c[1..], less);
    }
  }

  lemma LexIsStrictTotal<T(!new)>(less: (T, T) -> bool)
    requires StrictTotal(less)
    ensures StrictTotal(Lex(less))
  {
    forall a: seq<T>, b: seq<T>
      ensures Lex(less)(a, b) || Lex(less)(b, a) || a == b
      ensures Lex(less)(a, b) ==> a != b && !Lex(less)(b, a)
    {
      LexTrichotomy(a, b, less);
    }
    forall a: seq<T>, b: seq<T>, c: seq<T> | Lex(less)(a, b) && Lex(less)(b, c) ensures Lex(less)(a, c) {
      LexTransitive(a, b, c, less);
    }
  }

  // ----- the stable sort -----

  /** Put `x` behind every element that is not greater. */
  function Insert<T>(s: seq<T>, x: T, less: (T, T) -> bool): seq<T> {
    if s == [] || !less(x, s[|s| - 1]) then s + [x]
    else Insert(s[..|s| - 1], x, less) + [s[|s| - 1]]
  }

  function StableSort<T>(s: seq<T>, less: (T, T) -> bool): seq<T> {
    if s == [] then [] else Insert(StableSort(s[..|s| - 1], less), s[|s| - 1], less)
  }

  ghost predicate Sorted<T>(s: seq<T>, less: (T, T) -> bool) {
    forall i, j :: 0 <= i < j < |s| ==> !less(s[j], s[i])
  }

  function Filter<T>(s: seq<T>, p: T -> bool): seq<T> {
    if s == [] then []
    else Filter(s[..|s| - 1], p) + if p(s[|s| - 1]) then [s[|s| - 1]] else []
  }

  lemma {:induction false} FilterElements<T(!new)>(s: seq<T>, p: T -> bool)
    ensures forall x :: multiset(Filter(s, p))[x] == if p(x) then multiset(s)[x] else 0
  {
    if s != [] {
      FilterElements(s[..|s| - 1], p);
      assert s == s[..|s| - 1] + [s[|s| - 1]];
    }
  }

  lemma {:induction false} FilterConcat<T>(a: seq<T>, b: seq<T>, p: T -> bool)
    ensures Filter(a + b, p) == Filter(a, p) + Filter(b, p)
  {
    if b == [] {
      assert a + b == a;
    } else {
      assert (a + b)[..|a + b| - 1] == a + b[..|b| - 1];
      FilterConcat(a, b[..|b| - 1], p);
    }
  }

  lemma {:induction false} InsertElements<T(!new)>(s: seq<T>, x: T, less: (T, T) -> bool)
    ensures multiset(Insert(s, x, less)) == multiset(s) + multiset{x}
  {
    if s != [] && less(x, s[|s| - 1]) {
      InsertElements(s[..|s| - 1], x, less);
      assert s == s[..|s| - 1] + [s[|s| - 1]];
    }
  }

  lemma InsertedIs<T(!new)>(s: seq<T>, x: T, less: (T, T) -> bool, i: nat)
    requires i < |Insert(s, x, less)|
    ensures Insert(s, x, less)[i] in s || Insert(s, x, less)[i] == x
  {
    InsertElements(s, x, less);
    assert Insert(s, x, less)[i] in multiset(Insert(s, x, less));
  }

  lemma {:induction false} InsertKeeps<T(!new)>(s: seq<T>, x: T, less: (T, T) -> bool)
    requires WeakOrder(less) && Sorted(s, less)
    ensures Sorted(Insert(s, x, less), less)
  {
    if s != [] && less(x, s[|s| - 1]) {
      var n := |s| - 1;
      InsertKeeps(s[..n], x, less);
      var t := Insert(s[..n], x, less);
      forall i | 0 <= i < |t| ensures !less(s[n], t[i]) { InsertedIs(s[..n], x, less, i); }
    } else {
      forall i | 0 <= i < |s| ensures !less(x, s[i]) {
        assert i < |s| - 1 ==> !less(s[|s| - 1], s[i]);
      }
    }
  }

  lemma {:induction false} StableSortElements<T(!new)>(s: seq<T>, less: (T, T) -> bool)
    ensures multiset(StableSort(s, less)) == multiset(s)
  {
    if s != [] {
      StableSortElements(s[..|s| - 1], less);
      InsertElements(StableSort(s[..|s| - 1], less), s[|s| - 1], less);
      assert s == s[..|s| - 1] + [s[|s| - 1]];
    }
  }

  lemma {:induction false} StableSortSorts<T(!new)>(s: seq<T>, less: (T, T) -> bool)
    requires WeakOrder(less)
    ensures Sorted(StableSort(s, less), less) && multiset(StableSort(s, less)) == multiset(s)
  {
    StableSortElements(s, less);
    if s != [] {
      StableSortSorts(s[..|s| - 1], less);
      InsertKeeps(StableSort(s[..|s| - 1], less), s[|s| - 1], less);
    }
  }

  /** A class of elements that do not compare with each other. */
  ghost predicate TieClass<T(!new)>(p: T -> bool, less: (T, T) -> bool) {
    forall x, y :: p(x) && p(y) ==> !less(x, y)
  }

  lemma {:induction false} InsertKeepsTies<T(!new)>(s: seq<T>, x: T, p: T -> bool, less: (T, T) -> bool)
    requires TieClass(p, less)
    ensures Filter(Insert(s, x, less), p) == Filter(s, p) + if p(x) then [x] else []
  {
    if s != [] && less(x, s[|s| - 1]) {
      InsertKeepsTies(s[..|s| - 1], x, p, less);
      var t := Insert(s[..|s| - 1], x, less);
      assert (t + [s[|s| - 1]])[..|t|] == t;
    } else {
      assert (s + [x])[..|s|] == s;
    }
  }

  /** The sort keeps elements with equal keys in their given order. */
  lemma {:induction false} StableSortKeepsTies<T(!new)>(s: seq<T>, p: T -> bool, less: (T, T) -> bool)
    requires TieClass(p, less)
    ensures Filter(StableSort(s, less), p) == Filter(s, p)
  {
    if s != [] {
      StableSortKeepsTies(s[..|s| - 1], p, less);
      InsertKeepsTies(StableSort(s[..|s| - 1], less), s[|s| - 1], p, less);
    }
  }

  /** Two orders that agree on comparisons with what was inserted before sort alike. */
  lemma {:induction false} InsertAgrees<T(!new)>(s: seq<T>, x: T, less: (T, T) -> bool, other: (T, T) -> bool)
    requires forall i :: 0 <= i < |s| ==> less(x, s[i]) == other(x, s[i])
    ensures Insert(s, x, less) == Insert(s, x, other)
  {
    if s != [] { InsertAgrees(s[..|s| - 1], x, less, other); }
  }

  /** The elements that `less` does not tell from `x`. */
  function Ties<T>(x: T, less: (T, T) -> bool): T -> bool {
    y => !less(x, y) && !less(y, x)
  }

  /** A sorted list is determined by its ties: sorting stably has one result. */
  lemma {:induction false} SortedUnique<T(!new)>(a: seq<T>, b: seq<T>, less: (T, T) -> bool)
    requires WeakOrder(less) && Sorted(a, less) && Sorted(b, less)
    requires forall x :: Filter(a, Ties(x, less)) == Filter(b, Ties(x, less))
    ensures a == b
  {
    if a == [] || b == [] {
      if a != [] { FilterHas(a, Ties(a[|a| - 1], less)); }
      if b != [] { FilterHas(b, Ties(b[|b| - 1], less)); }
    } else {
      var n, m := |a| - 1, |b| - 1;
      SameLast(a, b, less);
      assert a[n] == b[m];
      forall x ensures Filter(a[..n], Ties(x, less)) == Filter(b[..m], Ties(x, less)) {
        var p := Ties(x, less);
        assert Filter(a, p) == Filter(b, p);
        assert Filter(a[..n], p) == Filter(a, p)[..|Filter(a[..n], p)|];
        assert Filter(b[..m], p) == Filter(b, p)[..|Filter(b[..m], p)|];
      }
      SortedUnique(a[..n], b[..m], less);
      assert a == a[..n] + [a[n]] && b == b[..m] + [b[m]];
    }
  }

  /** An element that a filter keeps is the last one kept if it stands last. */
  lemma FilterHas<T(!new)>(s: seq<T>, p: T -> bool)
    requires s != [] && p(s[|s| - 1])
    ensures Filter(s, p) != [] && Filter(s, p)[|Filter(s, p)| - 1] == s[|s| - 1]
  {
  }

  lemma {:induction false} FilterIn<T(!new)>(s: seq<T>, p: T -> bool)
    ensures forall x :: x in Filter(s, p) <==> x in s && p(x)
  {
    if s != [] {
      FilterIn(s[..|s| - 1], p);
      assert s == s[..|s| - 1] + [s[|s| - 1]];
    }
  }

  lemma LastIsTop<T(!new)>(a: seq<T>, x: T, less: (T, T) -> bool)
    requires WeakOrder(less) && Sorted(a, less) && x in a
    ensures !less(a[|a| - 1], x)
  {
    var i :| 0 <= i < |a| && a[i] == x;
  }

  lemma SameLast<T(!new)>(a: seq<T>, b: seq<T>, less: (T, T) -> bool)
    requires WeakOrder(less) && Sorted(a, less) && Sorted(b, less) && a != [] && b != []
    requires forall x :: Filter(a, Ties(x, less)) == Filter(b, Ties(x, less))
    ensures a[|a| - 1] == b[|b| - 1]
  {
    var x, y := a[|a| - 1], b[|b| - 1];
    assert Filter(a, Ties(x, less)) == Filter(b, Ties(x, less));
    assert Filter(a, Ties(y, less)) == Filter(b, Ties(y, less));
    FilterHas(a, Ties(x, less));
    FilterHas(b, Ties(y, less));
    FilterIn(b, Ties(x, less));
    FilterIn(a, Ties(y, less));
    LastIsTop(a, y, less);
    LastIsTop(b, x, less);
    FilterHas(b, Ties(x, less));
  }

  /** An inserted element comes to stand behind every element that is not greater. */
  lemma {:induction false} InsertBehind<T(!new)>(s: seq<T>, x: T, less: (T, T) -> bool, e: T) returns (i: nat, j: nat)
    requires e in s && !less(x, e)
    ensures i < j < |Insert(s, x, less)| && Insert(s, x, less)[i] == e && Insert(s, x, less)[j] == x
  {
    if !less(x, s[|s| - 1]) {
      i :| 0 <= i < |s| && s[i] == e;
      j := |s|;
    } else {
      assert s == s[..|s| - 1] + [s[|s| - 1]];
      i, j := InsertBehind(s[..|s| - 1], x, less, e);
    }
  }

  lemma SortPair<T(!new)>(x: T, y: T, less: (T, T) -> bool)
    ensures StableSort([x], less) == [x]
    ensures StableSort([x] + [y], less) == if less(y, x) then [y, x] else [x, y]
  {
    assert [x][..0] == [] && ([x] + [y])[..1] == [x];
    assert Insert([x], y, less) == if less(y, x) then [y, x] else [x, y];
  }

  lemma LastIsGreatest<T(!new)>(a: seq<T>, x: T, less: (T, T) -> bool)
    requires forall i, j :: 0 <= i < j < |a| ==> less(a[i], a[j])
    requires x in a
    ensures x == a[|a| - 1] || less(x, a[|a| - 1])
  {
  }

  /** Strictly ascending lists of the same elements are equal. */
  lemma {:induction false} AscendingUnique<T(!new)>(a: seq<T>, b: seq<T>, less: (T, T) -> bool)
    requires forall x, y :: less(x, y) ==> !less(y, x)
    requires forall i, j :: 0 <= i < j < |a| ==> less(a[i], a[j])
    requires forall i, j :: 0 <= i < j < |b| ==> less(b[i], b[j])
    requires forall x :: x in a <==> x in b
    ensures a == b
  {
    if a == [] {
      assert forall i :: 0 <= i < |b| ==> b[i] in a;
    } else {
      var n, m := |a| - 1, |b| - 1;
      assert a[n] in b && b[m] in a;
      LastIsGreatest(a, b[m], less);
      LastIsGreatest(b, a[n], less);
      forall x ensures x in a[..n] <==> x in b[..m] {
        if x in a[..n] {
          var i :| 0 <= i < n && a[i] == x;
          assert x in b && less(x, a[n]) && x != b[m];
        }
        if x in b[..m] {
          var i :| 0 <= i < m && b[i] == x;
          assert x in a && less(x, b[m]) && x != a[n];
        }
      }
      AscendingUnique(a[..n], b[..m], less);
      assert a == a[..n] + [a[n]] && b == b[..m] + [b[m]];
    }
  }
}
