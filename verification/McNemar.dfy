/**
  The exact two-sided McNemar test of scripts/summarize_tool_aci_golden_20.py, before rounding:
  the p-value is the share of sign patterns at least as lopsided as the observed one.
*/
module McNemar {

  function Pow2(n: nat): (r: nat)
    ensures r >= 1
  {
    if n == 0 then 1 else 2 * Pow2(n - 1)
  }

  /** `math.comb`. */
  function Choose(n: nat, k: nat): nat {
    if k == 0 then 1 else if n == 0 then 0 else Choose(n - 1, k - 1) + Choose(n - 1, k)
  }

  /** The sum of Choose(n, k) over k in 0..upto-1. */
  function Tail(n: nat, upto: nat): nat {
    if upto == 0 then 0 else Tail(n, upto - 1) + Choose(n, upto - 1)
  }

  function Min(a: nat, b: nat): nat {
    if a <= b then a else b
  }

  /** `_mcnemar_exact` without the final rounding. */
  function Exact(gains: nat, regressions: nat): real {
    var discordant := gains + regressions;
    if discordant == 0 then 1.0
    else
      var lower := Min(gains, regressions);
      var probability := (2 * Tail(discordant, lower + 1)) as real / Pow2(discordant) as real;
      if probability < 1.0 then probability else 1.0
  }

  // ----- binomial sums -----

  lemma {:induction false} ChooseBeyond(n: nat, k: nat)
    requires k > n
    ensures Choose(n, k) == 0
  {
    if n > 0 {
      ChooseBeyond(n - 1, k - 1);
      ChooseBeyond(n - 1, k);
    }
  }

  lemma {:induction false} ChoosePositive(n: nat, k: nat)
    requires k <= n
    ensures Choose(n, k) >= 1
  {
    if k > 0 {
      ChoosePositive(n - 1, k - 1);
    }
  }

  lemma {:induction false} ChooseSelf(n: nat)
    ensures Choose(n, n) == 1
  {
    if n > 0 {
      ChooseSelf(n - 1);
      ChooseBeyond(n - 1, n);
    }
  }

  lemma {:induction false} ChooseSymmetric(n: nat, k: nat)
    requires k <= n
    ensures Choose(n, k) == Choose(n, n - k)
  {
    if k == 0 {
      ChooseSelf(n);
    } else if k == n {
      ChooseSelf(n);
    } else {
      ChooseSymmetric(n - 1, k - 1);
      ChooseSymmetric(n - 1, k);
    }
  }

  /** One row of Pascal's triangle: a tail of row n is made of two tails of row n - 1. */
  lemma {:induction false} TailStep(n: nat, upto: nat)
    requires n > 0 && upto > 0
    ensures Tail(n, upto) == Tail(n - 1, upto) + Tail(n - 1, upto - 1)
  {
    if upto > 1 {
      TailStep(n, upto - 1);
    }
  }

  lemma {:induction false} WholeRow(n: nat)
    ensures Tail(n, n + 1) == Pow2(n)
  {
    if n > 0 {
      TailStep(n, n + 1);
      WholeRow(n - 1);
      ChooseBeyond(n - 1, n);
    }
  }

  /** The lower and the upper tail of equal length have the same weight. */
  lemma {:induction false} TailMirror(n: nat, upto: nat)
    requires upto <= n + 1
    ensures Tail(n, upto) == Pow2(n) - Tail(n, n + 1 - upto)
  {
    if upto == 0 {
      WholeRow(n);
    } else {
      TailMirror(n, upto - 1);
      ChooseSymmetric(n, upto - 1);
    }
  }

  lemma {:induction false} TailGrows(n: nat, a: nat, b: nat)
    requires a < b <= n + 1
    ensures Tail(n, a) < Tail(n, b)
  {
    ChoosePositive(n, b - 1);
    if a < b - 1 {
      TailGrows(n, a, b - 1);
    }
  }

  // ----- sign patterns -----

  /** The ways the discordant cases could have turned out: true for a gain, false for a regression. */
  ghost function Patterns(n: nat): set<seq<bool>> {
    if n == 0 then {[]}
    else Prepend(true, Patterns(n - 1)) + Prepend(false, Patterns(n - 1))
  }

  ghost function Prepend(b: bool, s: set<seq<bool>>): set<seq<bool>> {
    set p | p in s :: [b] + p
  }

  function Gains(p: seq<bool>): nat {
    if p == [] then 0 else (if p[0] then 1 else 0) + Gains(p[1..])
  }

  lemma PrependMember(b: bool, s: set<seq<bool>>, p: seq<bool>)
    ensures p in Prepend(b, s) <==> p != [] && p[0] == b && p[1..] in s
  {
    if p != [] && p[0] == b && p[1..] in s {
      assert p == [b] + p[1..];
    }
    if p in Prepend(b, s) {
      var q :| q in s && p == [b] + q;
      assert p[1..] == q;
    }
  }

  /** `Patterns(n)` holds every sequence of n signs. */
  lemma {:induction false} PatternsComplete(n: nat, p: seq<bool>)
    ensures p in Patterns(n) <==> |p| == n
  {
    if n > 0 && p != [] {
      PatternsComplete(n - 1, p[1..]);
      PrependMember(p[0], Patterns(n - 1), p);
      PrependMember(!p[0], Patterns(n - 1), p);
    }
  }

  lemma {:induction false} PrependSize(b: bool, s: set<seq<bool>>)
    ensures |Prepend(b, s)| == |s|
  {
    if s == {} {
      assert Prepend(b, s) == {};
    } else {
      var p :| p in s;
      PrependSize(b, s - {p});
      assert Prepend(b, s) == Prepend(b, s - {p}) + {[b] + p};
      assert [b] + p !in Prepend(b, s - {p}) by {
        forall q | q in s - {p} ensures [b] + q != [b] + p {
          assert ([b] + q)[1..] == q && ([b] + p)[1..] == p;
        }
      }
    }
  }

  /** The patterns whose number of gains satisfies `property`. */
  ghost function Where(n: nat, property: nat -> bool): set<seq<bool>> {
    set p | p in Patterns(n) && property(Gains(p))
  }

  /** The sum of Choose(n, k) over the k below `upto` that satisfy `property`. */
  function Weight(n: nat, property: nat -> bool, upto: nat): nat {
    if upto == 0 then 0 else Weight(n, property, upto - 1) + (if property(upto - 1) then Choose(n, upto - 1) else 0)
  }

  function Shift(property: nat -> bool): nat -> bool {
    (k: nat) => property(k + 1)
  }

  lemma WhereSplit(n: nat, property: nat -> bool)
    requires n > 0
    ensures Where(n, property) == Prepend(true, Where(n - 1, Shift(property))) + Prepend(false, Where(n - 1, property))
    ensures Prepend(true, Where(n - 1, Shift(property))) !! Prepend(false, Where(n - 1, property))
  {
    forall p
      ensures p in Where(n, property) <==>
              p in Prepend(true, Where(n - 1, Shift(property))) + Prepend(false, Where(n - 1, property))
    {
      PrependMember(true, Where(n - 1, Shift(property)), p);
      PrependMember(false, Where(n - 1, property), p);
      PrependMember(true, Patterns(n - 1), p);
      PrependMember(false, Patterns(n - 1), p);
    }
  }

  lemma {:induction false} WeightStep(n: nat, property: nat -> bool, upto: nat)
    requires n > 0
    ensures Weight(n, property, upto + 1) == Weight(n - 1, property, upto + 1) + Weight(n - 1, Shift(property), upto)
  {
    if upto > 0 {
      WeightStep(n, property, upto - 1);
    }
  }

  lemma {:induction false} WeightOfZero(property: nat -> bool, upto: nat)
    requires upto > 0
    ensures Weight(0, property, upto) == if property(0) then 1 else 0
  {
    if upto > 1 {
      WeightOfZero(property, upto - 1);
    }
  }

  /** The patterns are counted, class by class, by binomial coefficients. */
  lemma {:induction false} WhereCounts(n: nat, property: nat -> bool)
    ensures |Where(n, property)| == Weight(n, property, n + 1)
  {
    if n == 0 {
      assert Where(0, property) == if property(0) then {[]} else {};
    } else {
      WhereSplit(n, property);
      PrependSize(true, Where(n - 1, Shift(property)));
      PrependSize(false, Where(n - 1, property));
      WhereCounts(n - 1, Shift(property));
      WhereCounts(n - 1, property);
      WeightStep(n, property, n);
      ChooseBeyond(n - 1, n);
    }
  }

  /** How lopsided an outcome is. */
  function Imbalance(gains: nat, regressions: nat): nat {
    if gains >= regressions then gains - regressions else regressions - gains
  }

  /** Whether `k` gains among `n` discordant cases are at least as lopsided as the observed counts. */
  predicate AtLeastAsExtreme(n: nat, imbalance: nat, k: nat) {
    k <= n && Imbalance(k, n - k) >= imbalance
  }

  /** The patterns at least as lopsided as the observed one, in either direction. */
  ghost function Extreme(gains: nat, regressions: nat): set<seq<bool>> {
    Where(gains + regressions, (k: nat) => AtLeastAsExtreme(gains + regressions, Imbalance(gains, regressions), k))
  }

  lemma {:induction false} WeightOfAll(n: nat, property: nat -> bool, upto: nat)
    requires forall k :: 0 <= k < upto ==> property(k)
    ensures Weight(n, property, upto) == Tail(n, upto)
  {
    if upto > 0 { WeightOfAll(n, property, upto - 1); }
  }

  /** Nothing is added between `from` and `upto` when no k in between qualifies. */
  lemma {:induction false} WeightGap(n: nat, property: nat -> bool, from: nat, upto: nat)
    requires from <= upto && forall k :: from <= k < upto ==> !property(k)
    ensures Weight(n, property, upto) == Weight(n, property, from)
  {
    if from < upto { WeightGap(n, property, from, upto - 1); }
  }

  lemma {:induction false} WeightRun(n: nat, property: nat -> bool, from: nat, upto: nat)
    requires from <= upto && forall k :: from <= k < upto ==> property(k)
    ensures Weight(n, property, upto) - Weight(n, property, from) == Tail(n, upto) - Tail(n, from)
  {
    if from < upto { WeightRun(n, property, from, upto - 1); }
  }

  lemma AllPatterns(n: nat)
    ensures |Patterns(n)| == Pow2(n)
  {
    assert Patterns(n) == Where(n, (k: nat) => true);
    WhereCounts(n, (k: nat) => true);
    WeightOfAll(n, (k: nat) => true, n + 1);
    WholeRow(n);
  }

  /** Two tails of equal weight, or everything on a tie. */
  lemma ExtremeWeight(n: nat, lower: nat, property: nat -> bool)
    requires 2 * lower <= n
    requires forall k :: 0 <= k <= n ==> (property(k) <==> k <= lower || k >= n - lower)
    ensures Weight(n, property, n + 1) == if 2 * lower == n then Pow2(n) else 2 * Tail(n, lower + 1)
  {
    if 2 * lower == n {
      WeightOfAll(n, property, n + 1);
      WholeRow(n);
    } else {
      WeightOfAll(n, property, lower + 1);
      WeightGap(n, property, lower + 1, n - lower);
      WeightRun(n, property, n - lower, n + 1);
      WholeRow(n);
      TailMirror(n, lower + 1);
    }
  }

  /** The number of extreme patterns. */
  lemma ExtremeCounts(gains: nat, regressions: nat)
    ensures |Extreme(gains, regressions)| ==
      if gains == regressions then Pow2(gains + regressions)
      else 2 * Tail(gains + regressions, Min(gains, regressions) + 1)
  {
    var n, imbalance := gains + regressions, Imbalance(gains, regressions);
    var property := (k: nat) => AtLeastAsExtreme(n, imbalance, k);
    WhereCounts(n, property);
    ExtremeWeight(n, Min(gains, regressions), property);
  }

  // ----- the test -----

  lemma RatioOrder(a: nat, b: nat, c: nat)
    requires c > 0
    ensures (a as real / c as real < b as real / c as real) <==> a < b
    ensures (a as real / c as real == 1.0) <==> a == c
  {
    var x, y, z := a as real, b as real, c as real;
    assert x == (x / z) * z && y == (y / z) * z;
  }

  /** Twice a short tail is at most the whole row, and exceeds it only on a tie. */
  lemma DoubledTail(gains: nat, regressions: nat)
    ensures
      var n, lower := gains + regressions, Min(gains, regressions);
      && (gains != regressions ==> 2 * Tail(n, lower + 1) <= Pow2(n))
      && (gains == regressions ==> 2 * Tail(n, lower + 1) > Pow2(n))
      && (Imbalance(gains, regressions) == 1 ==> 2 * Tail(n, lower + 1) == Pow2(n))
      && (Imbalance(gains, regressions) > 1 ==> 2 * Tail(n, lower + 1) < Pow2(n))
  {
    var n, lower := gains + regressions, Min(gains, regressions);
    TailMirror(n, lower + 1);
    if gains == regressions {
      TailGrows(n, n - lower, lower + 1);
    } else if Imbalance(gains, regressions) > 1 {
      TailGrows(n, lower + 1, n - lower);
    }
  }

  lemma ExactValue(gains: nat, regressions: nat)
    ensures
      var n := gains + regressions;
      Exact(gains, regressions) == (if gains == regressions then Pow2(n)
                                    else 2 * Tail(n, Min(gains, regressions) + 1)) as real / Pow2(n) as real
  {
    var n := gains + regressions;
    DoubledTail(gains, regressions);
    RatioOrder(2 * Tail(n, Min(gains, regressions) + 1), Pow2(n), Pow2(n));
    RatioOrder(Pow2(n), 2 * Tail(n, Min(gains, regressions) + 1), Pow2(n));
    RatioOrder(Pow2(n), Pow2(n), Pow2(n));
  }

  /** The p-value is the share of sign patterns at least as extreme; the clamp only acts on a tie. */
  lemma ExactIsShareOfExtremePatterns(gains: nat, regressions: nat)
    ensures |Patterns(gains + regressions)| > 0
    ensures Exact(gains, regressions) ==
            |Extreme(gains, regressions)| as real / |Patterns(gains + regressions)| as real
  {
    ExactValue(gains, regressions);
    ExtremeCounts(gains, regressions);
    AllPatterns(gains + regressions);
  }

  lemma ExactSymmetric(gains: nat, regressions: nat)
    ensures Exact(gains, regressions) == Exact(regressions, gains)
  {
  }

  /** A p-value in (0, 1], equal to 1 exactly when the imbalance is at most one. */
  lemma ExactRange(gains: nat, regressions: nat)
    ensures 0.0 < Exact(gains, regressions) <= 1.0
    ensures Exact(gains, regressions) == 1.0 <==> Imbalance(gains, regressions) <= 1
  {
    var n, lower := gains + regressions, Min(gains, regressions);
    if n > 0 {
      DoubledTail(gains, regressions);
      RatioOrder(2 * Tail(n, lower + 1), Pow2(n), Pow2(n));
      TailGrows(n, 0, lower + 1);
      RatioOrder(0, 2 * Tail(n, lower + 1), Pow2(n));
      RatioOrder(Pow2(n), 2 * Tail(n, lower + 1), Pow2(n));
      RatioOrder(Pow2(n), Pow2(n), Pow2(n));
    }
  }

  /** For a fixed number of discordant cases a larger imbalance beyond one is strictly more significant. */
  lemma ExactDecreases(gains: nat, regressions: nat, gains': nat, regressions': nat)
    requires gains + regressions == gains' + regressions'
    requires Imbalance(gains, regressions) < Imbalance(gains', regressions') && Imbalance(gains', regressions') > 1
    ensures Exact(gains', regressions') < Exact(gains, regressions)
  {
    var n := gains + regressions;
    ExactRange(gains, regressions);
    ExactRange(gains', regressions');
    if Imbalance(gains, regressions) > 1 {
      var a, b := Tail(n, Min(gains', regressions') + 1), Tail(n, Min(gains, regressions) + 1);
      TailGrows(n, Min(gains', regressions') + 1, Min(gains, regressions) + 1);
      RatioOrder(2 * a, 2 * b, Pow2(n));
      DoubledTail(gains, regressions);
      DoubledTail(gains', regressions');
      RatioOrder(2 * b, Pow2(n), Pow2(n));
      RatioOrder(Pow2(n), Pow2(n), Pow2(n));
    }
  }
}
