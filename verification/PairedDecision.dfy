/**
  The paired comparison of scripts/summarize_tool_aci_golden_20.py: per-case transitions, their
  counts, and the frozen decision rule.
*/
module PairedDecision {
  import M = McNemar

  datatype Decision =
    | StrongPositive
    | DirectionalOnly
    | EfficiencyOnlyIfSecondaryMetricsImprove
    | Reject
    | NoPositiveResult

  /** `_decision`. */
  function Decide(r0Resolved: int, r1Resolved: int, gains: nat, regressions: nat, activated: bool): Decision {
    var net := r1Resolved - r0Resolved;
    if net >= 3 && regressions == 0 && activated then StrongPositive
    else if net == 1 || net == 2 || (net > 0 && regressions == 1) then DirectionalOnly
    else if net == 0 && regressions == 0 then EfficiencyOnlyIfSecondaryMetricsImprove
    else if net < 0 || regressions > 0 then Reject
    else NoPositiveResult
  }

  function Resolved(outcomes: seq<bool>): nat {
    if outcomes == [] then 0
    else Resolved(outcomes[..|outcomes| - 1]) + if outcomes[|outcomes| - 1] then 1 else 0
  }

  /** The number of cases that go from `x` before to `y` after. */
  function Transitions(before: seq<bool>, after: seq<bool>, x: bool, y: bool): nat
    requires |before| == |after|
  {
    if before == [] then 0
    else
      var last := |before| - 1;
      Transitions(before[..last], after[..last], x, y) + if before[last] == x && after[last] == y then 1 else 0
  }

  datatype Counts = Counts(gains: nat, regressions: nat, keptResolved: nat, keptUnresolved: nat)

  /** The transition loop of `build_report`. */
  method CountTransitions(before: seq<bool>, after: seq<bool>) returns (c: Counts)
    requires |before| == |after|
    ensures c.gains == Transitions(before, after, false, true)
    ensures c.regressions == Transitions(before, after, true, false)
    ensures c.keptResolved == Transitions(before, after, true, true)
    ensures c.keptUnresolved == Transitions(before, after, false, false)
  {
    c := Counts(0, 0, 0, 0);
    for i := 0 to |before|
      invariant c.gains == Transitions(before[..i], after[..i], false, true)
      invariant c.regressions == Transitions(before[..i], after[..i], true, false)
      invariant c.keptResolved == Transitions(before[..i], after[..i], true, true)
      invariant c.keptUnresolved == Transitions(before[..i], after[..i], false, false)
    {
      assert before[..i + 1][..i] == before[..i] && after[..i + 1][..i] == after[..i];
      if before[i] && after[i] {
        c := c.(keptResolved := c.keptResolved + 1);
      } else if before[i] {
        c := c.(regressions := c.regressions + 1);
      } else if after[i] {
        c := c.(gains := c.gains + 1);
      } else {
        c := c.(keptUnresolved := c.keptUnresolved + 1);
      }
    }
    assert before[..|before|] == before && after[..|after|] == after;
  }

  /** The four counts partition the cases, and the net change is gains minus regressions. */
  lemma {:induction false} TransitionsBalance(before: seq<bool>, after: seq<bool>)
    requires |before| == |after|
    ensures Transitions(before, after, false, true) + Transitions(before, after, true, false) +
            Transitions(before, after, true, true) + Transitions(before, after, false, false) == |before|
    ensures Resolved(before) == Transitions(before, after, true, true) + Transitions(before, after, true, false)
    ensures Resolved(after) == Transitions(before, after, true, true) + Transitions(before, after, false, true)
  {
    if before != [] {
      TransitionsBalance(before[..|before| - 1], after[..|after| - 1]);
    }
  }

  ghost function Changed(before: seq<bool>, after: seq<bool>, x: bool, y: bool): set<nat>
    requires |before| == |after|
  {
    set i: nat | i < |before| && before[i] == x && after[i] == y
  }

  lemma ChangedStep(before: seq<bool>, after: seq<bool>, x: bool, y: bool)
    requires |before| == |after| > 0
    ensures
      var n := |before| - 1;
      |Changed(before, after, x, y)| ==
      |Changed(before[..n], after[..n], x, y)| + if before[n] == x && after[n] == y then 1 else 0
  {
    var n := |before| - 1;
    var all, rest := Changed(before, after, x, y), Changed(before[..n], after[..n], x, y);
    assert n !in rest && forall i: nat :: i in rest <==> i in all && i != n;
    if before[n] == x && after[n] == y { assert all == rest + {n}; } else { assert all == rest; }
  }

  /** A transition count is the number of cases with that outcome before and that outcome after. */
  lemma {:induction false} TransitionsAre(before: seq<bool>, after: seq<bool>, x: bool, y: bool)
    requires |before| == |after|
    ensures Transitions(before, after, x, y) == |Changed(before, after, x, y)|
  {
    if before == [] {
      assert Changed(before, after, x, y) == {};
    } else {
      TransitionsAre(before[..|before| - 1], after[..|before| - 1], x, y);
      ChangedStep(before, after, x, y);
    }
  }

  /** The decision as `build_report` calls it. */
  function DecisionOf(before: seq<bool>, after: seq<bool>, activated: bool): Decision
    requires |before| == |after|
  {
    Decide(Resolved(before), Resolved(after), Transitions(before, after, false, true),
           Transitions(before, after, true, false), activated)
  }

  /** Which transition counts lead to which decision. */
  lemma DecisionByCounts(before: seq<bool>, after: seq<bool>, activated: bool)
    requires |before| == |after|
    ensures
      var g, r := Transitions(before, after, false, true), Transitions(before, after, true, false);
      var d := DecisionOf(before, after, activated);
      && (d == StrongPositive <==> g >= 3 && r == 0 && activated)
      && (d == NoPositiveResult <==> g >= 3 && r == 0 && !activated)
      && (d == EfficiencyOnlyIfSecondaryMetricsImprove <==> g == 0 && r == 0)
      && (d == DirectionalOnly <==> 1 <= g - r <= 2 || (g > r && r == 1))
      && (d == Reject <==> g < r || (g == r && r > 0) || (g - r >= 3 && r >= 2))
  {
    TransitionsBalance(before, after);
  }

  /** How favourable a decision is for the treatment. */
  function Rank(d: Decision): nat {
    match d
    case Reject => 0
    case NoPositiveResult => 1
    case EfficiencyOnlyIfSecondaryMetricsImprove => 2
    case DirectionalOnly => 3
    case StrongPositive => 4
  }

  /** Case `i`, unresolved on both sides, becomes a gain: one gain more, and no other change counts. */
  lemma {:induction false} GainAt(before: seq<bool>, after: seq<bool>, i: nat)
    requires |before| == |after| && i < |before| && !before[i] && !after[i]
    ensures Transitions(before, after[i := true], false, true) == Transitions(before, after, false, true) + 1
    ensures Transitions(before, after[i := true], true, false) == Transitions(before, after, true, false)
  {
    var n := |before| - 1;
    if i < n {
      GainAt(before[..n], after[..n], i);
      assert after[i := true][..n] == after[..n][i := true];
    } else {
      assert after[i := true][..n] == after[..n];
    }
  }

  /**
    Resolving one more case is not always an improvement in the verdict.  It lowers the rank exactly
    when the treatment was ahead by two and either already had two regressions, which turns a
    directional result into a rejection, or had none but was not activated, which turns it into no
    positive result.
  */
  lemma ExtraGainLowersIff(before: seq<bool>, after: seq<bool>, i: nat, activated: bool)
    requires |before| == |after| && i < |before| && !before[i] && !after[i]
    ensures
      var g, r := Transitions(before, after, false, true), Transitions(before, after, true, false);
      Rank(DecisionOf(before, after[i := true], activated)) < Rank(DecisionOf(before, after, activated))
      <==> g - r == 2 && (r >= 2 || (r == 0 && !activated))
  {
    GainAt(before, after, i);
    TransitionsBalance(before, after);
    TransitionsBalance(before, after[i := true]);
  }

  /** Without activation a third gain turns a directional result into no positive result. */
  lemma ThirdGainWitness()
    ensures
      var before, after := [false, false, false], [true, true, false];
      DecisionOf(before, after, false) == DirectionalOnly &&
      DecisionOf(before, after[2 := true], false) == NoPositiveResult
  {
    var before, after := [false, false, false], [true, true, false];
    CountedOut(before, after, 0, 2);
    CountedOut(before, after[2 := true], 0, 3);
  }

  /** With two regressions a fifth gain turns a directional result into a rejection. */
  lemma FifthGainWitness()
    ensures
      var before := [true, true, false, false, false, false, false];
      var after := [false, false, true, true, true, true, false];
      DecisionOf(before, after, true) == DirectionalOnly && DecisionOf(before, after[6 := true], true) == Reject
  {
    var before := [true, true, false, false, false, false, false];
    var after := [false, false, true, true, true, true, false];
    CountedOut(before, after, 2, 6);
    CountedOut(before, after[6 := true], 2, 7);
  }

  /** The transition counts of cases listed as regressions, then gains, then unresolved ones. */
  lemma {:induction false} CountedOut(before: seq<bool>, after: seq<bool>, r: nat, g: nat)
    requires |before| == |after| && r <= g <= |before|
    requires forall i :: 0 <= i < |before| ==> before[i] == (i < r) && after[i] == (r <= i < g)
    ensures Transitions(before, after, true, false) == r && Transitions(before, after, false, true) == g - r
    ensures Transitions(before, after, true, true) == 0
    ensures Resolved(before) == r && Resolved(after) == g - r
  {
    if before != [] {
      var n := |before| - 1;
      CountedOut(before[..n], after[..n], if r <= n then r else n, if g <= n then g else n);
    }
  }

  /** A strong positive has the exact p-value 2 / 2^gains, which is at most 1/4. */
  lemma StrongPositivePValue(before: seq<bool>, after: seq<bool>, activated: bool)
    requires |before| == |after| && DecisionOf(before, after, activated) == StrongPositive
    ensures
      var g, r := Transitions(before, after, false, true), Transitions(before, after, true, false);
      M.Exact(g, r) == 2.0 / M.Pow2(g) as real && M.Exact(g, r) <= 0.25
  {
    DecisionByCounts(before, after, activated);
    var g := Transitions(before, after, false, true);
    M.ExactValue(g, 0);
    assert M.Tail(g, 1) == 1;
    PowerAtLeastEight(g);
    Quarter(M.Pow2(g));
  }

  lemma {:induction false} PowerAtLeastEight(n: nat)
    requires n >= 3
    ensures M.Pow2(n) >= 8
  {
    if n > 3 { PowerAtLeastEight(n - 1); } else { assert M.Pow2(1) == 2; assert M.Pow2(2) == 4; }
  }

  lemma Quarter(x: nat)
    requires x >= 8
    ensures 2.0 / x as real <= 0.25
  {
    var y := x as real;
    assert 2.0 == (2.0 / y) * y;
  }
}
