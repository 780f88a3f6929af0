/**
  The two Wilson score intervals of the repository, over the reals and before rounding: the set of
  success rates that a score test at level z does not reject.
*/
module Wilson {
  import opened Wrappers

  /** The z of both implementations; everything below holds for any positive z. */
  const Z95: real := 1.959963984540054

  datatype Interval = Interval(low: real, high: real)

  /** A square root, given by its defining property. */
  predicate IsRoot(root: real, d: real) {
    root >= 0.0 && root * root == d
  }

  function Proportion(k: nat, n: nat): real
    requires n > 0
  {
    k as real / n as real
  }

  /** What both implementations take the square root of. */
  function Spread(p: real, trials: real, z: real): real
    requires trials > 0.0
  {
    p * (1.0 - p) / trials + z * z / (4.0 * (trials * trials))
  }

  function Discriminant(k: nat, n: nat, z: real): real
    requires n > 0
  {
    Spread(Proportion(k, n), n as real, z)
  }

  function Max(a: real, b: real): real {
    if a >= b then a else b
  }

  function Min(a: real, b: real): real {
    if a <= b then a else b
  }

  /** `_wilson_95_interval` of agent_forge/bench/domain/campaign.py. */
  function CampaignInterval(k: nat, n: nat, z: real, root: real): Option<Interval>
    requires z > 0.0
  {
    if n == 0 then None
    else
      var p, trials := Proportion(k, n), n as real;
      var zSquared := z * z;
      var denominator := 1.0 + zSquared / trials;
      var centre := p + zSquared / (2.0 * trials);
      var margin := z * root;
      assert denominator > 0.0 by { RatioPositive(zSquared, trials); }
      Some(Interval(Max(0.0, (centre - margin) / denominator), Min(1.0, (centre + margin) / denominator)))
  }

  /** `_wilson` of scripts/summarize_tool_aci_golden_20.py. */
  function ReportInterval(k: nat, n: nat, z: real, root: real): Interval
    requires z > 0.0
  {
    if n == 0 then Interval(0.0, 0.0)
    else
      var p, trials := Proportion(k, n), n as real;
      var denominator := 1.0 + z * z / trials;
      assert denominator > 0.0 by { RatioPositive(z * z, trials); }
      var center := (p + z * z / (2.0 * trials)) / denominator;
      var margin := z * root / denominator;
      Interval(Max(0.0, center - margin), Min(1.0, center + margin))
  }

  /** The rates x that the score test accepts for k successes in n trials: n(p - x)² <= z²x(1 - x). */
  predicate Accepted(k: nat, n: nat, z: real, x: real)
    requires n > 0
  {
    Score(Proportion(k, n), n as real, z * z, x) <= 0.0
  }

  function Score(p: real, trials: real, zz: real, x: real): real {
    trials * ((p - x) * (p - x)) - zz * (x * (1.0 - x))
  }

  lemma RatioPositive(a: real, b: real)
    requires a >= 0.0 && b > 0.0
    ensures a / b >= 0.0
  {
    assert a == (a / b) * b;
  }

  lemma ProportionRange(k: nat, n: nat)
    requires k <= n && n > 0
    ensures 0.0 <= Proportion(k, n) <= 1.0
    ensures Proportion(k, n) * n as real == k as real
  {
    var p, trials := Proportion(k, n), n as real;
    assert p * trials == k as real;
  }

  lemma QuotientOrder(p: real, q: real, t: real, a: real, b: real)
    requires t > 0.0 && p * t == a && q * t == b && a <= b
    ensures p <= q
  {
    var d := q - p;
    assert d * t == b - a;
    if d < 0.0 { ProductSign(d, t); }
  }

  lemma ProportionMonotone(k: nat, k': nat, n: nat)
    requires k <= k' && n > 0
    ensures Proportion(k, n) <= Proportion(k', n)
  {
    QuotientTimes(k as real, n as real);
    QuotientTimes(k' as real, n as real);
    QuotientOrder(Proportion(k, n), Proportion(k', n), n as real, k as real, k' as real);
  }

  // ----- the interval without its clamps -----

  /** Centre and half-width of the interval, by what they are after multiplying by n + z². */
  ghost predicate IsCentre(p: real, trials: real, zz: real, c: real) {
    (trials + zz) * c == trials * p + zz / 2.0
  }

  ghost predicate IsHalfWidth(p: real, trials: real, zz: real, h: real) {
    h >= 0.0 && ((trials + zz) * h) * ((trials + zz) * h) == zz * (trials * (p * (1.0 - p)) + zz / 4.0)
  }

  lemma CancelDivision(a: real, trials: real)
    requires trials > 0.0
    ensures a / trials * trials == a && a / (2.0 * trials) * trials == a / 2.0
    ensures a / (4.0 * (trials * trials)) * (trials * trials) == a / 4.0
  {
    assert a / (2.0 * trials) * (2.0 * trials) == a;
    assert a / (4.0 * (trials * trials)) * (4.0 * (trials * trials)) == a;
  }

  /** The unclamped ends, as centre ± half-width. */
  function Centre(k: nat, n: nat, z: real): real
    requires n > 0 && z > 0.0
  {
    var trials := n as real;
    RatioPositive(z * z, trials);
    (Proportion(k, n) + z * z / (2.0 * trials)) / (1.0 + z * z / trials)
  }

  function HalfWidth(n: nat, z: real, root: real): real
    requires n > 0 && z > 0.0
  {
    RatioPositive(z * z, n as real);
    z * root / (1.0 + z * z / n as real)
  }

  lemma CentreScaled(p: real, trials: real, zz: real, den: real, c: real)
    requires trials > 0.0 && zz >= 0.0 && den == 1.0 + zz / trials && c * den == p + zz / (2.0 * trials)
    ensures IsCentre(p, trials, zz, c)
  {
    CancelDivision(zz, trials);
    assert den * trials == trials + zz;
    assert (c * den) * trials == p * trials + zz / 2.0;
    assert c * (den * trials) == (c * den) * trials;
  }

  lemma SquareOfProduct(a: real, b: real, c: real)
    ensures (a * b * c) * (a * b * c) == (a * a) * ((b * b) * (c * c))
  {
    var ab := a * b;
    assert (ab * c) * (ab * c) == (ab * ab) * (c * c);
    assert ab * ab == (a * a) * (b * b);
    assert ((a * a) * (b * b)) * (c * c) == (a * a) * ((b * b) * (c * c));
  }

  lemma ProductSign(a: real, b: real)
    ensures a >= 0.0 && b >= 0.0 ==> a * b >= 0.0
    ensures a > 0.0 && b > 0.0 ==> a * b > 0.0
    ensures a < 0.0 && b > 0.0 ==> a * b < 0.0
    ensures a > 0.0 && b < 0.0 ==> a * b < 0.0
    ensures a < 0.0 && b < 0.0 ==> a * b > 0.0
  {
  }

  lemma PositiveProduct(a: real, b: real, ab: real)
    requires a > 0.0 && b > 0.0 && ab == a * b
    ensures ab > 0.0
  {
  }

  lemma SquarePositive(a: real, square: real)
    requires a > 0.0 && square == a * a
    ensures square > 0.0
  {
    PositiveProduct(a, a, square);
  }

  lemma WidthScaled(p: real, trials: real, z: real, root: real, den: real, h: real)
    requires trials > 0.0 && den == 1.0 + z * z / trials && h * den == z * root && h >= 0.0
    requires root * root == Spread(p, trials, z)
    ensures IsHalfWidth(p, trials, z * z, h)
  {
    var zz, q := z * z, p * (1.0 - p);
    CancelDivision(zz, trials);
    CancelDivision(q, trials);
    assert den * trials == trials + zz;
    assert (trials + zz) * h == (z * root) * trials by { assert (den * trials) * h == (h * den) * trials; }
    var a := z * root * trials;
    SquareOfProduct(z, root, trials);
    assert (root * root) * (trials * trials) ==
           q / trials * (trials * trials) + zz / (4.0 * (trials * trials)) * (trials * trials);
    assert q / trials * (trials * trials) == (q / trials * trials) * trials;
  }

  lemma QuotientTimes(a: real, d: real)
    requires d > 0.0
    ensures a / d * d == a
    ensures a >= 0.0 ==> a / d >= 0.0
  {
    if a >= 0.0 { RatioPositive(a, d); }
  }

  lemma CentreIsCentre(k: nat, n: nat, z: real)
    requires n > 0 && z > 0.0
    ensures IsCentre(Proportion(k, n), n as real, z * z, Centre(k, n, z))
  {
    var trials, p := n as real, Proportion(k, n);
    ProductSign(z, z);
    RatioPositive(z * z, trials);
    QuotientTimes(p + z * z / (2.0 * trials), 1.0 + z * z / trials);
    CentreScaled(p, trials, z * z, 1.0 + z * z / trials, Centre(k, n, z));
  }

  lemma WidthIsHalfWidth(k: nat, n: nat, z: real, root: real)
    requires n > 0 && z > 0.0 && IsRoot(root, Discriminant(k, n, z))
    ensures IsHalfWidth(Proportion(k, n), n as real, z * z, HalfWidth(n, z, root))
  {
    var trials, p := n as real, Proportion(k, n);
    ProductSign(z, z);
    ProductSign(z, root);
    RatioPositive(z * z, trials);
    QuotientTimes(z * root, 1.0 + z * z / trials);
    WidthScaled(p, trials, z, root, 1.0 + z * z / trials, HalfWidth(n, z, root));
  }

  ghost predicate FactorsAs(scale: real, x: real, low: real, high: real, value: real) {
    scale * ((x - low) * (x - high)) == value
  }

  /** The score polynomial factors at the two ends. */
  lemma Factored(p: real, trials: real, zz: real, c: real, h: real, x: real)
    requires trials > 0.0 && zz >= 0.0 && IsCentre(p, trials, zz, c) && IsHalfWidth(p, trials, zz, h)
    ensures FactorsAs(trials + zz, x, c - h, c + h, Score(p, trials, zz, x))
  {
    var scale := trials + zz;
    var product := (x - (c - h)) * (x - (c + h));
    ScaledProduct(scale, c, h, x);
    Expanded(p, trials, zz, x);
    Cancel(scale, scale * product, Score(p, trials, zz, x));
  }

  lemma ScaledProduct(scale: real, c: real, h: real, x: real)
    ensures scale * (scale * ((x - (c - h)) * (x - (c + h)))) ==
            (scale * x - scale * c) * (scale * x - scale * c) - (scale * h) * (scale * h)
  {
    var d := x - c;
    assert (x - (c - h)) * (x - (c + h)) == d * d - h * h;
    assert scale * x - scale * c == scale * d;
    assert (scale * d) * (scale * d) == scale * (scale * (d * d));
    assert (scale * h) * (scale * h) == scale * (scale * (h * h));
  }

  lemma Expanded(p: real, trials: real, zz: real, x: real)
    ensures
      var scale, u := trials + zz, trials * p + zz / 2.0;
      (scale * x - u) * (scale * x - u) - zz * (trials * (p * (1.0 - p)) + zz / 4.0)
      == scale * Score(p, trials, zz, x)
  {
  }

  lemma Cancel(scale: real, a: real, b: real)
    requires scale > 0.0 && scale * a == scale * b
    ensures a == b
  {
    assert scale * (a - b) == 0.0;
  }

  lemma SignOfProduct(scale: real, x: real, low: real, high: real, value: real)
    requires scale > 0.0 && low <= high && FactorsAs(scale, x, low, high, value)
    ensures value <= 0.0 <==> low <= x <= high
  {
    var a, b := x - low, x - high;
    var d := a * b;
    if low <= x <= high {
      ProductSign(a, -b);
      assert d == -(a * -b);
    } else {
      ProductSign(a, b);
    }
    SignOfMultiple(scale, d);
  }

  lemma SignOfMultiple(scale: real, d: real)
    requires scale > 0.0
    ensures scale * d <= 0.0 <==> d <= 0.0
  {
    ProductSign(scale, d);
    if d < 0.0 { ProductSign(d, scale); }
  }

  /** The unclamped interval is exactly the set of accepted rates. */
  lemma UnclampedIsScoreSet(k: nat, n: nat, z: real, root: real, x: real)
    requires n > 0 && z > 0.0 && IsRoot(root, Discriminant(k, n, z))
    ensures HalfWidth(n, z, root) >= 0.0
    ensures Centre(k, n, z) - HalfWidth(n, z, root) <= x <= Centre(k, n, z) + HalfWidth(n, z, root)
            <==> Accepted(k, n, z, x)
  {
    var c, h := Centre(k, n, z), HalfWidth(n, z, root);
    var zz, p, trials := z * z, Proportion(k, n), n as real;
    CentreIsCentre(k, n, z);
    WidthIsHalfWidth(k, n, z, root);
    SquarePositive(z, zz);
    Factored(p, trials, zz, c, h, x);
    SignOfProduct(trials + zz, x, c - h, c + h, Score(p, trials, zz, x));
  }

  lemma ScoreInUnit(p: real, trials: real, zz: real, x: real)
    requires trials > 0.0 && zz > 0.0 && Score(p, trials, zz, x) <= 0.0
    ensures 0.0 <= x <= 1.0
  {
    var square, q := (p - x) * (p - x), x * (1.0 - x);
    ProductSign(p - x, p - x);
    ProductSign(trials, square);
    ProductSign(zz, q);
    ProductSign(x, 1.0 - x);
  }

  /** Accepted rates are rates. */
  lemma AcceptedInUnit(k: nat, n: nat, z: real, x: real)
    requires n > 0 && z > 0.0 && Accepted(k, n, z, x)
    ensures 0.0 <= x <= 1.0
  {
    var zz := z * z;
    SquarePositive(z, zz);
    ScoreInUnit(Proportion(k, n), n as real, zz, x);
  }

  /**
    `_wilson_95_interval` is exactly the set of accepted rates: the clamps at 0 and 1 never act.
  */
  lemma CampaignIntervalIsScoreSet(k: nat, n: nat, z: real, root: real, x: real)
    requires k <= n && n > 0 && z > 0.0 && IsRoot(root, Discriminant(k, n, z))
    ensures
      var i := CampaignInterval(k, n, z, root);
      && i.Some?
      && i.value == Interval(Centre(k, n, z) - HalfWidth(n, z, root), Centre(k, n, z) + HalfWidth(n, z, root))
      && (i.value.low <= x <= i.value.high <==> Accepted(k, n, z, x))
  {
    var c, h := Centre(k, n, z), HalfWidth(n, z, root);
    UnclampedIsScoreSet(k, n, z, root, c - h);
    UnclampedIsScoreSet(k, n, z, root, c + h);
    AcceptedInUnit(k, n, z, c - h);
    AcceptedInUnit(k, n, z, c + h);
    UnclampedIsScoreSet(k, n, z, root, x);
    SplitQuotient(k, n, z, root);
  }

  lemma SplitQuotient(k: nat, n: nat, z: real, root: real)
    requires n > 0 && z > 0.0
    ensures 1.0 + z * z / n as real > 0.0
    ensures
      var p, trials := Proportion(k, n), n as real;
      var den, centre := 1.0 + z * z / trials, p + z * z / (2.0 * trials);
      && (centre - z * root) / den == Centre(k, n, z) - HalfWidth(n, z, root)
      && (centre + z * root) / den == Centre(k, n, z) + HalfWidth(n, z, root)
  {
    RatioPositive(z * z, n as real);
    var trials := n as real;
    DivideSum(Proportion(k, n) + z * z / (2.0 * trials), z * root, 1.0 + z * z / trials);
  }

  lemma DivideSum(a: real, b: real, d: real)
    requires d > 0.0
    ensures (a - b) / d == a / d - b / d && (a + b) / d == a / d + b / d
  {
  }

  /** The two differently factored implementations agree wherever both are defined. */
  lemma ImplementationsAgree(k: nat, n: nat, z: real, root: real)
    requires z > 0.0
    ensures n > 0 ==> CampaignInterval(k, n, z, root) == Some(ReportInterval(k, n, z, root))
    ensures n == 0 ==> CampaignInterval(k, n, z, root) == None && ReportInterval(k, n, z, root) == Interval(0.0, 0.0)
  {
    if n > 0 { SplitQuotient(k, n, z, root); }
  }

  lemma ScoreAtRate(p: real, trials: real, zz: real)
    requires 0.0 <= p <= 1.0 && zz >= 0.0
    ensures Score(p, trials, zz, p) <= 0.0
  {
    ProductSign(p, 1.0 - p);
    ProductSign(zz, p * (1.0 - p));
  }

  /** The observed rate lies inside. */
  lemma ContainsObservedRate(k: nat, n: nat, z: real, root: real)
    requires k <= n && n > 0 && z > 0.0 && IsRoot(root, Discriminant(k, n, z))
    ensures var i := CampaignInterval(k, n, z, root).value; i.low <= Proportion(k, n) <= i.high
  {
    var p := Proportion(k, n);
    ProportionRange(k, n);
    ProductSign(p, 1.0 - p);
    ProductSign(z, z);
    ScoreAtRate(p, n as real, z * z);
    CampaignIntervalIsScoreSet(k, n, z, root, p);
  }

  lemma SpreadMirrored(p: real, trials: real, z: real)
    requires trials > 0.0
    ensures Spread(1.0 - p, trials, z) == Spread(p, trials, z)
  {
    assert (1.0 - p) * (1.0 - (1.0 - p)) == p * (1.0 - p);
  }

  lemma CentreMirrored(k: nat, n: nat, z: real)
    requires k <= n && n > 0 && z > 0.0
    ensures Centre(n - k, n, z) == 1.0 - Centre(k, n, z)
  {
    MirrorProportion(k, n);
    ProductSign(z, z);
    MirrorCentre(Proportion(k, n), n as real, z * z);
  }

  /** Counting failures instead of successes reflects the interval about one half. */
  lemma Mirrored(k: nat, n: nat, z: real, root: real)
    requires k <= n && n > 0 && z > 0.0 && IsRoot(root, Discriminant(k, n, z))
    ensures IsRoot(root, Discriminant(n - k, n, z))
    ensures
      var i, j := CampaignInterval(k, n, z, root).value, CampaignInterval(n - k, n, z, root).value;
      j.low == 1.0 - i.high && j.high == 1.0 - i.low
  {
    MirrorProportion(k, n);
    SpreadMirrored(Proportion(k, n), n as real, z);
    CentreMirrored(k, n, z);
    CampaignIntervalIsScoreSet(k, n, z, root, 0.0);
    CampaignIntervalIsScoreSet(n - k, n, z, root, 0.0);
  }

  lemma SumOfShares(q: real, p: real, trials: real, a: real, b: real)
    requires trials > 0.0 && q * trials == a && p * trials == b && a + b == trials
    ensures q + p == 1.0
  {
    var s := q + p;
    assert trials * s == trials * 1.0;
    Cancel(trials, s, 1.0);
  }

  lemma MirrorProportion(k: nat, n: nat)
    requires k <= n && n > 0
    ensures Proportion(n - k, n) == 1.0 - Proportion(k, n)
  {
    var p, q, trials := Proportion(k, n), Proportion(n - k, n), n as real;
    QuotientTimes(k as real, trials);
    QuotientTimes((n - k) as real, trials);
    SumOfShares(q, p, trials, (n - k) as real, k as real);
  }

  lemma MirrorCentre(p: real, trials: real, zz: real)
    requires trials > 0.0 && zz >= 0.0
    ensures 1.0 + zz / trials > 0.0
    ensures (1.0 - p + zz / (2.0 * trials)) / (1.0 + zz / trials) ==
            1.0 - (p + zz / (2.0 * trials)) / (1.0 + zz / trials)
  {
    RatioPositive(zz, trials);
    CancelDivision(zz, trials);
    var den, half := 1.0 + zz / trials, zz / (2.0 * trials);
    assert half + half == zz / trials by { Cancel(trials, half + half, zz / trials); }
    DivideSum(den, p + half, den);
    assert 1.0 - p + half == den - (p + half);
  }

  /** More successes move both ends up. */
  lemma Monotone(k: nat, k': nat, n: nat, z: real, root: real, root': real)
    requires k <= k' <= n && n > 0 && z > 0.0
    requires IsRoot(root, Discriminant(k, n, z)) && IsRoot(root', Discriminant(k', n, z))
    ensures
      var i, j := CampaignInterval(k, n, z, root).value, CampaignInterval(k', n, z, root').value;
      i.low <= j.low && i.high <= j.high
  {
    LowMonotone(k, k', n, z, root, root');
    Mirrored(k, n, z, root);
    Mirrored(k', n, z, root');
    LowMonotone(n - k', n - k, n, z, root', root);
  }

  lemma LowMonotone(k: nat, k': nat, n: nat, z: real, root: real, root': real)
    requires k <= k' <= n && n > 0 && z > 0.0
    requires IsRoot(root, Discriminant(k, n, z)) && IsRoot(root', Discriminant(k', n, z))
    ensures CampaignInterval(k, n, z, root).value.low <= CampaignInterval(k', n, z, root').value.low
  {
    var p, p', trials := Proportion(k, n), Proportion(k', n), n as real;
    var x := CampaignInterval(k', n, z, root').value.low;
    ProportionRange(k, n);
    ProportionRange(k', n);
    ProportionMonotone(k, k', n);
    ContainsObservedRate(k, n, z, root);
    ContainsObservedRate(k', n, z, root');
    if x < p {
      CampaignIntervalIsScoreSet(k', n, z, root', x);
      CampaignIntervalIsScoreSet(k, n, z, root, x);
      ScoreMonotone(p, p', trials, z * z, x);
    }
  }

  lemma ScoreMonotone(p: real, p': real, trials: real, zz: real, x: real)
    requires x <= p <= p' && trials > 0.0
    ensures Score(p, trials, zz, x) <= Score(p', trials, zz, x)
  {
    var a, b := p - x, p' - x;
    ProductSign(b - a, b + a);
    assert b * b - a * a == (b - a) * (b + a);
    ProductSign(trials, b * b - a * a);
  }
}
