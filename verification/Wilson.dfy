/** The 95 % confidence interval of a win rate. */
module Wilson {
  import opened Options
  import opened Roots

  const Z := 1.96

  datatype Interval = Interval(lower: real, upper: real)

  function Rate(successes: nat, n: nat): real
    requires n > 0
  {
    successes as real / n as real
  }

  /** What the margin is the root of. */
  function Spread(successes: nat, n: nat): real
    requires n > 0
  {
    var p, m := Rate(successes, n), n as real;
    (p * (1.0 - p) + Z * Z / (4.0 * m)) / m
  }

  /** `root` stands for the square root the source takes. */
  function WilsonInterval(successes: nat, n: nat, root: real): Option<Interval> {
    if n == 0 then None
    else
      var p, m := Rate(successes, n), n as real;
      var denominator := 1.0 + Z * Z / m;
      var centre := p + Z * Z / (2.0 * m);
      var margin := Z * root;
      Some(Interval((centre - margin) / denominator, (centre + margin) / denominator))
  }

  /** A hypothetical rate `x` lies within `Z` standard errors of the observed one. */
  predicate Plausible(x: real, successes: nat, n: nat)
    requires n > 0
  {
    Excess(Rate(successes, n), Z * Z / n as real, x) <= 0.0
  }

  /** Squared distance from the observed rate less the squared allowance of `w = Z^2 / n` variances. */
  function Excess(p: real, w: real, x: real): real {
    (x - p) * (x - p) - w * (x * (1.0 - x))
  }

  /** What the divisions of the source make the two ends: `1 + w` times each is the centre less, or plus, the margin. */
  ghost predicate EndsOf(p: real, w: real, m: real, lo: real, hi: real) {
    && m * m == w * (p * (1.0 - p) + w / 4.0) && m >= 0.0 && w > 0.0
    && (1.0 + w) * lo == p + w / 2.0 - m && (1.0 + w) * hi == p + w / 2.0 + m
  }

  ghost function Scaled(w: real, x: real): real { (1.0 + w) * x }

  /** The product of the distances from `lo` and `hi` is `d` times `e`. */
  ghost predicate Splits(e: real, d: real, x: real, lo: real, hi: real) { (x - lo) * (x - hi) == e * d }

  /** Completing the square. */
  lemma Quadratic(p: real, w: real, m: real, x: real)
    requires m * m == w * (p * (1.0 - p) + w / 4.0)
    ensures Splits(Excess(p, w, x), 1.0 + w, Scaled(w, x), p + w / 2.0 - m, p + w / 2.0 + m)
  {
    var d, c := 1.0 + w, p + w / 2.0;
    calc {
      (d * x - (c - m)) * (d * x - (c + m));
      (d * x - c) * (d * x - c) - m * m;
      (d * x - c) * (d * x - c) - w * (p * (1.0 - p) + w / 4.0);
      d * (d * x * x - 2.0 * c * x) + (c * c - w * (p * (1.0 - p) + w / 4.0));
      { assert c * c == p * p + p * w + w * w / 4.0; }
      d * (d * x * x - 2.0 * c * x) + d * p * p;
    }
  }

  /** The two ends are the roots of the quadratic that decides plausibility. */
  lemma Factors(p: real, w: real, m: real, lo: real, hi: real, x: real)
    requires EndsOf(p, w, m, lo, hi)
    ensures Splits(Excess(p, w, x), 1.0 + w, Scaled(w, x), Scaled(w, lo), Scaled(w, hi))
  {
    Quadratic(p, w, m, x);
    Apart(p, w, m, lo, hi);
    hide EndsOf, Excess, Scaled, Splits;
  }

  lemma Ends(successes: nat, n: nat, root: real)
    requires n > 0 && IsRoot(root, Spread(successes, n))
    ensures var i := WilsonInterval(successes, n, root).value;
            EndsOf(Rate(successes, n), Z * Z / n as real, Z * root, i.lower, i.upper)
  {
    var p, r := Rate(successes, n), n as real;
    var w := Z * Z / r;
    Halves(Z * Z, r);
    MarginSquared(root, Z, p * (1.0 - p) + w / 4.0, r);
    hide Rate, IsRoot;
    Divides(p + w / 2.0 - Z * root, 1.0 + w);
    Divides(p + w / 2.0 + Z * root, 1.0 + w);
  }

  lemma Halves(zz: real, r: real)
    requires r > 0.0
    ensures zz / (2.0 * r) == zz / r / 2.0 && zz / (4.0 * r) == zz / r / 4.0
  {
  }

  lemma MarginSquared(root: real, z: real, a: real, r: real)
    requires r > 0.0 && root * root == a / r
    ensures (z * root) * (z * root) == z * z / r * a
  {
    assert (z * root) * (z * root) == z * z * (root * root);
  }

  lemma Divides(a: real, b: real)
    requires b > 0.0
    ensures b * (a / b) == a
  {
  }

  /** The interval consists of exactly the plausible rates. */
  lemma IntervalIsPlausible(successes: nat, n: nat, root: real, x: real)
    requires n > 0 && IsRoot(root, Spread(successes, n))
    ensures var i := WilsonInterval(successes, n, root).value;
            Plausible(x, successes, n) <==> i.lower <= x <= i.upper
  {
    var i := WilsonInterval(successes, n, root).value;
    Ends(successes, n, root);
    hide WilsonInterval, Rate, Spread, IsRoot, EndsOf;
    Inside(Rate(successes, n), Z * Z / n as real, Z * root, i.lower, i.upper, x);
  }

  lemma Inside(p: real, w: real, m: real, lo: real, hi: real, x: real)
    requires EndsOf(p, w, m, lo, hi)
    ensures Excess(p, w, x) <= 0.0 <==> lo <= x <= hi
  {
    Factors(p, w, m, lo, hi, x);
    Apart(p, w, m, lo, hi);
    hide EndsOf, Excess, Scaled, Splits;
    NotPositive(Excess(p, w, x), 1.0 + w, Scaled(w, x), Scaled(w, lo), Scaled(w, hi));
    Ordered(w, lo, hi, x);
  }

  lemma Apart(p: real, w: real, m: real, lo: real, hi: real)
    requires EndsOf(p, w, m, lo, hi)
    ensures w > 0.0 && Scaled(w, lo) <= Scaled(w, hi)
    ensures Scaled(w, lo) == p + w / 2.0 - m && Scaled(w, hi) == p + w / 2.0 + m
  {
  }

  lemma NotPositive(e: real, d: real, x: real, lo: real, hi: real)
    requires d > 0.0 && lo <= hi && Splits(e, d, x, lo, hi)
    ensures e <= 0.0 <==> lo <= x <= hi
  {
    SameSign(e, d);
    SameSign(-e, d);
    Between(x - lo, x - hi);
  }

  lemma Ordered(w: real, lo: real, hi: real, x: real)
    requires w > 0.0
    ensures Scaled(w, lo) <= Scaled(w, x) <= Scaled(w, hi) <==> lo <= x <= hi
  {
    SameSign(x - lo, 1.0 + w);
    SameSign(hi - x, 1.0 + w);
    assert Scaled(w, x) - Scaled(w, lo) == (x - lo) * (1.0 + w);
    assert Scaled(w, hi) - Scaled(w, x) == (hi - x) * (1.0 + w);
  }

  /** A product of two numbers, the first the larger, is not positive just when zero lies between them. */
  lemma Between(a: real, b: real)
    requires a >= b
    ensures a * b <= 0.0 <==> a >= 0.0 && b <= 0.0
  {
    if b > 0.0 { SameSign(a, b); SameSign(-a, b); }
    if a < 0.0 { SameSign(b, -a); SameSign(-b, -a); }
    if a >= 0.0 && b <= 0.0 { if a > 0.0 { SameSign(-b, a); } }
  }

  /** For every sample the interval lies within [0, 1] and holds the observed rate; it reaches 0 only without a
      success and 1 only without a failure. */
  lemma IntervalHoldsRate(successes: nat, n: nat, root: real)
    requires n > 0 && successes <= n && IsRoot(root, Spread(successes, n))
    ensures var i := WilsonInterval(successes, n, root).value;
            && 0.0 <= i.lower <= Rate(successes, n) <= i.upper <= 1.0
            && (i.lower == 0.0 <==> successes == 0) && (i.upper == 1.0 <==> successes == n)
  {
    var i, p := WilsonInterval(successes, n, root).value, Rate(successes, n);
    RateWithinUnit(successes, n);
    IntervalIsPlausible(successes, n, root, p);
    IntervalIsPlausible(successes, n, root, i.lower);
    IntervalIsPlausible(successes, n, root, i.upper);
    IntervalIsPlausible(successes, n, root, 0.0);
    IntervalIsPlausible(successes, n, root, 1.0);
    PlausibleRange(p, successes, n);
    hide WilsonInterval, Rate;
    PlausibleRange(i.lower, successes, n);
    PlausibleRange(i.upper, successes, n);
    PlausibleRange(0.0, successes, n);
    PlausibleRange(1.0, successes, n);
  }

  lemma RateWithinUnit(successes: nat, n: nat)
    requires n > 0 && successes <= n
    ensures 0.0 <= Rate(successes, n) <= 1.0
    ensures (Rate(successes, n) == 0.0 <==> successes == 0) && (Rate(successes, n) == 1.0 <==> successes == n)
  {
    var p, r := Rate(successes, n), n as real;
    Divides(successes as real, r);
    SameSign(p, r);
    SameSign(1.0 - p, r);
  }

  /** Only rates between 0 and 1 are plausible, the observed one is, and 0 or 1 only if observed. */
  lemma PlausibleRange(x: real, successes: nat, n: nat)
    requires n > 0 && successes <= n
    ensures Plausible(x, successes, n) ==> 0.0 <= x <= 1.0
    ensures x == Rate(successes, n) ==> Plausible(x, successes, n)
    ensures x == 0.0 || x == 1.0 ==> (Plausible(x, successes, n) <==> x == Rate(successes, n))
  {
    RateWithinUnit(successes, n);
    var p, w := Rate(successes, n), Z * Z / n as real;
    SquareNonNegative(x - p);
    SameSign(x * (1.0 - x), w);
    Between(x, x - 1.0);
    hide Rate;
    assert w * (x * (1.0 - x)) == x * (1.0 - x) * w;
    assert x * (1.0 - x) == -(x * (x - 1.0));
  }

  /** Counting failures instead of successes mirrors the interval. */
  lemma IntervalMirrors(successes: nat, n: nat, root: real)
    requires n > 0 && successes <= n
    ensures Spread(n - successes, n) == Spread(successes, n)
    ensures var i, j := WilsonInterval(successes, n, root).value, WilsonInterval(n - successes, n, root).value;
            j.lower == 1.0 - i.upper && j.upper == 1.0 - i.lower
  {
    var p, q, r, w := Rate(successes, n), Rate(n - successes, n), n as real, Z * Z / n as real;
    assert q == 1.0 - p by {
      Divides(successes as real, r);
      Divides((n - successes) as real, r);
      assert r * (p + q) == r;
      SameSign(p + q - 1.0, r);
    }
    assert Z * Z / (2.0 * r) == w / 2.0;
    Complement(p + w / 2.0 - Z * root, q + w / 2.0 + Z * root, 1.0 + w);
    Complement(p + w / 2.0 + Z * root, q + w / 2.0 - Z * root, 1.0 + w);
  }

  lemma Complement(a: real, b: real, d: real)
    requires d > 0.0 && a + b == d
    ensures b / d == 1.0 - a / d
  {
    Divides(a, d);
    Divides(b, d);
    SameSign(a / d + b / d - 1.0, d);
  }

  /** The root the source takes is always of a positive number. */
  lemma SpreadIsPositive(successes: nat, n: nat)
    requires n > 0 && successes <= n
    ensures Spread(successes, n) > 0.0
  {
    var p, r := Rate(successes, n), n as real;
    RateWithinUnit(successes, n);
    Between(p, p - 1.0);
    assert p * (1.0 - p) == -(p * (p - 1.0));
    Halves(Z * Z, r);
    Divides(Z * Z, r);
    SameSign(-(Z * Z / r), r);
    var a := p * (1.0 - p) + Z * Z / (4.0 * r);
    hide Rate;
    Divides(a, r);
    SameSign(-(a / r), r);
  }
}
