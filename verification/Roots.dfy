/** The square root as the source uses it, over exact reals: the non-negative number with that square. */
module Roots {

  ghost predicate IsRoot(r: real, x: real) { r >= 0.0 && r * r == x }

  lemma RootUnique(r: real, q: real, x: real)
    requires IsRoot(r, x) && IsRoot(q, x)
    ensures r == q
  {
    assert (r - q) * (r + q) == 0.0;
    NoZeroDivisors(r - q, r + q);
  }

  lemma NoZeroDivisors(a: real, b: real)
    requires a * b == 0.0
    ensures a == 0.0 || b == 0.0
  {
  }

  lemma SquareNonNegative(x: real)
    ensures x * x >= 0.0 && (x * x == 0.0 <==> x == 0.0)
  {
    if x > 0.0 { SameSign(x, x); } else if x < 0.0 { SameSign(-x, -x); }
  }

  /** A positive factor keeps the sign. */
  lemma SameSign(x: real, e: real)
    requires e > 0.0
    ensures x * e >= 0.0 <==> x >= 0.0
    ensures x * e == 0.0 <==> x == 0.0
  {
  }
}
