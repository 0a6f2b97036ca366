/** Cosine similarity of embedding vectors, and their normalisation. */
module Similarity {
  import opened Roots

  function Dot(left: seq<real>, right: seq<real>): real
    requires |left| == |right|
  {
    if left == [] then 0.0
    else Dot(left[..|left| - 1], right[..|right| - 1]) + left[|left| - 1] * right[|right| - 1]
  }

  /** `leftNorm` and `rightNorm` stand for the square roots the source takes of `Dot(v, v)`. */
  function CosineSimilarity(left: seq<real>, right: seq<real>, leftNorm: real, rightNorm: real): real
    requires |left| == |right| ==> IsRoot(leftNorm, Dot(left, left)) && IsRoot(rightNorm, Dot(right, right))
  {
    if |left| != |right| then 0.0
    else if leftNorm == 0.0 || rightNorm == 0.0 then 0.0
    else Dot(left, right) / (leftNorm * rightNorm)
  }

  function Normalize(vector: seq<real>, norm: real): (r: seq<real>)
    ensures |r| == |vector|
  {
    if norm == 0.0 then vector else seq(|vector|, i requires 0 <= i < |vector| => vector[i] / norm)
  }

  ghost predicate IsNorm(norm: real, vector: seq<real>) { IsRoot(norm, Dot(vector, vector)) }

  // ---- Cauchy-Schwarz -----------------------------------------------------------------------------------

  function Mix(x: real, a: real, y: real, b: real): real { x * a + y * b }

  /** `x * left + y * right`, entry by entry. */
  ghost function Combine(x: real, left: seq<real>, y: real, right: seq<real>): (r: seq<real>)
    requires |left| == |right|
    ensures |r| == |left|
  {
    seq(|left|, i requires 0 <= i < |left| => Mix(x, left[i], y, right[i]))
  }

  /** The squared length of a combination, from the inner products of its parts. */
  ghost function Form(x: real, y: real, aa: real, ab: real, bb: real): real {
    x * x * aa + 2.0 * x * y * ab + y * y * bb
  }

  lemma {:induction false} DotOfCombine(x: real, left: seq<real>, y: real, right: seq<real>)
    requires |left| == |right|
    ensures var c := Combine(x, left, y, right);
            Dot(c, c) == Form(x, y, Dot(left, left), Dot(left, right), Dot(right, right))
  {
    var n, c := |left| - 1, Combine(x, left, y, right);
    Expand(x, 0.0, y, 0.0, 0.0, 0.0, 0.0);
    if left != [] {
      hide Mix, Form;
      DotOfCombine(x, left[..n], y, right[..n]);
      assert c[..n] == Combine(x, left[..n], y, right[..n]);
      var l, r := left[..n], right[..n];
      Expand(x, left[n], y, right[n], Dot(l, l), Dot(l, r), Dot(r, r));
    }
  }

  lemma Expand(x: real, a: real, y: real, b: real, aa: real, ab: real, bb: real)
    ensures Form(x, y, 0.0, 0.0, 0.0) == 0.0
    ensures Form(x, y, aa, ab, bb) + Mix(x, a, y, b) * Mix(x, a, y, b) == Form(x, y, aa + a * a, ab + a * b, bb + b * b)
  {
  }

  lemma {:induction false} DotWithItself(v: seq<real>)
    ensures Dot(v, v) >= 0.0
    ensures Dot(v, v) == 0.0 <==> forall i :: 0 <= i < |v| ==> v[i] == 0.0
  {
    if v != [] {
      DotWithItself(v[..|v| - 1]);
      SquareNonNegative(v[|v| - 1]);
    }
  }

  lemma Gather(p: real, q: real, s: real)
    ensures Form(q, -p, p * p, s, q * q) == (p * q - s) * (2.0 * (p * q))
    ensures Form(q, p, p * p, s, q * q) == (p * q + s) * (2.0 * (p * q))
  {
  }

  /** Each is the other stretched by the quotient of the norms. */
  ghost predicate SameDirection(left: seq<real>, right: seq<real>, p: real, q: real)
    requires |left| == |right|
  {
    forall i :: 0 <= i < |left| ==> q * left[i] == p * right[i]
  }

  lemma {:induction false} Differences(left: seq<real>, right: seq<real>, p: real, q: real)
    requires |left| == |right| && IsNorm(p, left) && IsNorm(q, right)
    ensures var d, e := Combine(q, left, -p, right), Combine(q, left, p, right);
            && Dot(d, d) == (p * q - Dot(left, right)) * (2.0 * (p * q))
            && Dot(e, e) == (p * q + Dot(left, right)) * (2.0 * (p * q))
  {
    hide Form, Combine, Dot;
    DotOfCombine(q, left, -p, right);
    DotOfCombine(q, left, p, right);
    Gather(p, q, Dot(left, right));
  }

  lemma {:induction false} DirectionIsNoDifference(left: seq<real>, right: seq<real>, p: real, q: real)
    requires |left| == |right|
    ensures var d := Combine(q, left, -p, right);
            SameDirection(left, right, p, q) <==> Dot(d, d) == 0.0
  {
    var d := Combine(q, left, -p, right);
    DotWithItself(d);
    assert forall i :: 0 <= i < |left| ==> d[i] == q * left[i] - p * right[i];
    hide Dot;
  }

  lemma Bounds(n: real, s: real, dd: real, ee: real)
    requires n > 0.0 && dd == (n - s) * (2.0 * n) && ee == (n + s) * (2.0 * n) && dd >= 0.0 && ee >= 0.0
    ensures -n <= s <= n && (s == n <==> dd == 0.0)
  {
    SameSign(n - s, 2.0 * n);
    SameSign(n + s, 2.0 * n);
  }

  /** The inner product stays within the product of the norms, and reaches it only for vectors of one direction:
      the squared length of the difference of the two, scaled to a common length, is never negative. */
  lemma {:induction false} CauchySchwarz(left: seq<real>, right: seq<real>, p: real, q: real)
    requires |left| == |right| && IsNorm(p, left) && IsNorm(q, right) && p > 0.0 && q > 0.0
    ensures -(p * q) <= Dot(left, right) <= p * q && p * q > 0.0
    ensures Dot(left, right) == p * q <==> SameDirection(left, right, p, q)
  {
    var d, e := Combine(q, left, -p, right), Combine(q, left, p, right);
    hide Combine, Dot, SameDirection, IsNorm;
    SameSign(-p, q);
    Differences(left, right, p, q);
    DirectionIsNoDifference(left, right, p, q);
    DotWithItself(d);
    DotWithItself(e);
    Bounds(p * q, Dot(left, right), Dot(d, d), Dot(e, e));
  }

  // ---- the similarity ------------------------------------------------------------------------------------

  /** Similarity lies within [-1, 1] for any two vectors, and is 1 exactly for non-zero vectors of one direction; times
      the norms it is the inner product, and it is 0 when there is none or a norm is 0. */
  lemma {:induction false} SimilarityWithinOne(left: seq<real>, right: seq<real>, p: real, q: real)
    requires |left| == |right| ==> IsNorm(p, left) && IsNorm(q, right)
    ensures var c := CosineSimilarity(left, right, p, q);
            && -1.0 <= c <= 1.0
            && (c == 1.0 <==> |left| == |right| && p != 0.0 && q != 0.0 && SameDirection(left, right, p, q))
            && (if |left| == |right| && p != 0.0 && q != 0.0 then c * (p * q) == Dot(left, right) else c == 0.0)
  {
    if |left| == |right| && p != 0.0 && q != 0.0 {
      CauchySchwarz(left, right, p, q);
      WithinOne(Dot(left, right), p * q);
    }
  }

  lemma WithinOne(s: real, n: real)
    requires n > 0.0 && -n <= s <= n
    ensures -1.0 <= s / n <= 1.0 && (s / n == 1.0 <==> s == n) && s / n * n == s
  {
    var c := s / n;
    assert c * n == s;
    SameSign(c + 1.0, n);
    SameSign(1.0 - c, n);
  }

  /** A non-zero vector is wholly similar to itself. */
  lemma {:induction false} SimilarToItself(v: seq<real>, p: real)
    requires IsNorm(p, v) && p != 0.0
    ensures CosineSimilarity(v, v, p, p) == 1.0
  {
    SimilarityWithinOne(v, v, p, p);
  }

  lemma {:induction false} DotCommutes(left: seq<real>, right: seq<real>)
    requires |left| == |right|
    ensures Dot(left, right) == Dot(right, left)
  {
    if left != [] { DotCommutes(left[..|left| - 1], right[..|right| - 1]); }
  }

  lemma {:induction false} DotOfScaled(left: seq<real>, right: seq<real>, p: real)
    requires |left| == |right| && p > 0.0
    ensures Dot(Normalize(left, p), right) * p == Dot(left, right)
  {
    if left != [] {
      var n := |left| - 1;
      DotOfScaled(left[..n], right[..n], p);
      assert Normalize(left, p)[..n] == Normalize(left[..n], p);
      ScaledBack(Dot(Normalize(left[..n], p), right[..n]), left[n], right[n], p);
    }
  }

  lemma ScaledBack(d: real, a: real, b: real, p: real)
    requires p > 0.0
    ensures (d + a / p * b) * p == d * p + a * b
  {
    assert a / p * p == a;
    assert a / p * b * p == a / p * p * b;
  }

  /** Normalising gives a vector of norm one, unless all entries are zero, when it changes nothing. */
  lemma {:induction false} NormalizedHasUnitNorm(v: seq<real>, p: real)
    requires IsNorm(p, v)
    ensures p != 0.0 ==> IsNorm(1.0, Normalize(v, p))
    ensures p == 0.0 <==> forall i :: 0 <= i < |v| ==> v[i] == 0.0
    ensures p == 0.0 ==> Normalize(v, p) == v
  {
    DotWithItself(v);
    SquareNonNegative(p);
    if p != 0.0 {
      var u := Normalize(v, p);
      DotOfScaled(v, u, p);
      DotCommutes(v, u);
      DotOfScaled(v, v, p);
      OneSquared(Dot(u, u), Dot(u, v), p);
    }
  }

  lemma OneSquared(uu: real, uv: real, p: real)
    requires p > 0.0 && uu * p == uv && uv * p == p * p
    ensures uu == 1.0
  {
    NoZeroDivisors(uv - p, p);
    NoZeroDivisors(uu - 1.0, p);
  }

  /** Similarity does not change when a vector is normalised. */
  lemma {:induction false} NormalizingKeepsSimilarity(left: seq<real>, right: seq<real>, p: real, q: real, u: real)
    requires IsNorm(p, left) && IsNorm(u, Normalize(left, p)) && (|left| == |right| ==> IsNorm(q, right))
    ensures CosineSimilarity(Normalize(left, p), right, u, q) == CosineSimilarity(left, right, p, q)
  {
    NormalizedHasUnitNorm(left, p);
    if p == 0.0 {
      RootUnique(u, p, Dot(left, left));
    } else {
      RootUnique(u, 1.0, Dot(Normalize(left, p), Normalize(left, p)));
      if |left| == |right| && q != 0.0 {
        DotOfScaled(left, right, p);
        hide Dot, Normalize, IsRoot;
        Reduce(Dot(Normalize(left, p), right), Dot(left, right), p, q);
      }
    }
  }

  lemma Reduce(s: real, t: real, p: real, q: real)
    requires p > 0.0 && q > 0.0 && s * p == t
    ensures p * q > 0.0 && s / (1.0 * q) == t / (p * q)
  {
    SameSign(-p, q);
    var c := t / (p * q);
    assert c * (p * q) == t;
    NoZeroDivisors(c * q - s, p);
    assert c * q / q == c;
  }
}
