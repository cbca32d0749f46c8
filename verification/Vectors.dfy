/**
 Embedding arithmetic over exact reals: cosine similarity and the rolling average.  A norm is
 any nonnegative real whose square is the sum of squares.
 */
module Vectors {
  import opened Wrappers

  type Vector = seq<real>

  function Dot(a: Vector, b: Vector): real
    requires |a| == |b|
  {
    if a == [] then 0.0 else a[0] * b[0] + Dot(a[1..], b[1..])
  }

  predicate IsNorm(n: real, a: Vector) {
    n >= 0.0 && n * n == Dot(a, a)
  }

  lemma {:induction false} DotSelfNonnegative(a: Vector)
    ensures Dot(a, a) >= 0.0
  {
    if a != [] {
      DotSelfNonnegative(a[1..]);
      assert a[0] * a[0] >= 0.0;
    }
  }

  lemma {:induction false} DotCommutes(a: Vector, b: Vector)
    requires |a| == |b|
    ensures Dot(a, b) == Dot(b, a)
  {
    if a != [] {
      DotCommutes(a[1..], b[1..]);
    }
  }

  /** s·a + t·b, component by component. */
  function Combine(s: real, a: Vector, t: real, b: Vector): (c: Vector)
    requires |a| == |b|
    ensures |c| == |a|
    decreases |a|
  {
    if a == [] then [] else [s * a[0] + t * b[0]] + Combine(s, a[1..], t, b[1..])
  }

  /** One component more: the head terms and the tail terms add up. */
  lemma AddComponent(s: real, t: real, x: real, y: real, p: real, q: real, r: real, tail: real, all: real)
    requires tail == s * s * p + 2.0 * (s * t) * r + t * t * q
    requires all == (s * x + t * y) * (s * x + t * y) + tail
    ensures all == s * s * (x * x + p) + 2.0 * (s * t) * (x * y + r) + t * t * (y * y + q)
  {
  }

  lemma Distribute(f: real, p: real, q: real)
    ensures f * (p + q) == f * p + f * q
  {
  }

  /** The square length of s·a + t·b. */
  lemma {:induction false} SquareOfCombination(s: real, a: Vector, t: real, b: Vector, p: real, q: real, r: real)
    requires |a| == |b| && p == Dot(a, a) && q == Dot(b, b) && r == Dot(a, b)
    ensures Dot(Combine(s, a, t, b), Combine(s, a, t, b)) == s * s * p + 2.0 * (s * t) * r + t * t * q
    decreases |a|
  {
    var c := Combine(s, a, t, b);
    if a != [] {
      var a', b' := a[1..], b[1..];
      var p', q', r' := Dot(a', a'), Dot(b', b'), Dot(a', b');
      assert c[1..] == Combine(s, a', t, b');
      SquareOfCombination(s, a', t, b', p', q', r');
      AddComponent(s, t, a[0], b[0], p', q', r', Dot(c[1..], c[1..]), Dot(c, c));
    }
  }

  /** Cauchy-Schwarz: the square length of (b·b)a - (a·b)b is (b·b) times the gap. */
  lemma CauchySchwarz(a: Vector, b: Vector)
    requires |a| == |b|
    ensures Dot(a, b) * Dot(a, b) <= Dot(a, a) * Dot(b, b)
  {
    Gap(a, b, Dot(a, a), Dot(b, b), Dot(a, b));
  }

  lemma Gap(a: Vector, b: Vector, p: real, q: real, r: real)
    requires |a| == |b| && p == Dot(a, a) && q == Dot(b, b) && r == Dot(a, b)
    ensures r * r <= p * q
  {
    var first := LengthOfCombination(q, a, -r, b, p, q, r);
    var second := LengthOfCombination(-r, a, p + 1.0, b, p, q, r);
    DotSelfNonnegative(a);
    DotSelfNonnegative(b);
    Discriminant(p, q, r, first, second);
  }

  lemma LengthOfCombination(s: real, a: Vector, t: real, b: Vector, p: real, q: real, r: real) returns (length: real)
    requires |a| == |b| && p == Dot(a, a) && q == Dot(b, b) && r == Dot(a, b)
    ensures length == s * s * p + 2.0 * (s * t) * r + t * t * q && length >= 0.0
  {
    var c := Combine(s, a, t, b);
    length := Dot(c, c);
    SquareOfCombination(s, a, t, b, p, q, r);
    DotSelfNonnegative(c);
  }

  /** If the square lengths of qa - rb and of (p+1)b - ra are nonnegative, so is the gap pq - rr. */
  lemma Discriminant(p: real, q: real, r: real, first: real, second: real)
    requires p >= 0.0 && q >= 0.0 && first >= 0.0 && second >= 0.0
    requires first == q * q * p + 2.0 * (q * (-r)) * r + (-r) * (-r) * q
    requires second == (-r) * (-r) * p + 2.0 * ((-r) * (p + 1.0)) * r + (p + 1.0) * (p + 1.0) * q
    ensures r * r <= p * q
  {
    if q == 0.0 {
      assert second == (p + 2.0) * -(r * r);
      Cancel(p + 2.0, -(r * r), second);
    } else {
      assert first == q * (p * q - r * r);
      Cancel(q, p * q - r * r, first);
    }
  }

  lemma Cancel(f: real, x: real, product: real)
    requires f > 0.0 && product == f * x
    ensures x >= 0.0 <==> product >= 0.0
    ensures x == 0.0 <==> product == 0.0
  {
    if x > 0.0 {
      assert f * x > 0.0;
    } else if x < 0.0 {
      assert f * x < 0.0;
    }
  }

  // ---- cosine similarity ----

  const EPSILON: real := 0.00000001

  function Distance(x: real, y: real): real {
    if x < y then y - x else x - y
  }

  /** The nearest number between -1 and 1. */
  function Clamp(x: real): (r: real)
    ensures -1.0 <= r <= 1.0 && forall y | -1.0 <= y <= 1.0 :: Distance(x, r) <= Distance(x, y)
  {
    if x < -1.0 then -1.0 else if x > 1.0 then 1.0 else x
  }

  /** The similarity, given the two norms. */
  function CosineSimilarity(a: Vector, b: Vector, normA: real, normB: real): real
    requires IsNorm(normA, a) && IsNorm(normB, b)
  {
    if |a| != |b| || a == [] then 0.0
    else if normA < EPSILON || normB < EPSILON then 0.0
    else
      PositiveProduct(normA, normB);
      Clamp(Dot(a, b) / (normA * normB))
  }

  lemma PositiveProduct(a: real, b: real)
    requires a > 0.0 && b > 0.0
    ensures a * b > 0.0
  {
  }

  /** The quotient already lies between -1 and 1: the clamp never changes an exact value. */
  lemma ClampIsIdentity(a: Vector, b: Vector, normA: real, normB: real)
    requires |a| == |b| && IsNorm(normA, a) && IsNorm(normB, b) && normA * normB > 0.0
    ensures var q := Dot(a, b) / (normA * normB);
            -1.0 <= q <= 1.0 && Clamp(q) == q
  {
    CauchySchwarz(a, b);
    QuotientBound(Dot(a, b), Dot(a, a), Dot(b, b), normA, normB);
  }

  /** The similarity is the unclamped quotient wherever it is not cut off to zero, and 1 for a vector and itself. */
  lemma SimilarityExactly(a: Vector, b: Vector, normA: real, normB: real)
    requires IsNorm(normA, a) && IsNorm(normB, b)
    ensures -1.0 <= CosineSimilarity(a, b, normA, normB) <= 1.0
    ensures |a| == |b| && a != [] && normA >= 0.00000001 && normB >= 0.00000001 ==>
              normA * normB > 0.0 && CosineSimilarity(a, b, normA, normB) == Dot(a, b) / (normA * normB)
    ensures a == b && normA == normB && a != [] && normA >= 0.00000001 ==> CosineSimilarity(a, b, normA, normB) == 1.0
    ensures |a| != |b| || a == [] || normA < 0.00000001 || normB < 0.00000001 ==> CosineSimilarity(a, b, normA, normB) == 0.0
  {
    if |a| == |b| && a != [] && normA >= EPSILON && normB >= EPSILON {
      PositiveProduct(normA, normB);
      ClampIsIdentity(a, b, normA, normB);
      if a == b && normA == normB { SelfQuotient(Dot(a, b), normA * normB); }
    }
  }

  lemma SelfQuotient(r: real, m: real)
    requires r == m > 0.0
    ensures r / m == 1.0
  {
  }

  lemma QuotientBound(r: real, p: real, q: real, x: real, y: real)
    requires x * x == p && y * y == q && r * r <= p * q && x * y > 0.0
    ensures -1.0 <= r / (x * y) <= 1.0
  {
    SquareOfProduct(x, y);
    BoundedBy(r, x * y);
    DivideBound(r, x * y);
  }

  lemma BoundedBy(r: real, m: real)
    requires m > 0.0 && r * r <= m * m
    ensures -m <= r <= m
  {
    if r > m {
      PositiveProduct(r - m, r + m);
    } else if r < -m {
      PositiveProduct(-m - r, m - r);
    }
  }

  lemma DivideBound(r: real, m: real)
    requires m > 0.0 && -m <= r <= m
    ensures -1.0 <= r / m <= 1.0
  {
    var c := r / m;
    Cancel(m, 1.0 - c, m - r);
    Cancel(m, 1.0 + c, m + r);
  }

  lemma SquareOfProduct(x: real, y: real)
    ensures (x * y) * (x * y) == (x * x) * (y * y)
  {
  }

  // ---- the rolling average ----

  const ALPHA: real := 0.30

  /** Moving average over the common length; the rest of the old vector is kept. */
  function Averaged(rolling: Vector, incoming: Vector): (r: Vector)
    ensures |r| == |rolling|
    decreases |rolling|
  {
    if rolling == [] || incoming == [] then rolling
    else [rolling[0] * (1.0 - ALPHA) + incoming[0] * ALPHA] + Averaged(rolling[1..], incoming[1..])
  }

  /** Seven tenths of the old component and three tenths of the new one, as far as there is one. */
  lemma {:induction false} AveragedAt(rolling: Vector, incoming: Vector, i: nat)
    requires i < |rolling|
    ensures Averaged(rolling, incoming)[i]
         == (if i < |incoming| then rolling[i] * 0.7 + incoming[i] * 0.3 else rolling[i])
  {
    if incoming != [] && i > 0 {
      AveragedAt(rolling[1..], incoming[1..], i - 1);
    }
  }

  function Divided(a: Vector, n: real): (r: Vector)
    requires n != 0.0
    ensures |r| == |a|
  {
    if a == [] then [] else [a[0] / n] + Divided(a[1..], n)
  }

  lemma {:induction false} DividedAt(a: Vector, n: real, i: nat)
    requires n != 0.0 && i < |a|
    ensures Divided(a, n)[i] == a[i] / n
  {
    if i > 0 {
      DividedAt(a[1..], n, i - 1);
    }
  }

  lemma {:induction false} DividedLength(a: Vector, n: real, f: real)
    requires n != 0.0 && f == n * n
    ensures Dot(Divided(a, n), Divided(a, n)) * f == Dot(a, a)
  {
    if a != [] {
      DividedLength(a[1..], n, f);
      var x := a[0] / n;
      SquareOfQuotient(a[0], n, x, f);
      Distribute(f, x * x, Dot(Divided(a[1..], n), Divided(a[1..], n)));
    }
  }

  lemma SquareOfQuotient(y: real, n: real, x: real, f: real)
    requires n != 0.0 && x == y / n && f == n * n
    ensures f * (x * x) == y * y
  {
    assert x * n == y;
    SquareOfProduct(x, n);
  }

  /** Scaling by the norm leaves a unit vector. */
  lemma NormalisedIsUnit(a: Vector, n: real)
    requires IsNorm(n, a) && n > 0.0
    ensures Dot(Divided(a, n), Divided(a, n)) == 1.0
  {
    Positive(n, n, Dot(a, a));
    ScaledDown(a, n, Dot(a, a), Dot(Divided(a, n), Divided(a, n)));
  }

  lemma ScaledDown(a: Vector, n: real, f: real, u: real)
    requires n != 0.0 && f > 0.0 && f == n * n && f == Dot(a, a) && u == Dot(Divided(a, n), Divided(a, n))
    ensures u == 1.0
  {
    DividedLength(a, n, f);
    calc {
      u * f;
      Dot(Divided(a, n), Divided(a, n)) * f;
      Dot(a, a);
      f;
    }
    Cancel(f, u - 1.0, u * f - f);
  }

  lemma Positive(a: real, b: real, product: real)
    requires a > 0.0 && b > 0.0 && product == a * b
    ensures product > 0.0
  {
  }

  class RollingEmbedding {
    var rolling: Vector

    constructor ()
      ensures rolling == []
    {
      rolling := [];
    }

    /** The first embedding is taken as it is; later ones are averaged in and renormalised. */
    method Update(incoming: Vector, norm: real)
      requires IsNorm(norm, Averaged(rolling, incoming))
      modifies this
      ensures old(rolling) == [] ==> rolling == incoming
      ensures old(rolling) != [] ==> |rolling| == |old(rolling)|
      ensures old(rolling) != [] && norm > 0.00000001 ==>
                Dot(rolling, rolling) == 1.0 && rolling == Divided(Averaged(old(rolling), incoming), norm)
      ensures old(rolling) != [] && norm <= 0.00000001 ==> rolling == Averaged(old(rolling), incoming)
    {
      if rolling == [] {
        rolling := incoming;
        return;
      }
      rolling := Averaged(rolling, incoming);
      if norm > EPSILON {
        NormalisedIsUnit(rolling, norm);
        rolling := Divided(rolling, norm);
      }
    }
  }
}
