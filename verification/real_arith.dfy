/** Small facts about real multiplication. The solver handles products of two
    distinct terms better than squares, so square facts are routed through these. */
module RealArith {

  lemma ProductZero(a: real, b: real)
    requires a * b == 0.0
    ensures a == 0.0 || b == 0.0
  {
  }

  lemma ProductNonZero(a: real, b: real)
    requires a * b != 0.0
    ensures a != 0.0 && b != 0.0
  {
  }

  lemma SquareNonNegative(s: real, q: real)
    requires s * s == q
    ensures 0.0 <= q
  {
  }

  /** A square is zero exactly when its root is. */
  lemma SquareZero(s: real, q: real)
    requires s * s == q
    ensures q == 0.0 <==> s == 0.0
  {
    if q == 0.0 {
      ProductZero(s, s);
    }
  }

  lemma MulStrictMonotone(a: real, b: real, c: real)
    requires 0.0 < a && b < c
    ensures a * b < a * c
  {
  }

  /** Two non-negative numbers with equal squares are equal. */
  lemma SquareInjective(s: real, d: real)
    requires 0.0 <= s && 0.0 <= d
    requires s * s == d * d
    ensures s == d
  {
    assert (s - d) * (s + d) == s * s - d * d;
    ProductZero(s - d, s + d);
  }

  /** A number whose magnitude is at most `b` has a square at most `b * b`. */
  lemma SquareBound(a: real, b: real)
    requires -b <= a <= b
    ensures a * a <= b * b
  {
    assert (b - a) * (b + a) == b * b - a * a;
    if b - a > 0.0 && b + a > 0.0 {
      MulStrictMonotone(b - a, 0.0, b + a);
    } else {
      ProductZero(b - a, b + a);
    }
  }

  /** A common non-zero factor cancels. */
  lemma CancelFactor(a: real, b: real, c: real)
    requires c != 0.0
    requires a * c == b * c
    ensures a == b
  {
    assert (a - b) * c == a * c - b * c;
    ProductZero(a - b, c);
  }
}
