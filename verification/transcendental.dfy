/** The transcendental functions and the constant pi that the renderer takes from
    Python's `math` module. They are not computed: a `Math` value is any record of
    functions, and a proof may use only the facts stated by the predicates below. */
module Transcendental {
  import opened RealArith

  datatype Math = Math(
    sin: real -> real,
    cos: real -> real,
    sqrt: real -> real,
    acos: real -> real,
    pi: real)
  {
    /** The only fact used about pi: it is positive. */
    predicate PiPositive() {
      pi > 0.0
    }

    /** sin² + cos² = 1 at every angle. */
    ghost predicate Pythagorean() {
      forall a :: sin(a) * sin(a) + cos(a) * cos(a) == 1.0
    }

    /** `sqrt` returns the non-negative square root of a non-negative argument. */
    ghost predicate SqrtSound() {
      forall q :: 0.0 <= q ==> 0.0 <= sqrt(q) && sqrt(q) * sqrt(q) == q
    }
  }

  /** A square root is zero exactly when its argument is. */
  lemma SqrtZeroIff(m: Math, q: real)
    requires m.SqrtSound()
    requires 0.0 <= q
    ensures 0.0 <= m.sqrt(q)
    ensures m.sqrt(q) == 0.0 <==> q == 0.0
  {
    SquareZero(m.sqrt(q), q);
  }

  /** The square root of a square of a non-negative number is that number. */
  lemma SqrtOfSquare(m: Math, d: real)
    requires m.SqrtSound()
    requires 0.0 <= d
    ensures m.sqrt(d * d) == d
  {
    SquareNonNegative(d, d * d);
    SquareInjective(m.sqrt(d * d), d);
  }
}
