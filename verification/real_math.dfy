/** Scalar helpers of compaxx.c (`sq`, `floatAbs`, `floatMax`) over the reals,
    the square root the library takes from the C math library, and the small
    facts of ordered-field arithmetic the rest of the model is proved from.

    C `float` is modelled as `real`: there is no rounding, overflow or NaN.
    The square root is not computable over `real`, so every operation that
    needs one takes it as a parameter `sqrt` and requires `IsSqrt(sqrt)`:
    on non-negative arguments it returns the non-negative root.

    The arithmetic lemmas take the product or quotient they speak about as a
    separate argument (`requires m == a * b`): a caller passes the exact term
    it needs the fact for, and the solver then reasons linearly. */
module RealMath {

  /** `sq`: the square of a number. */
  function Sq(n: real): (r: real)
    ensures r >= 0.0
  {
    n * n
  }

  /** `floatAbs`: the magnitude of a number. */
  function Abs(f: real): (r: real)
    ensures r >= 0.0
    ensures r == f || r == -f
  {
    if f >= 0.0 then f else -f
  }

  /** `floatMax`: the larger of two numbers. */
  function Max(a: real, b: real): (r: real)
    ensures r >= a && r >= b
    ensures r == a || r == b
  {
    if a > b then a else b
  }

  /** `sqrt` from the C math library, on the arguments where it is defined. */
  ghost predicate IsSqrt(sqrt: real -> real) {
    forall x :: 0.0 <= x ==> 0.0 <= sqrt(x) && sqrt(x) * sqrt(x) == x
  }

  lemma SquareNonNegative(n: real, m: real)
    requires m == n * n
    ensures m >= 0.0
  {
    if n >= 0.0 {
      MulNonNegative(n, n, m);
    } else {
      MulNonNegative(-n, -n, m);
    }
  }

  /** The square of a nonzero number is positive. */
  lemma SquarePositive(n: real, m: real)
    requires m == n * n
    requires n != 0.0
    ensures m > 0.0
  {
    if n > 0.0 {
      MulPositive(n, n, m);
    } else {
      MulPositive(-n, -n, m);
    }
  }

  /** A square vanishes exactly at zero. */
  lemma SquareZero(n: real, m: real)
    requires m == n * n
    ensures m == 0.0 <==> n == 0.0
  {
    if n != 0.0 {
      SquarePositive(n, m);
    }
  }

  lemma SquareOfZero(n: real, m: real)
    requires m == n * n
    ensures n == 0.0 ==> m == 0.0
  {
  }

  /** `sq` is positive away from zero. */
  lemma SqPositive(n: real)
    ensures n != 0.0 ==> Sq(n) > 0.0
  {
    if n != 0.0 {
      SquarePositive(n, Sq(n));
    }
  }

  /** A sum of three squares is non-negative. */
  lemma SumOfSquaresNonNegative(a: real, b: real, c: real, m: real)
    requires m == a * a + b * b + c * c
    ensures m >= 0.0
  {
    SquareNonNegative(a, a * a);
    SquareNonNegative(b, b * b);
    SquareNonNegative(c, c * c);
  }

  /** A sum of three squares is positive unless all three terms vanish. */
  lemma SumOfSquaresPositive(a: real, b: real, c: real, m: real)
    requires m == a * a + b * b + c * c
    requires a != 0.0 || b != 0.0 || c != 0.0
    ensures m > 0.0
  {
    SumOfSquaresNonNegative(a, b, c, m);
    SquareNonNegative(a, a * a);
    SquareNonNegative(b, b * b);
    SquareNonNegative(c, c * c);
    if a != 0.0 {
      SquarePositive(a, a * a);
    } else if b != 0.0 {
      SquarePositive(b, b * b);
    } else {
      SquarePositive(c, c * c);
    }
  }

  lemma MulPositive(a: real, b: real, m: real)
    requires 0.0 < a && 0.0 < b
    requires m == a * b
    ensures 0.0 < m
  {
  }

  lemma MulNonNegative(a: real, b: real, m: real)
    requires 0.0 <= a && 0.0 <= b
    requires m == a * b
    ensures 0.0 <= m
  {
  }

  lemma DivMul(a: real, b: real, q: real)
    requires b != 0.0
    requires q == a / b
    ensures q * b == a
  {
  }

  lemma DivNonNegative(a: real, b: real, q: real)
    requires 0.0 <= a && 0.0 < b
    requires q == a / b
    ensures 0.0 <= q
  {
  }

  /** Dividing by a nonzero number is multiplying by its reciprocal. */
  lemma DivIsMulReciprocal(a: real, b: real)
    requires b != 0.0
    ensures a / b == a * (1.0 / b)
  {
  }

  /** The reciprocal of a positive number is positive. */
  lemma ReciprocalPositive(b: real)
    requires 0.0 < b
    ensures 0.0 < 1.0 / b
  {
  }

  /** A quotient whose numerator is bounded in magnitude by its positive
      denominator lies in [-1, 1]. */
  lemma DivBounded(a: real, b: real, q: real)
    requires 0.0 < b && Abs(a) <= b
    requires q == a / b
    ensures -1.0 <= q <= 1.0
  {
  }

  /** A number divided by its own magnitude has magnitude 1. */
  lemma DivByMagnitude(a: real, b: real, q: real)
    requires 0.0 < b && Abs(a) == b
    requires q == a / b
    ensures Abs(q) == 1.0
  {
    if a >= 0.0 {
      assert a == b;
      assert q == 1.0;
    } else {
      assert a == -b;
      assert b / b == 1.0;
      assert (-b) / b == -(b / b);
      assert q == -1.0;
    }
  }

  /** A number of magnitude 1 squares to 1. */
  lemma UnitSquare(c: real, m: real)
    requires Abs(c) == 1.0
    requires m == c * c
    ensures m == 1.0
  {
  }

  /** Scaling by the reciprocal of a root of d turns d into 1. */
  lemma ReciprocalOfRoot(d: real, len: real, k: real)
    requires 0.0 < len && len * len == d
    requires k == 1.0 / len
    ensures k * k * d == 1.0
  {
    assert k * len == 1.0;
    assert k * k * d == (k * len) * (k * len);
  }

  /** The root of a positive number is positive. */
  lemma SqrtPositive(sqrt: real -> real, x: real)
    requires IsSqrt(sqrt)
    requires 0.0 < x
    ensures 0.0 < sqrt(x)
  {
    SquareOfZero(sqrt(x), x);
  }

  /** A non-negative multiple, by a positive factor, of a number shows the
      number is non-negative. */
  lemma NonNegativeFactor(k: real, a: real, m: real)
    requires 0.0 < k && m == k * a && 0.0 <= m
    ensures 0.0 <= a
  {
    if a < 0.0 {
      MulPositive(k, -a, k * -a);
    }
  }

  /** Equal numbers have equal multiples. */
  lemma MulEqual(a: real, b: real, k: real)
    requires a == b
    ensures a * k == b * k && k * a == k * b
  {
  }

  /** A weight that takes the sign of d (and is positive when d is zero)
      makes a non-negative product with d. */
  lemma SignedWeight(d: real, s: real, w: real, m: real)
    requires 0.0 <= s
    requires w == (if d < 0.0 then -s else s)
    requires m == w * d
    ensures 0.0 <= m
  {
    if d < 0.0 {
      MulNonNegative(s, -d, s * -d);
    } else {
      MulNonNegative(s, d, m);
    }
  }

  /** A product vanishes only if a factor does. */
  lemma ZeroProduct(a: real, b: real, m: real)
    requires m == a * b && m == 0.0 && b != 0.0
    ensures a == 0.0
  {
    if a > 0.0 && b > 0.0 {
      MulPositive(a, b, m);
    } else if a > 0.0 {
      MulPositive(a, -b, a * -b);
    } else if a < 0.0 && b > 0.0 {
      MulPositive(-a, b, -a * b);
    } else if a < 0.0 {
      MulPositive(-a, -b, -a * -b);
    }
  }

  /** A quotient by a positive number vanishes exactly when its numerator
      does. */
  lemma DivZero(a: real, b: real, q: real)
    requires 0.0 < b && q == a / b
    ensures q == 0.0 <==> a == 0.0
  {
    DivMul(a, b, q);
  }

  /** The root vanishes exactly at zero. */
  lemma SqrtZero(sqrt: real -> real, x: real)
    requires IsSqrt(sqrt)
    requires 0.0 <= x
    ensures sqrt(x) == 0.0 <==> x == 0.0
  {
    SquareZero(sqrt(x), sqrt(x) * sqrt(x));
  }

  /** Opposite numbers have the same square. */
  lemma SqNegate(a: real, b: real)
    requires a + b == 0.0
    ensures Sq(a) == Sq(b)
  {
    assert a == -b;
  }

  /** Squaring a product squares each factor. */
  lemma SqScale(k: real, q: real)
    ensures Sq(k * q) == k * k * Sq(q)
  {
  }

  lemma Distribute(p: real, a: real, b: real)
    ensures p * (a + b) == p * a + p * b
  {
  }

  /** A positive factor whose square scales x to 1 is unique. */
  lemma PositiveScaleUnique(a: real, b: real, x: real)
    requires 0.0 < a && 0.0 < b
    requires a * a * x == 1.0 && b * b * x == 1.0
    ensures a == b
  {
    assert (a * a - b * b) * x == 0.0;
    assert x != 0.0;
    ZeroProduct(a * a - b * b, x, (a * a - b * b) * x);
    PositiveSquareUnique(a, b);
  }

  /** Positive numbers with equal squares are equal. */
  lemma PositiveSquareUnique(a: real, b: real)
    requires 0.0 < a && 0.0 < b && a * a == b * b
    ensures a == b
  {
    assert (a - b) * (a + b) == a * a - b * b;
    ZeroProduct(a - b, a + b, (a - b) * (a + b));
  }
}
