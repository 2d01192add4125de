/** The 3-vector algebra of compaxx.c (`Point`, `dotProduct`, `addTo`,
    `mulByScalar`, `normalize`) and the cross product that extra.c calls. */
module Vectors {
  import opened RealMath

  /** `Point` of compaxx_int.h: a sample position or a direction. */
  datatype Point = Point(x: real, y: real, z: real)

  const Origin := Point(0.0, 0.0, 0.0)

  /** `addTo`, as a value instead of an in-place update. */
  function Add(a: Point, b: Point): Point {
    Point(a.x + b.x, a.y + b.y, a.z + b.z)
  }

  function Sub(a: Point, b: Point): Point {
    Point(a.x - b.x, a.y - b.y, a.z - b.z)
  }

  /** `mulByScalar`, as a value instead of an in-place update. */
  function Scale(a: Point, k: real): Point {
    Point(a.x * k, a.y * k, a.z * k)
  }

  /** `dotProduct`. */
  function Dot(a: Point, b: Point): real {
    a.x * b.x + a.y * b.y + a.z * b.z
  }

  /** The cross product a × b. extra.c calls `crossProduct` without defining
      it; the right-handed standard cross product is assumed here. */
  function Cross(a: Point, b: Point): Point {
    Point(a.y * b.z - a.z * b.y, a.z * b.x - a.x * b.z, a.x * b.y - a.y * b.x)
  }

  /** u points the same way as v: it is v stretched by a positive factor. */
  ghost predicate PositiveMultiple(u: Point, v: Point) {
    exists k: real :: 0.0 < k && u == Scale(v, k)
  }

  /** The squared length is non-negative and vanishes only at the origin. */
  lemma DotSelf(a: Point)
    ensures Dot(a, a) >= 0.0
    ensures a != Origin ==> Dot(a, a) > 0.0
  {
    SumOfSquaresNonNegative(a.x, a.y, a.z, Dot(a, a));
    if a != Origin {
      SumOfSquaresPositive(a.x, a.y, a.z, Dot(a, a));
    }
  }

  lemma DotScale(a: Point, b: Point, k: real)
    ensures Dot(a, Scale(b, k)) == k * Dot(a, b)
    ensures Dot(Scale(a, k), b) == k * Dot(a, b)
  {
  }

  lemma DotScaleSwap(a: Point, b: Point, k: real)
    ensures Dot(Scale(a, k), b) == k * Dot(b, a)
  {
  }

  lemma DotAddLeft(a: Point, b: Point, c: Point)
    ensures Dot(Add(a, b), c) == Dot(a, c) + Dot(b, c)
  {
  }

  lemma DotSymmetric(a: Point, b: Point)
    ensures Dot(a, b) == Dot(b, a)
  {
  }

  lemma DotAdd(a: Point, b: Point, c: Point)
    ensures Dot(a, Add(b, c)) == Dot(a, b) + Dot(a, c)
  {
  }

  /** Scaling a vector by k scales its squared length by k². */
  lemma DotScaleSelf(a: Point, k: real)
    ensures Dot(Scale(a, k), Scale(a, k)) == k * k * Dot(a, a)
  {
  }

  lemma DotScaleRight(a: Point, b: Point, k: real)
    ensures Dot(a, Scale(b, k)) == Dot(a, b) * k
  {
  }

  lemma DotSub(a: Point, b: Point, c: Point)
    ensures Dot(a, Sub(b, c)) == Dot(a, b) - Dot(a, c)
  {
  }

  /** The squared length of a sum of two vectors that do not point apart is
      at least the sum of their squared lengths. */
  lemma NormGrowth(a: Point, v: Point)
    requires Dot(a, v) >= 0.0
    ensures Dot(Add(a, v), Add(a, v)) >= Dot(a, a) + Dot(v, v)
  {
    DotAddLeft(a, v, Add(a, v));
    DotAdd(a, a, v);
    DotAdd(v, a, v);
    DotSymmetric(a, v);
  }

  /** A nonzero multiple of a nonzero vector is nonzero. */
  lemma ScaleNonZero(a: Point, k: real)
    requires a != Origin && k != 0.0
    ensures Scale(a, k) != Origin
  {
    DotScaleSelf(a, k);
    DotSelf(a);
    SquarePositive(k, k * k);
    MulPositive(k * k, Dot(a, a), k * k * Dot(a, a));
  }

  /** Only the origin is scaled onto the origin by a nonzero factor. */
  lemma ScaledToOrigin(a: Point, k: real, s: Point)
    requires k != 0.0 && Scale(a, k) == s && s == Origin
    ensures a == Origin
  {
    if a != Origin {
      ScaleNonZero(a, k);
    }
  }

  /** Scaling by zero collapses every vector to the origin. */
  lemma ScaleZero(a: Point, k: real)
    requires k == 0.0
    ensures Scale(a, k) == Origin
  {
    MulEqual(k, 0.0, a.x);
    MulEqual(k, 0.0, a.y);
    MulEqual(k, 0.0, a.z);
  }

  lemma ScaleScale(a: Point, k: real, m: real)
    ensures Scale(Scale(a, k), m) == Scale(a, k * m)
  {
    assert a.x * k * m == a.x * (k * m);
    assert a.y * k * m == a.y * (k * m);
    assert a.z * k * m == a.z * (k * m);
  }

  /** Pointing the same way is transitive. */
  lemma PositiveMultipleTrans(u: Point, v: Point, w: Point)
    requires PositiveMultiple(u, v) && PositiveMultiple(v, w)
    ensures PositiveMultiple(u, w)
  {
    var k :| 0.0 < k && u == Scale(v, k);
    var m :| 0.0 < m && v == Scale(w, m);
    ScaleScale(w, m, k);
    MulPositive(m, k, m * k);
    assert u == Scale(w, m * k);
  }

  /** Pointing the same way is symmetric. */
  lemma PositiveMultipleSym(u: Point, v: Point)
    requires PositiveMultiple(u, v)
    ensures PositiveMultiple(v, u)
  {
    var k :| 0.0 < k && u == Scale(v, k);
    ReciprocalPositive(k);
    ScaleScale(v, k, 1.0 / k);
    assert k * (1.0 / k) == 1.0;
    assert v == Scale(u, 1.0 / k);
  }

  /** A positive multiple of a nonzero vector is nonzero. */
  lemma PositiveMultipleNonZero(u: Point, v: Point)
    requires PositiveMultiple(u, v) && v != Origin
    ensures u != Origin
  {
    var k :| 0.0 < k && u == Scale(v, k);
    DotScaleSelf(v, k);
    DotSelf(v);
    MulPositive(k, k, k * k);
    MulPositive(k * k, Dot(v, v), k * k * Dot(v, v));
    DotSelf(u);
  }

  /** Two unit vectors pointing the same way are equal. */
  lemma UnitPositiveMultipleUnique(u: Point, v: Point)
    requires Dot(u, u) == 1.0 && Dot(v, v) == 1.0
    requires PositiveMultiple(u, v)
    ensures u == v
  {
    var k :| 0.0 < k && u == Scale(v, k);
    DotScaleSelf(v, k);
    assert k * k == 1.0;
    if k > 1.0 {
      MulPositive(k - 1.0, k + 1.0, (k - 1.0) * (k + 1.0));
    } else if k < 1.0 {
      MulPositive(1.0 - k, k + 1.0, (1.0 - k) * (k + 1.0));
    }
    assert k == 1.0;
  }

  /** Dividing every component by a positive number is scaling by its
      reciprocal, which keeps the direction. */
  lemma DivideByPositive(v: Point, d: real)
    requires 0.0 < d
    ensures Point(v.x / d, v.y / d, v.z / d) == Scale(v, 1.0 / d)
    ensures PositiveMultiple(Point(v.x / d, v.y / d, v.z / d), v)
  {
    DivIsMulReciprocal(v.x, d);
    DivIsMulReciprocal(v.y, d);
    DivIsMulReciprocal(v.z, d);
    ReciprocalPositive(d);
  }

  /** The largest component magnitude, the divisor of the first step of
      `normalize`. */
  function Largest(v: Point): (r: real)
    ensures r >= Abs(v.x) && r >= Abs(v.y) && r >= Abs(v.z)
    ensures r == Abs(v.x) || r == Abs(v.y) || r == Abs(v.z)
  {
    Max(Max(Abs(v.x), Abs(v.y)), Abs(v.z))
  }

  /** Dividing by the largest component magnitude leaves every component in
      [-1, 1] and the largest one with magnitude 1. */
  lemma DivideByLargest(v: Point, largest: real, r: Point)
    requires 0.0 < largest && largest == Largest(v)
    requires r == Point(v.x / largest, v.y / largest, v.z / largest)
    ensures -1.0 <= r.x <= 1.0 && -1.0 <= r.y <= 1.0 && -1.0 <= r.z <= 1.0
    ensures Abs(r.x) == 1.0 || Abs(r.y) == 1.0 || Abs(r.z) == 1.0
  {
    DivBounded(v.x, largest, r.x);
    DivBounded(v.y, largest, r.y);
    DivBounded(v.z, largest, r.z);
    if Abs(v.x) == largest {
      DivByMagnitude(v.x, largest, r.x);
    } else if Abs(v.y) == largest {
      DivByMagnitude(v.y, largest, r.y);
    } else {
      DivByMagnitude(v.z, largest, r.z);
    }
  }

  /** The first step of `normalize`: divide every component by the largest
      magnitude, which guards the C code against overflow in the sum of
      squares. */
  function ScaleByLargest(v: Point): (r: Point)
    requires v != Origin
    ensures -1.0 <= r.x <= 1.0 && -1.0 <= r.y <= 1.0 && -1.0 <= r.z <= 1.0
    ensures Abs(r.x) == 1.0 || Abs(r.y) == 1.0 || Abs(r.z) == 1.0
    ensures PositiveMultiple(r, v)
  {
    var largest := Largest(v);
    var r := Point(v.x / largest, v.y / largest, v.z / largest);
    DivideByLargest(v, largest, r);
    DivideByPositive(v, largest);
    r
  }

  /** A vector with a component of magnitude 1 has squared length >= 1. */
  lemma UnitComponentLength(s: Point)
    requires Abs(s.x) == 1.0 || Abs(s.y) == 1.0 || Abs(s.z) == 1.0
    ensures Dot(s, s) >= 1.0
  {
    SquareNonNegative(s.x, s.x * s.x);
    SquareNonNegative(s.y, s.y * s.y);
    SquareNonNegative(s.z, s.z * s.z);
    if Abs(s.x) == 1.0 {
      UnitSquare(s.x, s.x * s.x);
    } else if Abs(s.y) == 1.0 {
      UnitSquare(s.y, s.y * s.y);
    } else {
      UnitSquare(s.z, s.z * s.z);
    }
  }

  /** Dividing a vector by the root of its squared length gives a unit
      vector. */
  lemma DivideByLength(s: Point, length: real)
    requires 0.0 < length && length * length == Dot(s, s)
    ensures Dot(Point(s.x / length, s.y / length, s.z / length),
                Point(s.x / length, s.y / length, s.z / length)) == 1.0
  {
    DivideByPositive(s, length);
    DotScaleSelf(s, 1.0 / length);
    ReciprocalOfRoot(Dot(s, s), length, 1.0 / length);
  }

  /** `normalize`: a unit vector pointing the same way as a nonzero v. */
  function Normalize(v: Point, sqrt: real -> real): (r: Point)
    requires IsSqrt(sqrt)
    requires v != Origin
    ensures Dot(r, r) == 1.0
    ensures PositiveMultiple(r, v)
  {
    var s := ScaleByLargest(v);
    UnitComponentLength(s);
    var length := sqrt(Dot(s, s));
    SqrtPositive(sqrt, Dot(s, s));
    DivideByLength(s, length);
    DivideByPositive(s, length);
    PositiveMultipleTrans(Point(s.x / length, s.y / length, s.z / length), s, v);
    Point(s.x / length, s.y / length, s.z / length)
  }

  /** `normalize` depends only on the direction of its argument. */
  lemma NormalizeDirectionOnly(u: Point, v: Point, sqrt: real -> real)
    requires IsSqrt(sqrt)
    requires v != Origin && PositiveMultiple(u, v)
    ensures u != Origin
    ensures Normalize(u, sqrt) == Normalize(v, sqrt)
  {
    PositiveMultipleNonZero(u, v);
    var a := Normalize(u, sqrt);
    var b := Normalize(v, sqrt);
    PositiveMultipleTrans(a, u, v);
    PositiveMultipleSym(b, v);
    PositiveMultipleTrans(a, v, b);
    UnitPositiveMultipleUnique(a, b);
  }

  lemma UnitNonZero(u: Point)
    requires Dot(u, u) == 1.0
    ensures u != Origin
  {
  }

  /** Normalising a unit vector leaves it unchanged, so `normalize` is
      idempotent. */
  lemma NormalizeIdempotent(v: Point, sqrt: real -> real)
    requires IsSqrt(sqrt)
    requires v != Origin
    ensures Normalize(v, sqrt) != Origin
    ensures Normalize(Normalize(v, sqrt), sqrt) == Normalize(v, sqrt)
  {
    var u := Normalize(v, sqrt);
    UnitNonZero(u);
    var w := Normalize(u, sqrt);
    UnitPositiveMultipleUnique(w, u);
  }

  /** The cross product is orthogonal to both of its factors. */
  lemma CrossOrthogonal(a: Point, b: Point)
    ensures Dot(Cross(a, b), a) == 0.0
    ensures Dot(Cross(a, b), b) == 0.0
  {
  }
}
