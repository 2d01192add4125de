/** The moment estimators of compaxx.c: `centroid`, the mean of the samples,
    and `covariance`, the mean outer product of their deviations from a
    centre. */
module Moments {
  import opened RealMath
  import opened Vectors
  import opened Context

  /** The positions of context entries, as the `(float)` casts read them. */
  function Positions(pts: seq<CtxPoint>): (r: seq<Point>)
    ensures |r| == |pts|
    ensures forall i :: 0 <= i < |pts| ==> r[i] == ToPoint(pts[i].sensorData)
  {
    seq(|pts|, i requires 0 <= i < |pts| => ToPoint(pts[i].sensorData))
  }

  /** The sum of a sequence of points, accumulated first to last. */
  function Sum(ps: seq<Point>): Point
    decreases |ps|
  {
    if |ps| == 0 then Origin else Add(Sum(ps[..|ps| - 1]), ps[|ps| - 1])
  }

  /** The deviations of the points from a centre c. */
  function Deviations(ps: seq<Point>, c: Point): (r: seq<Point>)
    ensures |r| == |ps|
    ensures forall i :: 0 <= i < |ps| ==> r[i] == Sub(ps[i], c)
  {
    seq(|ps|, i requires 0 <= i < |ps| => Sub(ps[i], c))
  }

  /** The mean the C `centroid` computes: the sum divided by the count. */
  function Mean(ps: seq<Point>): (r: Point)
    requires |ps| > 0
    ensures Scale(r, |ps| as real) == Sum(ps)
  {
    var s := Sum(ps);
    var n := |ps| as real;
    DivMul(s.x, n, s.x / n);
    DivMul(s.y, n, s.y / n);
    DivMul(s.z, n, s.z / n);
    Point(s.x / n, s.y / n, s.z / n)
  }

  /** The sum of the deviations from c is the sum of the points less n c. */
  lemma {:induction false} SumDeviations(ps: seq<Point>, c: Point)
    ensures Sum(Deviations(ps, c)) == Sub(Sum(ps), Scale(c, |ps| as real))
    decreases |ps|
  {
    if |ps| > 0 {
      var init := ps[..|ps| - 1];
      SumDeviations(init, c);
      assert Deviations(ps, c)[..|ps| - 1] == Deviations(init, c);
    }
  }

  /** The mean is the one centre whose deviations cancel out. */
  lemma MeanBalances(ps: seq<Point>, c: Point)
    requires |ps| > 0
    ensures Sum(Deviations(ps, c)) == Origin <==> c == Mean(ps)
  {
    var n := |ps| as real;
    SumDeviations(ps, c);
    var m := Mean(ps);
    if Sum(Deviations(ps, c)) == Origin {
      assert Scale(c, n) == Scale(m, n);
      ScaleCancel(c, m, n);
    }
  }

  /** Scaling by a nonzero factor is injective. */
  lemma ScaleCancel(a: Point, b: Point, k: real)
    requires k != 0.0
    requires Scale(a, k) == Scale(b, k)
    ensures a == b
  {
    assert a.x * k / k == a.x && b.x * k / k == b.x;
    assert a.y * k / k == a.y && b.y * k / k == b.y;
    assert a.z * k / k == a.z && b.z * k / k == b.z;
  }

  /** `centroid`: the coordinate-wise mean of the live readings. */
  method Centroid(pts: seq<CtxPoint>) returns (c: Point)
    requires |pts| > 0
    ensures c == Mean(Positions(pts))
    ensures Sum(Deviations(Positions(pts), c)) == Origin
  {
    ghost var ps := Positions(pts);
    var acc := Origin;
    var i := 0;
    while i < |pts|
      invariant 0 <= i <= |pts|
      invariant acc == Sum(ps[..i])
    {
      var p := ToPoint(pts[i].sensorData);
      acc := Point(acc.x + p.x, acc.y + p.y, acc.z + p.z);
      assert ps[..i + 1][..i] == ps[..i];
      i := i + 1;
    }
    assert ps[..|pts|] == ps;
    var n := |pts| as real;
    c := Point(acc.x / n, acc.y / n, acc.z / n);
    MeanBalances(ps, c);
  }

  /** `CovarianceMatrix`: the six distinct entries of a symmetric 3×3
      matrix. */
  datatype CovarianceMatrix = CovarianceMatrix(xx: real, xy: real, xz: real,
                                               yy: real, yz: real, zz: real)

  const Zero := CovarianceMatrix(0.0, 0.0, 0.0, 0.0, 0.0, 0.0)

  function AddM(a: CovarianceMatrix, b: CovarianceMatrix): CovarianceMatrix {
    CovarianceMatrix(a.xx + b.xx, a.xy + b.xy, a.xz + b.xz,
                     a.yy + b.yy, a.yz + b.yz, a.zz + b.zz)
  }

  function ScaleM(a: CovarianceMatrix, k: real): CovarianceMatrix {
    CovarianceMatrix(a.xx * k, a.xy * k, a.xz * k, a.yy * k, a.yz * k, a.zz * k)
  }

  /** The outer product d dᵀ. */
  function Outer(d: Point): CovarianceMatrix {
    CovarianceMatrix(d.x * d.x, d.x * d.y, d.x * d.z, d.y * d.y, d.y * d.z, d.z * d.z)
  }

  /** The rows of the symmetric matrix. */
  function RowX(m: CovarianceMatrix): Point { Point(m.xx, m.xy, m.xz) }
  function RowY(m: CovarianceMatrix): Point { Point(m.xy, m.yy, m.yz) }
  function RowZ(m: CovarianceMatrix): Point { Point(m.xz, m.yz, m.zz) }

  /** The product of the symmetric matrix with a vector. */
  function MatVec(m: CovarianceMatrix, v: Point): Point {
    Point(Dot(RowX(m), v), Dot(RowY(m), v), Dot(RowZ(m), v))
  }

  /** The quadratic form uᵀ M u. */
  function QuadForm(m: CovarianceMatrix, u: Point): real {
    Dot(u, MatVec(m, u))
  }

  /** The sum of the outer products of the deviations from c, accumulated
      first to last; its diagonal is a sum of squares. */
  function SumOuter(ps: seq<Point>, c: Point): (r: CovarianceMatrix)
    ensures r.xx >= 0.0 && r.yy >= 0.0 && r.zz >= 0.0
    decreases |ps|
  {
    if |ps| == 0 then Zero
    else
      var init := SumOuter(ps[..|ps| - 1], c);
      var d := Sub(ps[|ps| - 1], c);
      SquareNonNegative(d.x, d.x * d.x);
      SquareNonNegative(d.y, d.y * d.y);
      SquareNonNegative(d.z, d.z * d.z);
      AddM(init, Outer(d))
  }

  /** Every entry divided by k. */
  function DivM(a: CovarianceMatrix, k: real): CovarianceMatrix
    requires k != 0.0
  {
    CovarianceMatrix(a.xx / k, a.xy / k, a.xz / k, a.yy / k, a.yz / k, a.zz / k)
  }

  lemma DivMScale(a: CovarianceMatrix, k: real)
    requires k != 0.0
    ensures ScaleM(DivM(a, k), k) == a
  {
    DivMul(a.xx, k, a.xx / k);
    DivMul(a.xy, k, a.xy / k);
    DivMul(a.xz, k, a.xz / k);
    DivMul(a.yy, k, a.yy / k);
    DivMul(a.yz, k, a.yz / k);
    DivMul(a.zz, k, a.zz / k);
  }

  lemma DivMDiagonal(a: CovarianceMatrix, k: real)
    requires 0.0 < k
    requires a.xx >= 0.0 && a.yy >= 0.0 && a.zz >= 0.0
    ensures DivM(a, k).xx >= 0.0 && DivM(a, k).yy >= 0.0 && DivM(a, k).zz >= 0.0
  {
    DivNonNegative(a.xx, k, a.xx / k);
    DivNonNegative(a.yy, k, a.yy / k);
    DivNonNegative(a.zz, k, a.zz / k);
  }

  /** The covariance the C `covariance` computes: the sum of outer products
      divided by the count. */
  function CovarianceOf(ps: seq<Point>, c: Point): (r: CovarianceMatrix)
    requires |ps| > 0
    ensures ScaleM(r, |ps| as real) == SumOuter(ps, c)
    ensures r.xx >= 0.0 && r.yy >= 0.0 && r.zz >= 0.0
  {
    DivMScale(SumOuter(ps, c), |ps| as real);
    DivMDiagonal(SumOuter(ps, c), |ps| as real);
    DivM(SumOuter(ps, c), |ps| as real)
  }

  /** `covariance`: the covariance of the live readings about a centre. */
  method Covariance(pts: seq<CtxPoint>, c: Point) returns (m: CovarianceMatrix)
    requires |pts| > 0
    ensures m == CovarianceOf(Positions(pts), c)
  {
    ghost var ps := Positions(pts);
    var acc := Zero;
    var i := 0;
    while i < |pts|
      invariant 0 <= i <= |pts|
      invariant acc == SumOuter(ps[..i], c)
    {
      var p := ToPoint(pts[i].sensorData);
      var r := Sub(p, c);
      acc := AddM(acc, Outer(r));
      assert r == Sub(ps[i], c);
      assert ps[..i + 1][..i] == ps[..i];
      i := i + 1;
    }
    assert ps[..|pts|] == ps;
    var n := |pts| as real;
    m := CovarianceMatrix(acc.xx / n, acc.xy / n, acc.xz / n,
                          acc.yy / n, acc.yz / n, acc.zz / n);
    assert m == DivM(acc, n);
  }

  /** The sum of the squared offsets of the points from the plane through c
      with normal u, accumulated first to last. */
  function SumSqOffsets(ps: seq<Point>, c: Point, u: Point): (r: real)
    ensures r >= 0.0
    decreases |ps|
  {
    if |ps| == 0 then 0.0
    else
      SumSqOffsets(ps[..|ps| - 1], c, u) + Sq(Dot(u, Sub(ps[|ps| - 1], c)))
  }

  /** d dᵀ u = (u · d) d. */
  lemma MatVecOuter(d: Point, u: Point)
    ensures MatVec(Outer(d), u) == Scale(d, Dot(u, d))
  {
    assert RowX(Outer(d)) == Scale(d, d.x);
    assert RowY(Outer(d)) == Scale(d, d.y);
    assert RowZ(Outer(d)) == Scale(d, d.z);
    DotScaleSwap(d, u, d.x);
    DotScaleSwap(d, u, d.y);
    DotScaleSwap(d, u, d.z);
  }

  /** The quadratic form of an outer product d dᵀ is (u · d)². */
  lemma QuadFormOuter(d: Point, u: Point)
    ensures QuadForm(Outer(d), u) == Sq(Dot(u, d))
  {
    MatVecOuter(d, u);
    DotScale(u, d, Dot(u, d));
  }

  lemma MatVecAdd(a: CovarianceMatrix, b: CovarianceMatrix, u: Point)
    ensures MatVec(AddM(a, b), u) == Add(MatVec(a, u), MatVec(b, u))
  {
    assert RowX(AddM(a, b)) == Add(RowX(a), RowX(b));
    assert RowY(AddM(a, b)) == Add(RowY(a), RowY(b));
    assert RowZ(AddM(a, b)) == Add(RowZ(a), RowZ(b));
    DotAddLeft(RowX(a), RowX(b), u);
    DotAddLeft(RowY(a), RowY(b), u);
    DotAddLeft(RowZ(a), RowZ(b), u);
  }

  /** One row of a scaled matrix times a vector. */
  lemma DotScaledRow(r: Point, u: Point, k: real, s: Point, e: real)
    requires s == Scale(r, k)
    requires e == Dot(r, u)
    ensures Dot(s, u) == e * k
  {
  }

  lemma MatVecScaleX(a: CovarianceMatrix, k: real, u: Point)
    ensures MatVec(ScaleM(a, k), u).x == Scale(MatVec(a, u), k).x
  {
    var r, s := RowX(a), RowX(ScaleM(a, k));
    assert s == Scale(r, k);
    DotScaledRow(r, u, k, s, Dot(r, u));
  }

  lemma MatVecScaleY(a: CovarianceMatrix, k: real, u: Point)
    ensures MatVec(ScaleM(a, k), u).y == Scale(MatVec(a, u), k).y
  {
    var r, s := RowY(a), RowY(ScaleM(a, k));
    assert s == Scale(r, k);
    DotScaledRow(r, u, k, s, Dot(r, u));
  }

  lemma MatVecScaleZ(a: CovarianceMatrix, k: real, u: Point)
    ensures MatVec(ScaleM(a, k), u).z == Scale(MatVec(a, u), k).z
  {
    var r, s := RowZ(a), RowZ(ScaleM(a, k));
    assert s == Scale(r, k);
    DotScaledRow(r, u, k, s, Dot(r, u));
  }

  lemma MatVecScale(a: CovarianceMatrix, k: real, u: Point)
    ensures MatVec(ScaleM(a, k), u) == Scale(MatVec(a, u), k)
  {
    MatVecScaleX(a, k, u);
    MatVecScaleY(a, k, u);
    MatVecScaleZ(a, k, u);
    SameComponents(MatVec(ScaleM(a, k), u), Scale(MatVec(a, u), k));
  }

  lemma SameComponents(p: Point, q: Point)
    requires p.x == q.x && p.y == q.y && p.z == q.z
    ensures p == q
  {
  }

  /** The quadratic form is linear in the matrix. */
  lemma QuadFormScale(a: CovarianceMatrix, k: real, u: Point)
    ensures QuadForm(ScaleM(a, k), u) == k * QuadForm(a, u)
  {
    MatVecScale(a, k, u);
    DotScale(u, MatVec(a, u), k);
    MulEqual(QuadForm(a, u), Dot(u, MatVec(a, u)), k);
  }

  /** The quadratic form of the summed outer products is the sum of the
      squared offsets along u. */
  lemma {:induction false} SumOuterQuadForm(ps: seq<Point>, c: Point, u: Point)
    ensures QuadForm(SumOuter(ps, c), u) == SumSqOffsets(ps, c, u)
    decreases |ps|
  {
    if |ps| > 0 {
      var init := ps[..|ps| - 1];
      var d := Sub(ps[|ps| - 1], c);
      SumOuterQuadForm(init, c, u);
      MatVecAdd(SumOuter(init, c), Outer(d), u);
      DotAdd(u, MatVec(SumOuter(init, c), u), MatVec(Outer(d), u));
      QuadFormOuter(d, u);
      assert d == Sub(ps[|ps| - 1], c);
    }
  }

  /** The quadratic form of the covariance at u is the mean squared offset of
      the points from the plane through c with normal u; in particular the
      covariance is positive semi-definite. */
  lemma CovarianceQuadForm(ps: seq<Point>, c: Point, u: Point)
    requires |ps| > 0
    ensures (|ps| as real) * QuadForm(CovarianceOf(ps, c), u) == SumSqOffsets(ps, c, u)
    ensures QuadForm(CovarianceOf(ps, c), u) >= 0.0
  {
    SumOuterQuadForm(ps, c, u);
    QuadFormScale(CovarianceOf(ps, c), |ps| as real, u);
    assert QuadForm(SumOuter(ps, c), u)
        == QuadForm(ScaleM(CovarianceOf(ps, c), |ps| as real), u);
    NonNegativeFactor(|ps| as real, QuadForm(CovarianceOf(ps, c), u),
                      (|ps| as real) * QuadForm(CovarianceOf(ps, c), u));
  }

  /** The squared offsets sum to zero exactly when every point lies on the
      plane. */
  lemma {:induction false} SumSqOffsetsZero(ps: seq<Point>, c: Point, u: Point)
    ensures SumSqOffsets(ps, c, u) == 0.0
            <==> forall i :: 0 <= i < |ps| ==> Dot(u, Sub(ps[i], c)) == 0.0
    decreases |ps|
  {
    if |ps| > 0 {
      var init := ps[..|ps| - 1];
      var last := Dot(u, Sub(ps[|ps| - 1], c));
      SumSqOffsetsZero(init, c, u);
      SqPositive(last);
      if SumSqOffsets(ps, c, u) == 0.0 {
        forall i | 0 <= i < |ps|
          ensures Dot(u, Sub(ps[i], c)) == 0.0
        {
          if i < |ps| - 1 {
            assert init[i] == ps[i];
          }
        }
      }
      if forall i :: 0 <= i < |ps| ==> Dot(u, Sub(ps[i], c)) == 0.0 {
        forall i | 0 <= i < |init|
          ensures Dot(u, Sub(init[i], c)) == 0.0
        {
          assert init[i] == ps[i];
        }
        assert Sq(last) == 0.0;
      }
    }
  }

  /** The covariance's quadratic form vanishes at u exactly when every point
      lies on the plane through c with normal u. */
  lemma CovarianceFlatDirection(ps: seq<Point>, c: Point, u: Point)
    requires |ps| > 0
    ensures QuadForm(CovarianceOf(ps, c), u) == 0.0
            <==> forall i :: 0 <= i < |ps| ==> Dot(u, Sub(ps[i], c)) == 0.0
  {
    CovarianceQuadForm(ps, c, u);
    SumSqOffsetsZero(ps, c, u);
    var q := QuadForm(CovarianceOf(ps, c), u);
    if q != 0.0 {
      if q > 0.0 {
        MulPositive(q, |ps| as real, q * (|ps| as real));
      }
    }
  }

  /** A normal of a plane through c that holds every point is in the null
      space of the summed outer products. */
  lemma {:induction false} SumOuterNull(ps: seq<Point>, c: Point, u: Point)
    requires forall i :: 0 <= i < |ps| ==> Dot(u, Sub(ps[i], c)) == 0.0
    ensures MatVec(SumOuter(ps, c), u) == Origin
    decreases |ps|
  {
    if |ps| > 0 {
      var init := ps[..|ps| - 1];
      var d := Sub(ps[|ps| - 1], c);
      forall i | 0 <= i < |init|
        ensures Dot(u, Sub(init[i], c)) == 0.0
      {
        assert init[i] == ps[i];
      }
      SumOuterNull(init, c, u);
      assert SumOuter(ps, c) == AddM(SumOuter(init, c), Outer(d));
      MatVecAdd(SumOuter(init, c), Outer(d), u);
      MatVecOuter(d, u);
      assert Dot(u, d) == 0.0;
      ScaleZero(d, Dot(u, d));
      assert MatVec(Outer(d), u) == Origin;
      assert MatVec(SumOuter(init, c), u) == Origin;
    }
  }

  /** If every point lies on a plane through c with normal u, the covariance
      about c maps u to zero. */
  lemma CovarianceNull(ps: seq<Point>, c: Point, u: Point)
    requires |ps| > 0
    requires forall i :: 0 <= i < |ps| ==> Dot(u, Sub(ps[i], c)) == 0.0
    ensures MatVec(CovarianceOf(ps, c), u) == Origin
  {
    var m := CovarianceOf(ps, c);
    var n := |ps| as real;
    SumOuterNull(ps, c, u);
    MatVecScale(m, n, u);
    assert Scale(MatVec(m, u), n) == Scale(Origin, n);
    ScaleCancel(MatVec(m, u), Origin, n);
  }
}
