/** The triangulated estimator of extra.c: `rectangleArea`,
    `planeFromThreePoints` and `finalizeCalibrationTrian`. The live readings
    are split into three equal streams; the i-th entries of the streams make
    a triangle, and the result is the average of the triangles' planes
    weighted by their areas. */
module Triangulation {
  import opened RealMath
  import opened Vectors
  import opened Context
  import opened PlaneFit

  /** `rectangleArea`: half the length of the cross product of the edges
      from pt1 to the other two points, which is the area of the triangle
      they span. */
  function RectangleArea(pt1: Point, pt2: Point, pt3: Point, sqrt: real -> real): (r: real)
    requires IsSqrt(sqrt)
    ensures 0.0 <= r
    ensures r == 0.0 <==> Cross(Sub(pt1, pt2), Sub(pt1, pt3)) == Origin
  {
    var cp := Cross(Sub(pt1, pt2), Sub(pt1, pt3));
    DotSelf(cp);
    SqrtZero(sqrt, Dot(cp, cp));
    0.5 * sqrt(Dot(cp, cp))
  }

  /** Twice the area, squared, is the squared length of the cross product. */
  lemma AreaSquared(pt1: Point, pt2: Point, pt3: Point, sqrt: real -> real)
    requires IsSqrt(sqrt)
    ensures 4.0 * Sq(RectangleArea(pt1, pt2, pt3, sqrt))
            == Dot(Cross(Sub(pt1, pt2), Sub(pt1, pt3)), Cross(Sub(pt1, pt2), Sub(pt1, pt3)))
  {
    var cp := Cross(Sub(pt1, pt2), Sub(pt1, pt3));
    DotSelf(cp);
    HalfSquared(sqrt(Dot(cp, cp)), Dot(cp, cp), RectangleArea(pt1, pt2, pt3, sqrt));
  }

  lemma HalfSquared(s: real, x: real, r: real)
    requires s * s == x && r == 0.5 * s
    ensures 4.0 * Sq(r) == x
  {
  }

  /** A triangle with two equal corners has no area. */
  lemma AreaOfRepeatedCorner(pt1: Point, pt2: Point, pt3: Point, sqrt: real -> real)
    requires IsSqrt(sqrt)
    requires pt1 == pt2 || pt1 == pt3 || pt2 == pt3
    ensures RectangleArea(pt1, pt2, pt3, sqrt) == 0.0
  {
    var a, b := Sub(pt1, pt2), Sub(pt1, pt3);
    if pt2 == pt3 {
      CrossSelf(a);
    } else if pt1 == pt2 {
      CrossOfOrigin(a, b);
    } else {
      CrossWithOrigin(a, b);
    }
  }

  lemma CrossSelf(a: Point)
    ensures Cross(a, a) == Origin
  {
  }

  lemma CrossOfOrigin(a: Point, b: Point)
    requires a == Origin
    ensures Cross(a, b) == Origin
  {
  }

  lemma CrossWithOrigin(a: Point, b: Point)
    requires b == Origin
    ensures Cross(a, b) == Origin
  {
  }

  /** Reversing both edges leaves the cross product unchanged, so the area
      vanishes exactly when the normal `planeFromThreePoints` computes
      does. */
  lemma CrossOfReversedEdges(p1: Point, p2: Point, p3: Point)
    ensures Cross(Sub(p1, p2), Sub(p1, p3)) == Cross(Sub(p2, p1), Sub(p3, p1))
  {
  }

  /** The normal `crossProduct(p2 - p1, p3 - p1)` of `planeFromThreePoints`,
      before its sign is fixed. */
  function TriangleNormal(p1: Point, p2: Point, p3: Point): Point {
    Cross(Sub(p2, p1), Sub(p3, p1))
  }

  /** The sign fix of `planeFromThreePoints`: a normal with negative x is
      negated. */
  function FlipToPositiveX(n: Point): (r: Point)
    ensures 0.0 <= r.x
    ensures r == n || r == Scale(n, -1.0)
  {
    if n.x < 0.0 then Point(-n.x, -n.y, -n.z) else n
  }

  /** `planeFromThreePoints`: the plane through the three points, as
      `normalToCartesian` scales it. Collinear points have no normal, and
      the C code then divides by zero; here they are excluded. */
  function PlaneFromThreePoints(p1: Point, p2: Point, p3: Point, sqrt: real -> real): (r: Point)
    requires IsSqrt(sqrt)
    requires TriangleNormal(p1, p2, p3) != Origin
    ensures 0.0 <= r.x
    ensures PositiveMultiple(r, FlipToPositiveX(TriangleNormal(p1, p2, p3)))
  {
    var n := FlipToPositiveX(TriangleNormal(p1, p2, p3));
    ScaleNonZero(TriangleNormal(p1, p2, p3), -1.0);
    var r := NormalToCartesian(n, p1, sqrt);
    NonNegativeScale(r, n);
    r
  }

  /** A positive multiple keeps the sign of the x component. */
  lemma NonNegativeScale(r: Point, n: Point)
    requires PositiveMultiple(r, n) && 0.0 <= n.x
    ensures 0.0 <= r.x
  {
    var k :| 0.0 < k && r == Scale(n, k);
    MulNonNegative(n.x, k, r.x);
  }

  /** A direction orthogonal to an edge stays so when flipped or scaled. */
  lemma FlipOrthogonal(n: Point, e: Point)
    requires Dot(n, e) == 0.0
    ensures Dot(FlipToPositiveX(n), e) == 0.0
  {
    DotScale(n, e, -1.0);
  }

  lemma MultipleOrthogonal(r: Point, n: Point, e: Point)
    requires PositiveMultiple(r, n) && Dot(n, e) == 0.0
    ensures Dot(r, e) == 0.0
  {
    var k :| 0.0 < k && r == Scale(n, k);
    DotScale(n, e, k);
  }

  /** The plane's coefficients are orthogonal to both edges from p1. */
  lemma PlaneAlongEdges(p1: Point, p2: Point, p3: Point, sqrt: real -> real)
    requires IsSqrt(sqrt)
    requires TriangleNormal(p1, p2, p3) != Origin
    ensures Dot(PlaneFromThreePoints(p1, p2, p3, sqrt), Sub(p2, p1)) == 0.0
    ensures Dot(PlaneFromThreePoints(p1, p2, p3, sqrt), Sub(p3, p1)) == 0.0
  {
    var t := TriangleNormal(p1, p2, p3);
    var r := PlaneFromThreePoints(p1, p2, p3, sqrt);
    CrossOrthogonal(Sub(p2, p1), Sub(p3, p1));
    FlipOrthogonal(t, Sub(p2, p1));
    FlipOrthogonal(t, Sub(p3, p1));
    MultipleOrthogonal(r, FlipToPositiveX(t), Sub(p2, p1));
    MultipleOrthogonal(r, FlipToPositiveX(t), Sub(p3, p1));
  }

  /** A point whose offset from a point on the plane is orthogonal to the
      coefficients lies on the plane too. */
  lemma OnPlaneByEdge(r: Point, p1: Point, q: Point, d: real)
    requires Dot(r, p1) + d == 0.0
    requires Dot(r, Sub(q, p1)) == 0.0
    ensures Dot(r, q) + d == 0.0
  {
    DotSub(r, q, p1);
  }

  /** With the D that `normalToCartesian` leaves implicit, all three points
      satisfy A x + B y + C z + D = 0, and (A, B, C, D) is a unit vector. */
  lemma PlaneThroughCorners(p1: Point, p2: Point, p3: Point, sqrt: real -> real)
    requires IsSqrt(sqrt)
    requires TriangleNormal(p1, p2, p3) != Origin
    ensures var r := PlaneFromThreePoints(p1, p2, p3, sqrt);
            var d := ImplicitOffset(FlipToPositiveX(TriangleNormal(p1, p2, p3)), p1, sqrt);
            && Dot(r, p1) + d == 0.0
            && Dot(r, p2) + d == 0.0
            && Dot(r, p3) + d == 0.0
            && Dot(r, r) + Sq(d) == 1.0
  {
    var n := FlipToPositiveX(TriangleNormal(p1, p2, p3));
    ScaleNonZero(TriangleNormal(p1, p2, p3), -1.0);
    var r := PlaneFromThreePoints(p1, p2, p3, sqrt);
    var d := ImplicitOffset(n, p1, sqrt);
    PlaneThroughPoint(n, p1, sqrt);
    PlaneAlongEdges(p1, p2, p3, sqrt);
    OnPlaneByEdge(r, p1, p2, d);
    OnPlaneByEdge(r, p1, p3, d);
  }

  /** The guard of `finalizeCalibrationTrian`: the three stream offsets
      0, n/3 and n/3*2 (C integer division of a non-negative count) are
      pairwise distinct exactly when there are at least three entries. */
  lemma OffsetsDistinct(n: nat)
    ensures (0 != n / 3 && n / 3 != n / 3 * 2 && n / 3 * 2 != 0) <==> 3 <= n
  {
  }

  /** The loop condition at step i holds exactly while i < n/3, so the loop
      runs n/3 times: the third stream never runs out first. */
  lemma LoopGuard(n: nat, i: nat)
    ensures (i < n / 3 && n / 3 + i < n / 3 * 2 && n / 3 * 2 + i < n) <==> i < n / 3
  {
  }

  /** At every step the three indices lie in [0, n/3), [n/3, 2(n/3)) and
      [2(n/3), n); so they are in bounds and no entry is used by two
      streams. */
  lemma StreamBounds(n: nat, i: nat)
    requires i < n / 3
    ensures 0 <= i < n / 3
    ensures n / 3 <= n / 3 + i < n / 3 * 2
    ensures n / 3 * 2 <= n / 3 * 2 + i < n
  {
  }

  /** The corners of the i-th triangle: the i-th entry of each stream. */
  function Corner1(pts: seq<CtxPoint>, i: nat): Point
    requires i < |pts| / 3
  {
    ToPoint(pts[i].sensorData)
  }

  function Corner2(pts: seq<CtxPoint>, i: nat): Point
    requires i < |pts| / 3
  {
    ToPoint(pts[|pts| / 3 + i].sensorData)
  }

  function Corner3(pts: seq<CtxPoint>, i: nat): Point
    requires i < |pts| / 3
  {
    ToPoint(pts[|pts| / 3 * 2 + i].sensorData)
  }

  /** No triangle is degenerate: every one has a normal. */
  ghost predicate Triangles(pts: seq<CtxPoint>) {
    forall i: nat :: i < |pts| / 3 ==>
      TriangleNormal(Corner1(pts, i), Corner2(pts, i), Corner3(pts, i)) != Origin
  }

  /** The plane of the i-th triangle. */
  function TrianglePlane(pts: seq<CtxPoint>, i: nat, sqrt: real -> real): (r: Point)
    requires IsSqrt(sqrt)
    requires i < |pts| / 3 && Triangles(pts)
    ensures 0.0 <= r.x
  {
    PlaneFromThreePoints(Corner1(pts, i), Corner2(pts, i), Corner3(pts, i), sqrt)
  }

  /** The weight of the i-th triangle: its area, which is positive since the
      triangle is not degenerate. */
  function TriangleWeight(pts: seq<CtxPoint>, i: nat, sqrt: real -> real): (r: real)
    requires IsSqrt(sqrt)
    requires i < |pts| / 3 && Triangles(pts)
    ensures 0.0 < r
  {
    CrossOfReversedEdges(Corner1(pts, i), Corner2(pts, i), Corner3(pts, i));
    RectangleArea(Corner1(pts, i), Corner2(pts, i), Corner3(pts, i), sqrt)
  }

  /** The planes of the n/3 triangles, in stream order; each faces +x. */
  function Planes(pts: seq<CtxPoint>, sqrt: real -> real): (r: seq<Point>)
    requires IsSqrt(sqrt) && Triangles(pts)
    ensures |r| == |pts| / 3
    ensures forall i :: 0 <= i < |r| ==> 0.0 <= r[i].x
  {
    seq(|pts| / 3, (i: int) requires 0 <= i < |pts| / 3 => TrianglePlane(pts, i, sqrt))
  }

  /** The areas of the n/3 triangles, in stream order; each is positive. */
  function Weights(pts: seq<CtxPoint>, sqrt: real -> real): (r: seq<real>)
    requires IsSqrt(sqrt) && Triangles(pts)
    ensures |r| == |pts| / 3
    ensures forall i :: 0 <= i < |r| ==> 0.0 < r[i]
  {
    seq(|pts| / 3, (i: int) requires 0 <= i < |pts| / 3 => TriangleWeight(pts, i, sqrt))
  }

  /** `accum` after k steps: the first k planes, each scaled by its
      weight, summed. */
  function WeightedSum(planes: seq<Point>, weights: seq<real>, k: nat): Point
    requires k <= |planes| && k <= |weights|
  {
    if k == 0 then Origin
    else Add(WeightedSum(planes, weights, k - 1), Scale(planes[k - 1], weights[k - 1]))
  }

  /** `planeCount` after k steps: the sum of the first k weights. */
  function Total(weights: seq<real>, k: nat): real
    requires k <= |weights|
  {
    if k == 0 then 0.0 else Total(weights, k - 1) + weights[k - 1]
  }

  /** One step of the loop adds the next weighted plane to `accum`, written
      out component by component as the C code does. */
  lemma AccumStep(planes: seq<Point>, weights: seq<real>, k: nat,
                  acc: Point, plane: Point, weight: real, next: Point)
    requires k < |planes| && k < |weights|
    requires acc == WeightedSum(planes, weights, k)
    requires plane == planes[k] && weight == weights[k]
    requires next == Point(acc.x + plane.x * weight, acc.y + plane.y * weight, acc.z + plane.z * weight)
    ensures next == WeightedSum(planes, weights, k + 1)
  {
    AddScaled(acc, plane, weight, next);
  }

  lemma AddScaled(acc: Point, plane: Point, weight: real, next: Point)
    requires next == Point(acc.x + plane.x * weight, acc.y + plane.y * weight, acc.z + plane.z * weight)
    ensures next == Add(acc, Scale(plane, weight))
  {
    var s := Scale(plane, weight);
    assert s == Point(plane.x * weight, plane.y * weight, plane.z * weight);
    assert Add(acc, s) == Point(acc.x + s.x, acc.y + s.y, acc.z + s.z);
  }

  /** Positive weights add up to a positive total once one has been
      added, so the final division is defined. */
  lemma {:induction false} TotalPositive(weights: seq<real>, k: nat)
    requires k <= |weights|
    requires forall i :: 0 <= i < |weights| ==> 0.0 < weights[i]
    ensures 0.0 <= Total(weights, k)
    ensures 0 < k ==> 0.0 < Total(weights, k)
  {
    if k > 0 {
      TotalPositive(weights, k - 1);
    }
  }

  /** The area-weighted average of the triangles' planes. */
  function AveragePlane(pts: seq<CtxPoint>, sqrt: real -> real): Calibration
    requires IsSqrt(sqrt)
    requires 3 <= |pts| && Triangles(pts)
  {
    var planes, weights := Planes(pts, sqrt), Weights(pts, sqrt);
    var w := WeightedSum(planes, weights, |pts| / 3);
    var total := Total(weights, |pts| / 3);
    TotalPositive(weights, |pts| / 3);
    Calibration(w.x / total, w.y / total, w.z / total)
  }

  /** Planes that all face +x, with non-negative weights, sum to a vector
      that faces +x. */
  lemma {:induction false} WeightedSumFacesPositiveX(planes: seq<Point>, weights: seq<real>, k: nat)
    requires k <= |planes| && k <= |weights|
    requires forall i :: 0 <= i < |planes| ==> 0.0 <= planes[i].x
    requires forall i :: 0 <= i < |weights| ==> 0.0 <= weights[i]
    ensures 0.0 <= WeightedSum(planes, weights, k).x
  {
    if k > 0 {
      WeightedSumFacesPositiveX(planes, weights, k - 1);
      MulNonNegative(planes[k - 1].x, weights[k - 1], planes[k - 1].x * weights[k - 1]);
    }
  }

  /** Like every triangle's plane, the averaged plane has a non-negative
      `planeA`. */
  lemma AverageFacesPositiveX(pts: seq<CtxPoint>, sqrt: real -> real)
    requires IsSqrt(sqrt)
    requires 3 <= |pts| && Triangles(pts)
    ensures 0.0 <= AveragePlane(pts, sqrt).planeA
  {
    var planes, weights := Planes(pts, sqrt), Weights(pts, sqrt);
    var w := WeightedSum(planes, weights, |pts| / 3);
    var total := Total(weights, |pts| / 3);
    WeightedSumFacesPositiveX(planes, weights, |pts| / 3);
    TotalPositive(weights, |pts| / 3);
    DivNonNegative(w.x, total, w.x / total);
  }

  /** When every plane is the same p, the weighted sum is p scaled by the
      total weight. */
  lemma {:induction false} WeightedSumOfCommon(planes: seq<Point>, weights: seq<real>, k: nat, p: Point)
    requires k <= |planes| && k <= |weights|
    requires forall i :: 0 <= i < |planes| ==> planes[i] == p
    ensures WeightedSum(planes, weights, k) == Scale(p, Total(weights, k))
  {
    if k > 0 {
      WeightedSumOfCommon(planes, weights, k - 1, p);
      ScaleSum(p, Total(weights, k - 1), weights[k - 1]);
    }
  }

  lemma ScaleSum(p: Point, a: real, b: real)
    ensures Add(Scale(p, a), Scale(p, b)) == Scale(p, a + b)
  {
    Distribute(p.x, a, b);
    Distribute(p.y, a, b);
    Distribute(p.z, a, b);
  }

  /** Averaging is faithful: triangles that all lie in one plane produce
      that plane. */
  lemma CommonPlane(pts: seq<CtxPoint>, sqrt: real -> real, p: Point)
    requires IsSqrt(sqrt)
    requires 3 <= |pts| && Triangles(pts)
    requires forall i: nat :: i < |pts| / 3 ==> TrianglePlane(pts, i, sqrt) == p
    ensures AveragePlane(pts, sqrt) == Calibration(p.x, p.y, p.z)
  {
    var planes, weights := Planes(pts, sqrt), Weights(pts, sqrt);
    var total := Total(weights, |pts| / 3);
    WeightedSumOfCommon(planes, weights, |pts| / 3, p);
    TotalPositive(weights, |pts| / 3);
    ScaleCancels(p, total);
  }

  lemma ScaleCancels(p: Point, b: real)
    requires b != 0.0
    ensures Scale(p, b).x / b == p.x && Scale(p, b).y / b == p.y && Scale(p, b).z / b == p.z
  {
    Cancel(p.x, b);
    Cancel(p.y, b);
    Cancel(p.z, b);
  }

  lemma Cancel(a: real, b: real)
    requires b != 0.0
    ensures a * b / b == a
  {
  }

  /** `finalizeCalibrationTrian`: fewer than three live entries are refused
      with `E_NOT_ENOUGH_CALIBRATION_POINTS` and the calibration is left as
      it was; otherwise the result is the area-weighted average of the
      triangles' planes. */
  method FinalizeCalibrationTrian(ctx: CalibrationContext, cal: Calibration, sqrt: real -> real)
    returns (status: ErrorCode, result: Calibration)
    requires ctx.Valid() && IsSqrt(sqrt)
    requires Triangles(Live(ctx))
    ensures status == Success || status == NotEnoughCalibrationPoints
    ensures status == NotEnoughCalibrationPoints <==> ctx.pointCount < 3
    ensures status == NotEnoughCalibrationPoints ==> result == cal
    ensures status == Success ==> result == AveragePlane(Live(ctx), sqrt)
  {
    var n := ctx.pointCount;
    var ofs1, ofs2, ofs3 := 0, n / 3, n / 3 * 2;
    OffsetsDistinct(n);
    if ofs1 == ofs2 || ofs2 == ofs3 || ofs3 == ofs1 {
      return NotEnoughCalibrationPoints, cal;
    }
    var accum, planeCount := Accumulate(ctx, sqrt);
    TotalPositive(Weights(Live(ctx), sqrt), n / 3);
    result := Calibration(accum.x / planeCount, accum.y / planeCount, accum.z / planeCount);
    status := Success;
  }

  /** The loop of `finalizeCalibrationTrian`: it walks the three streams
      side by side until the first of them ends, adding each triangle's
      plane scaled by its area to `accum` and the area to `planeCount`. */
  method Accumulate(ctx: CalibrationContext, sqrt: real -> real)
    returns (accum: Point, planeCount: real)
    requires ctx.Valid() && IsSqrt(sqrt)
    requires Triangles(Live(ctx))
    ensures accum == WeightedSum(Planes(Live(ctx), sqrt), Weights(Live(ctx), sqrt), ctx.pointCount / 3)
    ensures planeCount == Total(Weights(Live(ctx), sqrt), ctx.pointCount / 3)
  {
    ghost var planes, weights := Planes(Live(ctx), sqrt), Weights(Live(ctx), sqrt);
    var n := ctx.pointCount;
    var ofs2, ofs3 := n / 3, n / 3 * 2;
    var idx1, idx2, idx3 := 0, ofs2, ofs3;
    accum := Origin;
    planeCount := 0.0;
    while idx1 < ofs2 && idx2 < ofs3 && idx3 < n
      invariant 0 <= idx1 <= ofs2
      invariant idx2 == ofs2 + idx1 && idx3 == ofs3 + idx1
      invariant accum == WeightedSum(planes, weights, idx1)
      invariant planeCount == Total(weights, idx1)
      decreases ofs2 - idx1
    {
      accum, planeCount := Step(ctx, idx1, sqrt, accum, planeCount);
      idx1, idx2, idx3 := idx1 + 1, idx2 + 1, idx3 + 1;
    }
    LoopGuard(n, idx1);
  }

  /** One pass of that loop: the triangle at `k` in each stream, its plane
      weighted by its area added to the running sums. */
  method Step(ctx: CalibrationContext, k: nat, sqrt: real -> real, accum: Point, planeCount: real)
    returns (accum': Point, planeCount': real)
    requires ctx.Valid() && IsSqrt(sqrt)
    requires Triangles(Live(ctx)) && k < ctx.pointCount / 3
    requires accum == WeightedSum(Planes(Live(ctx), sqrt), Weights(Live(ctx), sqrt), k)
    requires planeCount == Total(Weights(Live(ctx), sqrt), k)
    ensures accum' == WeightedSum(Planes(Live(ctx), sqrt), Weights(Live(ctx), sqrt), k + 1)
    ensures planeCount' == Total(Weights(Live(ctx), sqrt), k + 1)
  {
    var plane, weight := Triangle(ctx, k, sqrt);
    accum' := Point(accum.x + plane.x * weight, accum.y + plane.y * weight,
                    accum.z + plane.z * weight);
    AccumStep(Planes(Live(ctx), sqrt), Weights(Live(ctx), sqrt), k, accum, plane, weight, accum');
    planeCount' := planeCount + weight;
  }

  /** The k-th triangle read from the context: one entry of each stream,
      its plane and its area. */
  method Triangle(ctx: CalibrationContext, k: nat, sqrt: real -> real)
    returns (plane: Point, weight: real)
    requires ctx.Valid() && IsSqrt(sqrt)
    requires Triangles(Live(ctx)) && k < ctx.pointCount / 3
    ensures plane == TrianglePlane(Live(ctx), k, sqrt)
    ensures weight == TriangleWeight(Live(ctx), k, sqrt)
  {
    var pts := Live(ctx);
    var n := ctx.pointCount;
    StreamBounds(n, k);
    var p1 := ToPoint(ctx.points[k].sensorData);
    var p2 := ToPoint(ctx.points[n / 3 + k].sensorData);
    var p3 := ToPoint(ctx.points[n / 3 * 2 + k].sensorData);
    assert p1 == Corner1(pts, k) && p2 == Corner2(pts, k) && p3 == Corner3(pts, k);
    plane := PlaneFromThreePoints(p1, p2, p3, sqrt);
    weight := RectangleArea(p1, p2, p3, sqrt);
  }
}
