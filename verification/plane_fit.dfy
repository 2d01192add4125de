/** The plane equation, the point-to-plane distance and the quality figure
    of compaxx.c: `normalToCartesian`, `ptPlaneDistance`, `rmse`,
    `vecLength`, `meanLength` and `finalizeCalibration`. */
module PlaneFit {
  import opened RealMath
  import opened Vectors
  import opened Context
  import opened Moments
  import opened PlaneNormal

  /** The `d` of `normalToCartesian`: the offset that puts pt on the plane
      with the given normal. */
  function RawOffset(normal: Point, pt: Point): real {
    -Dot(normal, pt)
  }

  /** The length of (a, b, c, d) that `normalToCartesian` divides by. */
  function PlaneLength(normal: Point, pt: Point, sqrt: real -> real): (r: real)
    requires IsSqrt(sqrt)
    requires normal != Origin
    ensures 0.0 < r
    ensures r * r == Dot(normal, normal) + Sq(RawOffset(normal, pt))
  {
    DotSelf(normal);
    SqrtPositive(sqrt, Dot(normal, normal) + Sq(RawOffset(normal, pt)));
    sqrt(Dot(normal, normal) + Sq(RawOffset(normal, pt)))
  }

  /** `normalToCartesian`: the coefficients (A, B, C) of the plane through
      pt with the given normal, scaled so that (A, B, C, D) is a unit
      vector. They point the same way as the normal. */
  function NormalToCartesian(normal: Point, pt: Point, sqrt: real -> real): (r: Point)
    requires IsSqrt(sqrt)
    requires normal != Origin
    ensures PositiveMultiple(r, normal)
  {
    var len := PlaneLength(normal, pt, sqrt);
    DivideByPositive(normal, len);
    Point(normal.x / len, normal.y / len, normal.z / len)
  }

  /** The coefficient D that the C code leaves implicit: d / length. */
  function ImplicitOffset(normal: Point, pt: Point, sqrt: real -> real): real
    requires IsSqrt(sqrt)
    requires normal != Origin
  {
    RawOffset(normal, pt) / PlaneLength(normal, pt, sqrt)
  }

  /** The plane coefficients are the normal and d, both scaled by the
      reciprocal of the length. */
  lemma ScaledPlane(normal: Point, pt: Point, sqrt: real -> real)
    requires IsSqrt(sqrt)
    requires normal != Origin
    ensures NormalToCartesian(normal, pt, sqrt) == Scale(normal, 1.0 / PlaneLength(normal, pt, sqrt))
    ensures ImplicitOffset(normal, pt, sqrt) == RawOffset(normal, pt) * (1.0 / PlaneLength(normal, pt, sqrt))
  {
    DivideByPositive(normal, PlaneLength(normal, pt, sqrt));
    DivIsMulReciprocal(RawOffset(normal, pt), PlaneLength(normal, pt, sqrt));
  }

  /** Scaling the normal and d by the same factor keeps pt on the plane. */
  lemma ScaledPlaneContains(normal: Point, pt: Point, len: real)
    requires 0.0 < len
    ensures Dot(Scale(normal, 1.0 / len), pt) + RawOffset(normal, pt) * (1.0 / len) == 0.0
  {
    DotScale(normal, pt, 1.0 / len);
  }

  /** Dividing (normal, d) by its length gives a unit 4-vector. */
  lemma ScaledPlaneUnit(normal: Point, pt: Point, len: real)
    requires 0.0 < len
    requires len * len == Dot(normal, normal) + Sq(RawOffset(normal, pt))
    ensures Dot(Scale(normal, 1.0 / len), Scale(normal, 1.0 / len))
            + Sq(RawOffset(normal, pt) * (1.0 / len)) == 1.0
  {
    DotScaleSelf(normal, 1.0 / len);
    ReciprocalOfRoot(Dot(normal, normal) + Sq(RawOffset(normal, pt)), len, 1.0 / len);
  }

  /** The plane (A, B, C, D) of `normalToCartesian` passes through pt and is
      a unit 4-vector, so A² + B² + C² <= 1. */
  lemma PlaneThroughPoint(normal: Point, pt: Point, sqrt: real -> real)
    requires IsSqrt(sqrt)
    requires normal != Origin
    ensures Dot(NormalToCartesian(normal, pt, sqrt), pt) + ImplicitOffset(normal, pt, sqrt) == 0.0
    ensures Dot(NormalToCartesian(normal, pt, sqrt), NormalToCartesian(normal, pt, sqrt))
            + Sq(ImplicitOffset(normal, pt, sqrt)) == 1.0
    ensures Dot(NormalToCartesian(normal, pt, sqrt), NormalToCartesian(normal, pt, sqrt)) <= 1.0
  {
    ScaledPlane(normal, pt, sqrt);
    ScaledPlaneContains(normal, pt, PlaneLength(normal, pt, sqrt));
    ScaledPlaneUnit(normal, pt, PlaneLength(normal, pt, sqrt));
  }

  /** `ptPlaneDistance`: |A x + B y + C z| / |(A, B, C)|. The C code also
      computes a `planeD` but does not use it, so this is the distance to
      the parallel plane through the origin. It vanishes exactly on that
      plane. */
  function PtPlaneDistance(pt: SensorData, plane: Calibration, sqrt: real -> real): (r: real)
    requires IsSqrt(sqrt)
    requires plane.Normal() != Origin
    ensures 0.0 <= r
    ensures r == 0.0 <==> Dot(plane.Normal(), ToPoint(pt)) == 0.0
  {
    DotSelf(plane.Normal());
    SqrtPositive(sqrt, Dot(plane.Normal(), plane.Normal()));
    DivNonNegative(Abs(Dot(plane.Normal(), ToPoint(pt))), sqrt(Dot(plane.Normal(), plane.Normal())),
                   Abs(Dot(plane.Normal(), ToPoint(pt))) / sqrt(Dot(plane.Normal(), plane.Normal())));
    DivZero(Abs(Dot(plane.Normal(), ToPoint(pt))), sqrt(Dot(plane.Normal(), plane.Normal())),
            Abs(Dot(plane.Normal(), ToPoint(pt))) / sqrt(Dot(plane.Normal(), plane.Normal())));
    Abs(Dot(plane.Normal(), ToPoint(pt))) / sqrt(Dot(plane.Normal(), plane.Normal()))
  }

  lemma QuotientSquare(a: real, s: real, nn: real, q: real)
    requires 0.0 < s && s * s == nn
    requires q == Abs(a) / s
    ensures q * q * nn == Sq(a)
  {
    DivMul(Abs(a), s, q);
    assert q * q * nn == (q * s) * (q * s);
  }

  /** The distance is the usual point-to-plane distance for the plane
      A x + B y + C z = 0: its square times |(A, B, C)|² is (A x + B y + C z)². */
  lemma DistanceSquared(pt: SensorData, plane: Calibration, sqrt: real -> real)
    requires IsSqrt(sqrt)
    requires plane.Normal() != Origin
    ensures PtPlaneDistance(pt, plane, sqrt) * PtPlaneDistance(pt, plane, sqrt)
            * Dot(plane.Normal(), plane.Normal()) == Sq(Dot(plane.Normal(), ToPoint(pt)))
  {
    DotSelf(plane.Normal());
    SqrtPositive(sqrt, Dot(plane.Normal(), plane.Normal()));
    QuotientSquare(Dot(plane.Normal(), ToPoint(pt)), sqrt(Dot(plane.Normal(), plane.Normal())),
                   Dot(plane.Normal(), plane.Normal()), PtPlaneDistance(pt, plane, sqrt));
  }

  /** The squared distance `dist * dist` that `rmse` accumulates. */
  function SqDist(pt: SensorData, plane: Calibration, sqrt: real -> real): (r: real)
    requires IsSqrt(sqrt)
    requires plane.Normal() != Origin
    ensures 0.0 <= r
    ensures r == 0.0 <==> Dot(plane.Normal(), ToPoint(pt)) == 0.0
  {
    SquareNonNegative(PtPlaneDistance(pt, plane, sqrt),
                      PtPlaneDistance(pt, plane, sqrt) * PtPlaneDistance(pt, plane, sqrt));
    SquareZero(PtPlaneDistance(pt, plane, sqrt),
               PtPlaneDistance(pt, plane, sqrt) * PtPlaneDistance(pt, plane, sqrt));
    PtPlaneDistance(pt, plane, sqrt) * PtPlaneDistance(pt, plane, sqrt)
  }

  /** The sum of the squared distances of the entries, accumulated first to
      last as `rmse` does. */
  function SumSqDist(pts: seq<CtxPoint>, plane: Calibration, sqrt: real -> real): (r: real)
    requires IsSqrt(sqrt)
    requires plane.Normal() != Origin
    ensures 0.0 <= r
    decreases |pts|
  {
    if |pts| == 0 then 0.0
    else SumSqDist(pts[..|pts| - 1], plane, sqrt) + SqDist(pts[|pts| - 1].sensorData, plane, sqrt)
  }

  /** Every entry lies on the plane A x + B y + C z = 0. */
  ghost predicate AllOnPlane(pts: seq<CtxPoint>, plane: Calibration) {
    forall i :: 0 <= i < |pts| ==> Dot(plane.Normal(), ToPoint(pts[i].sensorData)) == 0.0
  }

  /** The squared distances sum to zero exactly when every entry lies on the
      plane. */
  lemma {:induction false} SumSqDistZero(pts: seq<CtxPoint>, plane: Calibration, sqrt: real -> real)
    requires IsSqrt(sqrt)
    requires plane.Normal() != Origin
    ensures SumSqDist(pts, plane, sqrt) == 0.0 <==> AllOnPlane(pts, plane)
    decreases |pts|
  {
    if |pts| > 0 {
      var init := pts[..|pts| - 1];
      var last := pts[|pts| - 1].sensorData;
      SumSqDistZero(init, plane, sqrt);
      if SumSqDist(pts, plane, sqrt) == 0.0 {
        forall i | 0 <= i < |pts|
          ensures Dot(plane.Normal(), ToPoint(pts[i].sensorData)) == 0.0
        {
          if i < |pts| - 1 {
            assert init[i] == pts[i];
          }
        }
      }
      if AllOnPlane(pts, plane) {
        forall i | 0 <= i < |init|
          ensures Dot(plane.Normal(), ToPoint(init[i].sensorData)) == 0.0
        {
          assert init[i] == pts[i];
        }
        assert SqDist(last, plane, sqrt) == 0.0;
      }
    }
  }

  /** The root-mean-square distance `rmse` computes. It is zero exactly when
      every entry lies on the plane A x + B y + C z = 0 through the
      origin. */
  function RmseOf(pts: seq<CtxPoint>, plane: Calibration, sqrt: real -> real): (r: real)
    requires IsSqrt(sqrt)
    requires plane.Normal() != Origin
    requires |pts| > 0
    ensures 0.0 <= r
    ensures r == 0.0 <==> AllOnPlane(pts, plane)
  {
    SumSqDistZero(pts, plane, sqrt);
    DivNonNegative(SumSqDist(pts, plane, sqrt), |pts| as real, SumSqDist(pts, plane, sqrt) / (|pts| as real));
    DivZero(SumSqDist(pts, plane, sqrt), |pts| as real, SumSqDist(pts, plane, sqrt) / (|pts| as real));
    SqrtZero(sqrt, SumSqDist(pts, plane, sqrt) / (|pts| as real));
    sqrt(SumSqDist(pts, plane, sqrt) / (|pts| as real))
  }

  /** `rmse`: the root-mean-square distance of the live entries from the
      plane. The C code divides by zero on an empty context; the model
      requires an entry. */
  method Rmse(ctx: CalibrationContext, cal: Calibration, sqrt: real -> real) returns (r: real)
    requires ctx.Valid() && ctx.pointCount > 0
    requires IsSqrt(sqrt)
    requires cal.Normal() != Origin
    ensures r == RmseOf(Live(ctx), cal, sqrt)
  {
    ghost var pts := Live(ctx);
    var mse := 0.0;
    var i := 0;
    while i < ctx.pointCount
      invariant 0 <= i <= ctx.pointCount
      invariant mse == SumSqDist(pts[..i], cal, sqrt)
    {
      var dist := PtPlaneDistance(ctx.points[i].sensorData, cal, sqrt);
      DistSquared(ctx.points[i].sensorData, cal, sqrt, dist);
      SumSqDistStep(pts, i, cal, sqrt, mse, dist * dist);
      mse := mse + dist * dist;
      i := i + 1;
    }
    assert pts[..ctx.pointCount] == pts;
    r := sqrt(mse / (ctx.pointCount as real));
  }

  /** One step of the `rmse` loop: adding the next squared distance
      extends the sum by one entry. */
  lemma SumSqDistStep(pts: seq<CtxPoint>, i: nat, plane: Calibration, sqrt: real -> real,
                      mse: real, sq: real)
    requires IsSqrt(sqrt) && plane.Normal() != Origin
    requires i < |pts|
    requires mse == SumSqDist(pts[..i], plane, sqrt)
    requires sq == SqDist(pts[i].sensorData, plane, sqrt)
    ensures mse + sq == SumSqDist(pts[..i + 1], plane, sqrt)
  {
    assert pts[..i + 1][..i] == pts[..i];
  }

  /** The C code squares the distance by multiplying it with itself. */
  lemma DistSquared(pt: SensorData, plane: Calibration, sqrt: real -> real, dist: real)
    requires IsSqrt(sqrt) && plane.Normal() != Origin
    requires dist == PtPlaneDistance(pt, plane, sqrt)
    ensures dist * dist == SqDist(pt, plane, sqrt)
  {
    MulEqual(dist, PtPlaneDistance(pt, plane, sqrt), dist);
    MulEqual(dist, PtPlaneDistance(pt, plane, sqrt), PtPlaneDistance(pt, plane, sqrt));
  }

  /** `vecLength`: the length of a reading. Its square is the squared
      length, and it vanishes only for the zero reading. */
  function VecLength(s: SensorData, sqrt: real -> real): (r: real)
    requires IsSqrt(sqrt)
    ensures 0.0 <= r
    ensures r * r == Dot(ToPoint(s), ToPoint(s))
    ensures r == 0.0 <==> ToPoint(s) == Origin
  {
    DotSelf(ToPoint(s));
    SqrtZero(sqrt, Sq(ToPoint(s).x) + Sq(ToPoint(s).y) + Sq(ToPoint(s).z));
    sqrt(Sq(ToPoint(s).x) + Sq(ToPoint(s).y) + Sq(ToPoint(s).z))
  }

  /** The sum of the lengths of the entries, accumulated first to last as
      `meanLength` does. */
  function TotalLength(pts: seq<CtxPoint>, sqrt: real -> real): (r: real)
    requires IsSqrt(sqrt)
    ensures 0.0 <= r
    decreases |pts|
  {
    if |pts| == 0 then 0.0
    else TotalLength(pts[..|pts| - 1], sqrt) + VecLength(pts[|pts| - 1].sensorData, sqrt)
  }

  /** Some entry is a nonzero reading. */
  ghost predicate SomeNonZero(pts: seq<CtxPoint>) {
    exists i :: 0 <= i < |pts| && ToPoint(pts[i].sensorData) != Origin
  }

  /** The total length is positive exactly when some reading is nonzero. */
  lemma {:induction false} TotalLengthPositive(pts: seq<CtxPoint>, sqrt: real -> real)
    requires IsSqrt(sqrt)
    ensures TotalLength(pts, sqrt) > 0.0 <==> SomeNonZero(pts)
    decreases |pts|
  {
    if |pts| > 0 {
      var init := pts[..|pts| - 1];
      TotalLengthPositive(init, sqrt);
      if SomeNonZero(init) {
        var i :| 0 <= i < |init| && ToPoint(init[i].sensorData) != Origin;
        assert init[i] == pts[i];
      }
      if SomeNonZero(pts) {
        var i :| 0 <= i < |pts| && ToPoint(pts[i].sensorData) != Origin;
        if i < |pts| - 1 {
          assert init[i] == pts[i];
        }
      }
    }
  }

  /** The mean length `meanLength` computes; positive exactly when some
      reading is nonzero. */
  function MeanLengthOf(pts: seq<CtxPoint>, sqrt: real -> real): (r: real)
    requires IsSqrt(sqrt)
    requires |pts| > 0
    ensures 0.0 <= r
    ensures r > 0.0 <==> SomeNonZero(pts)
  {
    TotalLengthPositive(pts, sqrt);
    DivNonNegative(TotalLength(pts, sqrt), |pts| as real, TotalLength(pts, sqrt) / (|pts| as real));
    DivZero(TotalLength(pts, sqrt), |pts| as real, TotalLength(pts, sqrt) / (|pts| as real));
    TotalLength(pts, sqrt) / (|pts| as real)
  }

  /** `meanLength`: the mean length of the live readings. The C code divides
      by zero on an empty context; the model requires an entry. */
  method MeanLength(ctx: CalibrationContext, sqrt: real -> real) returns (r: real)
    requires ctx.Valid() && ctx.pointCount > 0
    requires IsSqrt(sqrt)
    ensures r == MeanLengthOf(Live(ctx), sqrt)
  {
    ghost var pts := Live(ctx);
    var totalLength := 0.0;
    var i := 0;
    while i < ctx.pointCount
      invariant 0 <= i <= ctx.pointCount
      invariant totalLength == TotalLength(pts[..i], sqrt)
    {
      assert pts[..i + 1][..i] == pts[..i];
      assert pts[..i + 1][i] == ctx.points[i];
      totalLength := totalLength + VecLength(ctx.points[i].sensorData, sqrt);
      i := i + 1;
    }
    assert pts[..ctx.pointCount] == pts;
    r := totalLength / (ctx.pointCount as real);
  }

  /** The quality figure of `finalizeCalibration`: 100 less the rms distance
      as a percentage of the mean length. It is at most 100, and exactly 100
      when every entry lies on the plane A x + B y + C z = 0 through the
      origin, which is not the fitted plane unless that passes through the
      origin. */
  function QualityOf(pts: seq<CtxPoint>, plane: Calibration, sqrt: real -> real): (r: real)
    requires IsSqrt(sqrt)
    requires plane.Normal() != Origin
    requires |pts| > 0 && SomeNonZero(pts)
    ensures r <= 100.0
    ensures r == 100.0 <==> AllOnPlane(pts, plane)
  {
    DivNonNegative(RmseOf(pts, plane, sqrt), MeanLengthOf(pts, sqrt),
                   RmseOf(pts, plane, sqrt) / MeanLengthOf(pts, sqrt));
    DivZero(RmseOf(pts, plane, sqrt), MeanLengthOf(pts, sqrt),
            RmseOf(pts, plane, sqrt) / MeanLengthOf(pts, sqrt));
    100.0 - RmseOf(pts, plane, sqrt) / MeanLengthOf(pts, sqrt) * 100.0
  }

  /** The centroid of the entries, as `finalizeCalibration` computes it. */
  function Centre(pts: seq<CtxPoint>): Point
    requires |pts| > 0
  {
    Mean(Positions(pts))
  }

  /** The covariance of the entries about their centroid. */
  function Spread(pts: seq<CtxPoint>): CovarianceMatrix
    requires |pts| > 0
  {
    CovarianceOf(Positions(pts), Centre(pts))
  }

  /** n is the normal (A, B, C) of a plane through c whose direction is
      that of w: a positive multiple of w, scaled so that together with
      the D that puts c on the plane, (A, B, C, D) is a unit vector. */
  ghost predicate UnitPlaneAlong(n: Point, w: Point, c: Point) {
    PositiveMultiple(n, w) && Dot(n, n) + Sq(Dot(n, c)) == 1.0
  }

  /** `cal` is the plane `finalizeCalibration` fits to the readings pts:
      its normal follows the weighted direction of their covariance and the
      plane passes through their centroid. */
  ghost predicate FitsReadings(pts: seq<CtxPoint>, cal: Calibration)
    requires |pts| > 0
  {
    UnitPlaneAlong(cal.Normal(), WeightedSum(Spread(pts)), Centre(pts))
  }

  /** `normalToCartesian` applied to a unit normal along w gives such a
      plane. */
  lemma CartesianAlong(normal: Point, w: Point, c: Point, sqrt: real -> real, cal: Calibration)
    requires IsSqrt(sqrt)
    requires Dot(normal, normal) == 1.0 && PositiveMultiple(normal, w)
    requires cal == FromNormal(NormalToCartesian(normal, c, sqrt))
    ensures UnitPlaneAlong(cal.Normal(), w, c)
  {
    UnitNonZero(normal);
    PlaneThroughPoint(normal, c, sqrt);
    PositiveMultipleTrans(cal.Normal(), normal, w);
    SqNegate(Dot(cal.Normal(), c), ImplicitOffset(normal, c, sqrt));
  }

  /** Two planes along the same direction through the same point, both
      scaled to a unit (A, B, C, D), are the same plane. */
  lemma UnitPlaneAlongUnique(a: Point, b: Point, w: Point, c: Point)
    requires UnitPlaneAlong(a, w, c) && UnitPlaneAlong(b, w, c)
    ensures a == b
  {
    var ka :| 0.0 < ka && a == Scale(w, ka);
    var kb :| 0.0 < kb && b == Scale(w, kb);
    var norm := Dot(w, w) + Sq(Dot(w, c));
    ScaledUnitPlane(a, w, c, ka, norm);
    ScaledUnitPlane(b, w, c, kb, norm);
    PositiveScaleUnique(ka, kb, norm);
  }

  /** The (A, B, C, D) norm of the plane along k w is k² times that of the
      plane along w. */
  lemma ScaledUnitPlane(a: Point, w: Point, c: Point, k: real, norm: real)
    requires a == Scale(w, k)
    requires Dot(a, a) + Sq(Dot(a, c)) == 1.0
    requires norm == Dot(w, w) + Sq(Dot(w, c))
    ensures k * k * norm == 1.0
  {
    DotScaleSelf(w, k);
    DotScale(w, c, k);
    SqScale(k, Dot(w, c));
    Distribute(k * k, Dot(w, w), Sq(Dot(w, c)));
  }

  /** The fitted plane is determined by the readings. */
  lemma FitsReadingsUnique(pts: seq<CtxPoint>, a: Calibration, b: Calibration)
    requires |pts| > 0
    requires FitsReadings(pts, a) && FitsReadings(pts, b)
    ensures a == b
  {
    UnitPlaneAlongUnique(a.Normal(), b.Normal(), WeightedSum(Spread(pts)), Centre(pts));
  }

  lemma {:induction false} SumOfOrigins(ps: seq<Point>)
    requires forall i :: 0 <= i < |ps| ==> ps[i] == Origin
    ensures Sum(ps) == Origin
    decreases |ps|
  {
    if |ps| > 0 {
      var init := ps[..|ps| - 1];
      forall i | 0 <= i < |init|
        ensures init[i] == Origin
      {
        assert init[i] == ps[i];
      }
      SumOfOrigins(init);
    }
  }

  /** Readings that are all zero have their centroid at the origin. */
  lemma ZeroCentre(ps: seq<Point>, c: Point)
    requires |ps| > 0
    requires forall i :: 0 <= i < |ps| ==> ps[i] == Origin
    requires c == Mean(ps)
    ensures c == Origin
  {
    SumOfOrigins(ps);
    CentreOfOriginSum(ps, c);
  }

  lemma CentreOfOriginSum(ps: seq<Point>, c: Point)
    requires |ps| > 0 && Sum(ps) == Origin
    requires Scale(c, |ps| as real) == Sum(ps)
    ensures c == Origin
  {
    ScaledToOrigin(c, |ps| as real, Sum(ps));
  }

  /** The outer-product sum adds the last deviation to the sum of the
      others. */
  lemma SumOuterLast(ps: seq<Point>, c: Point)
    requires |ps| > 0
    ensures SumOuter(ps, c) == AddM(SumOuter(ps[..|ps| - 1], c), Outer(Sub(ps[|ps| - 1], c)))
  {
  }

  /** Adding a zero reading to a zero sum keeps it zero. */
  lemma OuterOfOrigin(a: CovarianceMatrix, d: Point)
    requires a == Zero && d == Origin
    ensures AddM(a, Outer(Sub(d, Origin))) == Zero
  {
  }

  lemma {:induction false} SumOuterOfOrigins(ps: seq<Point>)
    requires forall i :: 0 <= i < |ps| ==> ps[i] == Origin
    ensures SumOuter(ps, Origin) == Zero
    decreases |ps|
  {
    if |ps| > 0 {
      var init := ps[..|ps| - 1];
      forall i | 0 <= i < |init|
        ensures init[i] == Origin
      {
        assert init[i] == ps[i];
      }
      SumOuterOfOrigins(init);
      SumOuterLast(ps, Origin);
      OuterOfOrigin(SumOuter(init, Origin), ps[|ps| - 1]);
    }
  }

  /** Dividing the zero matrix leaves it zero. */
  lemma DivMOfZero(a: CovarianceMatrix, k: real)
    requires a == Zero && k != 0.0
    ensures DivM(a, k) == Zero
  {
  }

  /** Readings that are all zero have no spread about the origin. */
  lemma ZeroSpreadAtOrigin(ps: seq<Point>, m: CovarianceMatrix)
    requires |ps| > 0
    requires forall i :: 0 <= i < |ps| ==> ps[i] == Origin
    requires m == CovarianceOf(ps, Origin)
    ensures m == Zero
  {
    SumOuterOfOrigins(ps);
    DivMOfZero(SumOuter(ps, Origin), |ps| as real);
  }

  /** A spread with a direction needs a nonzero reading, which keeps the
      mean length of `finalizeCalibration` positive. */
  lemma SpreadNeedsReading(pts: seq<CtxPoint>, c: Point, m: CovarianceMatrix)
    requires |pts| > 0
    requires c == Centre(pts) && m == Spread(pts)
    requires HasDirection(m)
    ensures SomeNonZero(pts)
  {
    if !SomeNonZero(pts) {
      var ps := Positions(pts);
      forall i | 0 <= i < |ps|
        ensures ps[i] == Origin
      {
        assert ps[i] == ToPoint(pts[i].sensorData);
      }
      ZeroCentre(ps, c);
      ZeroSpreadAtOrigin(ps, m);
      ZeroMinors(m);
      NoMinorNoDirection(m);
    }
  }

  /** Readings lying on one plane through their centroid make the
      covariance singular, and the weighted sum is then a normal of that
      plane: every reading is flat along it. */
  lemma FlatReadingsWeightedSum(ps: seq<Point>, c: Point, m: CovarianceMatrix, u: Point, w: Point)
    requires |ps| > 0 && m == CovarianceOf(ps, c) && w == WeightedSum(m)
    requires u != Origin
    requires forall i :: 0 <= i < |ps| ==> Dot(u, Sub(ps[i], c)) == 0.0
    ensures forall i :: 0 <= i < |ps| ==> Dot(w, Sub(ps[i], c)) == 0.0
  {
    CovarianceNull(ps, c, u);
    NullVectorSingular(m, u);
    WeightedSumNull(m);
    assert QuadForm(m, w) == Dot(w, Origin);
    CovarianceFlatDirection(ps, c, w);
  }

  /** A positive multiple of a direction along which every reading is flat
      is one too. */
  lemma FlatAlongMultiple(ps: seq<Point>, c: Point, w: Point, n: Point)
    requires PositiveMultiple(n, w)
    requires forall i :: 0 <= i < |ps| ==> Dot(w, Sub(ps[i], c)) == 0.0
    ensures forall i :: 0 <= i < |ps| ==> Dot(n, Sub(ps[i], c)) == 0.0
  {
    var k :| 0.0 < k && n == Scale(w, k);
    forall i | 0 <= i < |ps|
      ensures Dot(n, Sub(ps[i], c)) == 0.0
    {
      DotScale(w, Sub(ps[i], c), k);
    }
  }

  /** When the readings all lie on one plane through their centroid, the
      fitted plane contains every one of them. */
  lemma CoplanarReadingsFit(pts: seq<CtxPoint>, cal: Calibration, u: Point)
    requires |pts| > 0 && FitsReadings(pts, cal)
    requires u != Origin
    requires forall i :: 0 <= i < |pts| ==> Dot(u, Sub(ToPoint(pts[i].sensorData), Centre(pts))) == 0.0
    ensures forall i :: 0 <= i < |pts| ==> Dot(cal.Normal(), Sub(ToPoint(pts[i].sensorData), Centre(pts))) == 0.0
  {
    var ps := Positions(pts);
    FlatReadingsWeightedSum(ps, Centre(pts), Spread(pts), u, WeightedSum(Spread(pts)));
    FlatAlongMultiple(ps, Centre(pts), WeightedSum(Spread(pts)), cal.Normal());
  }

  /** The plane-fitting half of `finalizeCalibration`: centroid,
      covariance, weighted direction and plane through the centroid. */
  method FitPlane(pts: seq<CtxPoint>, sqrt: real -> real) returns (cal: Calibration)
    requires |pts| > 0
    requires IsSqrt(sqrt)
    requires HasDirection(Spread(pts))
    ensures FitsReadings(pts, cal)
    ensures cal.Normal() != Origin
    ensures SomeNonZero(pts)
  {
    var centroidPt := Centroid(pts);
    var covar := Covariance(pts, centroidPt);
    var normal := WeightedDir(covar, sqrt);
    UnitNonZero(normal);
    var cartesian := NormalToCartesian(normal, centroidPt, sqrt);
    cal := Calibration(cartesian.x, cartesian.y, cartesian.z);
    PositiveMultipleNonZero(cartesian, normal);
    CartesianAlong(normal, WeightedSum(covar), centroidPt, sqrt, cal);
    SpreadNeedsReading(pts, centroidPt, covar);
  }

  /** The quality figure of `finalizeCalibration`: 100 - rmse / meanLength
      * 100. */
  method Quality(ctx: CalibrationContext, cal: Calibration, sqrt: real -> real) returns (q: real)
    requires ctx.Valid() && ctx.pointCount > 0
    requires IsSqrt(sqrt)
    requires cal.Normal() != Origin
    requires SomeNonZero(Live(ctx))
    ensures q == QualityOf(Live(ctx), cal, sqrt)
    ensures q <= 100.0
    ensures q == 100.0 <==> AllOnPlane(Live(ctx), cal)
  {
    var e := Rmse(ctx, cal, sqrt);
    var ml := MeanLength(ctx, sqrt);
    q := 100.0 - e / ml * 100.0;
  }

  /** `finalizeCalibration`: fits the plane to the live readings and, when
      asked, reports its quality. The C code produces no number when every
      diagonal minor of the covariance vanishes or the context is empty (it
      divides by zero); the model requires neither to happen. */
  method FinalizeCalibration(ctx: CalibrationContext, wantQuality: bool, sqrt: real -> real)
    returns (status: ErrorCode, cal: Calibration, quality: Option<real>)
    requires ctx.Valid() && ctx.pointCount > 0
    requires IsSqrt(sqrt)
    requires HasDirection(Spread(Live(ctx)))
    ensures status == Success
    ensures FitsReadings(Live(ctx), cal)
    ensures quality.Some? <==> wantQuality
    ensures SomeNonZero(Live(ctx))
    ensures quality.Some? ==> quality.value == QualityOf(Live(ctx), cal, sqrt)
    ensures quality.Some? ==> quality.value <= 100.0
    ensures quality.Some? ==> (quality.value == 100.0 <==> AllOnPlane(Live(ctx), cal))
  {
    cal := FitPlane(ctx.points[..ctx.pointCount], sqrt);
    if wantQuality {
      var q := Quality(ctx, cal, sqrt);
      quality := Some(q);
    } else {
      quality := None;
    }
    status := Success;
  }
}
