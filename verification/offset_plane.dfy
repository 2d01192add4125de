/** The plane offset that `ptPlaneDistance` leaves out.

    `finalizeCalibration` fits the plane A x + B y + C z + D = 0 through the
    centroid of the readings and keeps (A, B, C); D stays implicit.
    `ptPlaneDistance` computes a `planeD` but never uses it, so the quality
    figure measures the readings against the parallel plane
    A x + B y + C z = 0 through the origin. Readings lying exactly on a
    fitted plane that misses the origin then score below 100.

    This module exhibits that on the readings (0, 0, 1), (1, 0, 1), (0, 1, 1)
    and defines the figure with the offset of the fitted plane, for which
    readings on the fitted plane score exactly 100. */
module OffsetPlane {
  import opened RealMath
  import opened Vectors
  import opened Context
  import opened Moments
  import opened PlaneNormal
  import opened PlaneFit

  /** The offset D of the plane with normal (A, B, C) through c. */
  function OffsetThrough(plane: Calibration, c: Point): real {
    -Dot(plane.Normal(), c)
  }

  /** Every entry lies on the fitted plane: its deviation from the centroid
      is orthogonal to (A, B, C). */
  ghost predicate OnFittedPlane(pts: seq<CtxPoint>, cal: Calibration)
    requires |pts| > 0
  {
    forall i :: 0 <= i < |pts| ==> Dot(cal.Normal(), Sub(ToPoint(pts[i].sensorData), Centre(pts))) == 0.0
  }

  /** Every entry lies on the plane A x + B y + C z + D = 0. */
  ghost predicate OnOffsetPlane(pts: seq<CtxPoint>, plane: Calibration, d: real) {
    forall i :: 0 <= i < |pts| ==> Dot(plane.Normal(), ToPoint(pts[i].sensorData)) + d == 0.0
  }

  /** |A x + B y + C z + D| / |(A, B, C)|: the distance of a reading from
      the plane with offset D. It vanishes exactly on that plane. */
  function OffsetDistance(pt: SensorData, plane: Calibration, d: real, sqrt: real -> real): (r: real)
    requires IsSqrt(sqrt)
    requires plane.Normal() != Origin
    ensures 0.0 <= r
    ensures r == 0.0 <==> Dot(plane.Normal(), ToPoint(pt)) + d == 0.0
  {
    var a := Dot(plane.Normal(), ToPoint(pt)) + d;
    var norm := sqrt(Dot(plane.Normal(), plane.Normal()));
    DotSelf(plane.Normal());
    SqrtPositive(sqrt, Dot(plane.Normal(), plane.Normal()));
    DivNonNegative(Abs(a), norm, Abs(a) / norm);
    DivZero(Abs(a), norm, Abs(a) / norm);
    Abs(a) / norm
  }

  /** The squared distance times |(A, B, C)|² is (A x + B y + C z + D)². */
  lemma OffsetDistanceSquared(pt: SensorData, plane: Calibration, d: real, sqrt: real -> real)
    requires IsSqrt(sqrt)
    requires plane.Normal() != Origin
    ensures OffsetDistance(pt, plane, d, sqrt) * OffsetDistance(pt, plane, d, sqrt)
            * Dot(plane.Normal(), plane.Normal()) == Sq(Dot(plane.Normal(), ToPoint(pt)) + d)
  {
    DotSelf(plane.Normal());
    SqrtPositive(sqrt, Dot(plane.Normal(), plane.Normal()));
    QuotientSquare(Dot(plane.Normal(), ToPoint(pt)) + d, sqrt(Dot(plane.Normal(), plane.Normal())),
                   Dot(plane.Normal(), plane.Normal()), OffsetDistance(pt, plane, d, sqrt));
  }

  /** The distance `ptPlaneDistance` computes is the one with offset zero. */
  lemma AsWrittenIsOriginPlane(pt: SensorData, plane: Calibration, sqrt: real -> real)
    requires IsSqrt(sqrt)
    requires plane.Normal() != Origin
    ensures PtPlaneDistance(pt, plane, sqrt) == OffsetDistance(pt, plane, 0.0, sqrt)
  {
  }

  /** The squared offset distance. */
  function SqOffset(pt: SensorData, plane: Calibration, d: real, sqrt: real -> real): (r: real)
    requires IsSqrt(sqrt)
    requires plane.Normal() != Origin
    ensures 0.0 <= r
    ensures r == 0.0 <==> Dot(plane.Normal(), ToPoint(pt)) + d == 0.0
  {
    var dist := OffsetDistance(pt, plane, d, sqrt);
    SquareNonNegative(dist, dist * dist);
    SquareZero(dist, dist * dist);
    dist * dist
  }

  /** The sum of the squared offset distances of the entries, first to
      last. */
  function SumSqOffset(pts: seq<CtxPoint>, plane: Calibration, d: real, sqrt: real -> real): (r: real)
    requires IsSqrt(sqrt)
    requires plane.Normal() != Origin
    ensures 0.0 <= r
    decreases |pts|
  {
    if |pts| == 0 then 0.0
    else SumSqOffset(pts[..|pts| - 1], plane, d, sqrt) + SqOffset(pts[|pts| - 1].sensorData, plane, d, sqrt)
  }

  /** The squared offset distances sum to zero exactly when every entry lies
      on the plane. */
  lemma {:induction false} SumSqOffsetZero(pts: seq<CtxPoint>, plane: Calibration, d: real, sqrt: real -> real)
    requires IsSqrt(sqrt)
    requires plane.Normal() != Origin
    ensures SumSqOffset(pts, plane, d, sqrt) == 0.0 <==> OnOffsetPlane(pts, plane, d)
    decreases |pts|
  {
    if |pts| > 0 {
      var init := pts[..|pts| - 1];
      var last := pts[|pts| - 1].sensorData;
      SumSqOffsetZero(init, plane, d, sqrt);
      if SumSqOffset(pts, plane, d, sqrt) == 0.0 {
        forall i | 0 <= i < |pts|
          ensures Dot(plane.Normal(), ToPoint(pts[i].sensorData)) + d == 0.0
        {
          if i < |pts| - 1 {
            assert init[i] == pts[i];
          }
        }
      }
      if OnOffsetPlane(pts, plane, d) {
        forall i | 0 <= i < |init|
          ensures Dot(plane.Normal(), ToPoint(init[i].sensorData)) + d == 0.0
        {
          assert init[i] == pts[i];
        }
        assert SqOffset(last, plane, d, sqrt) == 0.0;
      }
    }
  }

  /** The root-mean-square offset distance; zero exactly when every entry
      lies on the plane. */
  function OffsetRmseOf(pts: seq<CtxPoint>, plane: Calibration, d: real, sqrt: real -> real): (r: real)
    requires IsSqrt(sqrt)
    requires plane.Normal() != Origin
    requires |pts| > 0
    ensures 0.0 <= r
    ensures r == 0.0 <==> OnOffsetPlane(pts, plane, d)
  {
    var s := SumSqOffset(pts, plane, d, sqrt);
    SumSqOffsetZero(pts, plane, d, sqrt);
    DivNonNegative(s, |pts| as real, s / (|pts| as real));
    DivZero(s, |pts| as real, s / (|pts| as real));
    SqrtZero(sqrt, s / (|pts| as real));
    sqrt(s / (|pts| as real))
  }

  /** The quality figure with the offset: at most 100, and exactly 100 when
      every entry lies on the plane with that offset. */
  function OffsetQualityOf(pts: seq<CtxPoint>, plane: Calibration, d: real, sqrt: real -> real): (r: real)
    requires IsSqrt(sqrt)
    requires plane.Normal() != Origin
    requires |pts| > 0 && SomeNonZero(pts)
    ensures r <= 100.0
    ensures r == 100.0 <==> OnOffsetPlane(pts, plane, d)
  {
    var e, ml := OffsetRmseOf(pts, plane, d, sqrt), MeanLengthOf(pts, sqrt);
    DivNonNegative(e, ml, e / ml);
    DivZero(e, ml, e / ml);
    100.0 - e / ml * 100.0
  }

  /** With the offset of the plane through the centroid, lying on the plane
      means lying on the fitted plane. */
  lemma OffsetThroughCentre(pts: seq<CtxPoint>, cal: Calibration)
    requires |pts| > 0
    ensures OnOffsetPlane(pts, cal, OffsetThrough(cal, Centre(pts))) <==> OnFittedPlane(pts, cal)
  {
    forall i | 0 <= i < |pts|
      ensures Dot(cal.Normal(), ToPoint(pts[i].sensorData)) + OffsetThrough(cal, Centre(pts))
              == Dot(cal.Normal(), Sub(ToPoint(pts[i].sensorData), Centre(pts)))
    {
      DotSub(cal.Normal(), ToPoint(pts[i].sensorData), Centre(pts));
    }
  }

  /** A fitted plane has a normal and comes from readings that are not all
      zero, so its quality is defined. */
  lemma FittedPlaneDefined(pts: seq<CtxPoint>, cal: Calibration)
    requires |pts| > 0 && FitsReadings(pts, cal)
    ensures cal.Normal() != Origin
    ensures SomeNonZero(pts)
  {
    var c, m := Centre(pts), Spread(pts);
    var w := WeightedSum(m);
    AlongNonZero(cal.Normal(), w, c);
    SpreadNeedsReading(pts, c, m);
  }

  /** A unit plane along w has a normal, and w is not zero. */
  lemma AlongNonZero(n: Point, w: Point, c: Point)
    requires UnitPlaneAlong(n, w, c)
    ensures n != Origin && w != Origin
  {
    var k :| 0.0 < k && n == Scale(w, k);
    DotSelf(n);
  }

  /** Readings that lie on one plane through their centroid score exactly
      100 against the fitted plane once its offset is counted. */
  lemma CoplanarQualityFull(pts: seq<CtxPoint>, cal: Calibration, u: Point, sqrt: real -> real)
    requires |pts| > 0 && IsSqrt(sqrt)
    requires FitsReadings(pts, cal)
    requires u != Origin
    requires forall i :: 0 <= i < |pts| ==> Dot(u, Sub(ToPoint(pts[i].sensorData), Centre(pts))) == 0.0
    ensures cal.Normal() != Origin && SomeNonZero(pts)
    ensures OffsetQualityOf(pts, cal, OffsetThrough(cal, Centre(pts)), sqrt) == 100.0
  {
    FittedPlaneDefined(pts, cal);
    CoplanarReadingsFit(pts, cal, u);
    OffsetThroughCentre(pts, cal);
  }

  /** A root of a square is the magnitude. */
  lemma RootOfSquare(r: real, a: real)
    requires 0.0 <= r && r * r == a * a
    ensures r == Abs(a)
  {
    if a == 0.0 {
      SquareZero(r, r * r);
    } else {
      SquarePositive(a, a * a);
      PositiveRoot(r);
      PositiveSquareUnique(r, Abs(a));
    }
  }

  lemma PositiveRoot(r: real)
    requires 0.0 <= r && r * r > 0.0
    ensures 0.0 < r
  {
  }

  /** For a plane through c scaled as `normalToCartesian` scales it, the
      `planeD` that `ptPlaneDistance` computes from (A, B, C) alone is the
      magnitude of the plane's offset: its sign is lost, so the signed
      offset has to come from the fit. */
  lemma PlaneDMagnitude(cal: Calibration, c: Point, sqrt: real -> real)
    requires IsSqrt(sqrt)
    requires Dot(cal.Normal(), cal.Normal()) + Sq(Dot(cal.Normal(), c)) == 1.0
    ensures 0.0 <= 1.0 - Sq(cal.planeA) - Sq(cal.planeB) - Sq(cal.planeC)
    ensures sqrt(1.0 - Sq(cal.planeA) - Sq(cal.planeB) - Sq(cal.planeC)) == Abs(OffsetThrough(cal, c))
  {
    UnitPlaneRadicand(cal, c);
    SqrtOfSquare(sqrt, 1.0 - Sq(cal.planeA) - Sq(cal.planeB) - Sq(cal.planeC), OffsetThrough(cal, c));
  }

  /** The radicand of `planeD` is the square of the plane's offset. */
  lemma UnitPlaneRadicand(cal: Calibration, c: Point)
    requires Dot(cal.Normal(), cal.Normal()) + Sq(Dot(cal.Normal(), c)) == 1.0
    ensures 1.0 - Sq(cal.planeA) - Sq(cal.planeB) - Sq(cal.planeC) == Sq(OffsetThrough(cal, c))
  {
    var n := cal.Normal();
    assert n == Point(cal.planeA, cal.planeB, cal.planeC);
    DotOfSquares(n);
    SqNegate(Dot(n, c), OffsetThrough(cal, c));
  }

  lemma DotOfSquares(n: Point)
    ensures Dot(n, n) == Sq(n.x) + Sq(n.y) + Sq(n.z)
  {
  }

  /** The root of a square is the magnitude. */
  lemma SqrtOfSquare(sqrt: real -> real, x: real, a: real)
    requires IsSqrt(sqrt)
    requires x == Sq(a)
    ensures sqrt(x) == Abs(a)
  {
    RootOfSquare(sqrt(x), a);
  }

  /** One step of the loop of `OffsetRmse`. */
  lemma SumSqOffsetStep(pts: seq<CtxPoint>, i: nat, plane: Calibration, d: real, sqrt: real -> real,
                        mse: real, sq: real)
    requires IsSqrt(sqrt) && plane.Normal() != Origin
    requires i < |pts|
    requires mse == SumSqOffset(pts[..i], plane, d, sqrt)
    requires sq == SqOffset(pts[i].sensorData, plane, d, sqrt)
    ensures mse + sq == SumSqOffset(pts[..i + 1], plane, d, sqrt)
  {
    assert pts[..i + 1][..i] == pts[..i];
  }

  /** The loop of `rmse` with the offset counted. */
  method OffsetRmse(ctx: CalibrationContext, cal: Calibration, d: real, sqrt: real -> real) returns (r: real)
    requires ctx.Valid() && ctx.pointCount > 0
    requires IsSqrt(sqrt)
    requires cal.Normal() != Origin
    ensures r == OffsetRmseOf(Live(ctx), cal, d, sqrt)
  {
    ghost var pts := Live(ctx);
    var mse := 0.0;
    var i := 0;
    while i < ctx.pointCount
      invariant 0 <= i <= ctx.pointCount
      invariant mse == SumSqOffset(pts[..i], cal, d, sqrt)
    {
      var sq := SqOffset(ctx.points[i].sensorData, cal, d, sqrt);
      SumSqOffsetStep(pts, i, cal, d, sqrt, mse, sq);
      mse := mse + sq;
      i := i + 1;
    }
    assert pts[..ctx.pointCount] == pts;
    r := sqrt(mse / (ctx.pointCount as real));
  }

  /** `finalizeCalibration` with the offset of the fitted plane counted in
      the quality: readings score 100 exactly when all of them lie on the
      fitted plane. */
  method FinalizeCorrected(ctx: CalibrationContext, wantQuality: bool, sqrt: real -> real)
    returns (status: ErrorCode, cal: Calibration, quality: Option<real>)
    requires ctx.Valid() && ctx.pointCount > 0
    requires IsSqrt(sqrt)
    requires HasDirection(Spread(Live(ctx)))
    ensures status == Success
    ensures FitsReadings(Live(ctx), cal)
    ensures quality.Some? <==> wantQuality
    ensures quality.Some? ==> quality.value <= 100.0
    ensures quality.Some? ==> (quality.value == 100.0 <==> OnFittedPlane(Live(ctx), cal))
  {
    cal := FitPlane(Live(ctx), sqrt);
    if wantQuality {
      var centroidPt := Centroid(Live(ctx));
      var d := -Dot(cal.Normal(), centroidPt);
      var e := OffsetRmse(ctx, cal, d, sqrt);
      var ml := MeanLength(ctx, sqrt);
      var q := 100.0 - e / ml * 100.0;
      assert q == OffsetQualityOf(Live(ctx), cal, d, sqrt);
      OffsetThroughCentre(Live(ctx), cal);
      quality := Some(q);
    } else {
      quality := None;
    }
    status := Success;
  }

  /** The readings (0, 0, 1), (1, 0, 1) and (0, 1, 1), in that order. */
  predicate OffsetReadings(pts: seq<CtxPoint>) {
    && |pts| == 3
    && pts[0].sensorData == SensorData(0, 0, 1)
    && pts[1].sensorData == SensorData(1, 0, 1)
    && pts[2].sensorData == SensorData(0, 1, 1)
  }

  lemma SumHeight(ps: seq<Point>)
    requires |ps| == 3 && ps[0].z == 1.0 && ps[1].z == 1.0 && ps[2].z == 1.0
    ensures Sum(ps).z == 3.0
  {
    assert ps[..2][..1] == ps[..1];
    assert ps[..1][..0] == [];
    assert Sum(ps[..1]).z == 1.0;
    assert Sum(ps[..2]).z == 2.0;
  }

  /** The readings all have height 1, and so does their centroid. */
  lemma OffsetCentreHeight(pts: seq<CtxPoint>)
    requires OffsetReadings(pts)
    ensures Centre(pts).z == 1.0
  {
    SumHeight(Positions(pts));
  }

  /** The readings lie on the plane z = 1, so on the fitted plane. */
  lemma OffsetReadingsOnFit(pts: seq<CtxPoint>, cal: Calibration)
    requires OffsetReadings(pts) && FitsReadings(pts, cal)
    ensures OnFittedPlane(pts, cal)
  {
    var u := Point(0.0, 0.0, 1.0);
    OffsetCentreHeight(pts);
    forall i | 0 <= i < |pts|
      ensures Dot(u, Sub(ToPoint(pts[i].sensorData), Centre(pts))) == 0.0
    {
    }
    CoplanarReadingsFit(pts, cal, u);
  }

  /** No plane through the origin holds all three readings. */
  lemma OffsetReadingsOffOrigin(pts: seq<CtxPoint>, plane: Calibration)
    requires OffsetReadings(pts)
    requires plane.Normal() != Origin
    ensures !AllOnPlane(pts, plane)
  {
    var n := plane.Normal();
    if n.z != 0.0 {
      assert Dot(n, ToPoint(pts[0].sensorData)) != 0.0;
    } else if n.x != 0.0 {
      assert Dot(n, ToPoint(pts[1].sensorData)) != 0.0;
    } else {
      assert Dot(n, ToPoint(pts[2].sensorData)) != 0.0;
    }
  }

  /** As written, the quality of these readings is below 100 against the
      fitted plane, although every one of them lies on it. */
  lemma OffsetReadingsAsWritten(pts: seq<CtxPoint>, cal: Calibration, sqrt: real -> real)
    requires OffsetReadings(pts) && IsSqrt(sqrt)
    requires FitsReadings(pts, cal)
    ensures cal.Normal() != Origin && SomeNonZero(pts)
    ensures OnFittedPlane(pts, cal)
    ensures QualityOf(pts, cal, sqrt) < 100.0
  {
    FittedPlaneDefined(pts, cal);
    OffsetReadingsOnFit(pts, cal);
    OffsetReadingsOffOrigin(pts, cal);
  }

  /** With the offset counted, the same readings score exactly 100. */
  lemma OffsetReadingsCorrected(pts: seq<CtxPoint>, cal: Calibration, sqrt: real -> real)
    requires OffsetReadings(pts) && IsSqrt(sqrt)
    requires FitsReadings(pts, cal)
    ensures cal.Normal() != Origin && SomeNonZero(pts)
    ensures OffsetQualityOf(pts, cal, OffsetThrough(cal, Centre(pts)), sqrt) == 100.0
  {
    FittedPlaneDefined(pts, cal);
    OffsetReadingsOnFit(pts, cal);
    OffsetThroughCentre(pts, cal);
  }
}
