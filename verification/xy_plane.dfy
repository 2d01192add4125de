/** The hand-computable case of test.c: three readings in the XY plane,
    at (1, 0, 0), (0, 1, 0) and (0, 0, 0). The fit is the plane z = 0,
    that is (A, B, C) = (0, 0, 1), and its quality is 100. */
module XyPlane {
  import opened RealMath
  import opened Vectors
  import opened Context
  import opened Moments
  import opened PlaneNormal
  import opened PlaneFit

  const P1 := Point(1.0, 0.0, 0.0)
  const P2 := Point(0.0, 1.0, 0.0)

  /** The plane the test expects. */
  const Expected := Calibration(0.0, 0.0, 1.0)

  const Centroid3 := Point(1.0 / 3.0, 1.0 / 3.0, 0.0)

  const Spread3 := CovarianceMatrix(2.0 / 9.0, -1.0 / 9.0, 0.0, 2.0 / 9.0, 0.0, 0.0)

  /** Three live entries at (1, 0, 0), (0, 1, 0) and (0, 0, 0), in that
      order, whatever their headings. */
  predicate XyReadings(pts: seq<CtxPoint>) {
    && |pts| == 3
    && pts[0].sensorData == SensorData(1, 0, 0)
    && pts[1].sensorData == SensorData(0, 1, 0)
    && pts[2].sensorData == SensorData(0, 0, 0)
  }

  lemma XyPositions(pts: seq<CtxPoint>)
    requires XyReadings(pts)
    ensures |Positions(pts)| == 3
    ensures Positions(pts)[0] == P1 && Positions(pts)[1] == P2 && Positions(pts)[2] == Origin
  {
  }

  lemma SumOfThree(ps: seq<Point>)
    requires |ps| == 3 && ps[0] == P1 && ps[1] == P2 && ps[2] == Origin
    ensures Sum(ps) == Point(1.0, 1.0, 0.0)
  {
    assert ps[..2][..1] == ps[..1];
    assert ps[..1][..0] == [];
    assert Sum(ps[..1]) == P1;
    assert Sum(ps[..2]) == Add(P1, P2);
  }

  lemma ThirdOfSum(c: Point, s: Point)
    requires Scale(c, 3.0) == s && s == Point(1.0, 1.0, 0.0)
    ensures c == Centroid3
  {
  }

  /** The centroid is (1/3, 1/3, 0). */
  lemma XyCentre(pts: seq<CtxPoint>)
    requires XyReadings(pts)
    ensures Centre(pts) == Centroid3
  {
    XyPositions(pts);
    SumOfThree(Positions(pts));
    ThirdOfSum(Centre(pts), Sum(Positions(pts)));
  }

  /** The deviations of the readings from their centroid. */
  lemma XyDeviations(pts: seq<CtxPoint>)
    requires XyReadings(pts)
    ensures |Positions(pts)| == 3
    ensures Sub(Positions(pts)[0], Centre(pts)) == Point(2.0 / 3.0, -1.0 / 3.0, 0.0)
    ensures Sub(Positions(pts)[1], Centre(pts)) == Point(-1.0 / 3.0, 2.0 / 3.0, 0.0)
    ensures Sub(Positions(pts)[2], Centre(pts)) == Point(-1.0 / 3.0, -1.0 / 3.0, 0.0)
  {
    XyPositions(pts);
    XyCentre(pts);
  }

  /** The sum of outer products of three points, term by term. */
  lemma SumOuterOfThree(ps: seq<Point>, c: Point)
    requires |ps| == 3
    ensures SumOuter(ps, c)
            == AddM(AddM(Outer(Sub(ps[0], c)), Outer(Sub(ps[1], c))), Outer(Sub(ps[2], c)))
  {
    SumOuterLast(ps, c);
    SumOuterLast(ps[..2], c);
    SumOuterLast(ps[..1], c);
    assert ps[..2][..1] == ps[..1];
    assert ps[..1][..0] == [];
  }

  lemma OuterOfFirst(d: Point)
    requires d == Point(2.0 / 3.0, -1.0 / 3.0, 0.0)
    ensures Outer(d) == CovarianceMatrix(4.0 / 9.0, -2.0 / 9.0, 0.0, 1.0 / 9.0, 0.0, 0.0)
  {
  }

  lemma OuterOfSecond(d: Point)
    requires d == Point(-1.0 / 3.0, 2.0 / 3.0, 0.0)
    ensures Outer(d) == CovarianceMatrix(1.0 / 9.0, -2.0 / 9.0, 0.0, 4.0 / 9.0, 0.0, 0.0)
  {
  }

  lemma OuterOfThird(d: Point)
    requires d == Point(-1.0 / 3.0, -1.0 / 3.0, 0.0)
    ensures Outer(d) == CovarianceMatrix(1.0 / 9.0, 1.0 / 9.0, 0.0, 1.0 / 9.0, 0.0, 0.0)
  {
  }

  lemma SumOfOuters(a: CovarianceMatrix, b: CovarianceMatrix, c: CovarianceMatrix, m: CovarianceMatrix)
    requires a == CovarianceMatrix(4.0 / 9.0, -2.0 / 9.0, 0.0, 1.0 / 9.0, 0.0, 0.0)
    requires b == CovarianceMatrix(1.0 / 9.0, -2.0 / 9.0, 0.0, 4.0 / 9.0, 0.0, 0.0)
    requires c == CovarianceMatrix(1.0 / 9.0, 1.0 / 9.0, 0.0, 1.0 / 9.0, 0.0, 0.0)
    requires m == AddM(AddM(a, b), c)
    ensures m == CovarianceMatrix(6.0 / 9.0, -3.0 / 9.0, 0.0, 6.0 / 9.0, 0.0, 0.0)
  {
  }

  lemma ThirdOfOuter(m: CovarianceMatrix, s: CovarianceMatrix)
    requires ScaleM(m, 3.0) == s
    requires s == CovarianceMatrix(6.0 / 9.0, -3.0 / 9.0, 0.0, 6.0 / 9.0, 0.0, 0.0)
    ensures m == Spread3
  {
  }

  /** The sum of the outer products of three deviations. */
  lemma OuterOfDeviations(ps: seq<Point>, c: Point)
    requires |ps| == 3
    requires Sub(ps[0], c) == Point(2.0 / 3.0, -1.0 / 3.0, 0.0)
    requires Sub(ps[1], c) == Point(-1.0 / 3.0, 2.0 / 3.0, 0.0)
    requires Sub(ps[2], c) == Point(-1.0 / 3.0, -1.0 / 3.0, 0.0)
    ensures SumOuter(ps, c) == CovarianceMatrix(6.0 / 9.0, -3.0 / 9.0, 0.0, 6.0 / 9.0, 0.0, 0.0)
  {
    SumOuterOfThree(ps, c);
    var d0, d1, d2 := Sub(ps[0], c), Sub(ps[1], c), Sub(ps[2], c);
    OuterOfFirst(d0);
    OuterOfSecond(d1);
    OuterOfThird(d2);
    SumOfOuters(Outer(d0), Outer(d1), Outer(d2), SumOuter(ps, c));
  }

  /** The covariance of three points with these deviations. */
  lemma CovarianceOfDeviations(ps: seq<Point>, c: Point, m: CovarianceMatrix)
    requires |ps| == 3
    requires Sub(ps[0], c) == Point(2.0 / 3.0, -1.0 / 3.0, 0.0)
    requires Sub(ps[1], c) == Point(-1.0 / 3.0, 2.0 / 3.0, 0.0)
    requires Sub(ps[2], c) == Point(-1.0 / 3.0, -1.0 / 3.0, 0.0)
    requires m == CovarianceOf(ps, c)
    ensures m == Spread3
  {
    OuterOfDeviations(ps, c);
    ThirdOfOuter(m, SumOuter(ps, c));
  }

  /** The covariance about the centroid. */
  lemma XySpread(pts: seq<CtxPoint>)
    requires XyReadings(pts)
    ensures Spread(pts) == Spread3
  {
    XyDeviations(pts);
    CovarianceOfDeviations(Positions(pts), Centre(pts), Spread(pts));
  }

  /** Of the diagonal minors of the spread only det_z = 1/27 is nonzero. */
  lemma SpreadMinors(m: CovarianceMatrix)
    requires m == Spread3
    ensures DetX(m) == 0.0 && DetY(m) == 0.0 && DetZ(m) == 1.0 / 27.0
  {
    SpreadDetX(m);
    SpreadDetY(m);
    SpreadDetZ(m);
  }

  lemma SpreadDetX(m: CovarianceMatrix)
    requires m == Spread3
    ensures DetX(m) == 0.0
  {
  }

  lemma SpreadDetY(m: CovarianceMatrix)
    requires m == Spread3
    ensures DetY(m) == 0.0
  {
  }

  lemma SpreadDetZ(m: CovarianceMatrix)
    requires m == Spread3
    ensures DetZ(m) == 1.0 / 27.0
  {
  }

  lemma SpreadCandidateZ(m: CovarianceMatrix)
    requires m == Spread3
    ensures CandidateZ(m) == Point(0.0, 0.0, 1.0 / 27.0)
  {
    SpreadMinors(m);
  }

  /** The first vote into an empty sum is never flipped. */
  lemma StepFromOrigin(cand: Point, det: real, r: Point)
    requires r == Step(Origin, cand, det)
    ensures r == Scale(cand, Sq(det))
  {
    assert Dot(Origin, cand) == 0.0;
  }

  lemma ScaledCandidateZ(cand: Point, det: real, r: Point)
    requires cand == Point(0.0, 0.0, 1.0 / 27.0) && det == 1.0 / 27.0
    requires r == Scale(cand, Sq(det))
    ensures r == Point(0.0, 0.0, 1.0 / 19683.0)
  {
  }

  /** When det_x and det_y vanish, `weightedDir` skips the first two
      candidates and keeps the z candidate with weight det_z². */
  lemma OnlyZVotes(m: CovarianceMatrix)
    requires DetX(m) == 0.0 && DetY(m) == 0.0
    ensures VotedSum(m, 3) == Scale(CandidateZ(m), Sq(DetZ(m)))
  {
    VotedSumStep(m, 1);
    VotedSumStep(m, 2);
    VotedSumStep(m, 3);
    assert VotedSum(m, 2) == Origin;
    StepFromOrigin(CandidateZ(m), DetZ(m), VotedSum(m, 3));
  }

  lemma WeightedSumOfZ(m: CovarianceMatrix)
    requires DetX(m) == 0.0 && DetY(m) == 0.0 && DetZ(m) == 1.0 / 27.0
    requires CandidateZ(m) == Point(0.0, 0.0, 1.0 / 27.0)
    ensures WeightedSum(m) == Point(0.0, 0.0, 1.0 / 19683.0)
  {
    OnlyZVotes(m);
    ScaledCandidateZ(CandidateZ(m), DetZ(m), VotedSum(m, 3));
  }

  /** `weightedDir` of the spread points along the z axis. */
  lemma SpreadWeightedSum(m: CovarianceMatrix)
    requires m == Spread3
    ensures WeightedSum(m) == Point(0.0, 0.0, 1.0 / 19683.0)
  {
    SpreadMinors(m);
    SpreadCandidateZ(m);
    WeightedSumOfZ(m);
  }

  /** The spread has a direction, and `weightedDir` sums to (0, 0, 1/19683). */
  lemma XyDirection(pts: seq<CtxPoint>)
    requires XyReadings(pts)
    ensures HasDirection(Spread(pts))
    ensures WeightedSum(Spread(pts)) == Point(0.0, 0.0, 1.0 / 19683.0)
  {
    XySpread(pts);
    SpreadWeightedSum(Spread(pts));
  }

  /** (0, 0, 1) is 19683 times that sum. */
  lemma NormalAlong(n: Point, w: Point)
    requires n == Point(0.0, 0.0, 1.0) && w == Point(0.0, 0.0, 1.0 / 19683.0)
    ensures PositiveMultiple(n, w)
  {
    assert n == Scale(w, 19683.0);
  }

  lemma UnitNormal(n: Point)
    requires n == Point(0.0, 0.0, 1.0)
    ensures Dot(n, n) == 1.0
  {
  }

  /** The plane through c with normal (0, 0, 1) has D = 0 when c is on z = 0. */
  lemma NoOffset(n: Point, c: Point)
    requires n == Point(0.0, 0.0, 1.0) && c.z == 0.0
    ensures Sq(Dot(n, c)) == 0.0
  {
  }

  lemma UnitSum(n: Point, c: Point)
    requires Dot(n, n) == 1.0 && Sq(Dot(n, c)) == 0.0
    ensures Dot(n, n) + Sq(Dot(n, c)) == 1.0
  {
  }

  /** The plane through the centroid with normal (0, 0, 1) is z = 0, so
      (A, B, C, D) = (0, 0, 1, 0) is a unit vector. */
  lemma UnitAtCentre(n: Point, c: Point)
    requires n == Point(0.0, 0.0, 1.0) && c.z == 0.0
    ensures Dot(n, n) + Sq(Dot(n, c)) == 1.0
  {
    UnitNormal(n);
    NoOffset(n, c);
    UnitSum(n, c);
  }

  lemma ExpectedAlong(w: Point, c: Point)
    requires w == Point(0.0, 0.0, 1.0 / 19683.0) && c.z == 0.0
    ensures UnitPlaneAlong(Expected.Normal(), w, c)
  {
    NormalAlong(Expected.Normal(), w);
    UnitAtCentre(Expected.Normal(), c);
  }

  lemma XyFitsExpected(pts: seq<CtxPoint>)
    requires XyReadings(pts)
    ensures FitsReadings(pts, Expected)
  {
    XyDirection(pts);
    XyCentre(pts);
    ExpectedAlong(WeightedSum(Spread(pts)), Centre(pts));
  }

  /** The plane z = 0 is the fit of the readings, and no other plane is. */
  lemma XyFit(pts: seq<CtxPoint>, cal: Calibration)
    requires XyReadings(pts)
    ensures FitsReadings(pts, cal) <==> cal == Expected
  {
    XyFitsExpected(pts);
    if FitsReadings(pts, cal) {
      FitsReadingsUnique(pts, cal, Expected);
    }
  }

  /** Every reading lies on z = 0, and not all of them are at the origin. */
  lemma XyOnPlane(pts: seq<CtxPoint>)
    requires XyReadings(pts)
    ensures AllOnPlane(pts, Expected)
    ensures SomeNonZero(pts)
  {
    assert ToPoint(pts[0].sensorData) == P1;
  }

  /** The quality of the fit is 100. */
  lemma XyQuality(pts: seq<CtxPoint>, sqrt: real -> real)
    requires XyReadings(pts) && IsSqrt(sqrt)
    ensures QualityOf(pts, Expected, sqrt) == 100.0
  {
    XyOnPlane(pts);
  }

  /** `finalizeCalibration` with the quality requested, on a context whose
      live entries are the three readings: it succeeds with the plane
      (0, 0, 1) and quality 100. */
  method XyFinalize(ctx: CalibrationContext, sqrt: real -> real)
    returns (status: ErrorCode, cal: Calibration, quality: Option<real>)
    requires ctx.Valid() && XyReadings(Live(ctx)) && IsSqrt(sqrt)
    ensures status == Success
    ensures cal == Expected
    ensures quality == Some(100.0)
  {
    XyDirection(Live(ctx));
    status, cal, quality := FinalizeCalibration(ctx, true, sqrt);
    XyFit(Live(ctx), cal);
    XyOnPlane(Live(ctx));
  }

  /** The readings of the test, added without a heading. */
  function TestReadings(): seq<Reading> {
    [Reading(SensorData(1, 0, 0), None),
     Reading(SensorData(0, 1, 0), None),
     Reading(SensorData(0, 0, 0), None)]
  }

  /** Starting a calibration and adding the three readings succeeds each time
      and leaves exactly them live, each with heading -1. */
  lemma XySession(ctx: CalibrationContext)
    requires |ctx.points| == MaxSensorPoints
    ensures StartCalibration(ctx).status == Success
    ensures AddAll(StartCalibration(ctx).ctx, TestReadings()).statuses == [Success, Success, Success]
    ensures XyReadings(Live(AddAll(StartCalibration(ctx).ctx, TestReadings()).ctx))
    ensures forall i :: 0 <= i < 3 ==>
              Live(AddAll(StartCalibration(ctx).ctx, TestReadings()).ctx)[i].magneticHeading == -1.0
  {
    CalibrationSession(ctx, TestReadings());
  }
}
