# CompaxxLib coarse calibration, in Dafny

CompaxxLib is a small C library for a 3-axis magnetic compass. A caller
starts a calibration context and feeds it raw sensor readings (`short`
coordinates). When it finalises, the library fits a plane
`A x + B y + C z + D = 0` through the centroid of the readings and keeps
(A, B, C); D stays implicit. That plane is the instrument's orientation
relative to the horizontal. The library also reports a quality figure. The
figure measures the readings against the parallel plane `A x + B y + C z = 0`
through the origin, not against the fitted plane (see "Findings"). This
project models that coarse-calibration path and proves what it
computes:

- `context.dfy` (module `Context`): the bounded context. It is a 200-entry
  buffer with a live count. It covers `startCalibration`,
  `addCalibrationPoint`, the error codes, and the `Calibration` result.
- `moments.dfy` (module `Moments`): `centroid` and `covariance`, and the
  facts about the covariance matrix that the plane fit depends on.
- `plane_normal.dfy` (module `PlaneNormal`): `weightedDir`. The three
  cofactor columns of the covariance, each weighted by the square of its
  diagonal minor, sign-voted against the running sum, then normalised.
- `vectors.dfy` (module `Vectors`): `Point`, `dotProduct`, `addTo`,
  `mulByScalar`, `normalize`, and the cross product.
- `real_math.dfy` (module `RealMath`): `sq`, `floatAbs`, `floatMax`, the
  square-root contract, and small arithmetic facts.
- `plane_fit.dfy` (module `PlaneFit`): `normalToCartesian`,
  `ptPlaneDistance`, `rmse`, `vecLength`, `meanLength`, and
  `finalizeCalibration`, including its quality figure.
- `offset_plane.dfy` (module `OffsetPlane`): the quality figure with the
  fitted plane's offset D counted, and the readings that show the
  difference (see "Findings").
- `xy_plane.dfy` (module `XyPlane`): the XY-plane case of `test.c`, proved
  end to end from `startCalibration` through the three adds to the fitted
  plane (0, 0, 1) with quality 100.
- `matrix.dfy` (module `Matrix3`): `matrixDet` and `matrixInv` of `extra.c`.
  Also the matrix of `test.c`, its determinant and its inverse.
- `triangulation.dfy` (module `Triangulation`): the triangulated estimator
  of `extra.c`. That is `rectangleArea`, `planeFromThreePoints` and
  `finalizeCalibrationTrian`. `planeFromThreePoints` flips a normal only
  when its x component is negative. For a plane with A = 0, such as the XY
  plane, each triangle therefore keeps its winding, and triangles of
  opposite winding cancel in the average. The model keeps this behaviour.

C `float` is modelled as `real`, and `short` as a newtype over
[-32768, 32767]. `sqrt` is a parameter of every operation that uses it.
Each such operation requires `IsSqrt(sqrt)`: for every x ≥ 0, sqrt(x) ≥ 0
and sqrt(x)² = x. In-place updates through pointers become functions that
return the new value. Loops become methods whose invariants tie them to a
recursive definition.

Where the header comments of `compaxx.h` and the code disagree, the model
follows the code. The comments describe fine calibration points, at most
36 of them, and a heading computation. None of these exists in the code
(see "Left out").

## Model

| member | source | states |
|---|---|---|
| RealMath.Sq | compaxx.c:12-14 | a square is never negative |
| RealMath.Abs | compaxx.c:74-79 | `floatAbs` is non-negative and is the number or its negation |
| RealMath.Max | compaxx.c:81-83 | `floatMax` is at least both arguments and is one of them |
| Vectors.Largest | compaxx.c:87 | the divisor of `normalize` is the largest component magnitude: it bounds all three and is one of them |
| Vectors.DivideByLargest | compaxx.c:87-90 | after the division by the largest magnitude every component is in [-1, 1] and one has magnitude 1 |
| Vectors.ScaleByLargest | compaxx.c:87-90 | the first step of `normalize` lands every component in [-1, 1], one at magnitude 1, pointing the same way as the input |
| Vectors.Normalize | compaxx.c:85-97 | `normalize` of a nonzero vector has squared length 1 and is a positive multiple of its input |
| Vectors.NormalizeDirectionOnly | compaxx.c:85-97 | two inputs pointing the same way normalise to the same unit vector |
| Vectors.NormalizeIdempotent | compaxx.c:85-97 | normalising an already normalised vector changes nothing |
| Vectors.CrossOrthogonal | extra.c:56 | the cross product of the two edges is orthogonal to both |
| Context.StartCalibration | compaxx.c:178-181 | `startCalibration` returns `E_SUCCESS` and leaves a valid context with no live entry; the buffer is untouched |
| Context.Stored | compaxx.c:186-190 | the stored entry keeps the reading and the given heading, or -1 when none is given |
| Context.AddCalibrationPoint | compaxx.c:183-193 | refuses with `E_TOO_MANY_COARSE_POINTS` exactly at count 200 and then changes nothing; otherwise it writes the entry at the old count, adds exactly one to the count, and leaves every other slot as it was |
| Context.AddAllKeepsPrefix | compaxx.c:183-193 | a run of adds keeps the old live entries, appends readings until the buffer is full, and refuses exactly the rest |
| Context.CalibrationSession | compaxx.c:178-193 | from a fresh context, the live entries are exactly the first min(n, 200) readings stored in order, and only readings past the 200th are refused |
| Moments.Mean | compaxx.c:16-31 | the centroid times the count is the sum of the positions |
| Moments.MeanBalances | compaxx.c:16-31 | the centroid is the one centre whose deviations sum to zero |
| Moments.Centroid | compaxx.c:16-31 | the loop computes the coordinate-wise mean of the live readings; the deviations from it cancel out |
| Moments.SumOuter | compaxx.c:36-48 | the accumulated diagonal sums `xx`, `yy`, `zz` are never negative |
| Moments.CovarianceOf | compaxx.c:33-56 | the covariance times the count is the sum of the outer products of the deviations, and its diagonal is non-negative |
| Moments.Covariance | compaxx.c:33-56 | the loop computes that covariance |
| Moments.SumOuterQuadForm | compaxx.c:42-47 | uᵀ(Σ d dᵀ)u is the sum of the squared offsets (u·d)² |
| Moments.CovarianceQuadForm | compaxx.c:33-56 | the covariance is positive semi-definite; n times its quadratic form is the sum of squared offsets along u |
| Moments.CovarianceFlatDirection | compaxx.c:33-56 | the quadratic form vanishes at u exactly when every reading lies on the plane through the centre with normal u |
| Moments.CovarianceNull | compaxx.c:33-56 | the normal of a plane through the centre holding every reading is in the null space of the covariance |
| PlaneNormal.SharedCofactors | compaxx.c:109-143 | the three candidates share their off-diagonal cofactors: x.y = y.x, x.z = z.x, y.z = z.y |
| PlaneNormal.AdjugateColumnX | compaxx.c:109-113 | the covariance times the first candidate is (det, 0, 0) |
| PlaneNormal.AdjugateColumnY | compaxx.c:124-128 | the covariance times the second candidate is (0, det, 0) |
| PlaneNormal.AdjugateColumnZ | compaxx.c:139-143 | the covariance times the third candidate is (0, 0, det) |
| PlaneNormal.CandidatesAreAdjugate | compaxx.c:109-143 | the candidates are the columns of the adjugate of the covariance |
| PlaneNormal.NullVectorSingular | compaxx.c:99-156 | a matrix with a nonzero null vector has determinant zero |
| PlaneNormal.NoMinorNoDirection | compaxx.c:99-151 | with all three diagonal minors zero the weighted sum is the zero vector, so the largest component that `normalize` first divides by is 0 |
| PlaneNormal.Vote | compaxx.c:114-117 | the weighted candidate is the candidate times ±det², with + whenever the candidate does not point against the running sum; either way its dot product with the running sum is non-negative |
| PlaneNormal.Step | compaxx.c:114-118 | a vote never shortens the running sum, and lengthens it when the minor and the candidate are nonzero |
| PlaneNormal.FirstVote | compaxx.c:108-119 | the first candidate always enters with weight det_x² ≥ 0 |
| PlaneNormal.StepNonZero | compaxx.c:114-118 | after a vote the sum is nonzero exactly when it was before or the minor is nonzero |
| PlaneNormal.VotedSumNonZero | compaxx.c:108-149 | after i votes the sum is nonzero exactly when one of the first i minors is |
| PlaneNormal.WeightedSum | compaxx.c:99-149 | the weighted sum is nonzero exactly when some diagonal minor is nonzero |
| PlaneNormal.WeightedDir | compaxx.c:99-156 | `weightedDir` returns a unit vector pointing along the weighted sum |
| PlaneNormal.VotedSumNull | compaxx.c:108-149 | for a singular covariance every partial sum lies in its null space |
| PlaneNormal.WeightedDirNull | compaxx.c:99-156 | for a singular covariance `weightedDir` returns a unit null vector, the normal of the plane the readings span |
| PlaneFit.PlaneLength | compaxx.c:164-167 | the length divided by is positive and is the norm of (a, b, c, d) |
| PlaneFit.NormalToCartesian | compaxx.c:158-172 | (A, B, C) is a positive multiple of the normal |
| PlaneFit.PlaneThroughPoint | compaxx.c:158-172 | the point satisfies A x + B y + C z + D = 0; (A, B, C, D) has norm 1, so A² + B² + C² ≤ 1 |
| PlaneFit.PtPlaneDistance | compaxx.c:195-200 | the distance is non-negative and zero exactly when the reading satisfies A x + B y + C z = 0 |
| PlaneFit.DistanceSquared | compaxx.c:195-200 | the distance squared times A² + B² + C² is (A x + B y + C z)², the usual point-to-plane distance |
| PlaneFit.SqDist | compaxx.c:206-207 | each squared distance is non-negative and zero exactly for readings on A x + B y + C z = 0 |
| PlaneFit.SumSqDistZero | compaxx.c:205-208 | the squared distances sum to zero exactly when every live reading is on A x + B y + C z = 0 |
| PlaneFit.RmseOf | compaxx.c:202-210 | the rms distance is non-negative and zero exactly when every reading is on A x + B y + C z = 0 |
| PlaneFit.Rmse | compaxx.c:202-210 | the loop computes that rms distance |
| PlaneFit.VecLength | compaxx.c:212-214 | a reading's length is non-negative, squares to its squared length, and is zero only for the zero reading |
| PlaneFit.TotalLength | compaxx.c:218-221 | the summed lengths are non-negative |
| PlaneFit.TotalLengthPositive | compaxx.c:216-221 | the summed lengths are positive exactly when some reading is nonzero |
| PlaneFit.MeanLengthOf | compaxx.c:216-223 | the mean length is non-negative and positive exactly when some reading is nonzero |
| PlaneFit.MeanLength | compaxx.c:216-223 | the loop computes that mean length |
| PlaneFit.QualityOf | compaxx.c:241-242 | quality is at most 100, and exactly 100 when every reading lies on the plane A x + B y + C z = 0 through the origin |
| PlaneFit.CartesianAlong | compaxx.c:234-239 | `normalToCartesian` of the unit direction at the centroid gives a plane along the direction, through the centroid, with unit (A, B, C, D) |
| PlaneFit.UnitPlaneAlongUnique | compaxx.c:234-239 | only one such plane exists for a given direction and centre |
| PlaneFit.FitsReadingsUnique | compaxx.c:225-239 | the fitted plane is determined by the readings |
| PlaneFit.SpreadNeedsReading | compaxx.c:230-242 | a covariance with a direction implies a nonzero reading, so the quality's mean length is positive |
| PlaneFit.FlatReadingsWeightedSum | compaxx.c:230-234 | if the readings lie on a plane through their centroid, the weighted sum is orthogonal to every deviation |
| PlaneFit.CoplanarReadingsFit | compaxx.c:225-239 | readings that lie on one plane through their centroid all lie on the fitted plane there |
| PlaneFit.FitPlane | compaxx.c:225-239 | centroid, covariance, `weightedDir` and `normalToCartesian` together produce the plane that fits the readings |
| PlaneFit.Quality | compaxx.c:241-242 | the computed quality is the quality figure: at most 100, and 100 exactly when every reading lies on A x + B y + C z = 0 through the origin |
| PlaneFit.FinalizeCalibration | compaxx.c:225-244 | returns `E_SUCCESS` and the fitted plane; a quality is produced exactly when asked for, at most 100, and 100 exactly when all readings are on A x + B y + C z = 0 through the origin |
| OffsetPlane.OffsetDistance | compaxx.c:195-200 | with the offset D counted, the distance is non-negative and zero exactly on A x + B y + C z + D = 0 |
| OffsetPlane.OffsetDistanceSquared | compaxx.c:195-200 | that distance squared times A² + B² + C² is (A x + B y + C z + D)² |
| OffsetPlane.AsWrittenIsOriginPlane | compaxx.c:195-200 | `ptPlaneDistance` as written is the distance with D = 0 |
| OffsetPlane.PlaneDMagnitude | compaxx.c:196 | for a plane scaled as `normalToCartesian` scales it, the unused `planeD` is the magnitude of D: its sign is lost |
| OffsetPlane.SqOffset | compaxx.c:206-207 | each squared offset distance is non-negative and zero exactly on A x + B y + C z + D = 0 |
| OffsetPlane.SumSqOffsetZero | compaxx.c:205-208 | the squared offset distances sum to zero exactly when every reading is on that plane |
| OffsetPlane.OffsetRmseOf | compaxx.c:202-210 | the rms offset distance is non-negative and zero exactly when every reading is on that plane |
| OffsetPlane.OffsetRmse | compaxx.c:202-210 | the loop with the offset computes that rms distance |
| OffsetPlane.OffsetQualityOf | compaxx.c:241-242 | the quality with the offset is at most 100, and exactly 100 when every reading is on A x + B y + C z + D = 0 |
| OffsetPlane.OffsetThroughCentre | compaxx.c:158-172 | with the D that puts the centroid on the plane, being on the plane means deviating from the centroid orthogonally to (A, B, C) |
| OffsetPlane.FittedPlaneDefined | compaxx.c:225-242 | a fitted plane has a nonzero (A, B, C) and comes from some nonzero reading, so both quality figures are defined |
| OffsetPlane.CoplanarQualityFull | compaxx.c:225-242 | readings on one plane through their centroid score exactly 100 against the fitted plane once D is counted |
| OffsetPlane.FinalizeCorrected | compaxx.c:225-244 | `finalizeCalibration` with D counted: success, the fitted plane, and a quality at most 100 that is 100 exactly when every reading is on the fitted plane |
| OffsetPlane.OffsetReadingsOnFit | compaxx.c:225-239 | the readings (0,0,1), (1,0,1), (0,1,1) all lie on the plane fitted to them |
| OffsetPlane.OffsetReadingsOffOrigin | compaxx.c:195-200 | no plane through the origin holds all three of them |
| OffsetPlane.OffsetReadingsAsWritten | compaxx.c:195-242 | as written, their quality against the fitted plane is below 100 although every one lies on it |
| OffsetPlane.OffsetReadingsCorrected | compaxx.c:195-242 | with D counted, their quality against the fitted plane is exactly 100 |
| XyPlane.XyCentre | test.c:60-64 | the centroid of (1,0,0), (0,1,0), (0,0,0) is (1/3, 1/3, 0) |
| XyPlane.XySpread | test.c:60-64 | their covariance has xx = yy = 2/9, xy = -1/9 and every z entry 0 |
| XyPlane.XyDirection | test.c:60-64 | that covariance has a direction, and its weighted sum is (0, 0, 1/19683) |
| XyPlane.XyFit | test.c:65-67 | a plane fits these readings exactly when it is (0, 0, 1) |
| XyPlane.XyOnPlane | test.c:59-69 | all three readings lie on z = 0, and one is nonzero |
| XyPlane.XyQuality | test.c:59-69 | the quality of (0, 0, 1) for these readings is 100 |
| XyPlane.XyFinalize | test.c:59-69 | `finalizeCalibration` on these readings returns success, the plane (0, 0, 1) and quality 100 |
| XyPlane.XySession | test.c:18-33 | `startCalibration` returns success, each of the three adds returns success, and exactly these readings are left live, with heading -1 |
| Matrix3.DetIsTripleProduct | extra.c:8-16 | `matrixDet` is the triple product of the rows and of the columns |
| Matrix3.DetTranspose | extra.c:8-16 | transposing does not change `matrixDet` |
| Matrix3.AdjugateColumns | extra.c:31-39 | the numerators of `matrixInv` form the adjugate: its columns are cross products of pairs of rows |
| Matrix3.AdjugateRows | extra.c:31-39 | its rows are cross products of pairs of columns |
| Matrix3.AdjugateRight | extra.c:31-39 | m times the numerator matrix is `matrixDet(m)` times the identity |
| Matrix3.AdjugateLeft | extra.c:31-39 | the numerator matrix times m is `matrixDet(m)` times the identity |
| Matrix3.InverseLeft | extra.c:18-40 | when `matrixDet(m)` is nonzero, `matrixInv(m)` times m is the identity |
| Matrix3.InverseRight | extra.c:18-40 | when `matrixDet(m)` is nonzero, m times `matrixInv(m)` is the identity |
| Matrix3.TestDet | test.c:118-122 | [[1,2,3],[0,1,4],[5,6,0]] has determinant 1 |
| Matrix3.TestInverse | test.c:117-141 | its inverse is [[-24,18,5],[20,-15,-4],[-5,4,1]] |
| Triangulation.RectangleArea | extra.c:73-79 | the area is non-negative and zero exactly when the cross product of the edges is zero |
| Triangulation.AreaSquared | extra.c:73-79 | four times the area squared is the squared length of the cross product |
| Triangulation.AreaOfRepeatedCorner | extra.c:73-79 | a triangle with two equal corners has area 0 |
| Triangulation.CrossOfReversedEdges | extra.c:74-77 | the area's cross product equals the normal's cross product, so the area is positive exactly when the normal exists |
| Triangulation.FlipToPositiveX | extra.c:62-66 | the flipped normal has x ≥ 0 and is the normal or its negation |
| Triangulation.PlaneFromThreePoints | extra.c:42-71 | the plane has A ≥ 0 and (A, B, C) points along the flipped normal |
| Triangulation.PlaneAlongEdges | extra.c:45-56 | (A, B, C) is orthogonal to both edges from p1 |
| Triangulation.PlaneThroughCorners | extra.c:42-71 | with its implicit D, p1, p2 and p3 all satisfy A x + B y + C z + D = 0, and (A, B, C, D) is a unit vector |
| Triangulation.OffsetsDistinct | extra.c:82-87 | the offsets 0, n/3 and 2(n/3) are pairwise distinct exactly when n ≥ 3 |
| Triangulation.LoopGuard | extra.c:96 | the loop condition holds exactly while idx1 < n/3, so the loop runs n/3 times |
| Triangulation.StreamBounds | extra.c:89-115 | idx1 is in [0, n/3), idx2 in [n/3, 2(n/3)), idx3 in [2(n/3), n): all in bounds and disjoint |
| Triangulation.TrianglePlane | extra.c:98-101 | each triangle's plane has A ≥ 0 |
| Triangulation.TriangleWeight | extra.c:104-106 | each non-degenerate triangle's weight is positive |
| Triangulation.TotalPositive | extra.c:110 | `planeCount` is positive once one triangle has been added, so the final division is defined |
| Triangulation.WeightedSumFacesPositiveX | extra.c:107-109 | the accumulated x stays non-negative |
| Triangulation.AverageFacesPositiveX | extra.c:107-118 | the averaged plane has A ≥ 0 |
| Triangulation.WeightedSumOfCommon | extra.c:107-110 | when every triangle has the same plane p, `accum` is p times `planeCount` |
| Triangulation.CommonPlane | extra.c:107-118 | when every triangle has the same plane, the result is that plane |
| Triangulation.Triangle | extra.c:98-106 | the loop body reads the k-th triangle's plane and area |
| Triangulation.Step | extra.c:96-115 | one pass extends `accum` and `planeCount` by one triangle |
| Triangulation.Accumulate | extra.c:89-115 | the loop ends with `accum` the weighted sum of all n/3 planes and `planeCount` the total area |
| Triangulation.FinalizeCalibrationTrian | extra.c:81-120 | `E_NOT_ENOUGH_CALIBRATION_POINTS`, with the calibration untouched, exactly when fewer than 3 readings are live; otherwise success with the area-weighted average plane |

## Left out

- `getHeading` (compaxx.c:174-176) is a stub that returns success and writes nothing, so there is nothing to model.
- Fine calibration is not in the code. There is no fine-point buffer and no cap of 36. `E_TOO_MANY_FINE_POINTS` and `E_NEED_COARSE_CALIBRATION` exist only as error codes. `Calibration.calibrationData` and `Calibration.pointCount` are never written, so `Calibration` holds only the plane.
- IEEE-754 behaviour is not modelled: `float` is `real`, with no rounding, overflow or NaN. The division by the largest component in `normalize` is there to avoid overflow. It is kept, but over the reals it does not change the direction.
- `sqrt` is a parameter constrained by `IsSqrt`, not a computation.
- Division by zero in the C code becomes a precondition, not an error result:
  - an empty context in `centroid`, `covariance`, `rmse` and `meanLength`;
  - a covariance whose three diagonal minors are all zero in `weightedDir`;
  - a zero normal in `normalToCartesian` and `ptPlaneDistance`;
  - all-zero readings in the quality figure;
  - a singular matrix in `matrixInv`;
  - a collinear triple in `finalizeCalibrationTrian`.
- Triangulation.FinalizeCalibrationTrian: requires every triple to span a triangle (`Triangles`). With a collinear triple the C code normalises a zero normal and divides by zero, and it is not modelled.
- `ptPlaneDistance` computes `planeD` (compaxx.c:196) and never uses it. `PlaneFit.PtPlaneDistance` leaves the unused value out and measures the distance to A x + B y + C z = 0, as the code does. The consequence is recorded under "Findings".
- `normalToCartesian` drops D. The model names it (`ImplicitOffset`, `OffsetPlane.OffsetThrough`) to state that the centroid lies on the plane and to count it in the corrected quality.
- The unused `scaling` (compaxx.c:106) is left out. The return value of `weightedDir` is always `E_SUCCESS` and ignored, so the model returns only the direction.
- `crossProduct` is not part of this model, since no definition is given. The standard cross product is assumed.
- `planeFromThreePoints` is declared with `SensorData*` (compaxx_int.h:42) but defined with `Point*` (extra.c:42). `rectangleArea` takes `Point*` but is called with `SensorData*`. Both are modelled on the readings' positions.
- The optional `quality` pointer of `finalizeCalibration` is a boolean request; a null pointer is `false`.
- `printPt`, `printf`, `main`, and the randomised noisy-plane tests (test.c:71-115, 143-175) are left out: they depend on `rand`, rounding and `log`.

## Findings

| source | as written | input that shows it | evidently intended | confidence | as-written member | corrected member |
|---|---|---|---|---|---|---|
| compaxx.c:195-200 | `ptPlaneDistance` computes `planeD` and never uses it, so `rmse` and the quality measure distances to the plane A x + B y + C z = 0 through the origin, while `finalizeCalibration` fits a plane through the centroid of the readings | the readings (0,0,1), (1,0,1), (0,1,1): all three lie on the fitted plane z = 1, yet the quality is below 100 (each distance is 1, and the figure is about 21.6) | the distance \|A x + B y + C z + D\| / \|(A, B, C)\| with the fitted plane's D, so that readings on the fitted plane score 100; `planeD` alone cannot give D, since it is \|D\| | not executed | OffsetPlane.OffsetReadingsAsWritten | OffsetPlane.FinalizeCorrected |

`PlaneFit.FinalizeCalibration` stays the model of the code as written.
`OffsetPlane.FinalizeCorrected` is the same operation with D counted, and
`OffsetPlane.CoplanarQualityFull` and `OffsetPlane.OffsetReadingsCorrected`
state its intended property.
