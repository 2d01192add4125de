/** `weightedDir` of compaxx.c: the plane normal as a vote-weighted sum of
    the three cofactor columns of the covariance matrix, normalised. */
module PlaneNormal {
  import opened RealMath
  import opened Vectors
  import opened Moments

  /** The determinant of the symmetric matrix with the given entries. */
  function SymDet(xx: real, xy: real, xz: real, yy: real, yz: real, zz: real): real {
    xx * (yy * zz - yz * yz) - xy * (xy * zz - yz * xz) + xz * (xy * yz - yy * xz)
  }

  function Det(m: CovarianceMatrix): real {
    SymDet(m.xx, m.xy, m.xz, m.yy, m.yz, m.zz)
  }

  /** `det_x`, `det_y`, `det_z`: the diagonal 2×2 principal minors. */
  function DetX(m: CovarianceMatrix): real { m.yy * m.zz - m.yz * m.yz }
  function DetY(m: CovarianceMatrix): real { m.xx * m.zz - m.xz * m.xz }
  function DetZ(m: CovarianceMatrix): real { m.xx * m.yy - m.xy * m.xy }

  /** The three `axis_dir` candidates: the cofactor columns of the matrix. */
  function CandidateX(m: CovarianceMatrix): Point {
    Point(DetX(m), m.xz * m.yz - m.xy * m.zz, m.xy * m.yz - m.xz * m.yy)
  }

  function CandidateY(m: CovarianceMatrix): Point {
    Point(m.xz * m.yz - m.xy * m.zz, DetY(m), m.xy * m.xz - m.yz * m.xx)
  }

  function CandidateZ(m: CovarianceMatrix): Point {
    Point(m.xy * m.yz - m.xz * m.yy, m.xy * m.xz - m.yz * m.xx, DetZ(m))
  }

  /** The cofactor columns form a symmetric matrix, the adjugate of a
      symmetric matrix: neighbouring candidates share their off-diagonal
      entries. */
  lemma SharedCofactors(m: CovarianceMatrix)
    ensures CandidateX(m).y == CandidateY(m).x
    ensures CandidateX(m).z == CandidateZ(m).x
    ensures CandidateY(m).z == CandidateZ(m).y
  {
  }

  /** The cofactor identity for one column, over plain numbers: the matrix
      (rows r, s, t) times the cofactor column (p, q, w) is det times a unit
      vector. */
  lemma CofactorColumn(xx: real, xy: real, xz: real, yy: real, yz: real, zz: real,
                       r1: real, r2: real, r3: real, s1: real, s2: real, s3: real,
                       t1: real, t2: real, t3: real, p: real, q: real, w: real,
                       ex: real, ey: real, ez: real, col: int)
    requires r1 == xx && r2 == xy && r3 == xz
    requires s1 == xy && s2 == yy && s3 == yz
    requires t1 == xz && t2 == yz && t3 == zz
    requires col == 0 ==> p == yy * zz - yz * yz && q == xz * yz - xy * zz && w == xy * yz - xz * yy
    requires col == 1 ==> p == xz * yz - xy * zz && q == xx * zz - xz * xz && w == xy * xz - yz * xx
    requires col == 2 ==> p == xy * yz - xz * yy && q == xy * xz - yz * xx && w == xx * yy - xy * xy
    requires ex == r1 * p + r2 * q + r3 * w
    requires ey == s1 * p + s2 * q + s3 * w
    requires ez == t1 * p + t2 * q + t3 * w
    ensures col == 0 ==> ex == SymDet(xx, xy, xz, yy, yz, zz) && ey == 0.0 && ez == 0.0
    ensures col == 1 ==> ex == 0.0 && ey == SymDet(xx, xy, xz, yy, yz, zz) && ez == 0.0
    ensures col == 2 ==> ex == 0.0 && ey == 0.0 && ez == SymDet(xx, xy, xz, yy, yz, zz)
  {
  }

  /** The x candidate is the first column of the adjugate: the matrix maps
      it to its determinant times the x axis. */
  lemma AdjugateColumnX(m: CovarianceMatrix)
    ensures MatVec(m, CandidateX(m)) == Point(Det(m), 0.0, 0.0)
  {
    CofactorColumn(m.xx, m.xy, m.xz, m.yy, m.yz, m.zz,
                   RowX(m).x, RowX(m).y, RowX(m).z, RowY(m).x, RowY(m).y, RowY(m).z,
                   RowZ(m).x, RowZ(m).y, RowZ(m).z,
                   CandidateX(m).x, CandidateX(m).y, CandidateX(m).z,
                   MatVec(m, CandidateX(m)).x, MatVec(m, CandidateX(m)).y, MatVec(m, CandidateX(m)).z, 0);
  }

  lemma AdjugateColumnY(m: CovarianceMatrix)
    ensures MatVec(m, CandidateY(m)) == Point(0.0, Det(m), 0.0)
  {
    CofactorColumn(m.xx, m.xy, m.xz, m.yy, m.yz, m.zz,
                   RowX(m).x, RowX(m).y, RowX(m).z, RowY(m).x, RowY(m).y, RowY(m).z,
                   RowZ(m).x, RowZ(m).y, RowZ(m).z,
                   CandidateY(m).x, CandidateY(m).y, CandidateY(m).z,
                   MatVec(m, CandidateY(m)).x, MatVec(m, CandidateY(m)).y, MatVec(m, CandidateY(m)).z, 1);
  }

  lemma AdjugateColumnZ(m: CovarianceMatrix)
    ensures MatVec(m, CandidateZ(m)) == Point(0.0, 0.0, Det(m))
  {
    CofactorColumn(m.xx, m.xy, m.xz, m.yy, m.yz, m.zz,
                   RowX(m).x, RowX(m).y, RowX(m).z, RowY(m).x, RowY(m).y, RowY(m).z,
                   RowZ(m).x, RowZ(m).y, RowZ(m).z,
                   CandidateZ(m).x, CandidateZ(m).y, CandidateZ(m).z,
                   MatVec(m, CandidateZ(m)).x, MatVec(m, CandidateZ(m)).y, MatVec(m, CandidateZ(m)).z, 2);
  }

  /** Each candidate is a column of the adjugate of the matrix. */
  lemma CandidatesAreAdjugate(m: CovarianceMatrix)
    ensures MatVec(m, CandidateX(m)) == Point(Det(m), 0.0, 0.0)
    ensures MatVec(m, CandidateY(m)) == Point(0.0, Det(m), 0.0)
    ensures MatVec(m, CandidateZ(m)) == Point(0.0, 0.0, Det(m))
  {
    AdjugateColumnX(m);
    AdjugateColumnY(m);
    AdjugateColumnZ(m);
  }

  /** The adjugate undoes the matrix up to its determinant, over plain
      numbers: cofactor row i times (e = M u) is det times u_i. */
  lemma AdjugateTimes(xx: real, xy: real, xz: real, yy: real, yz: real, zz: real,
                      r1: real, r2: real, r3: real, s1: real, s2: real, s3: real,
                      t1: real, t2: real, t3: real, ux: real, uy: real, uz: real,
                      ex: real, ey: real, ez: real)
    requires r1 == xx && r2 == xy && r3 == xz
    requires s1 == xy && s2 == yy && s3 == yz
    requires t1 == xz && t2 == yz && t3 == zz
    requires ex == r1 * ux + r2 * uy + r3 * uz
    requires ey == s1 * ux + s2 * uy + s3 * uz
    requires ez == t1 * ux + t2 * uy + t3 * uz
    ensures (yy * zz - yz * yz) * ex + (xz * yz - xy * zz) * ey + (xy * yz - xz * yy) * ez
            == SymDet(xx, xy, xz, yy, yz, zz) * ux
    ensures (xz * yz - xy * zz) * ex + (xx * zz - xz * xz) * ey + (xy * xz - yz * xx) * ez
            == SymDet(xx, xy, xz, yy, yz, zz) * uy
    ensures (xy * yz - xz * yy) * ex + (xy * xz - yz * xx) * ey + (xx * yy - xy * xy) * ez
            == SymDet(xx, xy, xz, yy, yz, zz) * uz
  {
  }

  /** A matrix that sends a nonzero vector to the origin is singular. */
  lemma NullVectorSingular(m: CovarianceMatrix, u: Point)
    requires u != Origin && MatVec(m, u) == Origin
    ensures Det(m) == 0.0
  {
    AdjugateTimes(m.xx, m.xy, m.xz, m.yy, m.yz, m.zz,
                  RowX(m).x, RowX(m).y, RowX(m).z, RowY(m).x, RowY(m).y, RowY(m).z,
                  RowZ(m).x, RowZ(m).y, RowZ(m).z, u.x, u.y, u.z, 0.0, 0.0, 0.0);
    var d := SymDet(m.xx, m.xy, m.xz, m.yy, m.yz, m.zz);
    if u.x != 0.0 {
      ZeroProduct(d, u.x, d * u.x);
    } else if u.y != 0.0 {
      ZeroProduct(d, u.y, d * u.y);
    } else {
      ZeroProduct(d, u.z, d * u.z);
    }
  }

  /** One vote of `weightedDir`: the candidate weighted by det², with the
      weight negated when the candidate points away from the running sum.
      The weighted candidate never points away from the sum. */
  function Vote(acc: Point, cand: Point, det: real): (r: Point)
    ensures Dot(acc, r) >= 0.0
    ensures r == Scale(cand, Sq(det)) || r == Scale(cand, -Sq(det))
    ensures Dot(acc, cand) >= 0.0 ==> r == Scale(cand, Sq(det))
  {
    var weight := if Dot(acc, cand) < 0.0 then -Sq(det) else Sq(det);
    DotScaleRight(acc, cand, weight);
    SignedWeight(Dot(acc, cand), Sq(det), weight, Dot(acc, Scale(cand, weight)));
    Scale(cand, weight)
  }

  /** Adding one vote to the running sum (`addTo(weighted_dir, axis_dir)`):
      the sum never gets shorter, grows strictly when a nonzero candidate
      has a nonzero determinant, and is unchanged by a zero determinant. */
  function Step(acc: Point, cand: Point, det: real): (r: Point)
    ensures Dot(r, r) >= Dot(acc, acc)
    ensures det != 0.0 && cand != Origin ==> Dot(r, r) > Dot(acc, acc)
    ensures det == 0.0 ==> r == acc
  {
    var v := Vote(acc, cand, det);
    NormGrowth(acc, v);
    DotSelf(v);
    SqPositive(det);
    if det == 0.0 then
      SquareOfZero(det, Sq(det));
      ScaleZero(cand, Sq(det));
      ScaleZero(cand, -Sq(det));
      Add(acc, v)
    else if cand != Origin then
      ScaleNonZero(cand, Sq(det));
      ScaleNonZero(cand, -Sq(det));
      Add(acc, v)
    else
      Add(acc, v)
  }

  /** Some diagonal minor is nonzero: `weightedDir` then has a direction to
      normalise. */
  predicate HasDirection(m: CovarianceMatrix) {
    DetX(m) != 0.0 || DetY(m) != 0.0 || DetZ(m) != 0.0
  }

  /** With all three diagonal minors zero every vote has weight zero, so
      the sum `normalize` receives is the zero vector and its largest
      component, the first divisor of `normalize`, is zero. */
  lemma NoMinorNoDirection(m: CovarianceMatrix)
    requires DetX(m) == 0.0 && DetY(m) == 0.0 && DetZ(m) == 0.0
    ensures WeightedSum(m) == Origin
    ensures Largest(WeightedSum(m)) == 0.0
  {
    assert !HasDirection(m);
  }

  /** The zero matrix has no nonzero minor. */
  lemma ZeroMinors(m: CovarianceMatrix)
    requires m == Zero
    ensures DetX(m) == 0.0 && DetY(m) == 0.0 && DetZ(m) == 0.0
  {
    MinorOfZeros(m.yy, m.zz, m.yz, DetX(m));
    MinorOfZeros(m.xx, m.zz, m.xz, DetY(m));
    MinorOfZeros(m.xx, m.yy, m.xy, DetZ(m));
  }

  lemma MinorOfZeros(a: real, b: real, c: real, r: real)
    requires a == 0.0 && c == 0.0 && r == a * b - c * c
    ensures r == 0.0
  {
  }

  /** The candidate columns in the order `weightedDir` visits them: x, y,
      then z. */
  function Candidate(m: CovarianceMatrix, i: nat): Point
    requires i < 3
  {
    if i == 0 then CandidateX(m) else if i == 1 then CandidateY(m) else CandidateZ(m)
  }

  /** The diagonal minor whose square weights the i-th candidate. */
  function Minor(m: CovarianceMatrix, i: nat): real
    requires i < 3
  {
    if i == 0 then DetX(m) else if i == 1 then DetY(m) else DetZ(m)
  }

  /** `weighted_dir` once the first i candidates have been voted in. */
  function VotedSum(m: CovarianceMatrix, i: nat): Point
    requires i <= 3
  {
    if i == 0 then Origin else Step(VotedSum(m, i - 1), Candidate(m, i - 1), Minor(m, i - 1))
  }

  /** One vote of `weightedDir`. */
  lemma VotedSumStep(m: CovarianceMatrix, i: nat)
    requires 0 < i <= 3
    ensures VotedSum(m, i) == Step(VotedSum(m, i - 1), Candidate(m, i - 1), Minor(m, i - 1))
  {
  }

  /** Nothing is on the sum before the first vote, so the first candidate
      always goes in with the non-negative weight det_x². */
  lemma FirstVote(m: CovarianceMatrix)
    ensures VotedSum(m, 1) == Scale(CandidateX(m), Sq(DetX(m)))
    ensures 0.0 <= Sq(DetX(m))
  {
    VotedSumStep(m, 1);
    SquareNonNegative(DetX(m), Sq(DetX(m)));
  }

  /** A candidate carries its own minor as one of its entries, so it is
      nonzero whenever the minor is. */
  lemma CandidateCarriesMinor(m: CovarianceMatrix, i: nat)
    requires i < 3
    ensures Minor(m, i) != 0.0 ==> Candidate(m, i) != Origin
  {
  }

  /** A vote keeps a nonzero sum nonzero, and makes a sum nonzero exactly
      when its minor is nonzero. */
  lemma StepNonZero(acc: Point, cand: Point, det: real, r: Point)
    requires det != 0.0 ==> cand != Origin
    requires r == Step(acc, cand, det)
    ensures r != Origin <==> (acc != Origin || det != 0.0)
  {
    DotSelf(acc);
    DotSelf(r);
  }

  /** After i votes the sum is nonzero exactly when one of the first i
      minors is. */
  lemma {:induction false} VotedSumNonZero(m: CovarianceMatrix, i: nat)
    requires i <= 3
    ensures VotedSum(m, i) != Origin <==> exists j :: 0 <= j < i && Minor(m, j) != 0.0
  {
    if i > 0 {
      VotedSumNonZero(m, i - 1);
      VotedSumStep(m, i);
      CandidateCarriesMinor(m, i - 1);
      StepNonZero(VotedSum(m, i - 1), Candidate(m, i - 1), Minor(m, i - 1), VotedSum(m, i));
    }
  }

  /** The `weighted_dir` of `weightedDir` before normalising: the sum of
      all three votes. It is nonzero exactly when some diagonal minor is. */
  function WeightedSum(m: CovarianceMatrix): (r: Point)
    ensures r != Origin <==> HasDirection(m)
  {
    VotedSumNonZero(m, 3);
    assert HasDirection(m) <==> Minor(m, 0) != 0.0 || Minor(m, 1) != 0.0 || Minor(m, 2) != 0.0;
    VotedSum(m, 3)
  }

  /** `weightedDir`: the unit vector along the weighted sum of candidates.
      The C code divides by zero when every diagonal minor vanishes; the
      model requires one not to. */
  function WeightedDir(m: CovarianceMatrix, sqrt: real -> real): (r: Point)
    requires IsSqrt(sqrt)
    requires HasDirection(m)
    ensures Dot(r, r) == 1.0
    ensures PositiveMultiple(r, WeightedSum(m))
  {
    Normalize(WeightedSum(m), sqrt)
  }

  lemma MatVecAddVec(m: CovarianceMatrix, a: Point, b: Point)
    ensures MatVec(m, Add(a, b)) == Add(MatVec(m, a), MatVec(m, b))
  {
    DotAdd(RowX(m), a, b);
    DotAdd(RowY(m), a, b);
    DotAdd(RowZ(m), a, b);
  }

  lemma MatVecScaleVec(m: CovarianceMatrix, a: Point, k: real)
    ensures MatVec(m, Scale(a, k)) == Scale(MatVec(m, a), k)
  {
    DotScaleRight(RowX(m), a, k);
    DotScaleRight(RowY(m), a, k);
    DotScaleRight(RowZ(m), a, k);
    MulEqual(MatVec(m, a).x, Dot(RowX(m), a), k);
    MulEqual(MatVec(m, a).y, Dot(RowY(m), a), k);
    MulEqual(MatVec(m, a).z, Dot(RowZ(m), a), k);
  }

  /** A vector pointing along a null vector is a null vector. */
  lemma NullDirection(m: CovarianceMatrix, r: Point, v: Point)
    requires MatVec(m, v) == Origin && PositiveMultiple(r, v)
    ensures MatVec(m, r) == Origin
  {
    var k :| 0.0 < k && r == Scale(v, k);
    MatVecScaleVec(m, v, k);
  }

  /** A step that adds a multiple of a null vector to a null vector stays in
      the null space. */
  lemma StepNull(m: CovarianceMatrix, acc: Point, cand: Point, det: real)
    requires MatVec(m, acc) == Origin && MatVec(m, cand) == Origin
    ensures MatVec(m, Step(acc, cand, det)) == Origin
  {
    var v := Vote(acc, cand, det);
    MatVecAddVec(m, acc, v);
    MatVecScaleVec(m, cand, Sq(det));
    MatVecScaleVec(m, cand, -Sq(det));
  }

  /** For a singular matrix every candidate is a null vector, so every
      partial sum of votes is one too. */
  lemma {:induction false} VotedSumNull(m: CovarianceMatrix, i: nat)
    requires Det(m) == 0.0 && i <= 3
    ensures MatVec(m, VotedSum(m, i)) == Origin
  {
    if i == 0 {
      assert MatVec(m, Origin) == Origin;
    } else {
      VotedSumNull(m, i - 1);
      VotedSumStep(m, i);
      CandidateNull(m, i - 1);
      StepNull(m, VotedSum(m, i - 1), Candidate(m, i - 1), Minor(m, i - 1));
    }
  }

  lemma CandidateNull(m: CovarianceMatrix, i: nat)
    requires Det(m) == 0.0 && i < 3
    ensures MatVec(m, Candidate(m, i)) == Origin
  {
    CandidatesAreAdjugate(m);
  }

  /** For a singular matrix every candidate is a null vector, so the
      weighted sum is one too. */
  lemma WeightedSumNull(m: CovarianceMatrix)
    requires Det(m) == 0.0
    ensures MatVec(m, WeightedSum(m)) == Origin
  {
    VotedSumNull(m, 3);
  }

  /** When the matrix is singular, `weightedDir` finds a unit vector of its
      null space: the normal of the plane the samples spread along. */
  lemma WeightedDirNull(m: CovarianceMatrix, sqrt: real -> real)
    requires IsSqrt(sqrt)
    requires HasDirection(m) && Det(m) == 0.0
    ensures MatVec(m, WeightedDir(m, sqrt)) == Origin
  {
    WeightedSumNull(m);
    NullDirection(m, WeightedDir(m, sqrt), WeightedSum(m));
  }
}
