/** The general 3×3 `Matrix` of compaxx_int.h with `matrixDet` and
    `matrixInv` of extra.c. The inverse is the adjugate divided by the
    determinant; the adjugate's columns are cross products of the rows. */
module Matrix3 {
  import opened RealMath
  import opened Vectors

  /** Rows (a1, a2, a3), (b1, b2, b3), (c1, c2, c3). */
  datatype Matrix = Matrix(a1: real, a2: real, a3: real,
                           b1: real, b2: real, b3: real,
                           c1: real, c2: real, c3: real)

  function RowA(m: Matrix): Point { Point(m.a1, m.a2, m.a3) }
  function RowB(m: Matrix): Point { Point(m.b1, m.b2, m.b3) }
  function RowC(m: Matrix): Point { Point(m.c1, m.c2, m.c3) }

  function Col1(m: Matrix): Point { Point(m.a1, m.b1, m.c1) }
  function Col2(m: Matrix): Point { Point(m.a2, m.b2, m.c2) }
  function Col3(m: Matrix): Point { Point(m.a3, m.b3, m.c3) }

  function Transpose(m: Matrix): Matrix {
    Matrix(m.a1, m.b1, m.c1, m.a2, m.b2, m.c2, m.a3, m.b3, m.c3)
  }

  /** d times the identity. */
  function Diagonal(d: real): Matrix {
    Matrix(d, 0.0, 0.0, 0.0, d, 0.0, 0.0, 0.0, d)
  }

  const Identity := Diagonal(1.0)

  /** The product a b: each entry is a row of a against a column of b. */
  function Mul(a: Matrix, b: Matrix): Matrix {
    Matrix(Dot(RowA(a), Col1(b)), Dot(RowA(a), Col2(b)), Dot(RowA(a), Col3(b)),
           Dot(RowB(a), Col1(b)), Dot(RowB(a), Col2(b)), Dot(RowB(a), Col3(b)),
           Dot(RowC(a), Col1(b)), Dot(RowC(a), Col2(b)), Dot(RowC(a), Col3(b)))
  }

  /** `matrixDet`: the six-term expansion of the determinant. */
  function Det(m: Matrix): real {
    m.a1 * m.b2 * m.c3 - m.a1 * m.b3 * m.c2 - m.a2 * m.b1 * m.c3
    + m.a2 * m.b3 * m.c1 + m.a3 * m.b1 * m.c2 - m.a3 * m.b2 * m.c1
  }

  /** The scalar triple product is unchanged by rotating its factors. */
  lemma TripleRotate(a: Point, b: Point, c: Point)
    ensures Dot(a, Cross(b, c)) == Dot(b, Cross(c, a))
  {
  }

  /** A triple product with a repeated factor vanishes. */
  lemma TripleRepeated(a: Point, b: Point)
    ensures Dot(a, Cross(b, a)) == 0.0
    ensures Dot(a, Cross(a, b)) == 0.0
  {
    CrossOrthogonal(b, a);
    CrossOrthogonal(a, b);
    DotSymmetric(a, Cross(b, a));
    DotSymmetric(a, Cross(a, b));
  }

  /** The determinant is the triple product of the rows and also of the
      columns. */
  lemma DetIsTripleProduct(m: Matrix)
    ensures Det(m) == Dot(RowA(m), Cross(RowB(m), RowC(m)))
    ensures Det(m) == Dot(Col1(m), Cross(Col2(m), Col3(m)))
  {
  }

  /** Transposing does not change the determinant. */
  lemma DetTranspose(m: Matrix)
    ensures Det(Transpose(m)) == Det(m)
  {
    DetIsTripleProduct(m);
    DetIsTripleProduct(Transpose(m));
    assert RowA(Transpose(m)) == Col1(m);
    assert RowB(Transpose(m)) == Col2(m);
    assert RowC(Transpose(m)) == Col3(m);
  }

  /** The numerators of `matrixInv`: the adjugate of m. */
  function Adjugate(m: Matrix): Matrix {
    Matrix(m.b2 * m.c3 - m.b3 * m.c2, m.a3 * m.c2 - m.a2 * m.c3, m.a2 * m.b3 - m.a3 * m.b2,
           m.b3 * m.c1 - m.b1 * m.c3, m.a1 * m.c3 - m.a3 * m.c1, m.a3 * m.b1 - m.a1 * m.b3,
           m.b1 * m.c2 - m.b2 * m.c1, m.a2 * m.c1 - m.a1 * m.c2, m.a1 * m.b2 - m.a2 * m.b1)
  }

  /** The adjugate's columns are cross products of pairs of rows. */
  lemma AdjugateColumns(m: Matrix)
    ensures Col1(Adjugate(m)) == Cross(RowB(m), RowC(m))
    ensures Col2(Adjugate(m)) == Cross(RowC(m), RowA(m))
    ensures Col3(Adjugate(m)) == Cross(RowA(m), RowB(m))
  {
    AdjugateColumn1(m);
    AdjugateColumn2(m);
    AdjugateColumn3(m);
  }

  lemma AdjugateColumn1(m: Matrix)
    ensures Col1(Adjugate(m)) == Cross(RowB(m), RowC(m))
  {
  }

  lemma AdjugateColumn2(m: Matrix)
    ensures Col2(Adjugate(m)) == Cross(RowC(m), RowA(m))
  {
  }

  lemma AdjugateColumn3(m: Matrix)
    ensures Col3(Adjugate(m)) == Cross(RowA(m), RowB(m))
  {
  }

  /** The adjugate's rows are cross products of pairs of columns. */
  lemma AdjugateRows(m: Matrix)
    ensures RowA(Adjugate(m)) == Cross(Col2(m), Col3(m))
    ensures RowB(Adjugate(m)) == Cross(Col3(m), Col1(m))
    ensures RowC(Adjugate(m)) == Cross(Col1(m), Col2(m))
  {
    AdjugateRowA(m);
    AdjugateRowB(m);
    AdjugateRowC(m);
  }

  lemma AdjugateRowA(m: Matrix)
    ensures RowA(Adjugate(m)) == Cross(Col2(m), Col3(m))
  {
  }

  lemma AdjugateRowB(m: Matrix)
    ensures RowB(Adjugate(m)) == Cross(Col3(m), Col1(m))
  {
  }

  lemma AdjugateRowC(m: Matrix)
    ensures RowC(Adjugate(m)) == Cross(Col1(m), Col2(m))
  {
  }

  /** m adj(m) = det(m) I. */
  lemma AdjugateRight(m: Matrix)
    ensures Mul(m, Adjugate(m)) == Diagonal(Det(m))
  {
    var a, b, c := RowA(m), RowB(m), RowC(m);
    AdjugateColumns(m);
    DetIsTripleProduct(m);
    TripleRotate(a, b, c);
    TripleRotate(b, c, a);
    TripleRepeated(a, c);
    TripleRepeated(a, b);
    TripleRepeated(b, c);
    TripleRepeated(b, a);
    TripleRepeated(c, b);
    TripleRepeated(c, a);
  }

  /** adj(m) m = det(m) I. */
  lemma AdjugateLeft(m: Matrix)
    ensures Mul(Adjugate(m), m) == Diagonal(Det(m))
  {
    var p, q, r := Col1(m), Col2(m), Col3(m);
    AdjugateRows(m);
    DetIsTripleProduct(m);
    TripleRotate(p, q, r);
    TripleRotate(q, r, p);
    TripleRepeated(p, r);
    TripleRepeated(p, q);
    TripleRepeated(q, r);
    TripleRepeated(q, p);
    TripleRepeated(r, q);
    TripleRepeated(r, p);
    DotSymmetric(Cross(q, r), p);
    DotSymmetric(Cross(q, r), q);
    DotSymmetric(Cross(q, r), r);
    DotSymmetric(Cross(r, p), p);
    DotSymmetric(Cross(r, p), q);
    DotSymmetric(Cross(r, p), r);
    DotSymmetric(Cross(p, q), p);
    DotSymmetric(Cross(p, q), q);
    DotSymmetric(Cross(p, q), r);
  }

  /** `matrixInv`: each adjugate entry divided by the determinant. The C code
      divides by zero for a singular matrix; here that is a precondition. */
  function Inverse(m: Matrix): Matrix
    requires Det(m) != 0.0
  {
    var d := Det(m);
    Matrix((m.b2 * m.c3 - m.b3 * m.c2) / d, (m.a3 * m.c2 - m.a2 * m.c3) / d,
           (m.a2 * m.b3 - m.a3 * m.b2) / d,
           (m.b3 * m.c1 - m.b1 * m.c3) / d, (m.a1 * m.c3 - m.a3 * m.c1) / d,
           (m.a3 * m.b1 - m.a1 * m.b3) / d,
           (m.b1 * m.c2 - m.b2 * m.c1) / d, (m.a2 * m.c1 - m.a1 * m.c2) / d,
           (m.a1 * m.b2 - m.a2 * m.b1) / d)
  }

  /** A vector with every component divided by d. */
  function Over(p: Point, d: real): Point
    requires d != 0.0
  {
    Point(p.x / d, p.y / d, p.z / d)
  }

  lemma DotOver(p: Point, c: Point, d: real)
    requires d != 0.0
    ensures Dot(Over(p, d), c) == Dot(p, c) / d
    ensures Dot(c, Over(p, d)) == Dot(c, p) / d
  {
    DotSymmetric(p, c);
    DivIsMulReciprocal(p.x, d);
    DivIsMulReciprocal(p.y, d);
    DivIsMulReciprocal(p.z, d);
    DivIsMulReciprocal(Dot(p, c), d);
  }

  /** The rows and columns of the inverse are those of the adjugate divided
      by the determinant. */
  lemma InverseParts(m: Matrix)
    requires Det(m) != 0.0
    ensures RowA(Inverse(m)) == Over(RowA(Adjugate(m)), Det(m))
    ensures RowB(Inverse(m)) == Over(RowB(Adjugate(m)), Det(m))
    ensures RowC(Inverse(m)) == Over(RowC(Adjugate(m)), Det(m))
    ensures Col1(Inverse(m)) == Over(Col1(Adjugate(m)), Det(m))
    ensures Col2(Inverse(m)) == Over(Col2(Adjugate(m)), Det(m))
    ensures Col3(Inverse(m)) == Over(Col3(Adjugate(m)), Det(m))
  {
  }

  lemma UnitQuotients(d: real)
    requires d != 0.0
    ensures d / d == 1.0 && 0.0 / d == 0.0
  {
  }

  /** When `matrixDet(m)` is nonzero, `matrixInv(m)` times m is the
      identity. */
  lemma InverseLeft(m: Matrix)
    requires Det(m) != 0.0
    ensures Mul(Inverse(m), m) == Identity
  {
    var d := Det(m);
    var adj := Adjugate(m);
    AdjugateLeft(m);
    InverseParts(m);
    DotOver(RowA(adj), Col1(m), d);
    DotOver(RowA(adj), Col2(m), d);
    DotOver(RowA(adj), Col3(m), d);
    DotOver(RowB(adj), Col1(m), d);
    DotOver(RowB(adj), Col2(m), d);
    DotOver(RowB(adj), Col3(m), d);
    DotOver(RowC(adj), Col1(m), d);
    DotOver(RowC(adj), Col2(m), d);
    DotOver(RowC(adj), Col3(m), d);
    UnitQuotients(d);
  }

  /** ... and m times `matrixInv(m)` is the identity too. */
  lemma InverseRight(m: Matrix)
    requires Det(m) != 0.0
    ensures Mul(m, Inverse(m)) == Identity
  {
    var d := Det(m);
    var adj := Adjugate(m);
    AdjugateRight(m);
    InverseParts(m);
    DotOver(Col1(adj), RowA(m), d);
    DotOver(Col2(adj), RowA(m), d);
    DotOver(Col3(adj), RowA(m), d);
    DotOver(Col1(adj), RowB(m), d);
    DotOver(Col2(adj), RowB(m), d);
    DotOver(Col3(adj), RowB(m), d);
    DotOver(Col1(adj), RowC(m), d);
    DotOver(Col2(adj), RowC(m), d);
    DotOver(Col3(adj), RowC(m), d);
    UnitQuotients(d);
  }

  /** With determinant 1 the inverse is the adjugate itself. */
  lemma UnitDetInverse(m: Matrix)
    requires Det(m) == 1.0
    ensures Inverse(m) == Adjugate(m)
  {
  }

  /** The matrix of test.c. */
  const TestMatrix := Matrix(1.0, 2.0, 3.0, 0.0, 1.0, 4.0, 5.0, 6.0, 0.0)

  lemma TestDet(m: Matrix)
    requires m == TestMatrix
    ensures Det(m) == 1.0
  {
  }

  lemma TestAdjugateRowA(m: Matrix)
    requires m == TestMatrix
    ensures RowA(Adjugate(m)) == Point(-24.0, 18.0, 5.0)
  {
  }

  lemma TestAdjugateRowB(m: Matrix)
    requires m == TestMatrix
    ensures RowB(Adjugate(m)) == Point(20.0, -15.0, -4.0)
  {
  }

  lemma TestAdjugateRowC(m: Matrix)
    requires m == TestMatrix
    ensures RowC(Adjugate(m)) == Point(-5.0, 4.0, 1.0)
  {
  }

  /** The determinant of [[1, 2, 3], [0, 1, 4], [5, 6, 0]] is 1 and its
      inverse is [[-24, 18, 5], [20, -15, -4], [-5, 4, 1]]. */
  lemma TestInverse(m: Matrix)
    requires m == TestMatrix
    ensures Det(m) == 1.0
    ensures Inverse(m) == Matrix(-24.0, 18.0, 5.0, 20.0, -15.0, -4.0, -5.0, 4.0, 1.0)
  {
    TestDet(m);
    UnitDetInverse(m);
    TestAdjugateRowA(m);
    TestAdjugateRowB(m);
    TestAdjugateRowC(m);
  }
}
