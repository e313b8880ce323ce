/**
 * Properties of the Matrix2 value operations: the algebraic laws the
 * operators obey, the inverse law, and the behaviour of the rotation
 * guard of `getAngle`.
 */
module MatrixProperties {
  import opened MathUtils
  import opened MyVector
  import opened MyMatrix

  // ---------------------------------------------------------------------
  // Layout and transpose
  // ---------------------------------------------------------------------

  /** The transposed copy in `mt` is the matrix read row by row. */
  lemma TransposedIsRowMajor(M: Mat2, i: int, j: int)
    requires 0 <= i < 2 && 0 <= j < 2
    ensures Flat(Transposed(M))[i * 2 + j] == Get(M, i, j)
  {
    assert Flat(Transposed(M))[i * 2 + j] == Get(Transposed(M), j, i);
  }

  /** Transposing twice gives back the matrix, entry for entry. */
  lemma TransposeInvolution(M: Mat2)
    ensures Transposed(Transposed(M)) == M
    ensures Eq(Transposed(Transposed(M)), M)
  {
  }

  lemma DetTransposed(M: Mat2)
    ensures Det(Transposed(M)) == Det(M)
  {
  }

  /** The determinant in row/column terms. */
  lemma DetByEntries(M: Mat2)
    ensures Det(M) == Get(M, 0, 0) * Get(M, 1, 1) - Get(M, 0, 1) * Get(M, 1, 0)
  {
  }

  /** The worked example `Matrix2(1, 2, 4, 5)`: determinant -3 and its inverse. */
  lemma WorkedExample()
    ensures Det(Mat2(1.0, 2.0, 4.0, 5.0)) == -3.0
    ensures InverseOf(Mat2(1.0, 2.0, 4.0, 5.0)) == Ok(Scale(Mat2(5.0, -2.0, -4.0, 1.0), 1.0 / -3.0))
    ensures Row(Mat2(1.0, 2.0, 4.0, 5.0), 0) == Ok(Vec2(1.0, 4.0))
  {
  }

  // ---------------------------------------------------------------------
  // Entrywise operators and equality
  // ---------------------------------------------------------------------

  lemma AddSubCancel(A: Mat2, B: Mat2)
    ensures Sub(Add(A, B), B) == A
    ensures Add(Sub(A, B), B) == A
  {
  }

  lemma NegInvolution(A: Mat2)
    ensures Neg(Neg(A)) == A
    ensures Add(A, Neg(A)) == Scale(A, 0.0)
  {
  }

  /** `==` is equality of the stored entries and `!=` is its negation. */
  lemma EqIsEquality(A: Mat2, B: Mat2)
    ensures Eq(A, B) <==> A == B
    ensures Ne(A, B) == !Eq(A, B)
  {
  }

  /** `equal` is strict: it needs a positive tolerance, and then it is reflexive and symmetric. */
  lemma EqualNeedsPositiveTolerance(A: Mat2, B: Mat2, e: real)
    ensures Equal(A, B, e) ==> e > 0.0
    ensures !Equal(A, B, 0.0)
    ensures Equal(A, A, e) <==> e > 0.0
    ensures Equal(A, B, e) == Equal(B, A, e)
    ensures Eq(A, B) && e > 0.0 ==> Equal(A, B, e)
  {
    assert Abs(A.m0 - B.m0) == Abs(B.m0 - A.m0);
    assert Abs(A.m1 - B.m1) == Abs(B.m1 - A.m1);
    assert Abs(A.m2 - B.m2) == Abs(B.m2 - A.m2);
    assert Abs(A.m3 - B.m3) == Abs(B.m3 - A.m3);
  }

  // ---------------------------------------------------------------------
  // Products
  // ---------------------------------------------------------------------

  /** `M * s` scales every entry. */
  lemma ScaleEntries(M: Mat2, s: real, i: int, j: int)
    requires 0 <= i < 2 && 0 <= j < 2
    ensures Get(Scale(M, s), i, j) == Get(M, i, j) * s
    ensures Get(ScaleLeft(s, M), i, j) == s * Get(M, i, j)
  {
  }

  /** The column-major product formula is the row-by-column product. */
  lemma MatMulEntries(A: Mat2, B: Mat2, i: int, j: int)
    requires 0 <= i < 2 && 0 <= j < 2
    ensures Get(MatMul(A, B), i, j) == Get(A, i, 0) * Get(B, 0, j) + Get(A, i, 1) * Get(B, 1, j)
  {
  }

  /** `M * v` is the matrix applied to the column v. */
  lemma MulVecComponents(M: Mat2, v: Vec2)
    ensures MulVec(M, v).x == Get(M, 0, 0) * v.x + Get(M, 0, 1) * v.y
    ensures MulVec(M, v).y == Get(M, 1, 0) * v.x + Get(M, 1, 1) * v.y
    ensures MulVec(M, v) == Vec2(Dot2(Row(M, 0).value, v), Dot2(Row(M, 1).value, v))
  {
  }

  /** The matrix `identity()` writes is a two-sided unit of the product. */
  lemma IdentityIsUnit(M: Mat2, v: Vec2)
    ensures MatMul(Identity(), M) == M
    ensures MatMul(M, Identity()) == M
    ensures MulVec(Identity(), v) == v
    ensures VecMul(v, Identity()) == v
  {
  }

  /** `(A * B) * v == A * (B * v)`: the product composes the maps. */
  lemma MulVecComposes(A: Mat2, B: Mat2, v: Vec2)
    ensures MulVec(MatMul(A, B), v) == MulVec(A, MulVec(B, v))
  {
  }

  /** `v * M` multiplies v as a row: its components are v dotted with the columns. */
  lemma VecMulUsesColumns(v: Vec2, M: Mat2)
    ensures VecMul(v, M) == Vec2(Dot2(v, Column(M, 0).value), Dot2(v, Column(M, 1).value))
  {
  }

  /** The determinant of a product is the product of the determinants. */
  lemma DetMultiplicative(A: Mat2, B: Mat2)
    ensures Det(MatMul(A, B)) == Det(A) * Det(B)
  {
  }

  // ---------------------------------------------------------------------
  // Inverse
  // ---------------------------------------------------------------------

  /** The adjugate times the matrix is det times the identity, on both sides. */
  lemma AdjugateProducts(M: Mat2)
    ensures MatMul(M, Adjugate(M)) == Mat2(Det(M), 0.0, 0.0, Det(M))
    ensures MatMul(Adjugate(M), M) == Mat2(Det(M), 0.0, 0.0, Det(M))
  {
  }

  /** Scaling the right factor of a product scales the product. */
  lemma MatMulScaleRight(A: Mat2, B: Mat2, s: real)
    ensures MatMul(A, Scale(B, s)) == Scale(MatMul(A, B), s)
  {
    ScaleRightM0(A, B, s);
    ScaleRightM1(A, B, s);
    ScaleRightM2(A, B, s);
    ScaleRightM3(A, B, s);
  }

  /** Scaling the left factor of a product scales the product. */
  lemma MatMulScaleLeft(A: Mat2, B: Mat2, s: real)
    ensures MatMul(Scale(A, s), B) == Scale(MatMul(A, B), s)
  {
    ScaleLeftM0(A, B, s);
    ScaleLeftM1(A, B, s);
    ScaleLeftM2(A, B, s);
    ScaleLeftM3(A, B, s);
  }

  // One entry at a time: each product entry is a two-term dot product.

  lemma ScaleRightM0(A: Mat2, B: Mat2, s: real)
    ensures MatMul(A, Scale(B, s)).m0 == Scale(MatMul(A, B), s).m0
  {
    DotOfScaledRight(A.m0, A.m2, B.m0, B.m1, s, Scale(B, s).m0, Scale(B, s).m1, MatMul(A, B).m0);
  }

  lemma ScaleLeftM0(A: Mat2, B: Mat2, s: real)
    ensures MatMul(Scale(A, s), B).m0 == Scale(MatMul(A, B), s).m0
  {
    DotOfScaledLeft(A.m0, A.m2, B.m0, B.m1, s, Scale(A, s).m0, Scale(A, s).m2, MatMul(A, B).m0);
  }

  lemma ScaleRightM1(A: Mat2, B: Mat2, s: real)
    ensures MatMul(A, Scale(B, s)).m1 == Scale(MatMul(A, B), s).m1
  {
    DotOfScaledRight(A.m1, A.m3, B.m0, B.m1, s, Scale(B, s).m0, Scale(B, s).m1, MatMul(A, B).m1);
  }

  lemma ScaleLeftM1(A: Mat2, B: Mat2, s: real)
    ensures MatMul(Scale(A, s), B).m1 == Scale(MatMul(A, B), s).m1
  {
    DotOfScaledLeft(A.m1, A.m3, B.m0, B.m1, s, Scale(A, s).m1, Scale(A, s).m3, MatMul(A, B).m1);
  }

  lemma ScaleRightM2(A: Mat2, B: Mat2, s: real)
    ensures MatMul(A, Scale(B, s)).m2 == Scale(MatMul(A, B), s).m2
  {
    DotOfScaledRight(A.m0, A.m2, B.m2, B.m3, s, Scale(B, s).m2, Scale(B, s).m3, MatMul(A, B).m2);
  }

  lemma ScaleLeftM2(A: Mat2, B: Mat2, s: real)
    ensures MatMul(Scale(A, s), B).m2 == Scale(MatMul(A, B), s).m2
  {
    DotOfScaledLeft(A.m0, A.m2, B.m2, B.m3, s, Scale(A, s).m0, Scale(A, s).m2, MatMul(A, B).m2);
  }

  lemma ScaleRightM3(A: Mat2, B: Mat2, s: real)
    ensures MatMul(A, Scale(B, s)).m3 == Scale(MatMul(A, B), s).m3
  {
    DotOfScaledRight(A.m1, A.m3, B.m2, B.m3, s, Scale(B, s).m2, Scale(B, s).m3, MatMul(A, B).m3);
  }

  lemma ScaleLeftM3(A: Mat2, B: Mat2, s: real)
    ensures MatMul(Scale(A, s), B).m3 == Scale(MatMul(A, B), s).m3
  {
    DotOfScaledLeft(A.m1, A.m3, B.m2, B.m3, s, Scale(A, s).m1, Scale(A, s).m3, MatMul(A, B).m3);
  }

  lemma DotOfScaledRight(a: real, b: real, c: real, d: real, s: real, q0: real, q1: real, p: real)
    requires q0 == c * s && q1 == d * s && p == a * c + b * d
    ensures a * q0 + b * q1 == p * s
  {
  }

  lemma DotOfScaledLeft(a: real, b: real, c: real, d: real, s: real, q0: real, q1: real, p: real)
    requires q0 == a * s && q1 == b * s && p == a * c + b * d
    ensures q0 * c + q1 * d == p * s
  {
  }

  /** When `inverse()` succeeds, the old and the new matrix multiply to the identity either way. */
  lemma {:induction false} InverseIsTwoSided(M: Mat2)
    requires InverseOf(M).Ok?
    ensures MatMul(M, InverseOf(M).value) == Identity()
    ensures MatMul(InverseOf(M).value, M) == Identity()
  {
    var d := Det(M);
    assert d != 0.0;
    var inv := 1.0 / d;
    assert InverseOf(M).value == Scale(Adjugate(M), inv);
    AdjugateProducts(M);
    MatMulScaleRight(M, Adjugate(M), inv);
    MatMulScaleLeft(Adjugate(M), M, inv);
    assert d * inv == 1.0;
    assert Scale(Mat2(d, 0.0, 0.0, d), inv) == Identity();
  }

  /** Scaling by one changes nothing. */
  lemma ScaleByOne(M: Mat2)
    ensures Scale(M, 1.0) == M
  {
  }

  /** With determinant exactly one, `inverse()` leaves the adjugate. */
  lemma {:induction false} UnitDetInverse(M: Mat2)
    requires Det(M) == 1.0
    ensures InverseOf(M) == Ok(Adjugate(M))
  {
    assert InverseOf(M) == Ok(Scale(Adjugate(M), 1.0));
    ScaleByOne(Adjugate(M));
  }

  /** The identity is its own inverse. */
  lemma {:induction false} IdentityIsOwnInverse()
    ensures InverseOf(Identity()) == Ok(Identity())
  {
    var I := Mat2(1.0, 0.0, 0.0, 1.0);
    assert I == Identity();
    assert InverseOf(I) == Ok(I) by {
      assert Det(I) == 1.0;
      UnitDetInverse(I);
    }
  }

  // ---------------------------------------------------------------------
  // getAngle
  // ---------------------------------------------------------------------

  /** `getAngle` as written accepts a matrix that scales instead of rotating. */
  lemma AngleGuardAcceptsNonRotation(theta: real, unit: AngleUnit)
    ensures var M := Mat2(2.0, 0.0, 0.0, 0.5);
      GetAngle(M, theta, unit).Ok? && !IsRotation(M)
  {
    var M := Mat2(2.0, 0.0, 0.0, 0.5);
    assert Det(M) == 1.0;
    assert M.m0 * M.m0 + M.m1 * M.m1 - 1.0 == 3.0;
  }

  /** The checked guard refuses that matrix. */
  lemma CheckedAngleGuardRejectsNonRotation(theta: real, unit: AngleUnit)
    ensures GetAngleChecked(Mat2(2.0, 0.0, 0.0, 0.5), theta, unit) == Err(NotARotationMatrix)
  {
    var M := Mat2(2.0, 0.0, 0.0, 0.5);
    assert M.m0 * M.m0 + M.m1 * M.m1 - 1.0 == 3.0;
  }

  /** The checked guard accepts every exact rotation, and then agrees with `getAngle`. */
  lemma CheckedAngleGuardAcceptsRotations(c: real, s: real, theta: real, unit: AngleUnit)
    requires c * c + s * s == 1.0
    ensures GetAngleChecked(Rotation(c, s), theta, unit) == Ok(theta * AngleScale(unit))
    ensures GetAngle(Rotation(c, s), theta, unit) == Ok(theta * AngleScale(unit))
  {
    var R := Rotation(c, s);
    assert Det(R) == c * c + s * s;
    assert R.m0 * R.m2 + R.m1 * R.m3 == 0.0;
    assert R.m2 * R.m2 + R.m3 * R.m3 == c * c + s * s;
  }

  /**
   * A matrix whose first column is a unit vector, whose columns are
   * orthogonal and whose determinant is exactly one has the form
   * [[c, -s], [s, c]] that atan2(m1, m0) reads.
   */
  lemma {:induction false} ExactRotationForm(M: Mat2)
    requires Det(M) == 1.0
    requires M.m0 * M.m2 + M.m1 * M.m3 == 0.0
    requires M.m0 * M.m0 + M.m1 * M.m1 == 1.0
    ensures M == Rotation(M.m0, M.m1)
    ensures M.m2 * M.m2 + M.m3 * M.m3 == 1.0
  {
    var a, b, u, w := M.m0, M.m1, M.m2, M.m3;
    MulBothSides(w, a * a + b * b, 1.0);
    MulBothSides(a, a * w - b * u, 1.0);
    MulBothSides(b, a * u + b * w, 0.0);
    calc {
      w;
      w * (a * a + b * b);
      a * (a * w - b * u) + b * (a * u + b * w);
      a * 1.0 + b * 0.0;
      a;
    }
    MulBothSides(u, a * a + b * b, 1.0);
    MulBothSides(b, a * w - b * u, 1.0);
    MulBothSides(a, a * u + b * w, 0.0);
    calc {
      u;
      u * (a * a + b * b);
      a * (a * u + b * w) - b * (a * w - b * u);
      a * 0.0 - b * 1.0;
      -b;
    }
  }
}
