/**
 * Matrix2: a 2x2 matrix whose four entries are stored in column-major order
 *
 *   | 0 2 |
 *   | 1 3 |
 *
 * so row r, column c lives at flat index c * 2 + r.
 *
 * The value view `Mat2` holds the four entries in storage order and carries
 * the const members and the free operators as functions. The class
 * `Matrix2` holds the two fixed arrays of the C++ class (`m` and the
 * transposed scratch copy `mt`) and the members that write them.
 */
module MyMatrix {
  import opened MathUtils
  import opened MyVector

  /** The four entries in storage order: m0 = (0,0), m1 = (1,0), m2 = (0,1), m3 = (1,1). */
  datatype Mat2 = Mat2(m0: real, m1: real, m2: real, m3: real)

  /** The storage array as a sequence. */
  function Flat(M: Mat2): (s: seq<real>)
    ensures |s| == 4
  {
    [M.m0, M.m1, M.m2, M.m3]
  }

  /** The entry in row i, column j, by the column-major layout law. */
  function Get(M: Mat2, i: int, j: int): real
    requires 0 <= i < 2 && 0 <= j < 2
  {
    Flat(M)[j * 2 + i]
  }

  /** What `identity()` writes and the default constructor produces. */
  function Identity(): (I: Mat2)
    ensures forall i, j :: 0 <= i < 2 && 0 <= j < 2 ==> Get(I, i, j) == if i == j then 1.0 else 0.0
  {
    Mat2(1.0, 0.0, 0.0, 1.0)
  }

  // ---------------------------------------------------------------------
  // Bounds-checked accessors
  // ---------------------------------------------------------------------

  /** `operator[](index)`: flat access, valid exactly for 0..3. */
  function At(M: Mat2, index: int): (r: Result<real>)
    ensures r.Ok? <==> 0 <= index <= 3
    ensures r.Err? ==> r.error == IndexOutOfBounds
    ensures r.Ok? ==> r.value == Flat(M)[index]
  {
    if index > 3 || index < 0 then Err(IndexOutOfBounds)
    else Ok(Flat(M)[index])
  }

  /** `operator()(i, j)`: row i, column j, valid exactly for i, j in {0, 1}. */
  function Entry(M: Mat2, i: int, j: int): (r: Result<real>)
    ensures r.Ok? <==> 0 <= i <= 1 && 0 <= j <= 1
    ensures r.Err? ==> r.error == IndexOutOfBounds
    ensures r.Ok? ==> r == At(M, j * 2 + i)
  {
    if i < 0 || i > 1 || j < 0 || j > 1 then Err(IndexOutOfBounds)
    else Ok(Flat(M)[j * 2 + i])
  }

  /**
   * The guard `getRow`, `getColumn`, `setRow` and `setColumn` are written
   * with: `(index > 2) || (index < 0)` rejects. It admits index 2.
   */
  function RowColumnGuardAsWritten(index: int): (admitted: bool)
    ensures admitted <==> 0 <= index <= 2
  {
    !((index > 2) || (index < 0))
  }

  /**
   * Every index the written guard admits beyond the corrected one makes
   * `getRow` read `m[index + 2]` and `getColumn` read `m[index * 2]` and
   * `m[index * 2 + 1]` past the four stored entries; index 2 is such an index.
   */
  lemma RowColumnGuardAdmitsTwo(M: Mat2)
    ensures RowColumnGuardAsWritten(2) && !RowColumnGuard(2)
    ensures forall index :: RowColumnGuardAsWritten(index) && !RowColumnGuard(index) ==>
      index + 2 >= |Flat(M)| && index * 2 >= |Flat(M)| && index * 2 + 1 >= |Flat(M)|
  {
  }

  /** The guard the row and column members are modelled with: index 0 or 1. */
  function RowColumnGuard(index: int): (admitted: bool)
    ensures admitted ==> RowColumnGuardAsWritten(index)
    ensures admitted ==> 0 <= index && index + 2 < 4 && index * 2 + 1 < 4
    ensures RowColumnGuardAsWritten(index) && !admitted ==> index == 2
  {
    !((index > 1) || (index < 0))
  }

  /** `getRow(index)`: the two entries of row `index`. */
  function Row(M: Mat2, index: int): (r: Result<Vec2>)
    ensures r.Ok? <==> 0 <= index <= 1
    ensures r.Err? ==> r.error == IndexOutOfBounds
    ensures r.Ok? ==> r.value == Vec2(Get(M, index, 0), Get(M, index, 1))
  {
    if !RowColumnGuard(index) then Err(IndexOutOfBounds)
    else Ok(Vec2(Flat(M)[index], Flat(M)[index + 2]))
  }

  /** `getColumn(index)`: the two entries of column `index`. */
  function Column(M: Mat2, index: int): (r: Result<Vec2>)
    ensures r.Ok? <==> 0 <= index <= 1
    ensures r.Err? ==> r.error == IndexOutOfBounds
    ensures r.Ok? ==> r.value == Vec2(Get(M, 0, index), Get(M, 1, index))
  {
    if !RowColumnGuard(index) then Err(IndexOutOfBounds)
    else Ok(Vec2(Flat(M)[index * 2], Flat(M)[index * 2 + 1]))
  }

  // ---------------------------------------------------------------------
  // Algebra
  // ---------------------------------------------------------------------

  /** `getDeterminant()`. */
  function Det(M: Mat2): real
  {
    M.m0 * M.m3 - M.m1 * M.m2
  }

  /** The transpose that `transpose()` makes in place and `getTranspose()` copies into `mt`. */
  function Transposed(M: Mat2): (T: Mat2)
    ensures forall i, j :: 0 <= i < 2 && 0 <= j < 2 ==> Get(T, i, j) == Get(M, j, i)
  {
    Mat2(M.m0, M.m2, M.m1, M.m3)
  }

  /** Unary `operator-`. */
  function Neg(M: Mat2): (r: Mat2)
    ensures forall i, j :: 0 <= i < 2 && 0 <= j < 2 ==> Get(r, i, j) == -Get(M, i, j)
  {
    Mat2(-M.m0, -M.m1, -M.m2, -M.m3)
  }

  function Add(A: Mat2, B: Mat2): (r: Mat2)
    ensures forall i, j :: 0 <= i < 2 && 0 <= j < 2 ==> Get(r, i, j) == Get(A, i, j) + Get(B, i, j)
  {
    Mat2(A.m0 + B.m0, A.m1 + B.m1, A.m2 + B.m2, A.m3 + B.m3)
  }

  function Sub(A: Mat2, B: Mat2): (r: Mat2)
    ensures forall i, j :: 0 <= i < 2 && 0 <= j < 2 ==> Get(r, i, j) == Get(A, i, j) - Get(B, i, j)
  {
    Mat2(A.m0 - B.m0, A.m1 - B.m1, A.m2 - B.m2, A.m3 - B.m3)
  }

  /** `operator*(scalar)`: `M * s`. */
  function Scale(M: Mat2, s: real): Mat2
  {
    Mat2(M.m0 * s, M.m1 * s, M.m2 * s, M.m3 * s)
  }

  /** The free `operator*(scalar, Matrix2)`: `s * M`, the same matrix as `M * s`. */
  function ScaleLeft(s: real, M: Mat2): (r: Mat2)
    ensures r == Scale(M, s)
  {
    Mat2(s * M.m0, s * M.m1, s * M.m2, s * M.m3)
  }

  /** `operator*(Matrix2)`: the matrix product, written on the column-major storage. */
  function MatMul(A: Mat2, B: Mat2): Mat2
  {
    Mat2(A.m0 * B.m0 + A.m2 * B.m1, A.m1 * B.m0 + A.m3 * B.m1,
         A.m0 * B.m2 + A.m2 * B.m3, A.m1 * B.m2 + A.m3 * B.m3)
  }

  /** `operator*(Vector2)`: `M * v`, v as a column. */
  function MulVec(M: Mat2, v: Vec2): Vec2
  {
    Vec2(M.m0 * v.x + M.m2 * v.y, M.m1 * v.x + M.m3 * v.y)
  }

  /** The free `operator*(Vector2, Matrix2)`: `v * M`, v as a row; it is `transpose(M) * v`. */
  function VecMul(v: Vec2, M: Mat2): (r: Vec2)
    ensures r == MulVec(Transposed(M), v)
  {
    Vec2(v.x * M.m0 + v.y * M.m1, v.x * M.m2 + v.y * M.m3)
  }

  /** `operator==`: exact, entry by entry. */
  function Eq(A: Mat2, B: Mat2): bool
  {
    (A.m0 == B.m0) && (A.m2 == B.m2) && (A.m1 == B.m1) && (A.m3 == B.m3)
  }

  /** `operator!=`. */
  function Ne(A: Mat2, B: Mat2): bool
  {
    (A.m0 != B.m0) || (A.m1 != B.m1) || (A.m2 != B.m2) || (A.m3 != B.m3)
  }

  /** `equal(rhs, e)`: every entry differs by strictly less than `e`. */
  function Equal(A: Mat2, B: Mat2, e: real): bool
  {
    (Abs(A.m0 - B.m0) < e) && (Abs(A.m2 - B.m2) < e) && (Abs(A.m1 - B.m1) < e) && (Abs(A.m3 - B.m3) < e)
  }

  /** The adjugate: the diagonal swapped, the off-diagonal negated. */
  function Adjugate(M: Mat2): (r: Mat2)
    ensures Det(r) == Det(M)
  {
    Mat2(M.m3, -M.m1, -M.m2, M.m0)
  }

  /**
   * What `inverse()` leaves in the matrix: the adjugate multiplied entry by
   * entry by 1 / det. It throws, writing nothing, when |det| < Epsilon.
   */
  function InverseOf(M: Mat2): (r: Result<Mat2>)
    ensures r.Err? <==> Abs(Det(M)) < Epsilon
    ensures r.Err? ==> r.error == SingularMatrix
  {
    var det := Det(M);
    if Abs(det) < Epsilon then Err(SingularMatrix)
    else Ok(Scale(Adjugate(M), 1.0 / det))
  }

  // ---------------------------------------------------------------------
  // getAngle
  // ---------------------------------------------------------------------

  /**
   * `getAngle(unit)` as written: it throws unless |det - 1| <= Epsilon, and
   * otherwise scales atan2(m1, m0). `theta` stands for that atan2 value,
   * which the model does not compute.
   */
  function GetAngle(M: Mat2, theta: real, unit: AngleUnit := Deg): (r: Result<real>)
    ensures r.Err? <==> Abs(Det(M) - 1.0) > Epsilon
    ensures r.Err? ==> r.error == NotARotationMatrix
    ensures r.Ok? ==> r.value == theta * AngleScale(unit)
  {
    if Abs(Det(M) - 1.0) > Epsilon then Err(NotARotationMatrix)
    else Ok(theta * AngleScale(unit))
  }

  /**
   * A rotation matrix within Epsilon: determinant one, the columns
   * orthogonal, each column of unit squared length.
   */
  predicate IsRotation(M: Mat2)
  {
    Abs(Det(M) - 1.0) <= Epsilon
    && Abs(M.m0 * M.m2 + M.m1 * M.m3) <= Epsilon
    && Abs(M.m0 * M.m0 + M.m1 * M.m1 - 1.0) <= Epsilon
    && Abs(M.m2 * M.m2 + M.m3 * M.m3 - 1.0) <= Epsilon
  }

  /** `getAngle` with the rotation check its error message claims. */
  function GetAngleChecked(M: Mat2, theta: real, unit: AngleUnit := Deg): (r: Result<real>)
    ensures r.Err? <==> !IsRotation(M)
    ensures r.Ok? ==> GetAngle(M, theta, unit) == r
  {
    if !IsRotation(M) then Err(NotARotationMatrix)
    else Ok(theta * AngleScale(unit))
  }

  /** The rotation by the angle whose cosine is c and sine is s. */
  function Rotation(c: real, s: real): (R: Mat2)
    ensures Get(R, 0, 0) == c && Get(R, 1, 0) == s && Get(R, 0, 1) == -s && Get(R, 1, 1) == c
  {
    Mat2(c, s, -s, c)
  }

  // ---------------------------------------------------------------------
  // The class
  // ---------------------------------------------------------------------

  class Matrix2 {
    /** Entries in column-major order. */
    const m: array<real>
    /** Scratch copy in row-major order, written only by the transpose getters. */
    const mt: array<real>

    ghost predicate Valid()
      reads this
    {
      m.Length == 4 && mt.Length == 4 && m != mt
    }

    function Value(): Mat2
      reads this, m
      requires Valid()
    {
      Mat2(m[0], m[1], m[2], m[3])
    }

    /** The default constructor: the identity. */
    constructor ()
      ensures Valid() && fresh(m) && fresh(mt)
      ensures Value() == Identity()
    {
      m := new real[4];
      mt := new real[4];
      new;
      SetIdentity();
    }

    /** `Matrix2(const scalar src[4])`: entries taken in storage order. */
    constructor FromArray(src: array<real>)
      requires src.Length == 4
      ensures Valid() && fresh(m) && fresh(mt)
      ensures Value() == Mat2(src[0], src[1], src[2], src[3])
    {
      m := new real[4];
      mt := new real[4];
      new;
      Set(src);
    }

    /** `Matrix2(m0, m1, m2, m3)`: entries taken in storage order, i.e. column by column. */
    constructor FromElements(m0: real, m1: real, m2: real, m3: real)
      ensures Valid() && fresh(m) && fresh(mt)
      ensures Value() == Mat2(m0, m1, m2, m3)
      ensures Column(Value(), 0) == Ok(Vec2(m0, m1)) && Column(Value(), 1) == Ok(Vec2(m2, m3))
    {
      m := new real[4];
      mt := new real[4];
      new;
      SetElements(m0, m1, m2, m3);
    }

    /** The copy constructor: an independent copy of the entries. */
    constructor Copy(other: Matrix2)
      requires other.Valid()
      ensures Valid() && fresh(m) && fresh(mt)
      ensures Value() == other.Value()
    {
      var v := other.Value();
      m := new real[4];
      mt := new real[4];
      new;
      m[0] := v.m0;
      m[1] := v.m1;
      m[2] := v.m2;
      m[3] := v.m3;
    }

    /** Copy assignment; assigning a matrix to itself writes nothing. */
    method Assign(other: Matrix2)
      requires Valid() && other.Valid()
      modifies m
      ensures Value() == old(other.Value())
      ensures other == this ==> unchanged(m)
    {
      if other == this {
        return;
      }
      var v := other.Value();
      m[0] := v.m0;
      m[1] := v.m1;
      m[2] := v.m2;
      m[3] := v.m3;
    }

    /** `set(const scalar src[4])`. */
    method Set(src: array<real>)
      requires Valid() && src.Length == 4
      modifies m
      ensures Value() == Mat2(old(src[0]), old(src[1]), old(src[2]), old(src[3]))
    {
      m[0] := src[0];
      m[1] := src[1];
      m[2] := src[2];
      m[3] := src[3];
    }

    /** `set(m0, m1, m2, m3)`. */
    method SetElements(m0: real, m1: real, m2: real, m3: real)
      requires Valid()
      modifies m
      ensures Value() == Mat2(m0, m1, m2, m3)
    {
      m[0] := m0;
      m[1] := m1;
      m[2] := m2;
      m[3] := m3;
    }

    /** `setRow(index, v)`: writes m[index] and m[index + 2] only. */
    method SetRow(index: int, v: Vec2) returns (r: Outcome)
      requires Valid()
      modifies m
      ensures r.Fail? <==> Row(old(Value()), index).Err?
      ensures r.Fail? ==> r.error == IndexOutOfBounds && Value() == old(Value())
      ensures r == Pass ==> Row(Value(), index) == Ok(v)
      ensures r == Pass ==> forall k :: 0 <= k < 4 && k != index && k != index + 2 ==> m[k] == old(m[k])
    {
      if !RowColumnGuard(index) {
        return Fail(IndexOutOfBounds);
      }
      m[index] := v.x;
      m[index + 2] := v.y;
      r := Pass;
    }

    /** `setRow(index, const scalar row[2])`. */
    method SetRowArray(index: int, row: array<real>) returns (r: Outcome)
      requires Valid() && row.Length == 2
      modifies m
      ensures r.Fail? <==> Row(old(Value()), index).Err?
      ensures r.Fail? ==> r.error == IndexOutOfBounds && Value() == old(Value())
      ensures r == Pass ==> Row(Value(), index) == Ok(Vec2(row[0], row[1]))
      ensures r == Pass ==> forall k :: 0 <= k < 4 && k != index && k != index + 2 ==> m[k] == old(m[k])
    {
      if !RowColumnGuard(index) {
        return Fail(IndexOutOfBounds);
      }
      m[index] := row[0];
      m[index + 2] := row[1];
      r := Pass;
    }

    /** `setColumn(index, v)`: writes m[2 * index] and m[2 * index + 1] only. */
    method SetColumn(index: int, v: Vec2) returns (r: Outcome)
      requires Valid()
      modifies m
      ensures r.Fail? <==> Column(old(Value()), index).Err?
      ensures r.Fail? ==> r.error == IndexOutOfBounds && Value() == old(Value())
      ensures r == Pass ==> Column(Value(), index) == Ok(v)
      ensures r == Pass ==> forall k :: 0 <= k < 4 && k != index * 2 && k != index * 2 + 1 ==> m[k] == old(m[k])
    {
      if !RowColumnGuard(index) {
        return Fail(IndexOutOfBounds);
      }
      m[index * 2] := v.x;
      m[index * 2 + 1] := v.y;
      r := Pass;
    }

    /** `setColumn(index, const scalar col[2])`. */
    method SetColumnArray(index: int, col: array<real>) returns (r: Outcome)
      requires Valid() && col.Length == 2
      modifies m
      ensures r.Fail? <==> Column(old(Value()), index).Err?
      ensures r.Fail? ==> r.error == IndexOutOfBounds && Value() == old(Value())
      ensures r == Pass ==> Column(Value(), index) == Ok(Vec2(col[0], col[1]))
      ensures r == Pass ==> forall k :: 0 <= k < 4 && k != index * 2 && k != index * 2 + 1 ==> m[k] == old(m[k])
    {
      if !RowColumnGuard(index) {
        return Fail(IndexOutOfBounds);
      }
      m[index * 2] := col[0];
      m[index * 2 + 1] := col[1];
      r := Pass;
    }

    /** Writing through the reference `operator[](index)` returns. */
    method SetAt(index: int, value: real) returns (r: Outcome)
      requires Valid()
      modifies m
      ensures r.Fail? <==> At(old(Value()), index).Err?
      ensures r.Fail? ==> r.error == IndexOutOfBounds && Value() == old(Value())
      ensures r == Pass ==> At(Value(), index) == Ok(value)
      ensures r == Pass ==> forall k :: 0 <= k < 4 && k != index ==> m[k] == old(m[k])
    {
      if index > 3 || index < 0 {
        return Fail(IndexOutOfBounds);
      }
      m[index] := value;
      r := Pass;
    }

    /** Writing through the reference `operator()(i, j)` returns. */
    method SetEntry(i: int, j: int, value: real) returns (r: Outcome)
      requires Valid()
      modifies m
      ensures r.Fail? <==> Entry(old(Value()), i, j).Err?
      ensures r.Fail? ==> r.error == IndexOutOfBounds && Value() == old(Value())
      ensures r == Pass ==> Entry(Value(), i, j) == Ok(value)
      ensures r == Pass ==> forall k :: 0 <= k < 4 && k != j * 2 + i ==> m[k] == old(m[k])
    {
      if i < 0 || i > 1 || j < 0 || j > 1 {
        return Fail(IndexOutOfBounds);
      }
      m[j * 2 + i] := value;
      r := Pass;
    }

    /** `data()` / `get()`: the storage array, read as values. */
    function Data(): (s: seq<real>)
      reads this, m
      requires Valid()
      ensures |s| == 4
      ensures forall k :: 0 <= k < 4 ==> At(Value(), k) == Ok(s[k])
    {
      m[..]
    }

    /** `dataTranspose()`: fills `mt` with the row-major copy and returns it; `m` is untouched. */
    method DataTranspose() returns (t: seq<real>)
      requires Valid()
      modifies mt
      ensures Value() == old(Value())
      ensures t == mt[..] == Flat(Transposed(Value()))
    {
      mt[0] := m[0];
      mt[1] := m[2];
      mt[2] := m[1];
      mt[3] := m[3];
      t := mt[..];
    }

    /** `getTranspose()`: the same writes as `dataTranspose()`. */
    method GetTranspose() returns (t: seq<real>)
      requires Valid()
      modifies mt
      ensures Value() == old(Value())
      ensures t == mt[..] == Flat(Transposed(Value()))
    {
      mt[0] := m[0];
      mt[1] := m[2];
      mt[2] := m[1];
      mt[3] := m[3];
      t := mt[..];
    }

    /** `identity()`. */
    method SetIdentity()
      requires Valid()
      modifies m
      ensures Value() == Identity()
    {
      m[0] := 1.0;
      m[1] := 0.0;
      m[2] := 0.0;
      m[3] := 1.0;
    }

    /** `transpose()`: swaps m[1] and m[2]. */
    method Transpose()
      requires Valid()
      modifies m
      ensures Value() == Transposed(old(Value()))
    {
      m[1], m[2] := m[2], m[1];
    }

    /** `inverse()`: checks the determinant first, then inverts in place. */
    method Inverse() returns (r: Outcome)
      requires Valid()
      modifies m
      ensures r.Fail? <==> InverseOf(old(Value())).Err?
      ensures r.Fail? ==> r.error == SingularMatrix && Value() == old(Value())
      ensures r == Pass ==> InverseOf(old(Value())) == Ok(Value())
    {
      var det := Det(Value());
      if Abs(det) < Epsilon {
        return Fail(SingularMatrix);
      }
      ghost var M := Value();
      m[0], m[3] := m[3], m[0];
      m[1] := -m[1];
      m[2] := -m[2];
      assert Value() == Adjugate(M);
      det := 1.0 / det;
      m[0] := m[0] * det;
      m[1] := m[1] * det;
      m[2] := m[2] * det;
      m[3] := m[3] * det;
      assert Value() == Scale(Adjugate(M), det);
      r := Pass;
    }

    /** `operator+=`. */
    method AddAssign(rhs: Matrix2)
      requires Valid() && rhs.Valid()
      modifies m
      ensures Value() == Add(old(Value()), old(rhs.Value()))
    {
      var b := rhs.Value();
      m[0] := m[0] + b.m0;
      m[1] := m[1] + b.m1;
      m[2] := m[2] + b.m2;
      m[3] := m[3] + b.m3;
    }

    /** `operator-=`. */
    method SubAssign(rhs: Matrix2)
      requires Valid() && rhs.Valid()
      modifies m
      ensures Value() == Sub(old(Value()), old(rhs.Value()))
    {
      var b := rhs.Value();
      m[0] := m[0] - b.m0;
      m[1] := m[1] - b.m1;
      m[2] := m[2] - b.m2;
      m[3] := m[3] - b.m3;
    }

    /** `operator*=`: stores the matrix product `this * rhs`. */
    method MulAssign(rhs: Matrix2)
      requires Valid() && rhs.Valid()
      modifies m
      ensures Value() == MatMul(old(Value()), old(rhs.Value()))
    {
      var p := MatMul(Value(), rhs.Value());
      m[0] := p.m0;
      m[1] := p.m1;
      m[2] := p.m2;
      m[3] := p.m3;
    }
  }
}
