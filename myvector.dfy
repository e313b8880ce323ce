/**
 * Vector2 and Vector3: plain coordinate aggregates.
 *
 * The value view (`Vec2`, `Vec3`) carries the const members of the two
 * structs as functions. The in-place view (classes `Vector2`, `Vector3`)
 * has the struct's mutable fields and the members that assign to them:
 * `set`, `normalize`, the writable subscript and the compound assignments.
 */
module MyVector {
  import opened MathUtils

  datatype Vec2 = Vec2(x: real, y: real)
  datatype Vec3 = Vec3(x: real, y: real, z: real)

  // ---------------------------------------------------------------------
  // Vec2: const members
  // ---------------------------------------------------------------------

  /** Squared Euclidean length; `length()` is its non-negative square root. */
  function SquaredLength2(v: Vec2): real
  {
    v.x * v.x + v.y * v.y
  }

  /** `len` is what `length()` returns for `v`: the non-negative root. */
  predicate IsLength2(v: Vec2, len: real)
  {
    len >= 0.0 && len * len == SquaredLength2(v)
  }

  /** `normalized()`: `len` stands for the value of `length()`. */
  function Normalized2(v: Vec2, len: real): (r: Result<Vec2>)
    requires IsLength2(v, len)
    ensures r.Err? <==> len < Epsilon
    ensures r.Err? ==> r.error == DivisionByZero
    ensures r.Ok? ==> Dot2(r.value, r.value) == 1.0
  {
    if len < Epsilon then Err(DivisionByZero)
    else
      var n := Vec2(v.x / len, v.y / len);
      UnitAfterDivision2(v, len);
      Ok(n)
  }

  lemma UnitAfterDivision2(v: Vec2, len: real)
    requires len > 0.0 && len * len == SquaredLength2(v)
    ensures Dot2(Vec2(v.x / len, v.y / len), Vec2(v.x / len, v.y / len)) == 1.0
  {
    var a, b := v.x / len, v.y / len;
    assert a * len == v.x && b * len == v.y;
    assert SquaredLength2(v) == (a * a + b * b) * (len * len);
    ZeroFactorOfSquare(a * a + b * b - 1.0, len);
  }

  function Dot2(a: Vec2, b: Vec2): real
  {
    b.x * a.x + b.y * a.y
  }

  /** `equal(vec, e)`: no component differs by more than `e`. */
  function Equal2(a: Vec2, b: Vec2, e: real := Epsilon): bool
  {
    !(Abs(b.x - a.x) > e || Abs(b.y - a.y) > e)
  }

  function Neg2(v: Vec2): Vec2 { Vec2(-v.x, -v.y) }
  function Add2(a: Vec2, b: Vec2): Vec2 { Vec2(a.x + b.x, a.y + b.y) }
  function Sub2(a: Vec2, b: Vec2): Vec2 { Vec2(a.x - b.x, a.y - b.y) }

  /** `operator*(Vector2)`: componentwise product. */
  function Mul2(a: Vec2, b: Vec2): Vec2 { Vec2(a.x * b.x, a.y * b.y) }

  /** `operator*(scalar)`: `v * s`. */
  function Scale2(v: Vec2, s: real): Vec2 { Vec2(v.x * s, v.y * s) }

  /** The free `operator*(scalar, Vector2)`: `a * v`. */
  function ScaleLeft2(a: real, v: Vec2): (r: Vec2)
    ensures r == Scale2(v, a)
  {
    Vec2(a * v.x, a * v.y)
  }

  /** `operator/(scalar)`: fails when |s| < Epsilon, otherwise undoes `Scale2`. */
  function Div2(v: Vec2, s: real): (r: Result<Vec2>)
    ensures r.Err? <==> Abs(s) < Epsilon
    ensures r.Err? ==> r.error == DivisionByZero
    ensures r.Ok? ==> Scale2(r.value, s) == v
  {
    if Abs(s) < Epsilon then Err(DivisionByZero)
    else Ok(Vec2(v.x / s, v.y / s))
  }

  /** `operator==`: exact, no tolerance. */
  function Eq2(a: Vec2, b: Vec2): bool { a.x == b.x && a.y == b.y }

  /** `operator!=`: exact, no tolerance. */
  function Ne2(a: Vec2, b: Vec2): bool { a.x != b.x || a.y != b.y }

  /** `operator<`: lexicographic on (x, y). */
  function Less2(a: Vec2, b: Vec2): bool
  {
    if a.x < b.x then true
    else if a.x > b.x then false
    else if a.y < b.y then true
    else if a.y > b.y then false
    else false
  }

  /** `operator>` as written: the negation of `<`. */
  function Greater2(a: Vec2, b: Vec2): bool { !Less2(a, b) }

  /** The strict converse of `<` that `>` evidently stands for. */
  function StrictGreater2(a: Vec2, b: Vec2): bool { Less2(b, a) }

  /** `operator[]`: index 0 is x, 1 is y; any other index throws. */
  function At2(v: Vec2, index: int): (r: Result<real>)
    ensures r.Ok? <==> 0 <= index <= 1
    ensures r.Err? ==> r.error == IndexOutOfBounds
    ensures index == 0 ==> r == Ok(v.x)
    ensures index == 1 ==> r == Ok(v.y)
  {
    if index > 1 then Err(IndexOutOfBounds)
    else if index < 0 then Err(IndexOutOfBounds)
    else if index == 0 then Ok(v.x) else Ok(v.y)
  }

  // ---------------------------------------------------------------------
  // Vec3: const members
  // ---------------------------------------------------------------------

  function SquaredLength3(v: Vec3): real
  {
    v.x * v.x + v.y * v.y + v.z * v.z
  }

  predicate IsLength3(v: Vec3, len: real)
  {
    len >= 0.0 && len * len == SquaredLength3(v)
  }

  /** `normalized()`: `len` stands for the value of `length()`. */
  function Normalized3(v: Vec3, len: real): (r: Result<Vec3>)
    requires IsLength3(v, len)
    ensures r.Err? <==> len < Epsilon
    ensures r.Err? ==> r.error == DivisionByZero
    ensures r.Ok? ==> Dot3(r.value, r.value) == 1.0
  {
    if len < Epsilon then Err(DivisionByZero)
    else
      var n := Vec3(v.x / len, v.y / len, v.z / len);
      UnitAfterDivision3(v, len);
      Ok(n)
  }

  lemma UnitAfterDivision3(v: Vec3, len: real)
    requires len > 0.0 && len * len == SquaredLength3(v)
    ensures var n := Vec3(v.x / len, v.y / len, v.z / len); Dot3(n, n) == 1.0
  {
    var a, b, c := v.x / len, v.y / len, v.z / len;
    assert a * len == v.x && b * len == v.y && c * len == v.z;
    assert SquaredLength3(v) == (a * a + b * b + c * c) * (len * len);
    ZeroFactorOfSquare(a * a + b * b + c * c - 1.0, len);
  }

  function Dot3(a: Vec3, b: Vec3): real
  {
    a.x * b.x + a.y * b.y + a.z * b.z
  }

  /**
   * `angle(vec)`: throws when the product of the two lengths is below
   * Epsilon, and otherwise reports acos(dot / lengths) in degrees. `lenA`
   * and `lenB` stand for the two `length()` values and `phi` for the acos
   * value in radians.
   */
  function Angle3(a: Vec3, b: Vec3, lenA: real, lenB: real, phi: real): (r: Result<real>)
    requires IsLength3(a, lenA) && IsLength3(b, lenB)
    ensures r.Err? <==> lenA * lenB < Epsilon
    ensures r.Err? ==> r.error == DivisionByZero
    ensures r.Ok? ==> r.value == phi * Rad2Deg
  {
    var len := lenA * lenB;
    if len < Epsilon then Err(DivisionByZero)
    else Ok(phi * Rad2Deg)
  }

  function Cross3(a: Vec3, b: Vec3): Vec3
  {
    Vec3(a.y * b.z - a.z * b.y, a.z * b.x - a.x * b.z, a.x * b.y - a.y * b.x)
  }

  function Equal3(a: Vec3, b: Vec3, e: real := Epsilon): bool
  {
    !(Abs(b.x - a.x) > e || Abs(b.y - a.y) > e || Abs(b.z - a.z) > e)
  }

  function Neg3(v: Vec3): Vec3 { Vec3(-v.x, -v.y, -v.z) }
  function Add3(a: Vec3, b: Vec3): Vec3 { Vec3(a.x + b.x, a.y + b.y, a.z + b.z) }
  function Sub3(a: Vec3, b: Vec3): Vec3 { Vec3(a.x - b.x, a.y - b.y, a.z - b.z) }
  function Mul3(a: Vec3, b: Vec3): Vec3 { Vec3(a.x * b.x, a.y * b.y, a.z * b.z) }
  function Scale3(v: Vec3, s: real): Vec3 { Vec3(v.x * s, v.y * s, v.z * s) }

  function ScaleLeft3(a: real, v: Vec3): (r: Vec3)
    ensures r == Scale3(v, a)
  {
    Vec3(a * v.x, a * v.y, a * v.z)
  }

  function Div3(v: Vec3, s: real): (r: Result<Vec3>)
    ensures r.Err? <==> Abs(s) < Epsilon
    ensures r.Err? ==> r.error == DivisionByZero
    ensures r.Ok? ==> Scale3(r.value, s) == v
  {
    if Abs(s) < Epsilon then Err(DivisionByZero)
    else Ok(Vec3(v.x / s, v.y / s, v.z / s))
  }

  function Eq3(a: Vec3, b: Vec3): bool { a.x == b.x && a.y == b.y && a.z == b.z }
  function Ne3(a: Vec3, b: Vec3): bool { a.x != b.x || a.y != b.y || a.z != b.z }

  /** `operator<`: lexicographic on (x, y, z). */
  function Less3(a: Vec3, b: Vec3): bool
  {
    if a.x < b.x then true
    else if a.x > b.x then false
    else if a.y < b.y then true
    else if a.y > b.y then false
    else if a.z < b.z then true
    else if a.z > b.z then false
    else false
  }

  /** `operator>` as written: the negation of `<`. */
  function Greater3(a: Vec3, b: Vec3): bool { !Less3(a, b) }

  /** The strict converse of `<` that `>` evidently stands for. */
  function StrictGreater3(a: Vec3, b: Vec3): bool { Less3(b, a) }

  /** `operator[]`: index 0, 1, 2 are x, y, z; any other index throws. */
  function At3(v: Vec3, index: int): (r: Result<real>)
    ensures r.Ok? <==> 0 <= index <= 2
    ensures r.Err? ==> r.error == IndexOutOfBounds
    ensures index == 0 ==> r == Ok(v.x)
    ensures index == 1 ==> r == Ok(v.y)
    ensures index == 2 ==> r == Ok(v.z)
  {
    if index > 2 then Err(IndexOutOfBounds)
    else if index < 0 then Err(IndexOutOfBounds)
    else if index == 0 then Ok(v.x)
    else if index == 1 then Ok(v.y)
    else Ok(v.z)
  }

  // ---------------------------------------------------------------------
  // In-place members
  // ---------------------------------------------------------------------

  /** The `Vector2` struct as an object whose fields are assigned in place. */
  class Vector2 {
    var x: real
    var y: real

    function Value(): Vec2
      reads this
    {
      Vec2(x, y)
    }

    /** The default constructor leaves both fields uninitialised. */
    constructor Uninitialised()
    {
      x := *;
      y := *;
    }

    constructor (x0: real, y0: real)
      ensures Value() == Vec2(x0, y0)
    {
      x, y := x0, y0;
    }

    method Set(x0: real, y0: real)
      modifies this
      ensures Value() == Vec2(x0, y0)
    {
      x := x0;
      y := y0;
    }

    /** Writable `operator[]`: assigns field `index`, or throws without writing. */
    method SetAt(index: int, value: real) returns (r: Outcome)
      modifies this
      ensures r == Pass <==> At2(old(Value()), index).Ok?
      ensures r.Fail? ==> r.error == IndexOutOfBounds && Value() == old(Value())
      ensures r == Pass ==> At2(Value(), index) == Ok(value)
      ensures r == Pass ==> forall k :: 0 <= k <= 1 && k != index ==> At2(Value(), k) == At2(old(Value()), k)
    {
      if index > 1 || index < 0 {
        return Fail(IndexOutOfBounds);
      }
      if index == 0 { x := value; } else { y := value; }
      r := Pass;
    }

    method AddAssign(rhs: Vec2)
      modifies this
      ensures Value() == Add2(old(Value()), rhs)
    {
      x := x + rhs.x;
      y := y + rhs.y;
    }

    method SubAssign(rhs: Vec2)
      modifies this
      ensures Value() == Sub2(old(Value()), rhs)
    {
      x := x - rhs.x;
      y := y - rhs.y;
    }

    method MulAssign(rhs: Vec2)
      modifies this
      ensures Value() == Mul2(old(Value()), rhs)
    {
      x := x * rhs.x;
      y := y * rhs.y;
    }

    method ScaleAssign(scale: real)
      modifies this
      ensures Value() == Scale2(old(Value()), scale)
    {
      x := x * scale;
      y := y * scale;
    }

    /** `operator/=`: the guard is checked before any field is written. */
    method DivAssign(scale: real) returns (r: Outcome)
      modifies this
      ensures r.Fail? <==> Div2(old(Value()), scale).Err?
      ensures r.Fail? ==> r.error == DivisionByZero && Value() == old(Value())
      ensures r == Pass ==> Div2(old(Value()), scale) == Ok(Value())
    {
      if Abs(scale) < Epsilon {
        return Fail(DivisionByZero);
      }
      x := x / scale;
      y := y / scale;
      r := Pass;
    }

    /** `normalize()`: `len` stands for the value of `length()`. */
    method Normalize(len: real) returns (r: Outcome)
      requires IsLength2(Value(), len)
      modifies this
      ensures r.Fail? <==> Normalized2(old(Value()), len).Err?
      ensures r.Fail? ==> r.error == DivisionByZero && Value() == old(Value())
      ensures r == Pass ==> Normalized2(old(Value()), len) == Ok(Value())
    {
      if len < Epsilon {
        return Fail(DivisionByZero);
      }
      x := x / len;
      y := y / len;
      r := Pass;
    }
  }

  /** The `Vector3` struct as an object whose fields are assigned in place. */
  class Vector3 {
    var x: real
    var y: real
    var z: real

    function Value(): Vec3
      reads this
    {
      Vec3(x, y, z)
    }

    /** The default constructor leaves all fields uninitialised. */
    constructor Uninitialised()
    {
      x := *;
      y := *;
      z := *;
    }

    constructor (x0: real, y0: real, z0: real)
      ensures Value() == Vec3(x0, y0, z0)
    {
      x, y, z := x0, y0, z0;
    }

    method Set(x0: real, y0: real, z0: real)
      modifies this
      ensures Value() == Vec3(x0, y0, z0)
    {
      x := x0;
      y := y0;
      z := z0;
    }

    method SetAt(index: int, value: real) returns (r: Outcome)
      modifies this
      ensures r == Pass <==> At3(old(Value()), index).Ok?
      ensures r.Fail? ==> r.error == IndexOutOfBounds && Value() == old(Value())
      ensures r == Pass ==> At3(Value(), index) == Ok(value)
      ensures r == Pass ==> forall k :: 0 <= k <= 2 && k != index ==> At3(Value(), k) == At3(old(Value()), k)
    {
      if index > 2 || index < 0 {
        return Fail(IndexOutOfBounds);
      }
      if index == 0 { x := value; }
      else if index == 1 { y := value; }
      else { z := value; }
      r := Pass;
    }

    method AddAssign(rhs: Vec3)
      modifies this
      ensures Value() == Add3(old(Value()), rhs)
    {
      x := x + rhs.x;
      y := y + rhs.y;
      z := z + rhs.z;
    }

    method SubAssign(rhs: Vec3)
      modifies this
      ensures Value() == Sub3(old(Value()), rhs)
    {
      x := x - rhs.x;
      y := y - rhs.y;
      z := z - rhs.z;
    }

    method MulAssign(rhs: Vec3)
      modifies this
      ensures Value() == Mul3(old(Value()), rhs)
    {
      x := x * rhs.x;
      y := y * rhs.y;
      z := z * rhs.z;
    }

    method ScaleAssign(scale: real)
      modifies this
      ensures Value() == Scale3(old(Value()), scale)
    {
      x := x * scale;
      y := y * scale;
      z := z * scale;
    }

    method DivAssign(scale: real) returns (r: Outcome)
      modifies this
      ensures r.Fail? <==> Div3(old(Value()), scale).Err?
      ensures r.Fail? ==> r.error == DivisionByZero && Value() == old(Value())
      ensures r == Pass ==> Div3(old(Value()), scale) == Ok(Value())
    {
      if Abs(scale) < Epsilon {
        return Fail(DivisionByZero);
      }
      x := x / scale;
      y := y / scale;
      z := z / scale;
      r := Pass;
    }

    method Normalize(len: real) returns (r: Outcome)
      requires IsLength3(Value(), len)
      modifies this
      ensures r.Fail? <==> Normalized3(old(Value()), len).Err?
      ensures r.Fail? ==> r.error == DivisionByZero && Value() == old(Value())
      ensures r == Pass ==> Normalized3(old(Value()), len) == Ok(Value())
    {
      if len < Epsilon {
        return Fail(DivisionByZero);
      }
      x := x / len;
      y := y / len;
      z := z / len;
      r := Pass;
    }
  }
}
