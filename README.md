# Matrix2, Vector2 and Vector3 in Dafny

This project models the small C++ linear-algebra library built on `scalar`:
- the 2×2 matrix class `Matrix2`;
- the vector structs `Vector2` and `Vector3`;
- the shared constants and the `ANGLEUNIT` enum.

It then proves the laws the library's code and comments promise.

Modelling conventions:
- `scalar` (float or double, chosen at build time) becomes `real`.
- `MYEPSILON` is the constant `Epsilon = 0.000001`.
- Every `throw` becomes an error value:
  - a `Result<T>` (`Ok(value)` or `Err(error)`) for members that return something;
  - an `Outcome` (`Pass` or `Fail(error)`) for members that change state.
- Each error kind (`IndexOutOfBounds`, `NotARotationMatrix`, `SingularMatrix`, `DivisionByZero`) names the condition in the thrown message.

Files:

- `mathutils.dfy` (module `MathUtils`):
  - `Epsilon`, the π literal, `Rad2Deg` and `Deg2Rad`;
  - `AngleUnit` and the error datatypes;
  - `Abs`, plus three small real-arithmetic helper lemmas.
- `myvector.dfy` (module `MyVector`):
  - the value types `Vec2` and `Vec3`, with one function per `const` member and per free operator;
  - the classes `Vector2` and `Vector3`, whose fields `x`, `y` (and `z`) are assigned in place by `set`, the writable `operator[]`, the compound assignments and `normalize`.
- `mymatrix.dfy` (module `MyMatrix`):
  - the value type `Mat2`, which holds the four entries in storage order;
  - the column-major layout law `Get(M, i, j) == Flat(M)[j * 2 + i]`;
  - the `const` members and free operators as functions;
  - the class `Matrix2`. It has the C++ class's two fixed arrays: `m` (column-major entries) and `mt` (the row-major scratch copy). Every mutator is a method with a `modifies` clause. Its `ensures` states the new contents of the array in terms of the functions.
- `matrix_properties.dfy` (module `MatrixProperties`) and `vector_properties.dfy` (module `VectorProperties`): the algebraic laws, as lemmas.

Three things that `length()`, `getAngle` and `angle` compute have no exact real counterpart here: a square root, an arctangent and an arccosine. So each member that uses one takes the value as a parameter, and only its guard is modelled:
- `len` is the length of a vector, tied to it by `IsLength2`/`IsLength3`: `len >= 0` and `len * len` equals the squared length.
- `theta` is the value of `atan2(m[1], m[0])`.
- `phi` is the value of `acos(dot / lengths)`.

A method that reads another `Matrix2` (`+=`, `-=`, `*=`, copy assignment) reads all of its entries before it writes any. This makes `a += a` and `a *= a` behave as in the C++ code.

## Model

| member | source | states |
|---|---|---|
| MathUtils.ConversionFactorsInverse | include/mathutils.hpp:17-27 | RAD2DEG and DEG2RAD are built from one π literal, so their product is exactly 1; MYEPSILON is positive |
| MathUtils.AngleScale | mymatrix.cpp:165 | the factor `getAngle` applies: 1 for RAD, RAD2DEG (about 57.3) otherwise |
| MathUtils.Abs | mymatrix.cpp:189 | `std::abs`: non-negative, and equal to the argument or its negation |
| MyMatrix.At | mymatrix.cpp:262-269 | `operator[](k)` succeeds exactly for 0 ≤ k ≤ 3 and returns m[k]; any other k throws index-out-of-bounds |
| MyMatrix.Entry | mymatrix.cpp:280-286 | `operator()(i, j)` succeeds exactly for i, j ∈ {0, 1} and returns the flat entry j*2+i (column-major) |
| MyMatrix.Identity | mymatrix.cpp:173-179 | `identity()` writes 1 on the diagonal and 0 off it, in (row, column) terms |
| MyMatrix.RowColumnGuardAsWritten | mymatrix.cpp:56 | the guard `(index > 2) \|\| (index < 0)` admits exactly 0, 1 and 2 |
| MyMatrix.RowColumnGuardAdmitsTwo | mymatrix.cpp:133-149 | index 2 passes the written guard but not the corrected one; for every such index, the offsets `getRow` and `getColumn` read (index+2, index*2, index*2+1) lie past the four stored entries |
| MyMatrix.RowColumnGuard | mymatrix.cpp:55-149 | the corrected guard admits only 0 and 1; it admits nothing the written guard rejects; it keeps every offset inside the array; the only index the written guard admits that it rejects is 2 |
| MyMatrix.Row | mymatrix.cpp:133-140 | `getRow(r)` succeeds exactly for r ∈ {0, 1} and returns (M(r,0), M(r,1)); otherwise it throws index-out-of-bounds |
| MyMatrix.Column | mymatrix.cpp:142-149 | `getColumn(c)` succeeds exactly for c ∈ {0, 1} and returns (M(0,c), M(1,c)); otherwise it throws index-out-of-bounds |
| MyMatrix.Transposed | mymatrix.cpp:181-184 | the transpose has M(j,i) at (i,j) |
| MyMatrix.Neg | mymatrix.cpp:297-300 | unary `-` negates every entry |
| MyMatrix.Add | mymatrix.cpp:205-208 | `+` is entrywise |
| MyMatrix.Sub | mymatrix.cpp:218-221 | `-` is entrywise |
| MyMatrix.ScaleLeft | mymatrix.cpp:302-304 | `s * M` is the same matrix as `M * s` |
| MyMatrix.VecMul | mymatrix.cpp:306-309 | `v * M` equals transpose(M) * v |
| MyMatrix.Adjugate | mymatrix.cpp:194-196 | the swap-and-negate step of `inverse()` keeps the determinant |
| MyMatrix.InverseOf | mymatrix.cpp:186-203 | `inverse()` throws a singular-matrix error exactly when \|det\| < MYEPSILON |
| MyMatrix.GetAngle | mymatrix.cpp:155-171 | `getAngle` as written: it throws not-a-rotation exactly when \|det − 1\| > MYEPSILON; otherwise it returns atan2(m1, m0) scaled by the unit factor; the unit defaults to DEG (include/mymatrix.hpp:71) |
| MyMatrix.GetAngleChecked | mymatrix.cpp:160-164 | the intended guard: it throws exactly when M is not a rotation within MYEPSILON (det, orthogonality of the columns, unit columns); when it accepts, it agrees with `getAngle` |
| MyMatrix.Rotation | mymatrix.cpp:156-159 | the matrix [[cos, −sin], [sin, cos]] of the comment, laid out column-major |
| MyMatrix.Matrix2.constructor | mymatrix.cpp:3-5 | the default constructor yields the identity |
| MyMatrix.Matrix2.FromArray | mymatrix.cpp:7-9 | the array constructor takes the entries in storage order |
| MyMatrix.Matrix2.FromElements | mymatrix.cpp:11-13 | `Matrix2(m0, m1, m2, m3)` stores its arguments in storage order, so (m0, m1) is column 0 (include/mymatrix.hpp:8-12) |
| MyMatrix.Matrix2.Copy | mymatrix.cpp:15-21 | the copy constructor makes fresh arrays holding the same entries |
| MyMatrix.Matrix2.Assign | mymatrix.cpp:23-33 | copy assignment leaves this equal to the other matrix, and writes nothing on self-assignment |
| MyMatrix.Matrix2.Set | mymatrix.cpp:35-46 | `set(src)` copies the four values in order |
| MyMatrix.Matrix2.SetElements | mymatrix.cpp:48-53 | `set(m0, m1, m2, m3)` stores the four values in order |
| MyMatrix.Matrix2.SetRow | mymatrix.cpp:72-80 | with the corrected guard: it fails, writing nothing, exactly when `getRow` would; otherwise `getRow(r)` then returns v, and every entry other than m[r] and m[r+2] is unchanged |
| MyMatrix.Matrix2.SetRowArray | mymatrix.cpp:55-70 | the same as SetRow, with the row given as a two-element array |
| MyMatrix.Matrix2.SetColumn | mymatrix.cpp:99-107 | with the corrected guard: it fails, writing nothing, exactly when `getColumn` would; otherwise `getColumn(c)` then returns v, and every entry other than m[2c] and m[2c+1] is unchanged |
| MyMatrix.Matrix2.SetColumnArray | mymatrix.cpp:82-97 | the same as SetColumn, with the column given as a two-element array |
| MyMatrix.Matrix2.SetAt | mymatrix.cpp:271-278 | writing through `operator[](k)`: it fails, writing nothing, outside 0..3; otherwise only m[k] changes |
| MyMatrix.Matrix2.SetEntry | mymatrix.cpp:288-295 | writing through `operator()(i, j)`: it fails, writing nothing, outside {0,1}²; otherwise only m[j*2+i] changes |
| MyMatrix.Matrix2.Data | mymatrix.cpp:109-123 | `data()`/`get()` expose the four entries in storage order, so element k agrees with `operator[](k)` |
| MyMatrix.Matrix2.DataTranspose | mymatrix.cpp:113-119 | `dataTranspose()` fills `mt` with the row-major copy, returns it and leaves `m` unchanged |
| MyMatrix.Matrix2.GetTranspose | mymatrix.cpp:125-131 | `getTranspose()` does the same writes as `dataTranspose()` |
| MyMatrix.Matrix2.SetIdentity | mymatrix.cpp:173-179 | `identity()` leaves the identity |
| MyMatrix.Matrix2.Transpose | mymatrix.cpp:181-184 | `transpose()` swapping m[1] and m[2] leaves the transpose |
| MyMatrix.Matrix2.Inverse | mymatrix.cpp:186-203 | it throws before writing when \|det\| < MYEPSILON; otherwise it leaves adjugate/det, which InverseIsTwoSided proves is the inverse |
| MyMatrix.Matrix2.AddAssign | mymatrix.cpp:210-216 | `+=` leaves this + rhs |
| MyMatrix.Matrix2.SubAssign | mymatrix.cpp:223-229 | `-=` leaves this − rhs |
| MyMatrix.Matrix2.MulAssign | mymatrix.cpp:245-248 | `*=` stores the product this * rhs |
| MatrixProperties.TransposedIsRowMajor | include/mymatrix.hpp:24-27 | `mt` holds the matrix row by row: flat index i*2+j is entry (i,j) |
| MatrixProperties.TransposeInvolution | mymatrix.cpp:181-184 | transposing twice restores the matrix |
| MatrixProperties.DetTransposed | mymatrix.cpp:151-153 | transposing keeps the determinant |
| MatrixProperties.DetByEntries | mymatrix.cpp:151-153 | m0*m3 − m1*m2 is M(0,0)M(1,1) − M(0,1)M(1,0) |
| MatrixProperties.WorkedExample | test_matrix.cpp:7 | `Matrix2(1, 2, 4, 5)` has determinant −3, inverse (1/−3)·[5, −2, −4, 1], and first row (1, 4) |
| MatrixProperties.AddSubCancel | mymatrix.cpp:205-221 | (A + B) − B = A and (A − B) + B = A |
| MatrixProperties.NegInvolution | mymatrix.cpp:297-300 | −(−A) = A, and A + (−A) is the zero matrix |
| MatrixProperties.EqIsEquality | mymatrix.cpp:254-260 | `==` holds exactly for equal matrices, and `!=` is its negation |
| MatrixProperties.EqualNeedsPositiveTolerance | mymatrix.cpp:250-252 | `equal` compares strictly: it implies e > 0; `equal(A, 0)` is false; `equal(A, A, e)` holds iff e > 0; it is symmetric; exact equality implies it for every positive e |
| MatrixProperties.ScaleEntries | mymatrix.cpp:241-243 | `M * s` and `s * M` scale every entry |
| MatrixProperties.MatMulEntries | mymatrix.cpp:236-239 | the column-major product formula is the row-by-column product |
| MatrixProperties.MulVecComponents | mymatrix.cpp:231-234 | `M * v` has components row_i · v |
| MatrixProperties.IdentityIsUnit | mymatrix.cpp:173-179 | the identity is a two-sided unit of the product, and leaves vectors unchanged on either side |
| MatrixProperties.MulVecComposes | mymatrix.cpp:231-239 | (A * B) * v = A * (B * v) |
| MatrixProperties.VecMulUsesColumns | mymatrix.cpp:306-309 | `v * M` has components v · column_j |
| MatrixProperties.DetMultiplicative | mymatrix.cpp:236-239 | det(A * B) = det A · det B |
| MatrixProperties.AdjugateProducts | mymatrix.cpp:194-196 | M · adj(M) = adj(M) · M = det(M) · I |
| MatrixProperties.MatMulScaleRight | mymatrix.cpp:236-243 | A * (B * s) = (A * B) * s |
| MatrixProperties.MatMulScaleLeft | mymatrix.cpp:236-243 | (A * s) * B = (A * B) * s |
| MatrixProperties.InverseIsTwoSided | mymatrix.cpp:186-203 | when `inverse()` succeeds, old · new = new · old = identity |
| MatrixProperties.UnitDetInverse | mymatrix.cpp:186-203 | with det exactly 1, `inverse()` leaves the adjugate |
| MatrixProperties.IdentityIsOwnInverse | mymatrix.cpp:173-203 | inverting the identity gives the identity |
| MatrixProperties.AngleGuardAcceptsNonRotation | mymatrix.cpp:160 | `getAngle` accepts diag(2, 0.5), a matrix with det 1 that is not a rotation |
| MatrixProperties.CheckedAngleGuardRejectsNonRotation | mymatrix.cpp:160-164 | the corrected guard rejects that matrix |
| MatrixProperties.CheckedAngleGuardAcceptsRotations | mymatrix.cpp:155-171 | both guards accept every exact rotation [[c, −s], [s, c]] with c² + s² = 1, and return the scaled angle |
| MatrixProperties.ExactRotationForm | mymatrix.cpp:156-159 | det 1, orthogonal columns and a unit first column force the form [[c, −s], [s, c]] that atan2(m1, m0) reads |
| MyVector.Normalized2 | myvector.cpp:28-36 | `normalized()` throws division-by-zero exactly when length < MYEPSILON; otherwise the result has unit length |
| MyVector.Normalized3 | myvector.cpp:218-226 | the same for Vector3 |
| MyVector.UnitAfterDivision2 | myvector.cpp:34 | dividing each component by a positive length gives a unit vector |
| MyVector.UnitAfterDivision3 | myvector.cpp:224 | the same for Vector3 |
| MyVector.Angle3 | myvector.cpp:203-216 | `angle` throws exactly when the product of the lengths is < MYEPSILON; otherwise it returns the acos value converted with RAD2DEG |
| MyVector.ScaleLeft2 | myvector.cpp:168-170 | `a * v` equals `v * a` |
| MyVector.ScaleLeft3 | myvector.cpp:370-372 | the same for Vector3 |
| MyVector.Div2 | myvector.cpp:101-107 | `/` throws exactly when \|scale\| < MYEPSILON; otherwise the quotient times scale is the vector |
| MyVector.Div3 | myvector.cpp:300-306 | the same for Vector3 |
| MyVector.At2 | myvector.cpp:140-152 | `operator[]` succeeds exactly for 0 and 1, giving x and y; any other index throws |
| MyVector.At3 | myvector.cpp:342-354 | `operator[]` succeeds exactly for 0, 1 and 2, giving x, y and z |
| MyVector.Vector2.constructor | include/myvector.hpp:25-26 | the two-argument constructor stores x then y |
| MyVector.Vector2.Set | myvector.cpp:3-6 | `set` stores x then y |
| MyVector.Vector2.SetAt | myvector.cpp:154-166 | writing through `operator[]`: it fails, writing nothing, outside 0..1; otherwise only that field changes |
| MyVector.Vector2.AddAssign | myvector.cpp:69-73 | `+=` leaves the value of `+` |
| MyVector.Vector2.SubAssign | myvector.cpp:75-79 | `-=` leaves the value of `-` |
| MyVector.Vector2.MulAssign | myvector.cpp:89-93 | `*=` with a vector leaves the componentwise product |
| MyVector.Vector2.ScaleAssign | myvector.cpp:95-99 | `*=` with a scalar leaves the value of `* scale` |
| MyVector.Vector2.DivAssign | myvector.cpp:109-117 | `/=` fails, writing nothing, exactly when `/` throws; otherwise it leaves the value of `/` |
| MyVector.Vector2.Normalize | myvector.cpp:38-47 | `normalize()` fails, writing nothing, exactly when `normalized()` throws; otherwise it leaves the value of `normalized()` |
| MyVector.Vector3.constructor | include/myvector.hpp:25-26 | the three-argument constructor, mirroring Vector2's two-argument one, stores x, y, z |
| MyVector.Vector3.Set | myvector.cpp:177-181 | `set` stores x, y, z |
| MyVector.Vector3.SetAt | myvector.cpp:356-368 | writing through `operator[]`: it fails, writing nothing, outside 0..2; otherwise only that field changes |
| MyVector.Vector3.AddAssign | myvector.cpp:260-265 | `+=` leaves the value of `+` |
| MyVector.Vector3.SubAssign | myvector.cpp:271-276 | `-=` leaves the value of `-` |
| MyVector.Vector3.MulAssign | myvector.cpp:282-287 | `*=` with a vector leaves the componentwise product |
| MyVector.Vector3.ScaleAssign | myvector.cpp:293-298 | `*=` with a scalar leaves the value of `* scale` |
| MyVector.Vector3.DivAssign | myvector.cpp:308-317 | `/=` fails, writing nothing, exactly when `/` throws; otherwise it leaves the value of `/` |
| MyVector.Vector3.Normalize | myvector.cpp:228-238 | `normalize()` fails, writing nothing, exactly when `normalized()` throws; otherwise it leaves the value of `normalized()` |
| VectorProperties.Less2Irreflexive | myvector.cpp:127-134 | `<` is irreflexive |
| VectorProperties.Less2Transitive | myvector.cpp:127-134 | `<` is transitive |
| VectorProperties.Less2Trichotomy | include/myvector.hpp:56 | `<` is a strict total order, as sorting needs: exactly one of a < b, a = b, b < a holds |
| VectorProperties.Less3Irreflexive | myvector.cpp:327-336 | `<` on Vector3 is irreflexive |
| VectorProperties.Less3Transitive | myvector.cpp:327-336 | `<` on Vector3 is transitive |
| VectorProperties.Less3Trichotomy | myvector.cpp:327-336 | `<` on Vector3 is a strict total order |
| VectorProperties.Greater2IsReflexive | myvector.cpp:136-138 | `>` as written holds of v and v, where a strict `>` would not |
| VectorProperties.Greater3IsReflexive | myvector.cpp:338-340 | the same for Vector3 |
| VectorProperties.StrictGreater2IsGreaterAndDistinct | myvector.cpp:136-138 | the corrected `>` (b < a) is the written `>` restricted to distinct vectors |
| VectorProperties.StrictGreater3IsGreaterAndDistinct | myvector.cpp:338-340 | the same for Vector3 |
| VectorProperties.StrictGreater2IsStrictOrder | myvector.cpp:136-138 | the corrected `>` is irreflexive and transitive |
| VectorProperties.StrictGreater3IsStrictOrder | myvector.cpp:338-340 | the same for Vector3 |
| VectorProperties.Eq2IsEquality | myvector.cpp:119-125 | `==` is exact equality (include/myvector.hpp:54-55) and `!=` is its negation |
| VectorProperties.Eq3IsEquality | myvector.cpp:319-325 | the same for Vector3 |
| VectorProperties.Equal2Reflexive | myvector.cpp:53-55 | `equal(v, v, e)` holds iff e ≥ 0 |
| VectorProperties.Equal3Reflexive | myvector.cpp:248-250 | the same for Vector3 |
| VectorProperties.Equal2Symmetric | myvector.cpp:53-55 | `equal` does not depend on which vector is the receiver |
| VectorProperties.Equal3Symmetric | myvector.cpp:248-250 | the same for Vector3 |
| VectorProperties.Eq2ImpliesEqual | include/myvector.hpp:36 | exactly equal vectors are `equal` at the default tolerance MYEPSILON |
| VectorProperties.Eq3ImpliesEqual | myvector.cpp:248-250 | exactly equal Vector3 values are `equal` at tolerance MYEPSILON, the default mirrored from Vector2 |
| VectorProperties.Equal2WithinTolerance | myvector.cpp:53-55 | `equal(v, e)` holds if and only if every component difference is at most e in absolute value |
| VectorProperties.Equal3WithinTolerance | myvector.cpp:248-250 | the same for Vector3 |
| VectorProperties.EqualAcceptsExactTolerance | myvector.cpp:53-55 | a difference of exactly e is still `equal`, for Vector2 and for Vector3 (myvector.cpp:248-250): the comparison is not strict |
| VectorProperties.AddSubCancel2 | myvector.cpp:57-67 | (a + b) − b = a, (a − b) + b = a, a − b = a + (−b), −(−a) = a |
| VectorProperties.AddSubCancel3 | myvector.cpp:252-269 | the same for Vector3 |
| VectorProperties.Div2UndoesScale | myvector.cpp:85-107 | (v * s) / s = v whenever \|s\| ≥ MYEPSILON |
| VectorProperties.Div3UndoesScale | myvector.cpp:289-306 | the same for Vector3 |
| VectorProperties.DotSymmetric | myvector.cpp:49-51 | `dot` is symmetric for Vector2 and for Vector3 (myvector.cpp:240-242) |
| VectorProperties.DotIsSquaredLength | myvector.cpp:8-14 | a vector dotted with itself is the sum of squares under `length()`'s square root, for Vector2 and for Vector3 (myvector.cpp:183-189) |
| VectorProperties.DotDistributes2 | myvector.cpp:49-51 | (a + b) · c = a · c + b · c |
| VectorProperties.DotDistributes3 | myvector.cpp:240-242 | the same for Vector3 |
| VectorProperties.Mul2Laws | myvector.cpp:81-83 | the componentwise `*` commutes, has (1, 1) as unit, and by (s, s) equals `* s` |
| VectorProperties.Mul3Laws | myvector.cpp:278-280 | the same for Vector3, with unit (1, 1, 1) |
| VectorProperties.CrossIsOrthogonal | myvector.cpp:244-246 | a × b is orthogonal to a and to b |
| VectorProperties.CrossAnticommutes | myvector.cpp:244-246 | b × a = −(a × b), and a × a = 0 |
| VectorProperties.ZeroSquare | myvector.cpp:8-14 | a non-negative length whose square is 0 is 0 |
| VectorProperties.ZeroVectorLength2 | myvector.cpp:8-14 | the zero vector has length 0 |
| VectorProperties.ZeroVectorLength3 | myvector.cpp:183-189 | the same for Vector3 |
| VectorProperties.Normalized2ZeroFails | myvector.cpp:28-36 | normalising the zero vector always throws division-by-zero |
| VectorProperties.Normalized3ZeroFails | myvector.cpp:218-226 | the same for Vector3 |
| VectorProperties.AngleNeedsNonzeroLengths | myvector.cpp:203-208 | `angle` throws when either length is 0 |
| VectorProperties.NormalizedKeepsDirection2 | myvector.cpp:28-36 | the normalised vector times the length is the original vector |
| VectorProperties.NormalizedKeepsDirection3 | myvector.cpp:218-226 | the same for Vector3 |
| VectorProperties.NormalizedUnitIsFixed2 | myvector.cpp:28-36 | a unit vector has length 1, and normalising it gives it back |
| VectorProperties.NormalizedUnitIsFixed3 | myvector.cpp:218-226 | the same for Vector3 |

## Left out

- Floating-point arithmetic: rounding, overflow, and the float/double switch of `scalar`. All arithmetic is exact over the reals.
- The values of `sqrt`, `atan2` and `acos`. `length()`, `l2norm()`, `distance()`, the angle `getAngle` returns and the angle `Vector3::angle` returns are not computed. The members that use them take the value as a parameter, and only their guards are modelled.
- `l2norm()` and `distance()` have no member of their own: they only forward to or repeat the square root.
- `operator<<` formatting and the `fprintf`/`std::cerr` diagnostics.
- The `nullptr` checks in `set`, `setRow` and `setColumn`. `(src + 1) == nullptr` can never hold. Inputs are Dafny arrays of the right length.
- Writing through the pointer `data()` returns, as the test driver does. Writes through `operator[]` and `operator()` are modelled by `SetAt` and `SetEntry`. `data()`/`get()` are modelled as reads of the current entries (`Matrix2.Data`).
- These functions have no `ensures` of their own; the lemmas named after each carry their laws:
  - `MyVector.Neg2`, `Add2`, `Sub2`, `Neg3`, `Add3`, `Sub3`: AddSubCancel2, AddSubCancel3.
  - `MyVector.Mul2`, `Mul3`: Mul2Laws, Mul3Laws.
  - `MyVector.Scale2`, `Scale3`: ScaleLeft2, ScaleLeft3, Div2UndoesScale, Div3UndoesScale.
  - `MyVector.Dot2`, `Dot3`: DotSymmetric, DotIsSquaredLength, DotDistributes2, DotDistributes3.
  - `MyVector.Cross3`: CrossIsOrthogonal, CrossAnticommutes.
  - `MyVector.Eq2`, `Ne2`, `Eq3`, `Ne3`: Eq2IsEquality, Eq3IsEquality.
  - `MyVector.Equal2`, `Equal3`: Equal2Reflexive, Equal2Symmetric, Equal2WithinTolerance, EqualAcceptsExactTolerance and their Vector3 counterparts.
  - `MyVector.Less2`, `Less3`: Less2Irreflexive, Less2Transitive, Less2Trichotomy and their Vector3 counterparts.
  - `MyVector.Greater2`, `Greater3` (as written) and `StrictGreater2`, `StrictGreater3` (corrected): Greater2IsReflexive, StrictGreater2IsGreaterAndDistinct, StrictGreater2IsStrictOrder and their Vector3 counterparts.
  - `MyMatrix.Det`: DetByEntries, DetTransposed, DetMultiplicative.
  - `MyMatrix.Scale`, `MatMul`, `MulVec`: ScaleEntries, MatMulEntries, MulVecComponents, MulVecComposes, MatMulScaleLeft, MatMulScaleRight, IdentityIsUnit.
  - `MyMatrix.Eq`, `Ne`: EqIsEquality. `MyMatrix.Equal`: EqualNeedsPositiveTolerance.
  - `MyMatrix.Get`, the column-major reading of the header's layout comment (include/mymatrix.hpp:8-12): TransposedIsRowMajor, DetByEntries, Identity, Row and Column.
  - `MyMatrix.IsRotation`, the corrected guard of `getAngle`: GetAngleChecked, CheckedAngleGuardRejectsNonRotation, CheckedAngleGuardAcceptsRotations, ExactRotationForm.
  - `Matrix2.Value`, `Vector2.Value` and `Vector3.Value` are the abstraction functions that the class methods' contracts are written in.
- `Vector2.Uninitialised` and `Vector3.Uninitialised`: the default constructors leave the fields unspecified, as `Vector2()` does (include/myvector.hpp:24), so they promise nothing.
- The headers declare no Vector3 and no Vector3 constructor; myvector.cpp defines only its members. The Vector3 constructor and the default tolerance MYEPSILON of `Equal3` are assumed to mirror Vector2's (include/myvector.hpp:25-26 and 36).
- `Matrix3`, `Matrix4` and `Vector4`: no bodies exist for them.
- Mismatches between the headers and the code. The code is modelled, not the headers:
  - the header declares `-=` and `*=` as `const`;
  - it declares `norm()` where the code defines `l2norm()`;
  - it has no `Vector3` declaration;
  - it declares no `equal` for `Matrix2`, so the model's `Equal` on matrices takes its tolerance with no default.
- MyMatrix.IsRotation: checks the squared column lengths against 1 within MYEPSILON, rather than the lengths, because lengths need a square root.
- MyVector.Normalized2: the error kind is `DivisionByZero`, after the thrown message "Division by zero condition!", not a separate degenerate-vector kind.
- MyMatrix.Matrix2.SetRow, SetRowArray, SetColumn and SetColumnArray, and MyMatrix.Row and Column, use the corrected 0..1 guard, not the written one (see Findings). With the written guard, index 2 writes or reads outside the array; Dafny cannot model that behaviour.

## Findings

| source | as written | input that shows it | evidently intended | confidence | as-written member | corrected member |
|---|---|---|---|---|---|---|
| mymatrix.cpp:56, 73, 83, 100, 134, 143 | row/column index guard `(index > 2) \|\| (index < 0)` admits index 2 | `getRow(2)` reads m[2] and m[4]; `setColumn(2, v)` writes m[4] and m[5]; all lie past `scalar m[4]` | admit only 0 and 1, `index > 1` | high, not executed | MyMatrix.RowColumnGuardAsWritten, MyMatrix.RowColumnGuardAdmitsTwo | MyMatrix.RowColumnGuard, MyMatrix.Row, MyMatrix.Matrix2.SetRow |
| mymatrix.cpp:160 | `getAngle` checks only \|det − 1\| ≤ MYEPSILON before reading atan2(m1, m0) | `Matrix2(2, 0, 0, 0.5)`: det 1, not a rotation, yet an angle is returned | reject matrices that are not rotations, as the message "Not a rotation matrix!" says | medium, not executed | MyMatrix.GetAngle, MatrixProperties.AngleGuardAcceptsNonRotation | MyMatrix.GetAngleChecked, MatrixProperties.CheckedAngleGuardRejectsNonRotation, MatrixProperties.CheckedAngleGuardAcceptsRotations |
| myvector.cpp:136-138, 338-340 | `operator>` is `!(operator<(rhs))`, which is `>=` | `v > v` is true for every v | strict `>`: `rhs < *this` | high, not executed | MyVector.Greater2, VectorProperties.Greater2IsReflexive | MyVector.StrictGreater2, VectorProperties.StrictGreater2IsStrictOrder |
