/**
 * Shared scalar conventions of the library: the tolerance, the angle
 * conversion factors, the angle-unit enumeration, and the error kinds the
 * C++ code raises with `throw`.
 *
 * `scalar` (float or double, chosen at build time) is modelled as `real`.
 */
module MathUtils {

  /** MYEPSILON: the one fixed tolerance, 1e-6. */
  const Epsilon: real := 0.000001

  /** The literal for pi that both conversion macros use. */
  const PiLiteral: real := 3.141592653579

  /** RAD2DEG: multiply radians by this to get degrees. */
  const Rad2Deg: real := 180.0 / PiLiteral

  /** DEG2RAD: multiply degrees by this to get radians. */
  const Deg2Rad: real := PiLiteral / 180.0

  /** ANGLEUNIT: exactly two units. */
  datatype AngleUnit = Rad | Deg

  /** The factor an angle in radians is multiplied by to be reported in `unit`. */
  function AngleScale(unit: AngleUnit): (u: real)
    ensures unit == Rad ==> u == 1.0
    ensures unit == Deg ==> u == Rad2Deg && u > 57.0
  {
    if unit == Rad then 1.0 else Rad2Deg
  }

  /** The two conversion factors are exact inverses over the reals. */
  lemma ConversionFactorsInverse()
    ensures Rad2Deg * Deg2Rad == 1.0
    ensures Epsilon > 0.0
  {
  }

  /** The kinds of failure the library signals (each `throw` site names one). */
  datatype Error =
    | IndexOutOfBounds
    | NotARotationMatrix
    | SingularMatrix
    | DivisionByZero

  /** The result of a const member that may throw. */
  datatype Result<T> = Ok(value: T) | Err(error: Error)

  /** The result of a mutator that may throw; on `Fail` nothing was written. */
  datatype Outcome = Pass | Fail(error: Error)

  /** std::abs on a scalar. */
  function Abs(r: real): (a: real)
    ensures a >= 0.0
    ensures a == r || a == -r
  {
    if r < 0.0 then -r else r
  }

  // Small facts of real arithmetic that the solver does not find unaided.

  lemma PositiveProduct(a: real, b: real)
    requires a > 0.0 && b > 0.0
    ensures a * b > 0.0
  {
  }

  /** A product with a positive square is zero only when the other factor is. */
  lemma ZeroFactorOfSquare(s: real, l: real)
    requires l > 0.0
    requires s * (l * l) == 0.0
    ensures s == 0.0
  {
    if s > 0.0 {
      PositiveProduct(s, l);
      PositiveProduct(s * l, l);
    } else if s < 0.0 {
      PositiveProduct(-s, l);
      PositiveProduct((-s) * l, l);
    }
  }

  /** Multiplying equals by the same factor; keeps the grouping the solver loses. */
  lemma MulBothSides(k: real, x: real, y: real)
    requires x == y
    ensures k * x == k * y
  {
  }
}
