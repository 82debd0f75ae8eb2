/**
 * The internal package's own copy of the angle helpers (package internal/mathutils).
 * Its Polynome, Radians, Degrees, DiffAngle and AlmostEqual are the same
 * code as the public package's and are modelled once, in MathUtils; only
 * ReduceRad is written differently here (a remainder reassigned in place
 * instead of a call to ToRange).
 */
module InternalMathUtils {
  import opened GoMath
  import MathUtils

  /** ReduceRad: take Go's truncating remainder by 2π, then lift a negative one by 2π. */
  method ReduceRad(x0: real) returns (x: real)
    ensures 0.0 <= x < Pi2
    ensures x == MathUtils.ReduceRad(x0)
  {
    x := Mod(x0, 2.0 * Pi);
    if x < 0.0 {
      x := x + 2.0 * Pi;
    }
  }
}
