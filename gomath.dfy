/**
 * The parts of Go's `math` package and of Go's built-in numeric operators
 * that the ephemeris code relies on, stated over Dafny's exact `real`.
 *
 * Go's `math.Mod`, `math.Modf` and the float-to-int conversion truncate
 * toward zero; Dafny's own `%` and `/` on `int` are Euclidean, so the
 * truncating versions are written out here.
 *
 * The transcendental functions are not computed: `Math` is a module
 * constant of a subset type whose constraint lists the only laws the model
 * uses. Nothing else is known about the values of sin, cos, atan2, asin and
 * sqrt.
 */
module GoMath {

  /** math.Pi as a float64 literal. */
  const Pi: real := 3.141592653589793

  /** 2π, the `Pi2` constant of the mathutils packages. */
  const Pi2: real := Pi * 2.0

  /** math.Abs */
  function Abs(x: real): (r: real)
    ensures r >= 0.0
    ensures r == x || r == -x
  {
    if x < 0.0 then -x else x
  }

  /** Conversion of a float64 to an integer (int(x) in Go): truncation toward zero. */
  function Trunc(x: real): (n: int)
    ensures x >= 0.0 ==> 0 <= n && n as real <= x < n as real + 1.0
    ensures x < 0.0 ==> n <= 0 && n as real - 1.0 < x <= n as real
  {
    if x >= 0.0 then x.Floor else -((-x).Floor)
  }

  /**
   * math.Mod(x, y): the remainder x - y*trunc(x/y); its sign is that of x and
   * its magnitude is below |y|. Go returns NaN for y == 0.
   */
  function Mod(x: real, y: real): (r: real)
    requires y != 0.0
    ensures Abs(r) < Abs(y)
    ensures x >= 0.0 ==> r >= 0.0
    ensures x < 0.0 ==> r <= 0.0
  {
    var q := x / y;
    var n := Trunc(q);
    var p := n as real * y;
    ModBound(x, y, q, n as real, p);
    x - p
  }

  /**
   * The arithmetic behind Mod's contract: with p = m*y and q - m a fraction
   * of q's sign, x - p = (q - m)*y is smaller than y and has x's sign.
   */
  lemma ModBound(x: real, y: real, q: real, m: real, p: real)
    requires y != 0.0 && q == x / y && p == m * y
    requires q > 0.0 ==> 0.0 <= q - m < 1.0
    requires q == 0.0 ==> m == 0.0
    requires q < 0.0 ==> -1.0 < q - m <= 0.0
    ensures Abs(x - p) < Abs(y)
    ensures x >= 0.0 ==> x - p >= 0.0
    ensures x < 0.0 ==> x - p <= 0.0
  {
    QuotientTimes(x, y, q);
    if q == 0.0 {
      assert x == 0.0 * y;
    } else if q > 0.0 {
      RemainderPos(x, y, q, m, p);
    } else {
      RemainderNeg(x, y, q, m, p);
    }
  }

  lemma QuotientTimes(x: real, y: real, q: real)
    requires y != 0.0 && q == x / y
    ensures x == q * y
  {
  }

  /** ModBound for a positive quotient: the remainder lies between 0 and y. */
  lemma RemainderPos(x: real, y: real, q: real, m: real, p: real)
    requires y != 0.0 && x == q * y && p == m * y
    requires q > 0.0 && 0.0 <= q - m < 1.0
    ensures y > 0.0 ==> 0.0 <= x - p < y && x > 0.0
    ensures y < 0.0 ==> y < x - p <= 0.0 && x < 0.0
  {
    var f := q - m;
    FactorOut(x, p, q, m, f, y);
    if y > 0.0 {
      FractionTimes(f, y);
      FactorSign(q, y, x);
    } else {
      FractionTimesNeg(f, y, x - p);
      FactorSign(q, y, x);
    }
  }

  /** ModBound for a negative quotient: the remainder lies between 0 and -y. */
  lemma RemainderNeg(x: real, y: real, q: real, m: real, p: real)
    requires y != 0.0 && x == q * y && p == m * y
    requires q < 0.0 && -1.0 < q - m <= 0.0
    ensures y > 0.0 ==> -y < x - p <= 0.0 && x < 0.0
    ensures y < 0.0 ==> 0.0 <= x - p < -y && x > 0.0
  {
    var f := m - q;
    FactorOut(p, x, m, q, f, y);
    NegateProduct(q, y, x);
    if y > 0.0 {
      FractionTimes(f, y);
      FactorSign(-q, y, -x);
    } else {
      FractionTimesNeg(f, y, p - x);
      FactorSign(-q, y, -x);
    }
  }

  lemma NegateProduct(q: real, y: real, x: real)
    requires x == q * y
    ensures -x == (-q) * y
  {
  }

  /** A fraction f in [0, 1) times a negative y lies in (y, 0]. */
  lemma FractionTimesNeg(f: real, y: real, fy: real)
    requires 0.0 <= f < 1.0 && y < 0.0 && fy == f * y
    ensures y < fy <= 0.0
  {
    FractionTimes(f, -y);
    assert f * (-y) == -fy;
  }

  /** Multiplying by a positive factor keeps the sign of y. */
  lemma FactorSign(k: real, y: real, p: real)
    requires k > 0.0 && p == k * y
    ensures y > 0.0 ==> p > 0.0
    ensures y < 0.0 ==> p < 0.0
  {
    SignOfProduct(k, y);
  }

  /** a*y - b*y == (a - b)*y */
  lemma FactorOut(ay: real, bY: real, a: real, b: real, f: real, y: real)
    requires ay == a * y && bY == b * y && f == a - b
    ensures ay - bY == f * y
  {
  }

  lemma FractionTimes(a: real, b: real)
    requires 0.0 <= a < 1.0 && b > 0.0
    ensures 0.0 <= a * b < b
  {
    assert (1.0 - a) * b > 0.0;
  }

  lemma SignOfProduct(a: real, b: real)
    ensures a >= 0.0 && b >= 0.0 ==> a * b >= 0.0
    ensures a <= 0.0 && b <= 0.0 ==> a * b >= 0.0
    ensures a >= 0.0 && b <= 0.0 ==> a * b <= 0.0
    ensures a <= 0.0 && b >= 0.0 ==> a * b <= 0.0
    ensures a > 0.0 && b > 0.0 ==> a * b > 0.0
    ensures a < 0.0 && b < 0.0 ==> a * b > 0.0
    ensures a > 0.0 && b < 0.0 ==> a * b < 0.0
    ensures a < 0.0 && b > 0.0 ==> a * b < 0.0
  {
  }

  /** |a*b| == |a|*|b| */
  lemma AbsProduct(a: real, b: real)
    ensures Abs(a * b) == Abs(a) * Abs(b)
  {
    SignOfProduct(a, b);
    if a < 0.0 && b >= 0.0 {
      assert -(a * b) == (-a) * b;
    } else if a >= 0.0 && b < 0.0 {
      assert -(a * b) == a * (-b);
    } else if a < 0.0 && b < 0.0 {
      assert a * b == (-a) * (-b);
    }
  }

  /** Mod's result differs from x by a whole multiple of y. */
  lemma ModMultiple(x: real, y: real)
    requires y != 0.0
    ensures Mod(x, y) == x - Trunc(x / y) as real * y
  {
  }

  /** math.Modf: integer part (truncated toward zero) and fractional part, both with x's sign. */
  function Modf(x: real): (parts: (real, real))
    ensures parts.0 + parts.1 == x
    ensures Abs(parts.1) < 1.0
    ensures x >= 0.0 ==> parts.0 == x.Floor as real && parts.1 >= 0.0
    ensures x < 0.0 ==> parts.0 <= 0.0 && parts.1 <= 0.0
  {
    var i := Trunc(x) as real;
    (i, x - i)
  }

  /** Go's integer `/`: the quotient truncated toward zero. */
  function Quo(a: int, b: int): (q: int)
    requires b != 0
    ensures a >= 0 && b > 0 ==> q == a / b
    ensures a < 0 && b > 0 ==> q == -((-a) / b)
  {
    var n, d := if a < 0 then -a else a, if b < 0 then -b else b;
    if (a >= 0) == (b > 0) || a == 0 then n / d else -(n / d)
  }

  /** Go's integer `%`: a - b*(a/b), with the sign of a. */
  function Rem(a: int, b: int): (r: int)
    requires b != 0
    ensures a >= 0 && b > 0 ==> r == a % b
    ensures a == Quo(a, b) * b + r
  {
    a - Quo(a, b) * b
  }

  /** The functions of Go's math package that the model leaves uncomputed. */
  datatype MathOps = MathOps(
    sin: real -> real,
    cos: real -> real,
    atan2: (real, real) -> real,
    asin: real -> real,
    sqrt: real -> real)

  /** sin²x + cos²x = 1 at one point x. */
  ghost predicate UnitCircleAt(ops: MathOps, x: real) {
    ops.sin(x) * ops.sin(x) + ops.cos(x) * ops.cos(x) == 1.0
  }

  /** The only facts the model assumes of them. */
  ghost predicate Lawful(ops: MathOps) {
    && (forall x :: UnitCircleAt(ops, x))
    && (forall y, x :: -Pi < ops.atan2(y, x) <= Pi)
    && (forall y, x :: x >= 0.0 ==> -Pi / 2.0 <= ops.atan2(y, x) <= Pi / 2.0)
    && (forall x :: -Pi / 2.0 <= ops.asin(x) <= Pi / 2.0)
    && (forall x :: ops.sqrt(x) >= 0.0)
    && ops.sqrt(0.0) == 0.0
  }

  type LawfulOps = ops: MathOps | Lawful(ops)
    witness MathOps(x => 0.0, x => 1.0, (y, x) => 0.0, x => 0.0, x => 0.0)

  /** Go's math package: some implementation obeying `Lawful`, otherwise unknown. */
  const Math: LawfulOps

  function Sin(x: real): real { Math.sin(x) }

  function Cos(x: real): real { Math.cos(x) }

  /** math.Atan2(y, x): the angle of (x, y); in the right half-plane it lies in [-π/2, π/2]. */
  function Atan2(y: real, x: real): (r: real)
    ensures -Pi < r <= Pi
    ensures x >= 0.0 ==> -Pi / 2.0 <= r <= Pi / 2.0
  {
    Math.atan2(y, x)
  }

  /** math.Asin */
  function Asin(x: real): (r: real)
    ensures -Pi / 2.0 <= r <= Pi / 2.0
  {
    Math.asin(x)
  }

  /** math.Sqrt: never negative, and 0 at 0. */
  function Sqrt(x: real): (r: real)
    ensures r >= 0.0
    ensures x == 0.0 ==> r == 0.0
  {
    Math.sqrt(x)
  }

  lemma SinCos(x: real)
    ensures Sin(x) * Sin(x) + Cos(x) * Cos(x) == 1.0
  {
    assert UnitCircleAt(Math, x);
  }

  lemma CosBounded(x: real)
    ensures -1.0 <= Cos(x) <= 1.0
  {
    SinCos(x);
    assert Sin(x) * Sin(x) >= 0.0;
  }
}
