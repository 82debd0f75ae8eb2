/**
 * The public angle and number helpers (package mathutils): polynomial
 * evaluation, degree/radian conversion, range reduction, the shortest arc
 * between two directions, and the sexagesimal split.
 */
module MathUtils {
  import opened GoMath

  const DegRad: real := Pi / 180.0
  const RadDeg: real := 180.0 / Pi

  /** a and b differ by at most threshold. */
  predicate AlmostEqual(a: real, b: real, threshold: real)
  {
    Abs(a - b) <= threshold
  }

  /** AlmostEqual is symmetric, and reflexive for a non-negative threshold. */
  lemma AlmostEqualLaws(a: real, b: real, threshold: real)
    ensures AlmostEqual(a, b, threshold) <==> AlmostEqual(b, a, threshold)
    ensures threshold >= 0.0 ==> AlmostEqual(a, a, threshold)
  {
  }

  /** Fractional part, with the sign of x: what is left after removing the truncated integer part. */
  function Frac(x: real): (f: real)
    ensures x - f == Trunc(x) as real
    ensures Abs(f) < 1.0
    ensures x >= 0.0 ==> f >= 0.0
    ensures x < 0.0 ==> f <= 0.0
  {
    Modf(x).1
  }

  lemma FracExample()
    ensures Frac(-5.5) == -0.5
  {
  }

  // ---------------------------------------------------------------------
  // Polynomials
  // ---------------------------------------------------------------------

  /** t to the n-th power. */
  function Power(t: real, n: nat): real
  {
    if n == 0 then 1.0 else Power(t, n - 1) * t
  }

  /** The polynomial terms[0] + terms[1]*t + terms[2]*t^2 + ..., summed term by term. */
  function PolySum(t: real, terms: seq<real>): real
  {
    if |terms| == 0 then 0.0
    else PolySum(t, terms[..|terms| - 1]) + terms[|terms| - 1] * Power(t, |terms| - 1)
  }

  /** Polynome: one pass over the terms, keeping a running power of t. */
  method Polynome(t: real, terms: seq<real>) returns (res: real)
    ensures res == PolySum(t, terms)
  {
    res := 0.0;
    var power := 1.0;
    for i := 0 to |terms|
      invariant res == PolySum(t, terms[..i])
      invariant power == Power(t, i)
    {
      assert terms[..i + 1][..i] == terms[..i];
      res := res + terms[i] * power;
      power := power * t;
    }
    assert terms[..|terms|] == terms;
  }

  /** The sum equals Horner's nested form a0 + t*(a1 + t*(a2 + ...)). */
  lemma {:induction false} PolyHorner(t: real, terms: seq<real>)
    requires |terms| > 0
    ensures PolySum(t, terms) == terms[0] + t * PolySum(t, terms[1..])
    decreases |terms|
  {
    var n := |terms|;
    if n == 1 {
      assert terms[..0] == [] && terms[1..] == [];
    } else {
      var init := terms[..n - 1];
      PolyHorner(t, init);
      assert init[1..] == terms[1..][..n - 2];
      assert init[0] == terms[0];
      assert terms[1..][n - 2] == terms[n - 1];
      assert Power(t, n - 1) == Power(t, n - 2) * t;
      calc {
        t * PolySum(t, terms[1..]);
        t * (PolySum(t, init[1..]) + terms[n - 1] * Power(t, n - 2));
        t * PolySum(t, init[1..]) + terms[n - 1] * (Power(t, n - 2) * t);
      }
    }
  }

  /** One more coefficient adds its monomial. */
  lemma PolyAppend(t: real, terms: seq<real>, x: real)
    ensures PolySum(t, terms + [x]) == PolySum(t, terms) + x * Power(t, |terms|)
  {
    assert (terms + [x])[..|terms|] == terms;
  }

  /** One more coefficient of a prefix of the terms adds its term at the k-th power p, and the next power is p*t. */
  lemma PolyPrefixStep(t: real, terms: seq<real>, k: nat, p: real)
    requires k < |terms| && p == Power(t, k)
    ensures PolySum(t, terms[..k + 1]) == PolySum(t, terms[..k]) + terms[k] * p
    ensures Power(t, k + 1) == p * t
  {
    PolyAppend(t, terms[..k], terms[k]);
    assert terms[..k] + [terms[k]] == terms[..k + 1];
  }

  /** A linear polynomial, written out. */
  lemma PolyLinear(t: real, a: real, b: real)
    ensures PolySum(t, [a, b]) == a + b * t
  {
    PolyAppend(t, [a], b);
    assert [a, b] == [a] + [b];
    assert [a][..0] == [];
  }

  /** A quadratic polynomial, written out. */
  lemma PolyQuadratic(t: real, a: real, b: real, c: real)
    ensures PolySum(t, [a, b, c]) == a + b * t + c * (t * t)
  {
    PolyLinear(t, a, b);
    PolyAppend(t, [a, b], c);
    assert [a, b, c] == [a, b] + [c];
  }

  /** At t = 0 only the constant term remains. */
  lemma PolyAtZero(terms: seq<real>)
    requires |terms| > 0
    ensures PolySum(0.0, terms) == terms[0]
  {
    PolyHorner(0.0, terms);
  }

  /** Entry i of b is k times entry i of a (or i is out of range). */
  predicate ScaledAt(a: seq<real>, b: seq<real>, k: real, i: int)
  {
    0 <= i < |a| <= |b| ==> b[i] == k * a[i]
  }

  /** b is a scaled by k, entry by entry. */
  ghost predicate ScaledBy(a: seq<real>, b: seq<real>, k: real)
  {
    |a| == |b| && forall i :: ScaledAt(a, b, k, i)
  }

  /** Scaling every coefficient by k scales the polynomial by k. */
  lemma {:induction false} PolyScale(t: real, a: seq<real>, b: seq<real>, k: real)
    requires ScaledBy(a, b, k)
    ensures PolySum(t, b) == k * PolySum(t, a)
  {
    if |a| > 0 {
      var n := |a|;
      var a', b' := a[..n - 1], b[..n - 1];
      forall i
        ensures ScaledAt(a', b', k, i)
      {
        assert ScaledAt(a, b, k, i);
      }
      PolyScale(t, a', b', k);
      assert ScaledAt(a, b, k, n - 1);
      assert b[n - 1] * Power(t, n - 1) == k * (a[n - 1] * Power(t, n - 1));
    }
  }

  /** The value checked by the package's tests: 1 + 2*10 + 3*100. */
  lemma PolyExample()
    ensures PolySum(10.0, [1.0, 2.0, 3.0]) == 321.0
  {
    assert [1.0, 2.0, 3.0][..2] == [1.0, 2.0];
    assert [1.0, 2.0][..1] == [1.0];
  }

  // ---------------------------------------------------------------------
  // Angles
  // ---------------------------------------------------------------------

  /** Degrees to radians: deg is to 180 as the result is to π. */
  function Radians(deg: real): (r: real)
    ensures r * 180.0 == deg * Pi
  {
    deg * DegRad
  }

  /** Radians to degrees: rad is to π as the result is to 180. */
  function Degrees(rad: real): (d: real)
    ensures d * Pi == rad * 180.0
  {
    rad * RadDeg
  }

  /** The two conversions are inverse to each other and preserve order. */
  lemma RadiansDegrees(x: real, y: real)
    ensures Degrees(Radians(x)) == x
    ensures Radians(Degrees(x)) == x
    ensures x < y ==> Radians(x) < Radians(y) && Degrees(x) < Degrees(y)
  {
  }

  /**
   * ToRange: x reduced into [0, r) by Go's truncating remainder, shifted up by
   * r when that remainder is negative.
   */
  function ToRange(x: real, r: real): (z: real)
    requires r != 0.0
    ensures r > 0.0 ==> 0.0 <= z < r
  {
    var m := Mod(x, r);
    if m < 0.0 then m + r else m
  }

  /** A whole multiple of r strictly between -r and r is zero. */
  lemma SmallMultiple(d: int, r: real, p: real)
    requires r > 0.0
    requires p == d as real * r
    requires -r < p < r
    ensures d == 0
  {
    if d >= 1 {
      SignOfProduct((d - 1) as real, r);
      assert false;
    } else if d <= -1 {
      SignOfProduct((-d - 1) as real, r);
      assert false;
    }
  }

  /** ToRange moves x by a whole number of periods. */
  lemma ToRangeShift(x: real, r: real) returns (k: int)
    requires r > 0.0
    ensures ToRange(x, r) == x - k as real * r
  {
    ModMultiple(x, r);
    k := Trunc(x / r);
    if Mod(x, r) < 0.0 {
      k := k - 1;
    }
  }

  /** Two representatives of x's class in [0, r) coincide. */
  lemma {:induction false} SameClass(x: real, r: real, y1: real, k1: int, y2: real, k2: int)
    requires r > 0.0
    requires 0.0 <= y1 < r && y1 == x - k1 as real * r
    requires 0.0 <= y2 < r && y2 == x - k2 as real * r
    ensures y1 == y2
  {
    var d := k2 - k1;
    assert y1 - y2 == d as real * r;
    SmallMultiple(d, r, y1 - y2);
  }

  /** ToRange(x, r) is the only value in [0, r) that differs from x by a whole number of periods. */
  lemma ToRangeUnique(x: real, r: real, y: real, k: int)
    requires r > 0.0
    requires 0.0 <= y < r && y == x - k as real * r
    ensures ToRange(x, r) == y
  {
    var j := ToRangeShift(x, r);
    SameClass(x, r, ToRange(x, r), j, y, k);
  }

  /** Reducing twice is reducing once. */
  lemma ToRangeIdempotent(x: real, r: real)
    requires r > 0.0
    ensures ToRange(ToRange(x, r), r) == ToRange(x, r)
  {
    var y := ToRange(x, r);
    ToRangeUnique(y, r, y, 0);
  }

  /** Adding any whole number of periods does not change the reduced value. */
  lemma ToRangePeriodic(x: real, r: real, n: int)
    requires r > 0.0
    ensures ToRange(x + n as real * r, r) == ToRange(x, r)
  {
    var k := ToRangeShift(x, r);
    ToRangeUnique(x + n as real * r, r, ToRange(x, r), k + n);
  }

  /** Two half turns, each followed by a reduction, are one whole turn. */
  lemma HalfTurnTwice(l: real)
    ensures ReduceRad(ReduceRad(l + Pi) + Pi) == ReduceRad(l)
  {
    var k := ToRangeShift(l + Pi, Pi2);
    assert ReduceRad(l + Pi) + Pi == l + (1 - k) as real * Pi2;
    ToRangePeriodic(l, Pi2, 1 - k);
  }

  /** A whole turn added before reducing changes nothing. */
  lemma TurnPeriodic(x: real)
    ensures ReduceRad(x + Pi2) == ReduceRad(x)
  {
    ToRangePeriodic(x, Pi2, 1);
  }

  /** Hours reduced to [0, 24). */
  function ReduceHours(hours: real): (h: real)
    ensures 0.0 <= h < 24.0
  {
    ToRange(hours, 24.0)
  }

  /** Degrees reduced to [0, 360). */
  function ReduceDeg(deg: real): (d: real)
    ensures 0.0 <= d < 360.0
  {
    ToRange(deg, 360.0)
  }

  /** Radians reduced to [0, 2π). */
  function ReduceRad(rad: real): (a: real)
    ensures 0.0 <= a < Pi2
  {
    ToRange(rad, Pi2)
  }

  /** The reference values of the package's tests. */
  lemma ReduceExamples()
    ensures ReduceHours(49.5) == 1.5
    ensures ReduceHours(-0.5) == 23.5
    ensures ReduceDeg(324070.45) == 70.45
    ensures ReduceHours(-700.0) == 20.0
    ensures AlmostEqual(ReduceRad(12.89), 0.323629385640829, 1e-6)
    ensures AlmostEqual(ReduceRad(-12.89), 5.95955592153876, 1e-6)
  {
    ToRangeUnique(49.5, 24.0, 1.5, 2);
    ToRangeUnique(-0.5, 24.0, 23.5, -1);
    ToRangeUnique(324070.45, 360.0, 70.45, 900);
    ToRangeUnique(-700.0, 24.0, 20.0, -30);
    ToRangeUnique(12.89, Pi2, 12.89 - 2.0 * Pi2, 2);
    ToRangeUnique(-12.89, Pi2, -12.89 + 3.0 * Pi2, -3);
  }

  /** The length of the shorter of the two arcs between directions d degrees apart. */
  function ArcLength(d: real): real
  {
    var m := Abs(d);
    if m <= 360.0 - m then m else 360.0 - m
  }

  /**
   * DiffAngle: for directions in [0, 360) it is the shorter arc between them,
   * so it lies in [0, 180] and is never negative.
   */
  function DiffAngle(a: real, b: real): (x: real)
    ensures 0.0 <= a < 360.0 && 0.0 <= b < 360.0 ==> 0.0 <= x <= 180.0 && x == ArcLength(b - a)
  {
    var x := if b < a then b + 360.0 - a else b - a;
    if x > 180.0 then 360.0 - x else x
  }

  /** The shortest arc does not depend on which direction comes first. */
  lemma DiffAngleSymmetric(a: real, b: real)
    requires 0.0 <= a < 360.0 && 0.0 <= b < 360.0
    ensures DiffAngle(a, b) == DiffAngle(b, a)
  {
    assert Abs(b - a) == Abs(a - b);
  }

  /** The representative of x's class modulo 2π in (-π, π]. */
  function NormPi(x: real): (y: real)
    ensures -Pi < y <= Pi
  {
    var m := ((Pi - x) / Pi2).Floor;
    var y := x + m as real * Pi2;
    assert m as real * Pi2 <= Pi - x < (m + 1) as real * Pi2 by {
      var q := (Pi - x) / Pi2;
      assert q * Pi2 == Pi - x;
      assert m as real <= q < m as real + 1.0;
      assert m as real * Pi2 <= q * Pi2;
      assert q * Pi2 < (m as real + 1.0) * Pi2;
    }
    y
  }

  /** NormPi(x) is the only value in (-π, π] that differs from x by whole turns. */
  lemma NormPiUnique(x: real, y: real, k: int)
    requires -Pi < y <= Pi && y == x - k as real * Pi2
    ensures NormPi(x) == y
  {
    var m := ((Pi - x) / Pi2).Floor;
    assert NormPi(x) == x + m as real * Pi2;
    assert NormPi(x) - y == (m + k) as real * Pi2;
    SmallMultiple(m + k, Pi2, NormPi(x) - y);
  }

  /**
   * AngNormPi: reduce with Go's truncating remainder, then move by one turn
   * whichever way brings the angle into (-π, π].
   */
  method AngNormPi(x0: real) returns (x: real)
    ensures x == NormPi(x0)
    ensures -Pi < x <= Pi
  {
    ModMultiple(x0, Pi2);
    ghost var k := Trunc(x0 / Pi2);
    x := Mod(x0, Pi2);
    if x <= -Pi {
      x := x + Pi2;
      k := k - 1;
    }
    if x > Pi {
      x := x - Pi2;
      k := k + 1;
    }
    NormPiUnique(x0, x, k);
  }

  // ---------------------------------------------------------------------
  // Sexagesimal split
  // ---------------------------------------------------------------------

  /**
   * Hms: decimal hours (or degrees) split into whole hours, whole minutes and
   * seconds. For a negative x the split of |x| is returned with its first
   * non-zero component negated.
   */
  function Hms(x: real): (hms: (int, int, real))
    ensures Abs(hms.0 as real) + Abs(hms.1 as real) / 60.0 + Abs(hms.2) / 3600.0 == Abs(x)
    ensures Abs(hms.1 as real) < 60.0 && Abs(hms.2) < 60.0
    ensures x >= 0.0 ==> hms.0 >= 0 && hms.1 >= 0 && hms.2 >= 0.0
  {
    var parts := Modf(Abs(x));
    var hours := Trunc(parts.0);
    var parts' := Modf(parts.1 * 60.0);
    var minutes := Trunc(parts'.0);
    var seconds := parts'.1 * 60.0;
    assert hours as real == parts.0 && minutes as real == parts'.0;
    if x < 0.0 then
      if hours != 0 then (-hours, minutes, seconds)
      else if minutes != 0 then (hours, -minutes, seconds)
      else if seconds != 0.0 then (hours, minutes, -seconds)
      else (hours, minutes, seconds)
    else (hours, minutes, seconds)
  }

  /** Reading a sexagesimal triple back: the sign sits on whichever component is negative. */
  function FromHms(h: int, m: int, s: real): real
  {
    var magnitude := Abs(h as real) + Abs(m as real) / 60.0 + Abs(s) / 3600.0;
    if h < 0 || m < 0 || s < 0.0 then -magnitude else magnitude
  }

  /** For x >= 0: whole hours, minutes and seconds below 60, and nothing lost. */
  lemma HmsNonNegative(x: real)
    requires x >= 0.0
    ensures Hms(x).0 == x.Floor
    ensures 0 <= Hms(x).1 < 60
    ensures 0.0 <= Hms(x).2 < 60.0
    ensures Hms(x).0 as real + Hms(x).1 as real / 60.0 + Hms(x).2 / 3600.0 == x
  {
    var f := x - x.Floor as real;
    assert Modf(x) == (x.Floor as real, f);
    assert 0.0 <= f * 60.0 < 60.0;
    var m := (f * 60.0).Floor;
    assert Modf(f * 60.0) == (m as real, f * 60.0 - m as real);
    assert Hms(x) == (x.Floor, m, (f * 60.0 - m as real) * 60.0);
  }

  /** For x < 0 the magnitudes are those of Hms(-x) and exactly one component carries the sign. */
  lemma HmsNegative(x: real)
    requires x < 0.0
    ensures Abs(Hms(x).0 as real) == Hms(-x).0 as real
    ensures Abs(Hms(x).1 as real) == Hms(-x).1 as real
    ensures Abs(Hms(x).2) == Hms(-x).2
    ensures Hms(x).0 < 0 ==> Hms(x).1 >= 0 && Hms(x).2 >= 0.0
    ensures Hms(x).1 < 0 ==> Hms(x).0 == 0 && Hms(x).2 >= 0.0
    ensures Hms(x).2 < 0.0 ==> Hms(x).0 == 0 && Hms(x).1 == 0
  {
    HmsNonNegative(-x);
  }

  /** Reading the split back gives the input, for every sign of x. */
  lemma HmsRoundTrip(x: real)
    ensures FromHms(Hms(x).0, Hms(x).1, Hms(x).2) == x
  {
    if x >= 0.0 {
      HmsNonNegative(x);
    } else {
      HmsNonNegative(-x);
      HmsNegative(x);
      var (h, m, s) := Hms(-x);
      assert h as real + m as real / 60.0 + s / 3600.0 == -x;
      assert h != 0 || m != 0 || s != 0.0;
    }
  }

  /** The package's examples: -0.5 h is 0h -30m 0s, and ±20.7583... h is ±20h 45m 30s. */
  lemma HmsExamples()
    ensures Hms(-0.5) == (0, -30, 0.0)
    ensures Hms(20.75833333333333).0 == 20 && Hms(20.75833333333333).1 == 45
    ensures AlmostEqual(Hms(20.75833333333333).2, 30.0, 1e-6)
    ensures Hms(-20.75833333333333).0 == -20 && Hms(-20.75833333333333).1 == 45
    ensures AlmostEqual(Hms(-20.75833333333333).2, 30.0, 1e-6)
  {
    HmsNonNegative(0.5);
    assert Modf(0.5) == (0.0, 0.5);
    assert Modf(30.0) == (30.0, 0.0);
    var x := 20.75833333333333;
    assert x.Floor == 20;
    var f := x - 20.0;
    assert (f * 60.0).Floor == 45;
    HmsNonNegative(x);
  }
}
