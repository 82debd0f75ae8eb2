/**
 * Sidereal time (internal/timeutils/sidereal.go, after Duffett-Smith,
 * "Astronomy with your PC"): Greenwich mean sidereal time from the civil
 * date, shifted by the nutation correction and the observer's longitude,
 * and reduced into [0, 24) hours.
 */
module Sidereal {
  import opened GoMath
  import opened MathUtils
  import opened TimeUtils

  /** Sidereal hours per solar hour. */
  const SolarToSidereal: real := 1.002737909350795

  /**
   * What the result means: a longitude in degrees (negative westwards) gives
   * local sidereal time, an obliquity and a nutation in longitude (degrees)
   * give apparent sidereal time. All zero is Greenwich mean sidereal time.
   */
  datatype SiderealOptions = SiderealOptions(lng: real, eps: real, dpsi: real)

  /** Julian centuries from J1900 to the preceding midnight, less one. */
  function MidnightCenturies(jd: real): real
  {
    (JulianMidnight(jd) - J1900) / DaysPerCent - 1.0
  }

  /** Sidereal time at the preceding midnight, reduced to [0, 24). */
  function MidnightGMST(jd: real): (t0: real)
    ensures 0.0 <= t0 < 24.0
  {
    var t := MidnightCenturies(jd);
    var t2 := t * t;
    var t3 := t * t2;
    var r1 := 6.697374558 + 2400.0 * (t - (CivilYear(jd) - 2000) as real / 100.0);
    var r0 := 5.13366e-2 * t + 2.586222e-5 * t2 - 1.722e-9 * t3;
    ReduceHours(r0 + r1)
  }

  /**
   * meanGMST: the midnight value plus the elapsed UT scaled to sidereal
   * hours. It is not reduced, so it may reach 24 + 24·1.0027...
   */
  function MeanGMST(jd: real): (g: real)
    ensures 0.0 <= g - ExtractUTC(jd) * SolarToSidereal < 24.0
  {
    ExtractUTC(jd) * SolarToSidereal + MidnightGMST(jd)
  }

  /**
   * The nutation correction in hours: Δψ·3600·cos ε arc-seconds, divided by
   * 15 to give seconds of time, divided by 3600 to give hours.
   */
  function NutationHours(dpsi: real, eps: real): (h: real)
    ensures h * 15.0 == dpsi * Cos(Radians(eps))
    ensures dpsi == 0.0 ==> h == 0.0
    ensures Abs(h) <= Abs(dpsi) / 15.0
  {
    var dpsiSec := dpsi * 3600.0;
    var delta := (dpsiSec * Cos(Radians(eps))) / 15.0;
    CosBounded(Radians(eps));
    NutationBound(dpsi, Cos(Radians(eps)));
    delta / 3600.0
  }

  /** |Δψ·3600·c/15/3600| <= |Δψ|/15 whenever |c| <= 1. */
  lemma NutationBound(dpsi: real, c: real)
    ensures -1.0 <= c <= 1.0 ==> Abs(((dpsi * 3600.0) * c / 15.0) / 3600.0) <= Abs(dpsi) / 15.0
  {
    if -1.0 <= c <= 1.0 {
      assert ((dpsi * 3600.0) * c / 15.0) / 3600.0 == dpsi * c / 15.0;
      AbsProduct(dpsi, c);
      assert Abs(dpsi) * Abs(c) <= Abs(dpsi) * 1.0;
    }
  }

  /** JulianToSidereal: mean sidereal time plus nutation plus longitude, reduced to [0, 24). */
  function JulianToSidereal(jd: real, options: SiderealOptions): (h: real)
    ensures 0.0 <= h < 24.0
  {
    ReduceHours(MeanGMST(jd) + NutationHours(options.dpsi, options.eps) + options.lng / 15.0)
  }

  /**
   * Apparent sidereal time is mean sidereal time plus the nutation
   * correction Δψ·cos ε / 15 hours, up to whole days.
   */
  lemma ApparentFromMean(jd: real, options: SiderealOptions) returns (k: int)
    ensures JulianToSidereal(jd, options)
         == JulianToSidereal(jd, options.(dpsi := 0.0)) + NutationHours(options.dpsi, options.eps) - k as real * 24.0
  {
    var x0 := MeanGMST(jd) + options.lng / 15.0;
    assert JulianToSidereal(jd, options.(dpsi := 0.0)) == ToRange(x0, 24.0) by {
      assert NutationHours(0.0, options.eps) == 0.0;
      assert MeanGMST(jd) + 0.0 + options.lng / 15.0 == x0;
    }
    var n := NutationHours(options.dpsi, options.eps);
    assert MeanGMST(jd) + n + options.lng / 15.0 == x0 + n;
    var k1 := ToRangeShift(x0 + n, 24.0);
    var k0 := ToRangeShift(x0, 24.0);
    k := k1 - k0;
  }

  /** A full turn of longitude is 24 hours: Lng and Lng + 360 give the same time. */
  lemma LongitudePeriodic(jd: real, options: SiderealOptions)
    ensures JulianToSidereal(jd, options.(lng := options.lng + 360.0)) == JulianToSidereal(jd, options)
  {
    var x := MeanGMST(jd) + NutationHours(options.dpsi, options.eps) + options.lng / 15.0;
    ToRangePeriodic(x, 24.0, 1);
    assert x + 1 as real * 24.0 == MeanGMST(jd) + NutationHours(options.dpsi, options.eps) + (options.lng + 360.0) / 15.0;
  }

  /** Without a nutation in longitude the obliquity has no effect: the result is mean sidereal time. */
  lemma MeanIgnoresObliquity(jd: real, lng: real, eps1: real, eps2: real)
    ensures JulianToSidereal(jd, SiderealOptions(lng, eps1, 0.0)) == JulianToSidereal(jd, SiderealOptions(lng, eps2, 0.0))
    ensures JulianToSidereal(jd, SiderealOptions(lng, eps1, 0.0)) == ReduceHours(MeanGMST(jd) + lng / 15.0)
  {
    var g := MeanGMST(jd);
    assert NutationHours(0.0, eps1) == 0.0 && NutationHours(0.0, eps2) == 0.0;
    assert g + NutationHours(0.0, eps1) + lng / 15.0 == g + lng / 15.0;
    assert g + NutationHours(0.0, eps2) + lng / 15.0 == g + lng / 15.0;
  }

  /** Without longitude and nutation, whatever the obliquity, the result is Greenwich mean sidereal time. */
  lemma GreenwichMean(jd: real, options: SiderealOptions)
    requires options.lng == 0.0 && options.dpsi == 0.0
    ensures JulianToSidereal(jd, options) == ReduceHours(MeanGMST(jd))
  {
    var g := MeanGMST(jd);
    assert NutationHours(options.dpsi, options.eps) == 0.0;
    assert g + NutationHours(options.dpsi, options.eps) + options.lng / 15.0 == g;
  }

  /** Local sidereal time is Greenwich's plus Lng/15 hours, up to whole days. */
  lemma LocalFromGreenwich(jd: real, options: SiderealOptions) returns (k: int)
    ensures JulianToSidereal(jd, options) == JulianToSidereal(jd, options.(lng := 0.0)) + options.lng / 15.0 - k as real * 24.0
  {
    var x0 := MeanGMST(jd) + NutationHours(options.dpsi, options.eps);
    assert JulianToSidereal(jd, options.(lng := 0.0)) == ToRange(x0, 24.0) by {
      assert x0 + 0.0 / 15.0 == x0;
    }
    var k1 := ToRangeShift(x0 + options.lng / 15.0, 24.0);
    var k0 := ToRangeShift(x0, 24.0);
    k := k1 - k0;
  }
}
