/**
 * Mean obliquity of the ecliptic (package internal/earth): the polynomial of
 * Meeus's Table 22.A in u = T/100, T in Julian centuries since J2000,
 * evaluated in arc-seconds and converted to radians, plus the nutation in
 * obliquity supplied by the caller.
 */
module Obliquity {
  import opened GoMath
  import opened MathUtils
  import opened TimeUtils

  /** 23°26'21.448" in degrees, the constant term. */
  const ApproxEps: real := 23.43929111111111
  const SecToDeg: real := 3600.0

  /** Coefficients of u, u^2, ..., u^10, in arc-seconds. */
  const Coeffs: seq<real> := [-4680.93, -1.55, 1999.25, -51.38, -249.67, -39.05, 7.12, 27.87, 5.79, 2.45]

  /** The whole polynomial in arc-seconds: the constant term first. */
  const ObliquityTerms: seq<real> := [ApproxEps * SecToDeg] + Coeffs

  /** u: Julian centuries since J2000 divided by 100 (ten-thousand-year units). */
  function TenMillennia(jd: real): (u: real)
    ensures u * 100.0 * DaysPerCent == jd - J2000
  {
    CenturiesSinceJ2000(jd) / 100.0
  }

  /** Mean obliquity in degrees. */
  function ObliquityDeg(jd: real): real
  {
    PolySum(TenMillennia(jd), ObliquityTerms) / SecToDeg
  }

  /**
   * Obliquity(jd, deltaEps): mean obliquity in radians, plus deltaEps. Less
   * deltaEps and back in degrees, it is the Table 22.A polynomial in u,
   * counted in arc-seconds, over 3600.
   */
  function Obliquity(jd: real, deltaEps: real): (eps: real)
    ensures Degrees(eps - deltaEps) == PolySum(TenMillennia(jd), ObliquityTerms) / SecToDeg
  {
    RadiansDegrees(ObliquityDeg(jd), ObliquityDeg(jd));
    Radians(ObliquityDeg(jd)) + deltaEps
  }

  /** The nutation in obliquity is added unchanged: results differ exactly by the difference of the corrections. */
  lemma ObliquityDeltaEps(jd: real, a: real, b: real)
    ensures Obliquity(jd, a) - Obliquity(jd, b) == a - b
    ensures Obliquity(jd, a) == Obliquity(jd, 0.0) + a
  {
  }

  /** At J2000 every power of u vanishes and the mean obliquity is the constant term 23.43929111111111°. */
  lemma ObliquityAtJ2000()
    ensures ObliquityDeg(J2000) == ApproxEps
    ensures Obliquity(J2000, 0.0) == Radians(ApproxEps)
  {
    assert TenMillennia(J2000) == 0.0;
    PolyAtZero(ObliquityTerms);
  }

  /** The package's test case: at JD 2446895.5 the mean obliquity is 23.44094638888889° within 1e-6. */
  lemma ObliquityExample()
    ensures AlmostEqual(Degrees(Obliquity(2446895.5, 0.0)), 23.44094638888889, 1e-6)
  {
    var u := TenMillennia(2446895.5);
    assert u == -4649.5 / 3652500.0;
    var c := ObliquityTerms;
    assert |c| == 11 && c[..0] == [] && c[..11] == c;
    var p2 := u * u;
    var p3 := p2 * u;
    var p4 := p3 * u;
    var p5 := p4 * u;
    var p6 := p5 * u;
    var p7 := p6 * u;
    var p8 := p7 * u;
    var p9 := p8 * u;
    var p10 := p9 * u;
    PolyPrefixStep(u, c, 0, 1.0);
    PolyPrefixStep(u, c, 1, u);
    PolyPrefixStep(u, c, 2, p2);
    PolyPrefixStep(u, c, 3, p3);
    PolyPrefixStep(u, c, 4, p4);
    PolyPrefixStep(u, c, 5, p5);
    PolyPrefixStep(u, c, 6, p6);
    PolyPrefixStep(u, c, 7, p7);
    PolyPrefixStep(u, c, 8, p8);
    PolyPrefixStep(u, c, 9, p9);
    PolyPrefixStep(u, c, 10, p10);
    RadiansDegrees(ObliquityDeg(2446895.5), 0.0);
  }
}
