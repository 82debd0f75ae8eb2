/**
 * Pluto's position from the 43-term series of Meeus, Astronomical
 * Algorithms, chapter 37 (internal/pluto/pluto.go): heliocentric spherical
 * coordinates from harmonics of the mean longitudes of Jupiter, Saturn and
 * Pluto, a geocentric vector with one light-time correction, and the
 * conversion to apparent ecliptic coordinates.
 */
module Pluto {
  import opened GoMath
  import opened Sums
  import opened Wrappers
  import opened MathUtils
  import TimeUtils
  import Coords
  import G = Geocentric

  /** Sine and cosine of the mean obliquity at J2000. */
  const SinE: real := 0.397777156
  const CosE: real := 0.917482062

  /** The amplitudes of sin α and cos α for one rectangular component. */
  datatype CoeffPair = CoeffPair(sin: real, cos: real)

  /** A harmonic: multipliers of J, S and P and the amplitudes for x, y and z. */
  datatype PlutoTerm = PlutoTerm(i: int, j: int, k: int, dx: CoeffPair, dy: CoeffPair, dz: CoeffPair)

  /** The fundamental angles J, S and P, in degrees. */
  datatype Angles = Angles(j: real, s: real, p: real)

  /**
   * The routines this code calls in other packages: the Sun's rectangular
   * J2000 position, the equatorial-to-ecliptic rotation and the precession
   * from J2000 to the mean equinox of date. Nothing is assumed of them.
   */
  datatype External = External(
    sunRect2000: real -> Coords.Point3D,
    equToEcl: (real, real, real, real) -> (real, real),
    astrometric2000ToMean: (real, real, real) -> (real, real))

  const Ext: External

  /** Meeus table 37.A, in the source's order. */
  const PlutoTerms: seq<PlutoTerm> := [
      PlutoTerm(0, 0, 1, CoeffPair(-19799805.0, 19850055.0), CoeffPair(-5452852.0, -14974862.0), CoeffPair(66865439.0, 68951812.0)),
      PlutoTerm(0, 0, 2, CoeffPair(897144.0, -4954829.0), CoeffPair(3527812.0, 1672790.0), CoeffPair(-11827535.0, -332538.0)),
      PlutoTerm(0, 0, 3, CoeffPair(611149.0, 1211027.0), CoeffPair(-1050748.0, 327647.0), CoeffPair(1593179.0, -1438890.0)),
      PlutoTerm(0, 0, 4, CoeffPair(-341243.0, -189585.0), CoeffPair(178690.0, -292153.0), CoeffPair(-18444.0, 483220.0)),
      PlutoTerm(0, 0, 5, CoeffPair(129287.0, -34992.0), CoeffPair(18650.0, 100340.0), CoeffPair(-65977.0, -85431.0)),
      PlutoTerm(0, 0, 6, CoeffPair(-38164.0, 30893.0), CoeffPair(-30697.0, -25823.0), CoeffPair(31174.0, -6032.0)),
      PlutoTerm(0, 1, -1, CoeffPair(20442.0, -9987.0), CoeffPair(4878.0, 11248.0), CoeffPair(-5794.0, 22161.0)),
      PlutoTerm(0, 1, 0, CoeffPair(-4063.0, -5071.0), CoeffPair(226.0, -64.0), CoeffPair(4601.0, 4032.0)),
      PlutoTerm(0, 1, 1, CoeffPair(-6016.0, -3336.0), CoeffPair(2030.0, -836.0), CoeffPair(-1729.0, 234.0)),
      PlutoTerm(0, 1, 2, CoeffPair(-3956.0, 3039.0), CoeffPair(69.0, -604.0), CoeffPair(-415.0, 702.0)),
      PlutoTerm(0, 1, 3, CoeffPair(-667.0, 3572.0), CoeffPair(-247.0, -567.0), CoeffPair(239.0, 723.0)),
      PlutoTerm(0, 2, -2, CoeffPair(1276.0, 501.0), CoeffPair(-57.0, 1.0), CoeffPair(67.0, -67.0)),
      PlutoTerm(0, 2, -1, CoeffPair(1152.0, -917.0), CoeffPair(-122.0, 175.0), CoeffPair(1034.0, -451.0)),
      PlutoTerm(0, 2, 0, CoeffPair(630.0, -1277.0), CoeffPair(-49.0, -164.0), CoeffPair(-129.0, 504.0)),
      PlutoTerm(1, -1, 0, CoeffPair(2571.0, -459.0), CoeffPair(-197.0, 199.0), CoeffPair(480.0, -231.0)),
      PlutoTerm(1, -1, 1, CoeffPair(899.0, -1449.0), CoeffPair(-25.0, 217.0), CoeffPair(2.0, -441.0)),
      PlutoTerm(1, 0, -3, CoeffPair(-1016.0, 1043.0), CoeffPair(589.0, -248.0), CoeffPair(-3359.0, 265.0)),
      PlutoTerm(1, 0, -2, CoeffPair(-2343.0, -1012.0), CoeffPair(-269.0, 711.0), CoeffPair(7856.0, -7832.0)),
      PlutoTerm(1, 0, -1, CoeffPair(7042.0, 788.0), CoeffPair(185.0, 193.0), CoeffPair(36.0, 45763.0)),
      PlutoTerm(1, 0, 0, CoeffPair(1199.0, -338.0), CoeffPair(315.0, 807.0), CoeffPair(8663.0, 8547.0)),
      PlutoTerm(1, 0, 1, CoeffPair(418.0, -67.0), CoeffPair(-130.0, -43.0), CoeffPair(-809.0, -769.0)),
      PlutoTerm(1, 0, 2, CoeffPair(120.0, -274.0), CoeffPair(5.0, 3.0), CoeffPair(263.0, -144.0)),
      PlutoTerm(1, 0, 3, CoeffPair(-60.0, -159.0), CoeffPair(2.0, 17.0), CoeffPair(-126.0, 32.0)),
      PlutoTerm(1, 0, 4, CoeffPair(-82.0, -29.0), CoeffPair(2.0, 5.0), CoeffPair(-35.0, -16.0)),
      PlutoTerm(1, 1, -3, CoeffPair(-36.0, -29.0), CoeffPair(2.0, 3.0), CoeffPair(-19.0, -4.0)),
      PlutoTerm(1, 1, -2, CoeffPair(-40.0, 7.0), CoeffPair(3.0, 1.0), CoeffPair(-15.0, 8.0)),
      PlutoTerm(1, 1, -1, CoeffPair(-14.0, 22.0), CoeffPair(2.0, -1.0), CoeffPair(-4.0, 12.0)),
      PlutoTerm(1, 1, 0, CoeffPair(4.0, 13.0), CoeffPair(1.0, -1.0), CoeffPair(5.0, 6.0)),
      PlutoTerm(1, 1, 1, CoeffPair(5.0, 2.0), CoeffPair(0.0, -1.0), CoeffPair(3.0, 1.0)),
      PlutoTerm(1, 1, 3, CoeffPair(-1.0, 0.0), CoeffPair(0.0, 0.0), CoeffPair(6.0, -2.0)),
      PlutoTerm(2, 0, -6, CoeffPair(2.0, 0.0), CoeffPair(0.0, -2.0), CoeffPair(2.0, 2.0)),
      PlutoTerm(2, 0, -5, CoeffPair(-4.0, 5.0), CoeffPair(2.0, 2.0), CoeffPair(-2.0, -2.0)),
      PlutoTerm(2, 0, -4, CoeffPair(4.0, -7.0), CoeffPair(-7.0, 0.0), CoeffPair(14.0, 13.0)),
      PlutoTerm(2, 0, -3, CoeffPair(14.0, 24.0), CoeffPair(10.0, -8.0), CoeffPair(-63.0, 13.0)),
      PlutoTerm(2, 0, -2, CoeffPair(-49.0, -34.0), CoeffPair(-3.0, 20.0), CoeffPair(136.0, -236.0)),
      PlutoTerm(2, 0, -1, CoeffPair(163.0, -48.0), CoeffPair(6.0, 5.0), CoeffPair(273.0, 1065.0)),
      PlutoTerm(2, 0, 0, CoeffPair(9.0, -24.0), CoeffPair(14.0, 17.0), CoeffPair(251.0, 149.0)),
      PlutoTerm(2, 0, 1, CoeffPair(-4.0, 1.0), CoeffPair(-2.0, 0.0), CoeffPair(-25.0, -9.0)),
      PlutoTerm(2, 0, 2, CoeffPair(-3.0, 1.0), CoeffPair(0.0, 0.0), CoeffPair(9.0, -2.0)),
      PlutoTerm(2, 0, 3, CoeffPair(1.0, 3.0), CoeffPair(0.0, 0.0), CoeffPair(-8.0, 7.0)),
      PlutoTerm(3, 0, -2, CoeffPair(-3.0, -1.0), CoeffPair(0.0, 1.0), CoeffPair(2.0, -10.0)),
      PlutoTerm(3, 0, -1, CoeffPair(5.0, -3.0), CoeffPair(0.0, 0.0), CoeffPair(19.0, 35.0)),
      PlutoTerm(3, 0, 0, CoeffPair(0.0, 0.0), CoeffPair(1.0, 0.0), CoeffPair(10.0, 3.0))
    ]

  lemma TableSize()
    ensures |PlutoTerms| == 43
  {
  }

  /** J, S and P at t Julian centuries from J2000: each linear in t. */
  function AnglesAt(t: real): Angles
  {
    Angles(34.35 + 3034.9057 * t, 50.08 + 1222.1138 * t, 238.96 + 144.96 * t)
  }

  /** The angles at J2000, and their rates in degrees per century. */
  lemma AnglesLinear(t: real)
    ensures AnglesAt(0.0) == Angles(34.35, 50.08, 238.96)
    ensures AnglesAt(t + 1.0).j - AnglesAt(t).j == 3034.9057
    ensures AnglesAt(t + 1.0).s - AnglesAt(t).s == 1222.1138
    ensures AnglesAt(t + 1.0).p - AnglesAt(t).p == 144.96
  {
  }

  /** A term's phase α in radians. */
  function Alpha(term: PlutoTerm, ang: Angles): real
  {
    Radians(term.i as real * ang.j + term.j as real * ang.s + term.k as real * ang.p)
  }

  function Harmonic(c: CoeffPair, alpha: real): real
  {
    c.sin * Sin(alpha) + c.cos * Cos(alpha)
  }

  function XTermAt(ang: Angles): PlutoTerm -> real
  {
    (term: PlutoTerm) => Harmonic(term.dx, Alpha(term, ang))
  }

  function YTermAt(ang: Angles): PlutoTerm -> real
  {
    (term: PlutoTerm) => Harmonic(term.dy, Alpha(term, ang))
  }

  function ZTermAt(ang: Angles): PlutoTerm -> real
  {
    (term: PlutoTerm) => Harmonic(term.dz, Alpha(term, ang))
  }

  lemma TermValues(ang: Angles, term: PlutoTerm)
    ensures XTermAt(ang)(term) == Harmonic(term.dx, Alpha(term, ang))
    ensures YTermAt(ang)(term) == Harmonic(term.dy, Alpha(term, ang))
    ensures ZTermAt(ang)(term) == Harmonic(term.dz, Alpha(term, ang))
  {
  }

  /**
   * The heliocentric position from a table: longitude 238.958116° + 144.96°·t
   * + Σx/10^6 (not range-reduced), latitude -3.908239° + Σy/10^6, radius
   * 40.7241346 + Σz/10^7 AU.
   */
  function HelioOver(table: seq<PlutoTerm>, jd: real): Coords.Spherical
  {
    var t := TimeUtils.CenturiesSinceJ2000(jd);
    var ang := AnglesAt(t);
    var x := Sum(table, XTermAt(ang));
    var y := Sum(table, YTermAt(ang));
    var z := Sum(table, ZTermAt(ang));
    Coords.Spherical(40.7241346 + z / 10000000.0, Radians(-3.908239 + y / 1000000.0),
                     Radians(238.958116 + 144.96 * t + x / 1000000.0))
  }

  /**
   * sphericalHelio: the heliocentric position from table 37.A, which is the
   * mean orbit shifted by the three sums of the periodic terms.
   */
  function Helio(jd: real): (h: Coords.Spherical)
    ensures var ang := AnglesAt(TimeUtils.CenturiesSinceJ2000(jd));
      h == MeanPlus(HelioOver([], jd), Sum(PlutoTerms, XTermAt(ang)), Sum(PlutoTerms, YTermAt(ang)), Sum(PlutoTerms, ZTermAt(ang)))
  {
    HelioOverMeanPlus(PlutoTerms, jd);
    HelioOver(PlutoTerms, jd)
  }

  /** A position moved by the three sums: x and y in 10^-6 degrees of longitude and latitude, z in 10^-7 AU. */
  function MeanPlus(mean: Coords.Spherical, x: real, y: real, z: real): Coords.Spherical
  {
    Coords.Spherical(mean.r + z / 10000000.0, mean.theta + Radians(y / 1000000.0), mean.phi + Radians(x / 1000000.0))
  }

  /** Any table moves the mean orbit by its three sums. */
  lemma HelioOverMeanPlus(table: seq<PlutoTerm>, jd: real)
    ensures var ang := AnglesAt(TimeUtils.CenturiesSinceJ2000(jd));
      HelioOver(table, jd) == MeanPlus(HelioOver([], jd), Sum(table, XTermAt(ang)), Sum(table, YTermAt(ang)), Sum(table, ZTermAt(ang)))
  {
    HelioMeanOrbit(jd);
  }

  /** Without periodic terms the position is the mean orbit: a uniformly moving longitude, fixed latitude and distance. */
  lemma HelioMeanOrbit(jd: real)
    ensures var t := TimeUtils.CenturiesSinceJ2000(jd);
      HelioOver([], jd) == Coords.Spherical(40.7241346, Radians(-3.908239), Radians(238.958116 + 144.96 * t))
  {
  }

  /** The periodic terms add up independently: a table split in two contributes the sum of its parts to x, y and z. */
  lemma HelioSplit(a: seq<PlutoTerm>, b: seq<PlutoTerm>, jd: real)
    ensures var ang := AnglesAt(TimeUtils.CenturiesSinceJ2000(jd));
      && Sum(a + b, XTermAt(ang)) == Sum(a, XTermAt(ang)) + Sum(b, XTermAt(ang))
      && Sum(a + b, YTermAt(ang)) == Sum(a, YTermAt(ang)) + Sum(b, YTermAt(ang))
      && Sum(a + b, ZTermAt(ang)) == Sum(a, ZTermAt(ang)) + Sum(b, ZTermAt(ang))
  {
    var ang := AnglesAt(TimeUtils.CenturiesSinceJ2000(jd));
    SumConcat(a, b, XTermAt(ang));
    SumConcat(a, b, YTermAt(ang));
    SumConcat(a, b, ZTermAt(ang));
  }

  /** Over reals the position does not depend on the order of the table. */
  lemma HelioOrderIndependent(a: seq<PlutoTerm>, b: seq<PlutoTerm>, jd: real)
    requires multiset(a) == multiset(b)
    ensures HelioOver(a, jd) == HelioOver(b, jd)
  {
    var ang := AnglesAt(TimeUtils.CenturiesSinceJ2000(jd));
    SumPermutation(a, b, XTermAt(ang));
    SumPermutation(a, b, YTermAt(ang));
    SumPermutation(a, b, ZTermAt(ang));
  }

  /** The loop over a table: Σx, Σy and Σz, each row visited once in table order. */
  method SumTerms(table: seq<PlutoTerm>, ang: Angles) returns (x: real, y: real, z: real)
    ensures x == Sum(table, XTermAt(ang)) && y == Sum(table, YTermAt(ang)) && z == Sum(table, ZTermAt(ang))
  {
    x, y, z := 0.0, 0.0, 0.0;
    for n := 0 to |table|
      invariant x == Sum(table[..n], XTermAt(ang))
      invariant y == Sum(table[..n], YTermAt(ang))
      invariant z == Sum(table[..n], ZTermAt(ang))
    {
      var tm := table[n];
      var alpha := Alpha(tm, ang);
      var sinA, cosA := Sin(alpha), Cos(alpha);
      var dx, dy, dz := tm.dx, tm.dy, tm.dz;
      var x', y', z' := x + (dx.sin * sinA + dx.cos * cosA), y + (dy.sin * sinA + dy.cos * cosA), z + (dz.sin * sinA + dz.cos * cosA);
      TermStep(table, n, ang, x, y, z, x', y', z');
      x, y, z := x', y', z';
    }
    assert table[..|table|] == table;
  }

  /** One iteration of SumTerms adds row n's three contributions. */
  lemma TermStep(table: seq<PlutoTerm>, n: nat, ang: Angles, x: real, y: real, z: real, x': real, y': real, z': real)
    requires n < |table|
    requires x == Sum(table[..n], XTermAt(ang)) && y == Sum(table[..n], YTermAt(ang)) && z == Sum(table[..n], ZTermAt(ang))
    requires var tm, a := table[n], Alpha(table[n], ang);
      && x' == x + (tm.dx.sin * Sin(a) + tm.dx.cos * Cos(a))
      && y' == y + (tm.dy.sin * Sin(a) + tm.dy.cos * Cos(a))
      && z' == z + (tm.dz.sin * Sin(a) + tm.dz.cos * Cos(a))
    ensures x' == Sum(table[..n + 1], XTermAt(ang)) && y' == Sum(table[..n + 1], YTermAt(ang)) && z' == Sum(table[..n + 1], ZTermAt(ang))
  {
    SumStep(table, n, XTermAt(ang));
    SumStep(table, n, YTermAt(ang));
    SumStep(table, n, ZTermAt(ang));
    TermValues(ang, table[n]);
  }

  /** sphericalHelio: the angles, one pass over the table, and the assembly. */
  method SphericalHelio(jd: real) returns (sph: Coords.Spherical)
    ensures sph == Helio(jd)
  {
    sph := SphericalHelioOver(PlutoTerms, jd);
  }

  /** The body of sphericalHelio, for any table of terms. */
  method SphericalHelioOver(table: seq<PlutoTerm>, jd: real) returns (sph: Coords.Spherical)
    ensures sph == HelioOver(table, jd)
  {
    var t := (jd - TimeUtils.J2000) / TimeUtils.DaysPerCent;
    assert t == TimeUtils.CenturiesSinceJ2000(jd);
    var ang := Angles(34.35 + 3034.9057 * t, 50.08 + 1222.1138 * t, 238.96 + 144.96 * t);
    var x, y, z := SumTerms(table, ang);
    var lDeg := 238.958116 + 144.96 * t + x / 1000000.0;
    var bDeg := -3.908239 + y / 1000000.0;
    sph := Coords.Spherical(40.7241346 + z / 10000000.0, Radians(bDeg), Radians(lDeg));
    HelioAssembled(table, jd, t, ang, x, y, z, lDeg, bDeg);
  }

  /** HelioOver in terms of the three sums, once they are known. */
  lemma HelioAssembled(table: seq<PlutoTerm>, jd: real, t: real, ang: Angles, x: real, y: real, z: real, lDeg: real, bDeg: real)
    requires t == TimeUtils.CenturiesSinceJ2000(jd) && ang == AnglesAt(t)
    requires x == Sum(table, XTermAt(ang)) && y == Sum(table, YTermAt(ang)) && z == Sum(table, ZTermAt(ang))
    requires lDeg == 238.958116 + 144.96 * t + x / 1000000.0 && bDeg == -3.908239 + y / 1000000.0
    ensures HelioOver(table, jd) == Coords.Spherical(40.7241346 + z / 10000000.0, Radians(bDeg), Radians(lDeg))
  {
  }

  // ---------------------------------------------------------------------
  // Geocentric position with one light-time correction
  // ---------------------------------------------------------------------

  /** Pluto's rectangular J2000 coordinates from its heliocentric ecliptic ones, rotated by the obliquity at J2000. */
  function PlutoRect(sph: Coords.Spherical): Coords.Point3D
  {
    var cosB, sinB, sinL := Cos(sph.theta), Sin(sph.theta), Sin(sph.phi);
    Coords.Point3D(sph.r * Cos(sph.phi) * cosB,
                   sph.r * (sinL * cosB * CosE - sinB * SinE),
                   sph.r * (sinL * cosB * SinE + sinB * CosE))
  }

  /** The geocentric vector: the Sun's position as seen from the Earth plus Pluto's heliocentric position. */
  function GeoVector(sunPos: Coords.Point3D, sph: Coords.Spherical): (g: Coords.Point3D)
    ensures g.x == sunPos.x + PlutoRect(sph).x && g.y == sunPos.y + PlutoRect(sph).y && g.z == sunPos.z + PlutoRect(sph).z
  {
    var p := PlutoRect(sph);
    Coords.Point3D(sunPos.x + p.x, sunPos.y + p.y, sunPos.z + p.z)
  }

  function Dist(g: Coords.Point3D): (d: real)
    ensures d >= 0.0
  {
    Sqrt(g.x * g.x + g.y * g.y + g.z * g.z)
  }

  /** The first pass: Pluto at jd itself. */
  function FirstPass(jd: real): Coords.Point3D
  {
    GeoVector(Ext.sunRect2000(jd), Helio(jd))
  }

  /** The time of the second pass: jd less the light time over the first pass's distance. */
  function RetardedTime(jd: real): real
  {
    jd - Dist(FirstPass(jd)) * G.LightTimeDaysPerAU
  }

  /** The second pass: Pluto at the retarded time, the Sun still at jd. */
  function SecondPass(jd: real): Coords.Point3D
  {
    GeoVector(Ext.sunRect2000(jd), Helio(RetardedTime(jd)))
  }

  /**
   * geocentricEQ: right ascension in [0, 2π), declination and distance from
   * the second pass. None for a zero distance, where the declination's
   * quotient has no value.
   */
  function GeocentricEQ(jd: real): (res: Option<(real, real, real)>)
    ensures res.None? <==> Dist(SecondPass(jd)) == 0.0
    ensures res.Some? ==> 0.0 <= res.value.0 < Pi2 && res.value.2 > 0.0
    ensures res.Some? ==> res.value.2 == Dist(SecondPass(jd)) && res.value.0 == ReduceRad(Atan2(SecondPass(jd).y, SecondPass(jd).x))
    ensures res.Some? ==> -Pi / 2.0 <= res.value.1 <= Pi / 2.0 && res.value.1 == Asin(SecondPass(jd).z / res.value.2)
  {
    var g := SecondPass(jd);
    var dist := Dist(g);
    if dist == 0.0 then None
    else Some((ReduceRad(Atan2(g.y, g.x)), Asin(g.z / dist), dist))
  }

  /** The second pass moves Pluto back by the light time and never forward; the Sun is not moved. */
  lemma RetardedTimeEarlier(jd: real)
    ensures RetardedTime(jd) <= jd
    ensures SecondPass(jd).x - PlutoRect(Helio(RetardedTime(jd))).x == FirstPass(jd).x - PlutoRect(Helio(jd)).x
  {
    SignOfProduct(Dist(FirstPass(jd)), G.LightTimeDaysPerAU);
  }

  /** The first iteration of ComputeGeocentricEQ sets the retarded time. */
  lemma FirstPassGives(jd: real, sunPos: Coords.Point3D, sph: Coords.Spherical, g: Coords.Point3D, dist: real, jdCorr: real)
    requires sunPos == Ext.sunRect2000(jd) && sph == Helio(jd) && g == GeoVector(sunPos, sph)
    requires dist == Dist(g) && jdCorr == jd - dist * G.LightTimeDaysPerAU
    ensures jdCorr == RetardedTime(jd)
  {
  }

  /** The second iteration of ComputeGeocentricEQ yields geocentricEQ's result. */
  lemma SecondPassGives(jd: real, sunPos: Coords.Point3D, jdCorr: real, sph: Coords.Spherical, g: Coords.Point3D, dist: real,
                        res: Option<(real, real, real)>)
    requires sunPos == Ext.sunRect2000(jd) && jdCorr == RetardedTime(jd) && sph == Helio(jdCorr) && g == GeoVector(sunPos, sph)
    requires dist == Dist(g)
    requires res == if dist == 0.0 then None else Some((ReduceRad(Atan2(g.y, g.x)), Asin(g.z / dist), dist))
    ensures res == GeocentricEQ(jd)
  {
    assert g == SecondPass(jd);
  }

  /**
   * geocentricEQ as the source runs it: a loop that evaluates the
   * heliocentric position at jd, sets the retarded time and goes round once
   * more, then leaves. The ghost sequence records the times evaluated.
   */
  method ComputeGeocentricEQ(jd: real) returns (res: Option<(real, real, real)>, ghost times: seq<real>)
    ensures res == GeocentricEQ(jd)
    ensures times == [jd, RetardedTime(jd)]
  {
    var sunPos := Ext.sunRect2000(jd);
    var jdCorr := jd;
    var firstPass := true;
    times := [];
    res := None;
    while true
      invariant firstPass ==> jdCorr == jd && times == []
      invariant !firstPass ==> jdCorr == RetardedTime(jd) && times == [jd]
      decreases if firstPass then 1 else 0
    {
      var sph := SphericalHelio(jdCorr);
      times := times + [jdCorr];
      var g := GeoVector(sunPos, sph);
      var dist := Dist(g);
      if firstPass {
        var tau := dist * G.LightTimeDaysPerAU;
        jdCorr := jd - tau;
        FirstPassGives(jd, sunPos, sph, g, dist, jdCorr);
        firstPass := false;
        continue;
      }
      if dist == 0.0 {
        res := None;
      } else {
        res := Some((ReduceRad(Atan2(g.y, g.x)), Asin(g.z / dist), dist));
      }
      SecondPassGives(jd, sunPos, jdCorr, sph, g, dist, res);
      break;
    }
  }

  /**
   * The ecliptic position of date from a J2000 equatorial one: converted to
   * ecliptic coordinates, precessed to the equinox of date, and the nutation
   * in longitude added with the result reduced to [0, 2π).
   */
  function FromEquatorial(eq: (real, real, real), jd: real, deltaPsi: real): (ecl: G.EclCoord)
    ensures 0.0 <= ecl.lambda < Pi2 && ecl.radius == eq.2
    ensures var (l0, b0) := Ext.equToEcl(eq.0, eq.1, SinE, CosE);
            var (l1, b1) := Ext.astrometric2000ToMean(l0, b0, jd);
            ecl.lambda == ReduceRad(l1 + deltaPsi) && ecl.beta == b1
  {
    var (lam0, bet0) := Ext.equToEcl(eq.0, eq.1, SinE, CosE);
    var (lam1, bet1) := Ext.astrometric2000ToMean(lam0, bet0, jd);
    G.EclCoord(ReduceRad(lam1 + deltaPsi), bet1, eq.2)
  }

  /** Apparent: geocentricEQ's position carried to the ecliptic of date; the distance is geocentricEQ's. */
  function Apparent(jd: real, deltaPsi: real): (res: Option<G.EclCoord>)
    ensures res.None? <==> GeocentricEQ(jd).None?
    ensures res.Some? ==> 0.0 <= res.value.lambda < Pi2 && res.value.radius == GeocentricEQ(jd).value.2
    ensures res.Some? ==> res.value == FromEquatorial(GeocentricEQ(jd).value, jd, deltaPsi)
  {
    match GeocentricEQ(jd)
    case None => None
    case Some(eq) => Some(FromEquatorial(eq, jd, deltaPsi))
  }

  /** A full turn added to the nutation in longitude leaves the position unchanged. */
  lemma FromEquatorialPeriodic(eq: (real, real, real), jd: real, deltaPsi: real)
    ensures FromEquatorial(eq, jd, deltaPsi + Pi2) == FromEquatorial(eq, jd, deltaPsi)
  {
    var (lam0, bet0) := Ext.equToEcl(eq.0, eq.1, SinE, CosE);
    var (lam1, bet1) := Ext.astrometric2000ToMean(lam0, bet0, jd);
    TurnPeriodic(lam1 + deltaPsi);
    assert lam1 + (deltaPsi + Pi2) == lam1 + deltaPsi + Pi2;
  }

  /** The same for Apparent. */
  lemma ApparentNutationPeriodic(jd: real, deltaPsi: real)
    ensures Apparent(jd, deltaPsi + Pi2) == Apparent(jd, deltaPsi)
  {
    if GeocentricEQ(jd).Some? {
      FromEquatorialPeriodic(GeocentricEQ(jd).value, jd, deltaPsi);
    }
  }

  /**
   * The nutation in longitude only turns the longitude: the position is the
   * one without nutation with Δψ added to its longitude and the sum reduced
   * to [0, 2π); latitude and distance do not depend on Δψ.
   */
  lemma FromEquatorialNutation(eq: (real, real, real), jd: real, deltaPsi: real)
    ensures FromEquatorial(eq, jd, deltaPsi)
         == FromEquatorial(eq, jd, 0.0).(lambda := ReduceRad(FromEquatorial(eq, jd, 0.0).lambda + deltaPsi))
  {
    var (lam0, bet0) := Ext.equToEcl(eq.0, eq.1, SinE, CosE);
    var (lam1, bet1) := Ext.astrometric2000ToMean(lam0, bet0, jd);
    assert lam1 + 0.0 == lam1;
    var k := ToRangeShift(lam1, Pi2);
    assert ReduceRad(lam1) + deltaPsi == (lam1 + deltaPsi) + (-k) as real * Pi2;
    ToRangePeriodic(lam1 + deltaPsi, Pi2, -k);
  }

  /** The same for Apparent: Δψ turns the longitude of the position without nutation. */
  lemma ApparentNutation(jd: real, deltaPsi: real)
    ensures Apparent(jd, deltaPsi).Some? <==> Apparent(jd, 0.0).Some?
    ensures Apparent(jd, deltaPsi).Some? ==>
      Apparent(jd, deltaPsi).value == Apparent(jd, 0.0).value.(lambda := ReduceRad(Apparent(jd, 0.0).value.lambda + deltaPsi))
  {
    if Apparent(jd, deltaPsi).Some? {
      FromEquatorialNutation(GeocentricEQ(jd).value, jd, deltaPsi);
    }
  }
}
