/**
 * The Moon's apparent geocentric position from the truncated ELP-2000/82
 * series of Meeus, Astronomical Algorithms, chapter 47
 * (internal/moon/moon.go): mean arguments from polynomials in Julian
 * centuries, the periodic terms of tables 47.A and 47.B with the
 * eccentricity factor E, and the additive terms A1, A2, A3.
 */
module Moon {
  import opened GoMath
  import opened Sums
  import opened MathUtils
  import TimeUtils
  import Units
  import G = Geocentric

  /** An additive argument A + B*t, in degrees. */
  datatype ATerm = ATerm(a: real, b: real)

  /** A row of table 47.A: multipliers of D, M_sun, M, F and the coefficients of the longitude sine and the distance cosine. */
  datatype LRTerm = LRTerm(d: int, ms: int, m: int, f: int, sl: int, sr: int)

  /** A row of table 47.B: multipliers of D, M_sun, M, F and the coefficient of the latitude sine. */
  datatype BTerm = BTerm(d: int, ms: int, m: int, f: int, sb: int)

  /** The mean arguments D, M_sun, M and F in degrees, in the order the phase reads them. */
  datatype Mean = Mean(d: real, ms: real, m: real, f: real)

  /** Polynomials in Julian centuries, degrees: the Moon's mean longitude, elongation, anomaly and argument of latitude. */
  const MoonL: seq<real> := [218.3164477, 481267.88123421, -0.0015786, 1.0 / 538841.0, -1.0 / 65194000.0]
  const MoonD: seq<real> := [297.8501921, 445267.1114034, -0.0018819, 1.0 / 545868.0, -1.0 / 113065000.0]
  const MoonM: seq<real> := [134.9633964, 477198.8675055, 0.0087414, 1.0 / 69699.0, -1.0 / 14712000.0]
  const MoonF: seq<real> := [93.272095, 483202.0175233, -0.0036539, -(1.0 / 3526000.0), 1.0 / 863310000.0]

  /** The Sun's mean anomaly. */
  const SunM: seq<real> := [357.5291092, 35999.0502909, -0.0001536, 1.0 / 24490000.0]

  /** The eccentricity of the Earth's orbit enters as E = 1 - 0.002516 t - 0.0000074 t^2. */
  const ECoeffs: seq<real> := [1.0, -0.002516, -0.0000074]

  /** A1, A2 and A3. */
  const ATerms: seq<ATerm> := [ATerm(119.75, 131.849), ATerm(53.09, 479264.29), ATerm(313.45, 481266.484)]

  /** Meeus table 47.A, in the source's order. */
  const LRTerms: seq<LRTerm> := [
      LRTerm(0, 0, 1, 0, 6288774, -20905355),
      LRTerm(2, 0, -1, 0, 1274027, -3699111),
      LRTerm(2, 0, 0, 0, 658314, -2955968),
      LRTerm(0, 0, 2, 0, 213618, -569925),
      LRTerm(0, 1, 0, 0, -185116, 48888),
      LRTerm(0, 0, 0, 2, -114332, -3149),
      LRTerm(2, 0, -2, 0, 58793, 246158),
      LRTerm(2, -1, -1, 0, 57066, -152138),
      LRTerm(2, 0, 1, 0, 53322, -170733),
      LRTerm(2, -1, 0, 0, 45758, -204586),
      LRTerm(0, 1, -1, 0, -40923, -129620),
      LRTerm(1, 0, 0, 0, -34720, 108743),
      LRTerm(0, 1, 1, 0, -30383, 104755),
      LRTerm(2, 0, 0, -2, 15327, 10321),
      LRTerm(0, 0, 1, 2, -12528, 0),
      LRTerm(0, 0, 1, -2, 10980, 79661),
      LRTerm(4, 0, -1, 0, 10675, -34782),
      LRTerm(0, 0, 3, 0, 10034, -23210),
      LRTerm(4, 0, -2, 0, 8548, -21636),
      LRTerm(2, 1, -1, 0, -7888, 24208),
      LRTerm(2, 1, 0, 0, -6766, 30824),
      LRTerm(1, 0, -1, 0, -5163, -8379),
      LRTerm(1, 1, 0, 0, 4987, -16675),
      LRTerm(2, -1, 1, 0, 4036, -12831),
      LRTerm(2, 0, 2, 0, 3994, -10445),
      LRTerm(4, 0, 0, 0, 3861, -11650),
      LRTerm(2, 0, -3, 0, 3665, 14403),
      LRTerm(0, 1, -2, 0, -2689, -7003),
      LRTerm(2, 0, -1, 2, -2602, 0),
      LRTerm(2, -1, -2, 0, 2390, 10056),
      LRTerm(1, 0, 1, 0, -2348, 6322),
      LRTerm(2, -2, 0, 0, 2236, -9884),
      LRTerm(0, 1, 2, 0, -2120, 5751),
      LRTerm(0, 2, 0, 0, -2069, 0),
      LRTerm(2, -2, -1, 0, 2048, -4950),
      LRTerm(2, 0, 1, -2, -1773, 4130),
      LRTerm(2, 0, 0, 2, -1595, 0),
      LRTerm(4, -1, -1, 0, 1215, -3958),
      LRTerm(0, 0, 2, 2, -1110, 0),
      LRTerm(3, 0, -1, 0, -892, 3258),
      LRTerm(2, 1, 1, 0, -810, 2616),
      LRTerm(4, -1, -2, 0, 759, -1897),
      LRTerm(0, 2, -1, 0, -713, -2117),
      LRTerm(2, 2, -1, 0, -700, 2354),
      LRTerm(2, 1, -2, 0, 691, 0),
      LRTerm(2, -1, 0, -2, 596, 0),
      LRTerm(4, 0, 1, 0, 549, -1423),
      LRTerm(0, 0, 4, 0, 537, -1117),
      LRTerm(4, -1, 0, 0, 520, -1571),
      LRTerm(1, 0, -2, 0, -487, -1739),
      LRTerm(2, 1, 0, -2, -399, 0),
      LRTerm(0, 0, 2, -2, -381, -4421),
      LRTerm(1, 1, 1, 0, 351, 0),
      LRTerm(3, 0, -2, 0, -340, 0),
      LRTerm(4, 0, -3, 0, 330, 0),
      LRTerm(2, -1, 2, 0, 327, 0),
      LRTerm(0, 2, 1, 0, -323, 1165),
      LRTerm(1, 1, -1, 0, 299, 0),
      LRTerm(2, 0, 3, 0, 294, 0),
      LRTerm(2, 0, -1, -2, 0, 8752)
    ]

  /** Meeus table 47.B, in the source's order. */
  const BTerms: seq<BTerm> := [
      BTerm(0, 0, 0, 1, 5128122),
      BTerm(0, 0, 1, 1, 280602),
      BTerm(0, 0, 1, -1, 277693),
      BTerm(2, 0, 0, -1, 173237),
      BTerm(2, 0, -1, 1, 55413),
      BTerm(2, 0, -1, -1, 46271),
      BTerm(2, 0, 0, 1, 32573),
      BTerm(0, 0, 2, 1, 17198),
      BTerm(2, 0, 1, -1, 9266),
      BTerm(0, 0, 2, -1, 8822),
      BTerm(2, -1, 0, -1, 8216),
      BTerm(2, 0, -2, -1, 4324),
      BTerm(2, 0, 1, 1, 4200),
      BTerm(2, 1, 0, -1, -3359),
      BTerm(2, -1, -1, 1, 2463),
      BTerm(2, -1, 0, 1, 2211),
      BTerm(2, -1, -1, -1, 2065),
      BTerm(0, 1, -1, -1, -1870),
      BTerm(4, 0, -1, -1, 1828),
      BTerm(0, 1, 0, 1, -1794),
      BTerm(0, 0, 0, 3, -1749),
      BTerm(0, 1, -1, 1, -1565),
      BTerm(1, 0, 0, 1, -1491),
      BTerm(0, 1, 1, 1, -1475),
      BTerm(0, 1, 1, -1, -1410),
      BTerm(0, 1, 0, -1, -1344),
      BTerm(1, 0, 0, -1, -1335),
      BTerm(0, 0, 3, 1, 1107),
      BTerm(4, 0, 0, -1, 1021),
      BTerm(4, 0, -1, 1, 833),
      BTerm(0, 0, 1, -3, 777),
      BTerm(4, 0, -2, 1, 671),
      BTerm(2, 0, 0, -3, 607),
      BTerm(2, 0, 2, -1, 596),
      BTerm(2, -1, 1, -1, 491),
      BTerm(2, 0, -2, 1, -451),
      BTerm(0, 0, 3, -1, 439),
      BTerm(2, 0, 2, 1, 422),
      BTerm(2, 0, -3, -1, 421),
      BTerm(2, 1, -1, 1, -366),
      BTerm(2, 1, 0, 1, -351),
      BTerm(4, 0, 0, 1, 331),
      BTerm(2, -1, 1, 1, 315),
      BTerm(2, -2, 0, -1, 302),
      BTerm(0, 0, 1, 3, -283),
      BTerm(2, 1, 1, -1, -229),
      BTerm(1, 1, 0, -1, 223),
      BTerm(1, 1, 0, 1, 223),
      BTerm(0, 1, -2, -1, -220),
      BTerm(2, 1, -1, -1, -220),
      BTerm(1, 0, 1, 1, -185),
      BTerm(2, -1, -2, -1, 181),
      BTerm(0, 1, 2, 1, -177),
      BTerm(4, 0, -2, -1, 176),
      BTerm(4, -1, -1, -1, 166),
      BTerm(1, 0, 1, -1, -164),
      BTerm(4, 0, 1, -1, 132),
      BTerm(1, 0, -1, -1, -119),
      BTerm(4, -1, 0, -1, 115),
      BTerm(2, -2, 0, 1, 107)
    ]

  lemma TableSizes()
    ensures |LRTerms| == 60 && |BTerms| == 60 && |ATerms| == 3
  {
  }

  /** The phase of a term in degrees: its multipliers applied to the mean arguments. */
  function ArgSum(d: int, ms: int, m: int, f: int, mean: Mean): real
  {
    d as real * mean.d + ms as real * mean.ms + m as real * mean.m + f as real * mean.f
  }

  /**
   * Moving the mean arguments by whole turns moves every phase by whole
   * turns; in real trigonometry that leaves every sine and cosine as it is,
   * which is why the source may reduce them to [0, 360) first. The sine and
   * cosine of this model carry no periodicity law, so that last step is not
   * proved here.
   */
  lemma ArgSumWholeTurns(d: int, ms: int, m: int, f: int, mean: Mean, kd: int, kms: int, km: int, kf: int)
    ensures ArgSum(d, ms, m, f, Mean(mean.d + kd as real * 360.0, mean.ms + kms as real * 360.0,
                                     mean.m + km as real * 360.0, mean.f + kf as real * 360.0))
         == ArgSum(d, ms, m, f, mean) + (d * kd + ms * kms + m * km + f * kf) as real * 360.0
  {
  }

  /**
   * getCoeff: a coefficient is used as it stands when the term does not
   * involve the Sun's anomaly, multiplied by E once when the multiplier is
   * ±1 and by E twice otherwise.
   */
  function GetCoeff(m: int, c: int, e: real): (r: real)
    ensures m == 0 ==> r == c as real
    ensures (m == 1 || m == -1) ==> r == c as real * e
    ensures (m >= 2 || m <= -2) ==> r == c as real * (e * e)
  {
    var fc := c as real;
    if m == 0 then fc
    else if Abs(m as real) < 2.0 then fc * e
    else fc * e * e
  }

  /** The correction depends on the multiplier's size, not its sign, and is void when E is 1. */
  lemma GetCoeffLaws(m: int, c: int, e: real)
    ensures GetCoeff(-m, c, e) == GetCoeff(m, c, e)
    ensures GetCoeff(m, c, 1.0) == c as real
  {
  }

  /** E at t Julian centuries from J2000. */
  function EFactor(t: real): (e: real)
    ensures e == 1.0 - 0.002516 * t - 0.0000074 * (t * t)
  {
    PolyQuadratic(t, 1.0, -0.002516, -0.0000074);
    PolySum(t, ECoeffs)
  }

  /** At J2000 E is 1, so every coefficient of both tables is used unscaled. */
  lemma EAtEpoch(m: int, c: int)
    ensures EFactor(TimeUtils.CenturiesSinceJ2000(TimeUtils.J2000)) == 1.0
    ensures GetCoeff(m, c, EFactor(TimeUtils.CenturiesSinceJ2000(TimeUtils.J2000))) == c as real
  {
    assert TimeUtils.CenturiesSinceJ2000(TimeUtils.J2000) == 0.0;
  }

  /** The Moon's mean longitude L, in [0, 360). */
  function MeanLongitude(t: real): (l: real)
    ensures 0.0 <= l < 360.0
  {
    ReduceDeg(PolySum(t, MoonL))
  }

  /** D, M_sun, M and F, each reduced to [0, 360). */
  function MeanArgsAt(t: real): (mean: Mean)
    ensures 0.0 <= mean.d < 360.0 && 0.0 <= mean.ms < 360.0
    ensures 0.0 <= mean.m < 360.0 && 0.0 <= mean.f < 360.0
  {
    Mean(ReduceDeg(PolySum(t, MoonD)), ReduceDeg(PolySum(t, SunM)),
         ReduceDeg(PolySum(t, MoonM)), ReduceDeg(PolySum(t, MoonF)))
  }

  /** At J2000 the mean arguments are the constant terms of their polynomials. */
  lemma MeanArgsAtEpoch()
    ensures MeanLongitude(0.0) == 218.3164477
    ensures MeanArgsAt(0.0) == Mean(297.8501921, 357.5291092, 134.9633964, 93.272095)
  {
    PolyAtZero(MoonL);
    PolyAtZero(MoonD);
    PolyAtZero(SunM);
    PolyAtZero(MoonM);
    PolyAtZero(MoonF);
    ToRangeUnique(218.3164477, 360.0, 218.3164477, 0);
    ToRangeUnique(297.8501921, 360.0, 297.8501921, 0);
    ToRangeUnique(357.5291092, 360.0, 357.5291092, 0);
    ToRangeUnique(134.9633964, 360.0, 134.9633964, 0);
    ToRangeUnique(93.272095, 360.0, 93.272095, 0);
  }

  /** A row's contribution to Σl: its corrected coefficient times the sine of its phase. */
  function LonTerm(mean: Mean, e: real): LRTerm -> real
  {
    (term: LRTerm) => GetCoeff(term.ms, term.sl, e) * Sin(Radians(ArgSum(term.d, term.ms, term.m, term.f, mean)))
  }

  /** A row's contribution to Σr: its corrected coefficient times the cosine of its phase. */
  function DistTerm(mean: Mean, e: real): LRTerm -> real
  {
    (term: LRTerm) => GetCoeff(term.ms, term.sr, e) * Cos(Radians(ArgSum(term.d, term.ms, term.m, term.f, mean)))
  }

  /** A row's contribution to Σb: its corrected coefficient times the sine of its phase. */
  function LatTerm(mean: Mean, e: real): BTerm -> real
  {
    (term: BTerm) => GetCoeff(term.ms, term.sb, e) * Sin(Radians(ArgSum(term.d, term.ms, term.m, term.f, mean)))
  }

  lemma TermValues(mean: Mean, e: real, lr: LRTerm, b: BTerm)
    ensures LonTerm(mean, e)(lr) == GetCoeff(lr.ms, lr.sl, e) * Sin(Radians(ArgSum(lr.d, lr.ms, lr.m, lr.f, mean)))
    ensures DistTerm(mean, e)(lr) == GetCoeff(lr.ms, lr.sr, e) * Cos(Radians(ArgSum(lr.d, lr.ms, lr.m, lr.f, mean)))
    ensures LatTerm(mean, e)(b) == GetCoeff(b.ms, b.sb, e) * Sin(Radians(ArgSum(b.d, b.ms, b.m, b.f, mean)))
  {
  }


  /** An additive argument: A + B*t degrees, reduced to [0, 360) and converted to radians. */
  function AdditiveArg(at: ATerm, t: real): (a: real)
    ensures 0.0 <= a < Pi2
    ensures a == Radians(ReduceDeg(at.a + at.b * t))
  {
    PolyLinear(t, at.a, at.b);
    Radians(ReduceDeg(PolySum(t, [at.a, at.b])))
  }

  /** A1, A2 and A3 at t, in the order of the ATerm table. */
  function AdditiveArgsAt(t: real): (a: seq<real>)
    ensures |a| == |ATerms| == 3
    ensures forall i :: 0 <= i < 3 ==> a[i] == AdditiveArg(ATerms[i], t)
  {
    Map(ATerms, at => AdditiveArg(at, t))
  }

  /** The additive terms of Σl, from L, F and A1, A2. */
  function LonAdditive(l: real, f: real, a: seq<real>): real
    requires |a| == 3
  {
    3958.0 * Sin(a[0]) + 1962.0 * Sin(l - f) + 318.0 * Sin(a[1])
  }

  /** The additive terms of Σb, from L, F, M and A1, A3. */
  function LatAdditive(l: real, f: real, m: real, a: seq<real>): real
    requires |a| == 3
  {
    -2235.0 * Sin(l) + 382.0 * Sin(a[2]) + 175.0 * Sin(a[0] - f) + 175.0 * Sin(a[0] + f)
      + 127.0 * Sin(l - m) - 115.0 * Sin(l + m)
  }

  /** Σl, Σr and Σb: the series over the given tables plus the additive terms. */
  function MoonSums(lr: seq<LRTerm>, bt: seq<BTerm>, t: real): (real, real, real)
  {
    var mean := MeanArgsAt(t);
    var e := EFactor(t);
    var a := AdditiveArgsAt(t);
    var l := Radians(MeanLongitude(t));
    var f := Radians(mean.f);
    var m := Radians(mean.m);
    (Sum(lr, LonTerm(mean, e)) + LonAdditive(l, f, a),
     Sum(lr, DistTerm(mean, e)),
     Sum(bt, LatTerm(mean, e)) + LatAdditive(l, f, m, a))
  }

  /**
   * The position from the given tables: longitude L + Σl/10^6 degrees plus
   * Δψ, reduced to [0, 2π); latitude Σb/10^6 degrees; distance
   * 385000.56 km + Σr/1000 expressed in astronomical units.
   */
  function ApparentFrom(lr: seq<LRTerm>, bt: seq<BTerm>, jd: real, deltaPsi: real): (ecl: G.EclCoord)
    ensures 0.0 <= ecl.lambda < Pi2
    ensures Units.AuToKm(ecl.radius) == 385000.56 + MoonSums(lr, bt, TimeUtils.CenturiesSinceJ2000(jd)).1 / 1000.0
  {
    var t := TimeUtils.CenturiesSinceJ2000(jd);
    var (el, er, eb) := MoonSums(lr, bt, t);
    G.EclCoord(ReduceRad(Radians(MeanLongitude(t) + el / 1000000.0) + deltaPsi),
               Radians(eb / 1000000.0),
               Units.KmToAU(385000.56 + er / 1000.0))
  }

  /**
   * The Moon's apparent position from tables 47.A and 47.B: the longitude in
   * [0, 2π), the distance 385000.56 km plus the distance sum, and Δψ moves
   * neither the latitude nor the distance.
   */
  function Apparent(jd: real, deltaPsi: real): (ecl: G.EclCoord)
    ensures 0.0 <= ecl.lambda < Pi2
    ensures Units.AuToKm(ecl.radius) == 385000.56 + MoonSums(LRTerms, BTerms, TimeUtils.CenturiesSinceJ2000(jd)).1 / 1000.0
    ensures ecl.beta == ApparentFrom(LRTerms, BTerms, jd, 0.0).beta && ecl.radius == ApparentFrom(LRTerms, BTerms, jd, 0.0).radius
  {
    ApparentNutation(LRTerms, BTerms, jd, deltaPsi, 0.0);
    ApparentFrom(LRTerms, BTerms, jd, deltaPsi)
  }

  /** Δψ only turns the longitude: latitude and distance do not depend on it, and a full turn changes nothing. */
  lemma ApparentNutation(lr: seq<LRTerm>, bt: seq<BTerm>, jd: real, a: real, b: real)
    ensures ApparentFrom(lr, bt, jd, a).beta == ApparentFrom(lr, bt, jd, b).beta
    ensures ApparentFrom(lr, bt, jd, a).radius == ApparentFrom(lr, bt, jd, b).radius
    ensures ApparentFrom(lr, bt, jd, a + Pi2) == ApparentFrom(lr, bt, jd, a)
  {
    var t := TimeUtils.CenturiesSinceJ2000(jd);
    var x := Radians(MeanLongitude(t) + MoonSums(lr, bt, t).0 / 1000000.0) + a;
    ToRangePeriodic(x, Pi2, 1);
    assert x + 1 as real * Pi2 == Radians(MeanLongitude(t) + MoonSums(lr, bt, t).0 / 1000000.0) + (a + Pi2);
  }

  /** Over reals the position does not depend on the order of either table. */
  lemma ApparentOrderIndependent(lr1: seq<LRTerm>, lr2: seq<LRTerm>, bt1: seq<BTerm>, bt2: seq<BTerm>, jd: real, deltaPsi: real)
    requires multiset(lr1) == multiset(lr2) && multiset(bt1) == multiset(bt2)
    ensures ApparentFrom(lr1, bt1, jd, deltaPsi) == ApparentFrom(lr2, bt2, jd, deltaPsi)
  {
    var t := TimeUtils.CenturiesSinceJ2000(jd);
    var mean := MeanArgsAt(t);
    var e := EFactor(t);
    SumPermutation(lr1, lr2, LonTerm(mean, e));
    SumPermutation(lr1, lr2, DistTerm(mean, e));
    SumPermutation(bt1, bt2, LatTerm(mean, e));
  }

  /** One iteration of SumLR adds row i's two contributions. */
  /** One iteration of SumLR adds row i's longitude term, coefficient cl times sn. */
  lemma LonStep(table: seq<LRTerm>, i: nat, mean: Mean, e: real, el: real, cl: real, sn: real, el': real)
    requires i < |table| && el == Sum(table[..i], LonTerm(mean, e))
    requires cl == GetCoeff(table[i].ms, table[i].sl, e)
    requires sn == Sin(Radians(ArgSum(table[i].d, table[i].ms, table[i].m, table[i].f, mean)))
    requires el' == el + cl * sn
    ensures el' == Sum(table[..i + 1], LonTerm(mean, e))
  {
    SumStep(table, i, LonTerm(mean, e));
    TermValues(mean, e, table[i], BTerm(0, 0, 0, 0, 0));
  }

  /** One iteration of SumLR adds row i's distance term, coefficient cr times cs. */
  lemma DistStep(table: seq<LRTerm>, i: nat, mean: Mean, e: real, er: real, cr: real, cs: real, er': real)
    requires i < |table| && er == Sum(table[..i], DistTerm(mean, e))
    requires cr == GetCoeff(table[i].ms, table[i].sr, e)
    requires cs == Cos(Radians(ArgSum(table[i].d, table[i].ms, table[i].m, table[i].f, mean)))
    requires er' == er + cr * cs
    ensures er' == Sum(table[..i + 1], DistTerm(mean, e))
  {
    SumStep(table, i, DistTerm(mean, e));
    TermValues(mean, e, table[i], BTerm(0, 0, 0, 0, 0));
  }

  /** One iteration of SumB adds row i's latitude term, coefficient cb times sn. */
  lemma BStep(table: seq<BTerm>, i: nat, mean: Mean, e: real, eb: real, cb: real, sn: real, eb': real)
    requires i < |table| && eb == Sum(table[..i], LatTerm(mean, e))
    requires cb == GetCoeff(table[i].ms, table[i].sb, e)
    requires sn == Sin(Radians(ArgSum(table[i].d, table[i].ms, table[i].m, table[i].f, mean)))
    requires eb' == eb + cb * sn
    ensures eb' == Sum(table[..i + 1], LatTerm(mean, e))
  {
    SumStep(table, i, LatTerm(mean, e));
    TermValues(mean, e, LRTerm(0, 0, 0, 0, 0, 0), table[i]);
  }


  /** The loop over table 47.A: Σl and Σr, each row visited once in table order. */
  method SumLR(table: seq<LRTerm>, mean: Mean, e: real) returns (el: real, er: real)
    ensures el == Sum(table, LonTerm(mean, e))
    ensures er == Sum(table, DistTerm(mean, e))
  {
    el, er := 0.0, 0.0;
    for i := 0 to |table|
      invariant el == Sum(table[..i], LonTerm(mean, e))
      invariant er == Sum(table[..i], DistTerm(mean, e))
    {
      var term := table[i];
      var rad := Radians(ArgSum(term.d, term.ms, term.m, term.f, mean));
      var cl, cr := GetCoeff(term.ms, term.sl, e), GetCoeff(term.ms, term.sr, e);
      var sn, cs := Sin(rad), Cos(rad);
      var el', er' := el + cl * sn, er + cr * cs;
      LonStep(table, i, mean, e, el, cl, sn, el');
      DistStep(table, i, mean, e, er, cr, cs, er');
      el, er := el', er';
    }
    assert table[..|table|] == table;
  }

  /** The loop over table 47.B: Σb, each row visited once in table order. */
  method SumB(table: seq<BTerm>, mean: Mean, e: real) returns (eb: real)
    ensures eb == Sum(table, LatTerm(mean, e))
  {
    eb := 0.0;
    for i := 0 to |table|
      invariant eb == Sum(table[..i], LatTerm(mean, e))
    {
      var term := table[i];
      var rad := Radians(ArgSum(term.d, term.ms, term.m, term.f, mean));
      var cb, sn := GetCoeff(term.ms, term.sb, e), Sin(rad);
      var eb' := eb + cb * sn;
      BStep(table, i, mean, e, eb, cb, sn, eb');
      eb := eb';
    }
    assert table[..|table|] == table;
  }

  /** The additive arguments A1, A2, A3, filled in one pass over the ATerm table. */
  method AdditiveArgs(t: real) returns (a: array<real>)
    ensures fresh(a) && a.Length == |ATerms|
    ensures a[..] == AdditiveArgsAt(t)
  {
    a := new real[|ATerms|];
    for i := 0 to |ATerms|
      invariant forall j :: 0 <= j < i ==> a[j] == AdditiveArg(ATerms[j], t)
    {
      var p := Polynome(t, [ATerms[i].a, ATerms[i].b]);
      a[i] := Radians(ReduceDeg(p));
    }
    assert a[..] == AdditiveArgsAt(t);
  }

  /** The mean arguments and E from their polynomials, each angle reduced to [0, 360). */
  method MeanArguments(t: real) returns (l0: real, mean: Mean, e: real)
    ensures l0 == MeanLongitude(t) && mean == MeanArgsAt(t) && e == EFactor(t)
  {
    var pl := Polynome(t, MoonL);
    var pd := Polynome(t, MoonD);
    var pm := Polynome(t, MoonM);
    var pf := Polynome(t, MoonF);
    var pms := Polynome(t, SunM);
    l0 := ReduceDeg(pl);
    mean := Mean(ReduceDeg(pd), ReduceDeg(pms), ReduceDeg(pm), ReduceDeg(pf));
    e := Polynome(t, ECoeffs);
  }

  /**
   * Apparent: the mean arguments and E from their polynomials, one pass over
   * each table, the additive terms, and the assembly of longitude, latitude
   * and distance.
   */
  method ComputeApparent(jd: real, deltaPsi: real) returns (ecl: G.EclCoord)
    ensures ecl == Apparent(jd, deltaPsi)
  {
    var t := (jd - TimeUtils.J2000) / TimeUtils.DaysPerCent;
    assert t == TimeUtils.CenturiesSinceJ2000(jd);
    var l0, mean, e := MeanArguments(t);
    var el, er := SumLR(LRTerms, mean, e);
    var eb := SumB(BTerms, mean, e);
    var a := AdditiveArgs(t);
    var l, f, m := Radians(l0), Radians(mean.f), Radians(mean.m);
    el := el + LonAdditive(l, f, a[..]);
    eb := eb + LatAdditive(l, f, m, a[..]);
    ecl := G.EclCoord(ReduceRad(Radians(l0 + el / 1000000.0) + deltaPsi),
                      Radians(eb / 1000000.0),
                      Units.KmToAU(385000.56 + er / 1000.0));
    SumsAssembled(LRTerms, BTerms, t, l0, mean, e, a[..], el, er, eb);
    ApparentAssembled(LRTerms, BTerms, jd, deltaPsi, t, l0, el, er, eb);
    assert ecl == ApparentFrom(LRTerms, BTerms, jd, deltaPsi);
  }

  /** The three sums of MoonSums, once the mean arguments, E and the additive arguments are known. */
  lemma SumsAssembled(lr: seq<LRTerm>, bt: seq<BTerm>, t: real, l0: real, mean: Mean, e: real, a: seq<real>,
                      el: real, er: real, eb: real)
    requires l0 == MeanLongitude(t) && mean == MeanArgsAt(t) && e == EFactor(t) && a == AdditiveArgsAt(t)
    requires el == Sum(lr, LonTerm(mean, e)) + LonAdditive(Radians(l0), Radians(mean.f), a)
    requires er == Sum(lr, DistTerm(mean, e))
    requires eb == Sum(bt, LatTerm(mean, e)) + LatAdditive(Radians(l0), Radians(mean.f), Radians(mean.m), a)
    ensures MoonSums(lr, bt, t) == (el, er, eb)
  {
  }

  /** ApparentFrom in terms of the three sums, once they are known. */
  lemma ApparentAssembled(lr: seq<LRTerm>, bt: seq<BTerm>, jd: real, deltaPsi: real, t: real,
                          l0: real, el: real, er: real, eb: real)
    requires t == TimeUtils.CenturiesSinceJ2000(jd) && l0 == MeanLongitude(t)
    requires MoonSums(lr, bt, t) == (el, er, eb)
    ensures ApparentFrom(lr, bt, jd, deltaPsi)
         == G.EclCoord(ReduceRad(Radians(l0 + el / 1000000.0) + deltaPsi),
                       Radians(eb / 1000000.0),
                       Units.KmToAU(385000.56 + er / 1000.0))
  {
  }
}
