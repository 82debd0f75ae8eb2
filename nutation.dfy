/**
 * Nutation in longitude and in obliquity from the 62-term IAU 1980 series
 * as tabulated in Meeus, Astronomical Algorithms, chapter 22
 * (internal/earth/nutation.go).
 */
module Nutation {
  import opened GoMath
  import opened Sums
  import MathUtils
  import TimeUtils

  /**
   * One row of the table: the integer multipliers of D, M, M', F and Ω, and
   * the coefficients Base + PertT*t of Δψ and Δε in units of 0.0001".
   */
  datatype NutationTerm = NutationTerm(
    d: int, m: int, mp: int, f: int, om: int,
    psiBase: real, psiPertT: real,
    epsBase: real, epsPertT: real)

  /** The fundamental arguments, in degrees. */
  datatype Arguments = Arguments(d: real, m: real, mp: real, f: real, om: real)

  /** Table units per second of arc. */
  const MilliArcsec: real := 10000.0

  /** Seconds of arc to radians. */
  const SecToRad: real := Pi / 180.0 / 3600.0

  /** Polynomial coefficients of D, M, M', F and Ω in Julian centuries. */
  const DCoeffs: seq<real> := [297.85036, 445267.11148, -0.0019142, 1.0 / 189474.0]
  const MCoeffs: seq<real> := [357.52772, 35999.05034, -0.0001603, -1.0 / 300000.0]
  const MpCoeffs: seq<real> := [134.96298, 477198.867398, 0.0086972, 1.0 / 56250.0]
  const FCoeffs: seq<real> := [93.27191, 483202.017538, -0.0036825, 1.0 / 327270.0]
  const OmCoeffs: seq<real> := [125.04452, -1934.136261, 0.0020708, 1.0 / 450000.0]

  /** Meeus table 22.A, in the source's order. */
  const Terms: seq<NutationTerm> := [
      NutationTerm(0, 0, 0, 0, 1, -171996.0, -174.2, 92025.0, 8.9),
      NutationTerm(-2, 0, 0, 2, 2, -13187.0, -1.6, 5736.0, -3.1),
      NutationTerm(0, 0, 0, 2, 2, -2274.0, -0.2, 977.0, -0.5),
      NutationTerm(0, 0, 0, 0, 2, 2062.0, 0.2, -895.0, 0.5),
      NutationTerm(0, 1, 0, 0, 0, 1426.0, -3.4, 54.0, -0.1),
      NutationTerm(0, 0, 1, 0, 0, 712.0, 0.1, -7.0, 0.0),
      NutationTerm(-2, 1, 0, 2, 2, -517.0, 1.2, 224.0, -0.6),
      NutationTerm(0, 0, 0, 2, 1, -386.0, -0.4, 200.0, 0.0),
      NutationTerm(0, 0, 1, 2, 2, -301.0, 0.0, 129.0, -0.1),
      NutationTerm(-2, -1, 0, 2, 2, 217.0, -0.5, -95.0, 0.3),
      NutationTerm(-2, 0, 1, 0, 0, -158.0, 0.0, 0.0, 0.0),
      NutationTerm(-2, 0, 0, 2, 0, 129.0, 0.1, -70.0, 0.0),
      NutationTerm(0, 0, -1, 2, 2, 123.0, 0.0, -53.0, 0.0),
      NutationTerm(2, 0, 0, 0, 0, 63.0, 0.0, 0.0, 0.0),
      NutationTerm(0, 0, 1, 0, 0, 63.0, 0.1, -33.0, 0.0),
      NutationTerm(2, 0, -1, 2, 2, -59.0, 0.0, 26.0, 0.0),
      NutationTerm(0, 0, -1, 0, 1, -58.0, -0.1, 32.0, 0.0),
      NutationTerm(0, 0, 1, 2, 1, -51.0, 0.0, 27.0, 0.0),
      NutationTerm(-2, 0, 2, 0, 0, 48.0, 0.0, 0.0, 0.0),
      NutationTerm(0, 0, -2, 2, 1, 46.0, 0.0, -24.0, 0.0),
      NutationTerm(2, 0, 0, 2, 2, -38.0, 0.0, 16.0, 0.0),
      NutationTerm(0, 0, 2, 2, 2, -31.0, 0.0, 13.0, 0.0),
      NutationTerm(0, 0, 2, 0, 0, 29.0, 0.0, -12.0, 0.0),
      NutationTerm(0, 0, 0, 2, 0, 26.0, 0.0, 0.0, 0.0),
      NutationTerm(-2, 0, 0, 2, 0, -22.0, 0.0, 0.0, 0.0),
      NutationTerm(0, 0, -1, 2, 1, 21.0, 0.0, -10.0, 0.0),
      NutationTerm(0, 2, 0, 0, 0, 17.0, -0.1, 0.0, 0.0),
      NutationTerm(2, 0, -1, 0, 1, 16.0, 0.0, -8.0, 0.0),
      NutationTerm(-2, 2, 0, 2, 2, -16.0, 0.1, 7.0, 0.0),
      NutationTerm(0, 1, 0, 0, 1, -15.0, 0.0, 9.0, 0.0),
      NutationTerm(-2, 0, 1, 0, 1, -13.0, 7.0, 7.0, 0.0),
      NutationTerm(0, -1, 0, 0, 1, -12.0, 0.0, 6.0, 0.0),
      NutationTerm(0, 0, 2, -2, 0, 11.0, 0.0, 0.0, 0.0),
      NutationTerm(2, 0, -1, 2, 1, -10.0, 0.0, 5.0, 0.0),
      NutationTerm(2, 0, 1, 2, 2, -8.0, 0.0, 3.0, 0.0),
      NutationTerm(0, 1, 0, 2, 2, 7.0, 0.0, -3.0, 0.0),
      NutationTerm(-2, 1, 1, 0, 0, -7.0, 0.0, 0.0, 0.0),
      NutationTerm(0, -1, 0, 2, 2, -7.0, 0.0, 3.0, 0.0),
      NutationTerm(2, 0, 0, 2, 1, -7.0, 0.0, 3.0, 0.0),
      NutationTerm(2, 0, 1, 0, 0, 6.0, 0.0, 0.0, 0.0),
      NutationTerm(-2, 0, 2, 2, 2, 6.0, 0.0, -3.0, 0.0),
      NutationTerm(-2, 0, 1, 2, 1, 6.0, 0.0, -3.0, 0.0),
      NutationTerm(2, 0, -2, 0, 1, -6.0, 0.0, 3.0, 0.0),
      NutationTerm(2, 0, 0, 0, 1, -6.0, 0.0, 3.0, 0.0),
      NutationTerm(0, -1, 1, 0, 0, 5.0, 0.0, 0.0, 0.0),
      NutationTerm(-2, -1, 0, 2, 1, -5.0, 0.0, 3.0, 0.0),
      NutationTerm(-2, 0, 0, 0, 1, -5.0, 0.0, 3.0, 0.0),
      NutationTerm(0, 0, 2, 2, 1, -5.0, 0.0, 3.0, 0.0),
      NutationTerm(-2, 0, 2, 0, 1, 4.0, 0.0, 0.0, 0.0),
      NutationTerm(-2, 1, 0, 2, 1, 4.0, 0.0, 0.0, 0.0),
      NutationTerm(0, 0, 1, -2, 0, 4.0, 0.0, 0.0, 0.0),
      NutationTerm(-1, 0, 1, 0, 0, -4.0, 0.0, 0.0, 0.0),
      NutationTerm(-2, 1, 0, 0, 0, -4.0, 0.0, 0.0, 0.0),
      NutationTerm(1, 0, 0, 0, 0, -4.0, 0.0, 0.0, 0.0),
      NutationTerm(0, 0, 1, 2, 0, 3.0, 0.0, 0.0, 0.0),
      NutationTerm(0, 0, -2, 2, 2, -3.0, 0.0, 0.0, 0.0),
      NutationTerm(-1, -1, 1, 0, 0, -3.0, 0.0, 0.0, 0.0),
      NutationTerm(0, 1, 1, 0, 0, -3.0, 0.0, 0.0, 0.0),
      NutationTerm(0, -1, 1, 2, 2, -3.0, 0.0, 0.0, 0.0),
      NutationTerm(2, -1, -1, 2, 2, -3.0, 0.0, 0.0, 0.0),
      NutationTerm(0, 0, 3, 2, 2, -3.0, 0.0, 0.0, 0.0),
      NutationTerm(2, -1, 0, 2, 2, -3.0, 0.0, 0.0, 0.0)
  ]

  /** The table has 62 rows. */
  lemma TermsSize()
    ensures |Terms| == 62
  {
  }

  /** The fundamental arguments t Julian centuries after J2000. */
  function ArgumentsAt(t: real): Arguments
  {
    Arguments(
      MathUtils.PolySum(t, DCoeffs), MathUtils.PolySum(t, MCoeffs), MathUtils.PolySum(t, MpCoeffs),
      MathUtils.PolySum(t, FCoeffs), MathUtils.PolySum(t, OmCoeffs))
  }

  /** At J2000 every argument is its constant term. */
  lemma ArgumentsAtEpoch()
    ensures ArgumentsAt(0.0) == Arguments(297.85036, 357.52772, 134.96298, 93.27191, 125.04452)
  {
    MathUtils.PolyAtZero(DCoeffs);
    MathUtils.PolyAtZero(MCoeffs);
    MathUtils.PolyAtZero(MpCoeffs);
    MathUtils.PolyAtZero(FCoeffs);
    MathUtils.PolyAtZero(OmCoeffs);
  }

  /** The phase of a term: the multiplier-weighted sum of the arguments, in radians. */
  function Phase(term: NutationTerm, args: Arguments): real
  {
    term.d as real * MathUtils.Radians(args.d)
      + term.m as real * MathUtils.Radians(args.m)
      + term.mp as real * MathUtils.Radians(args.mp)
      + term.f as real * MathUtils.Radians(args.f)
      + term.om as real * MathUtils.Radians(args.om)
  }

  /** A term's Δψ coefficient in seconds of arc: (Base + PertT*t) / 10000. */
  function PsiCoeff(term: NutationTerm, t: real): (c: real)
    ensures c * MilliArcsec == term.psiBase + term.psiPertT * t
  {
    (term.psiBase + term.psiPertT * t) / MilliArcsec
  }

  /** A term's Δε coefficient in seconds of arc. */
  function EpsCoeff(term: NutationTerm, t: real): (c: real)
    ensures c * MilliArcsec == term.epsBase + term.epsPertT * t
  {
    (term.epsBase + term.epsPertT * t) / MilliArcsec
  }

  /** At J2000 (t = 0) every coefficient is its Base divided by 10000. */
  lemma CoefficientsAtEpoch(term: NutationTerm)
    ensures PsiCoeff(term, TimeUtils.CenturiesSinceJ2000(2451545.0)) == term.psiBase / 10000.0
    ensures EpsCoeff(term, TimeUtils.CenturiesSinceJ2000(2451545.0)) == term.epsBase / 10000.0
  {
    assert TimeUtils.CenturiesSinceJ2000(2451545.0) == 0.0;
  }

  /** A term's contribution to Δψ, in seconds of arc: coefficient times the sine of the phase. */
  function PsiTermAt(t: real, args: Arguments): NutationTerm -> real
  {
    term => PsiCoeff(term, t) * Sin(Phase(term, args))
  }

  /** A term's contribution to Δε, in seconds of arc: coefficient times the cosine of the phase. */
  function EpsTermAt(t: real, args: Arguments): NutationTerm -> real
  {
    term => EpsCoeff(term, t) * Cos(Phase(term, args))
  }

  lemma TermAtValues(t: real, args: Arguments, term: NutationTerm)
    ensures PsiTermAt(t, args)(term) == PsiCoeff(term, t) * Sin(Phase(term, args))
    ensures EpsTermAt(t, args)(term) == EpsCoeff(term, t) * Cos(Phase(term, args))
  {
  }

  /** Δψ and Δε in radians from a table: each row visited once, the sums in seconds of arc scaled by π/(180·3600). */
  function NutationOver(table: seq<NutationTerm>, jd: real): (real, real)
  {
    var t := TimeUtils.CenturiesSinceJ2000(jd);
    var args := ArgumentsAt(t);
    (Sum(table, PsiTermAt(t, args)) * SecToRad, Sum(table, EpsTermAt(t, args)) * SecToRad)
  }

  /** Over reals the result does not depend on the order of the table. */
  lemma NutationOrderIndependent(a: seq<NutationTerm>, b: seq<NutationTerm>, jd: real)
    requires multiset(a) == multiset(b)
    ensures NutationOver(a, jd) == NutationOver(b, jd)
  {
    var t := TimeUtils.CenturiesSinceJ2000(jd);
    var args := ArgumentsAt(t);
    SumPermutation(a, b, PsiTermAt(t, args));
    SumPermutation(a, b, EpsTermAt(t, args));
  }

  /** A table split in two contributes the sum of its parts. */
  lemma NutationSplit(a: seq<NutationTerm>, b: seq<NutationTerm>, jd: real)
    ensures NutationOver(a + b, jd).0 == NutationOver(a, jd).0 + NutationOver(b, jd).0
    ensures NutationOver(a + b, jd).1 == NutationOver(a, jd).1 + NutationOver(b, jd).1
  {
    var t := TimeUtils.CenturiesSinceJ2000(jd);
    var args := ArgumentsAt(t);
    SumConcatScaled(a, b, PsiTermAt(t, args), SecToRad);
    SumConcatScaled(a, b, EpsTermAt(t, args), SecToRad);
  }

  /**
   * Nutation: the fundamental arguments from their polynomials, then one pass
   * over the table accumulating Δψ and Δε in seconds of arc, converted to
   * radians at the end.
   */
  method ComputeNutation(jd: real) returns (dpsi: real, deps: real)
    ensures (dpsi, deps) == NutationOver(Terms, jd)
  {
    var t := (jd - 2451545.0) / 36525.0;
    assert t == TimeUtils.CenturiesSinceJ2000(jd);
    var d := MathUtils.Polynome(t, DCoeffs);
    var m := MathUtils.Polynome(t, MCoeffs);
    var mp := MathUtils.Polynome(t, MpCoeffs);
    var f := MathUtils.Polynome(t, FCoeffs);
    var om := MathUtils.Polynome(t, OmCoeffs);
    var args := Arguments(d, m, mp, f, om);
    assert args == ArgumentsAt(t);
    var dpsiSec, depsSec := SumTerms(Terms, t, args);
    dpsi := dpsiSec * SecToRad;
    deps := depsSec * SecToRad;
    NutationOverSums(Terms, jd, t, args, dpsiSec, depsSec);
  }

  /** NutationOver in terms of the two sums, once t and the arguments are known. */
  lemma NutationOverSums(table: seq<NutationTerm>, jd: real, t: real, args: Arguments, psiSum: real, epsSum: real)
    requires t == TimeUtils.CenturiesSinceJ2000(jd) && args == ArgumentsAt(t)
    requires psiSum == Sum(table, PsiTermAt(t, args)) && epsSum == Sum(table, EpsTermAt(t, args))
    ensures NutationOver(table, jd) == (psiSum * SecToRad, epsSum * SecToRad)
  {
  }

  /** The loop over a table: Δψ and Δε in seconds of arc, each row visited once in table order. */
  method SumTerms(table: seq<NutationTerm>, t: real, args: Arguments) returns (dpsiSec: real, depsSec: real)
    ensures dpsiSec == Sum(table, PsiTermAt(t, args))
    ensures depsSec == Sum(table, EpsTermAt(t, args))
  {
    dpsiSec, depsSec := 0.0, 0.0;
    for i := 0 to |table|
      invariant dpsiSec == Sum(table[..i], PsiTermAt(t, args))
      invariant depsSec == Sum(table[..i], EpsTermAt(t, args))
    {
      var term := table[i];
      var phi := Phase(term, args);
      var psiCoeff := PsiCoeff(term, t);
      var epsCoeff := EpsCoeff(term, t);
      var sinPhi, cosPhi := Sin(phi), Cos(phi);
      var dpsi', deps' := dpsiSec + psiCoeff * sinPhi, depsSec + epsCoeff * cosPhi;
      PsiStep(table, i, t, args, dpsiSec, psiCoeff, sinPhi, dpsi');
      EpsStep(table, i, t, args, depsSec, epsCoeff, cosPhi, deps');
      dpsiSec, depsSec := dpsi', deps';
    }
    assert table[..|table|] == table;
  }

  /** One iteration of SumTerms adds row i's Δψ term, coefficient c times s. */
  lemma PsiStep(table: seq<NutationTerm>, i: nat, t: real, args: Arguments, acc: real, c: real, s: real, acc': real)
    requires i < |table| && acc == Sum(table[..i], PsiTermAt(t, args))
    requires c == PsiCoeff(table[i], t) && s == Sin(Phase(table[i], args)) && acc' == acc + c * s
    ensures acc' == Sum(table[..i + 1], PsiTermAt(t, args))
  {
    SumStep(table, i, PsiTermAt(t, args));
    TermAtValues(t, args, table[i]);
  }

  /** One iteration of SumTerms adds row i's Δε term, coefficient c times s. */
  lemma EpsStep(table: seq<NutationTerm>, i: nat, t: real, args: Arguments, acc: real, c: real, s: real, acc': real)
    requires i < |table| && acc == Sum(table[..i], EpsTermAt(t, args))
    requires c == EpsCoeff(table[i], t) && s == Cos(Phase(table[i], args)) && acc' == acc + c * s
    ensures acc' == Sum(table[..i + 1], EpsTermAt(t, args))
  {
    SumStep(table, i, EpsTermAt(t, args));
    TermAtValues(t, args, table[i]);
  }
}
