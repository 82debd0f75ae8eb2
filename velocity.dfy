/**
 * The Moon's angular speed in ecliptic longitude, in degrees per day, from
 * the series of Meeus, Astronomical Formulae for Calculators
 * (internal/moon/velocity.go): a base rate plus thirty cosine terms of the
 * mean arguments D, M, M' and F, with the base and the cos M coefficient
 * changed for the speed relative to the moving Sun.
 */
module MoonVelocity {
  import opened GoMath
  import opened Sums
  import opened MathUtils
  import TimeUtils

  /** A term: its coefficient in degrees per day and the multipliers of D, M, M' and F. */
  datatype SpeedTerm = SpeedTerm(c: real, d: int, m: int, mp: int, f: int)

  /** The mean arguments D, M, M' and F, in radians. */
  datatype Args = Args(d: real, m: real, mp: real, f: real)

  /** Polynomials in Julian centuries since J1900, degrees. */
  const DCoeffs: seq<real> := [350.737486, 445267.1142, -0.001436, 0.0000019]
  const MCoeffs: seq<real> := [358.475833, 35999.0498, -0.000150, -0.0000033]
  const MpCoeffs: seq<real> := [296.104608, 477198.8491, 0.009192, 0.0000144]
  const FCoeffs: seq<real> := [11.250889, 483202.0251, -0.003211, -0.0000003]

  /**
   * The thirty terms as the source writes them, in its order. The twentieth
   * is labelled cos(M' - M + 2D) but carries the multipliers of
   * 2D + M - M', the same as the twenty-fourth.
   */
  const SeriesAsWritten: seq<SpeedTerm> := [
      SpeedTerm(1.434006, 0, 0, 1, 0),
      SpeedTerm(0.280135, 2, 0, 0, 0),
      SpeedTerm(0.251632, 2, 0, -1, 0),
      SpeedTerm(0.097420, 0, 0, 2, 0),
      SpeedTerm(-0.052799, 0, 0, 0, 2),
      SpeedTerm(0.034848, 2, 0, 1, 0),
      SpeedTerm(0.018732, 2, -1, 0, 0),
      SpeedTerm(0.010316, 2, -1, -1, 0),
      SpeedTerm(0.008649, 0, 1, -1, 0),
      SpeedTerm(-0.008642, 0, 0, 1, 2),
      SpeedTerm(-0.007471, 0, 1, 1, 0),
      SpeedTerm(-0.007387, 1, 0, 0, 0),
      SpeedTerm(0.006864, 0, 0, 3, 0),
      SpeedTerm(0.006650, 4, 0, -1, 0),
      SpeedTerm(0.003523, 2, 0, 2, 0),
      SpeedTerm(0.003377, 4, 0, -2, 0),
      SpeedTerm(0.003287, 4, 0, 0, 0),
      SpeedTerm(-0.003193, 0, 1, 0, 0),
      SpeedTerm(-0.003003, 2, 1, 0, 0),
      SpeedTerm(0.002577, 2, 1, -1, 0),
      SpeedTerm(-0.002567, 0, 0, -1, 2),
      SpeedTerm(-0.001794, 2, 0, -2, 0),
      SpeedTerm(-0.001716, -2, 0, 1, -2),
      SpeedTerm(-0.001698, 2, 1, -1, 0),
      SpeedTerm(-0.001415, 2, 0, 0, 2),
      SpeedTerm(0.001183, 0, -1, 2, 0),
      SpeedTerm(0.001150, 1, 1, 0, 0),
      SpeedTerm(-0.001035, 1, 0, 1, 0),
      SpeedTerm(-0.001019, 0, 0, 2, 2),
      SpeedTerm(-0.001006, 0, 1, 2, 0)
    ]

  /** The corrected table: the twentieth term has the multipliers of its label, 2D - M + M'. */
  const Series: seq<SpeedTerm> := SeriesAsWritten[19 := SpeedTerm(0.002577, 2, -1, 1, 0)]

  /** The base rate, in degrees per day. */
  function Base(relativeToSun: bool): real
  {
    if relativeToSun then 12.190749 else 13.176397
  }

  /** The coefficient used for the cos M term. */
  function CosMCoef(relativeToSun: bool): real
  {
    if relativeToSun then -0.036211 else -0.003193
  }

  /** The cos M term: multipliers (0, 1, 0, 0). */
  predicate IsCosM(s: SpeedTerm)
  {
    s.d == 0 && s.m == 1 && s.mp == 0 && s.f == 0
  }

  /** D, M, M' and F at t Julian centuries since J1900: each reduced to [0, 360) and converted to radians. */
  function ArgsAt(t: real): (args: Args)
    ensures 0.0 <= args.d < Pi2 && 0.0 <= args.m < Pi2 && 0.0 <= args.mp < Pi2 && 0.0 <= args.f < Pi2
  {
    Args(Radians(ReduceDeg(PolySum(t, DCoeffs))), Radians(ReduceDeg(PolySum(t, MCoeffs))),
         Radians(ReduceDeg(PolySum(t, MpCoeffs))), Radians(ReduceDeg(PolySum(t, FCoeffs))))
  }

  /** A term's argument: its multipliers applied to the mean arguments. */
  function Phase(s: SpeedTerm, args: Args): real
  {
    s.d as real * args.d + s.m as real * args.m + s.mp as real * args.mp + s.f as real * args.f
  }

  /** The cos M term's argument is M itself. */
  lemma PhaseOfCosM(s: SpeedTerm, args: Args)
    requires IsCosM(s)
    ensures Phase(s, args) == args.m
  {
  }

  /** A term's contribution: its coefficient, or cosMCoef for the cos M term, times the cosine of its argument. */
  function Contribution(s: SpeedTerm, args: Args, cosMCoef: real): real
  {
    if IsCosM(s) then cosMCoef * Cos(Phase(s, args)) else s.c * Cos(Phase(s, args))
  }

  function ContributionAt(args: Args, cosMCoef: real): SpeedTerm -> real
  {
    s => Contribution(s, args, cosMCoef)
  }

  /** The speed from a table: the base plus one contribution per entry. */
  function SpeedOver(table: seq<SpeedTerm>, jdTT: real, relativeToSun: bool): real
  {
    var t := (jdTT - TimeUtils.J1900) / TimeUtils.DaysPerCent;
    Base(relativeToSun) + Sum(table, ContributionAt(ArgsAt(t), CosMCoef(relativeToSun)))
  }

  /** The speed the series is meant to give, from the corrected table. */
  function AngularSpeedCorrected(jdTT: real, relativeToSun: bool): real
  {
    SpeedOver(Series, jdTT, relativeToSun)
  }

  /**
   * AngularSpeed, in degrees per day, from the table as written: the
   * corrected speed plus 0.002577·(cos(2D + M - M') - cos(2D - M + M')).
   */
  function AngularSpeed(jdTT: real, relativeToSun: bool): (v: real)
    ensures var args := ArgsAt((jdTT - TimeUtils.J1900) / TimeUtils.DaysPerCent);
      v == AngularSpeedCorrected(jdTT, relativeToSun)
           + (0.002577 * Cos(Phase(SpeedTerm(0.002577, 2, 1, -1, 0), args))
              - 0.002577 * Cos(Phase(SpeedTerm(0.002577, 2, -1, 1, 0), args)))
  {
    AsWrittenDifference(jdTT, relativeToSun);
    SpeedOver(SeriesAsWritten, jdTT, relativeToSun)
  }

  /** The cos M test as a function value, for counting. */
  function CosMTest(): SpeedTerm -> bool
  {
    s => IsCosM(s)
  }

  /** What one cos M entry adds to the difference of two sums with coefficients k1 and k2. */
  function CosMShift(args: Args, k1: real, k2: real): real
  {
    (k1 - k2) * Cos(args.m)
  }

  /**
   * Only the cos M entries depend on the coefficient chosen for them: the
   * two sums differ by (k1 - k2)·cos M once per such entry.
   */
  lemma SumCosMDifference(table: seq<SpeedTerm>, args: Args, k1: real, k2: real)
    ensures Sum(table, ContributionAt(args, k1)) - Sum(table, ContributionAt(args, k2))
         == Count(table, CosMTest()) as real * CosMShift(args, k1, k2)
  {
    var f, g, P, x := ContributionAt(args, k1), ContributionAt(args, k2), CosMTest(), CosMShift(args, k1, k2);
    forall s | P(s)
      ensures f(s) - g(s) == x
    {
      CosMContribution(s, args, k1, k2);
    }
    forall s | !P(s)
      ensures f(s) == g(s)
    {
      OtherContribution(s, args, k1, k2);
    }
    SumDifferenceCount(table, f, g, P, x);
  }

  /** The cos M entry contributes cos M times whichever coefficient is chosen. */
  lemma CosMContribution(s: SpeedTerm, args: Args, k1: real, k2: real)
    requires CosMTest()(s)
    ensures ContributionAt(args, k1)(s) - ContributionAt(args, k2)(s) == CosMShift(args, k1, k2)
  {
    PhaseOfCosM(s, args);
    var c := Cos(args.m);
    assert ContributionAt(args, k1)(s) == k1 * c && ContributionAt(args, k2)(s) == k2 * c;
    assert k1 * c - k2 * c == (k1 - k2) * c;
  }

  /** Every other entry contributes the same whichever coefficient is chosen for cos M. */
  lemma OtherContribution(s: SpeedTerm, args: Args, k1: real, k2: real)
    requires !CosMTest()(s)
    ensures ContributionAt(args, k1)(s) == ContributionAt(args, k2)(s)
  {
  }


  /** The table has exactly one cos M entry, the eighteenth, in both versions. */
  lemma OneCosMTerm()
    ensures IsCosM(Series[17]) && Count(Series, CosMTest()) == 1
    ensures Count(SeriesAsWritten, CosMTest()) == 1
  {
    var s := Series;
    assert s == s[..17] + [s[17]] + s[18..];
    CountNone(s[..17], CosMTest());
    CountNone(s[18..], CosMTest());
    CountConcat(s[..17] + [s[17]], s[18..], CosMTest());
    CountConcat(s[..17], [s[17]], CosMTest());
    assert [s[17]][..0] == [];
    var w := SeriesAsWritten;
    assert w == w[..17] + [w[17]] + w[18..];
    CountNone(w[..17], CosMTest());
    CountNone(w[18..], CosMTest());
    CountConcat(w[..17] + [w[17]], w[18..], CosMTest());
    CountConcat(w[..17], [w[17]], CosMTest());
    assert [w[17]][..0] == [];
  }

  /**
   * The speed relative to the Sun differs from the plain speed by the
   * difference of the base rates plus the difference of the cos M
   * coefficients times cos M, for every table with exactly one cos M entry.
   */
  lemma RelativeToSunOver(table: seq<SpeedTerm>, jdTT: real)
    requires Count(table, CosMTest()) == 1
    ensures var args := ArgsAt((jdTT - TimeUtils.J1900) / TimeUtils.DaysPerCent);
      SpeedOver(table, jdTT, true) - SpeedOver(table, jdTT, false)
        == (12.190749 - 13.176397) + (-0.036211 + 0.003193) * Cos(args.m)
  {
    var args := ArgsAt((jdTT - TimeUtils.J1900) / TimeUtils.DaysPerCent);
    SumCosMDifference(table, args, -0.036211, -0.003193);
  }

  /**
   * AngularSpeed(jd, true) - AngularSpeed(jd, false) = (12.190749 - 13.176397) + (-0.036211 + 0.003193)·cos M,
   * for the table as written and for the corrected one.
   */
  lemma RelativeToSunDifference(jdTT: real)
    ensures var args := ArgsAt((jdTT - TimeUtils.J1900) / TimeUtils.DaysPerCent);
      && AngularSpeed(jdTT, true) - AngularSpeed(jdTT, false)
           == (12.190749 - 13.176397) + (-0.036211 + 0.003193) * Cos(args.m)
      && AngularSpeedCorrected(jdTT, true) - AngularSpeedCorrected(jdTT, false)
           == (12.190749 - 13.176397) + (-0.036211 + 0.003193) * Cos(args.m)
  {
    OneCosMTerm();
    RelativeToSunOver(SeriesAsWritten, jdTT);
    RelativeToSunOver(Series, jdTT);
  }

  /** The multipliers of D, M, M' and F of a term. */
  function Multipliers(s: SpeedTerm): (int, int, int, int)
  {
    (s.d, s.m, s.mp, s.f)
  }

  /** No two entries share an argument combination. */
  predicate DistinctArguments(table: seq<SpeedTerm>)
  {
    forall i, j :: 0 <= i < j < |table| ==> Multipliers(table[i]) != Multipliers(table[j])
  }

  /**
   * In the corrected table the twentieth entry has the argument 2D - M + M'
   * it is labelled with, and both that argument and 2D + M - M' (the
   * twenty-fourth entry) appear exactly once.
   */
  lemma SeriesCorrected()
    ensures Multipliers(Series[19]) == (2, -1, 1, 0) && Multipliers(Series[23]) == (2, 1, -1, 0)
    ensures forall i :: 0 <= i < |Series| && i != 19 ==> Multipliers(Series[i]) != (2, -1, 1, 0)
    ensures forall i :: 0 <= i < |Series| && i != 23 ==> Multipliers(Series[i]) != (2, 1, -1, 0)
  {
  }

  /**
   * As written, the twentieth and the twenty-fourth entries share the
   * argument 2D + M - M', and no entry has the argument 2D - M + M' that the
   * twentieth is labelled with.
   */
  lemma SeriesAsWrittenRepeats()
    ensures Multipliers(SeriesAsWritten[19]) == Multipliers(SeriesAsWritten[23]) == (2, 1, -1, 0)
    ensures !DistinctArguments(SeriesAsWritten)
    ensures forall i :: 0 <= i < |SeriesAsWritten| ==> Multipliers(SeriesAsWritten[i]) != (2, -1, 1, 0)
  {
    assert forall i :: 0 <= i < |Series| && i != 19 ==> SeriesAsWritten[i] == Series[i];
  }


  /**
   * The effect of the repeated entry: the speed computed from the table as
   * written differs from the corrected one by 0.002577·(cos(2D + M - M') -
   * cos(2D - M + M')), whichever base is chosen.
   */
  lemma AsWrittenDifference(jdTT: real, relativeToSun: bool)
    ensures var args := ArgsAt((jdTT - TimeUtils.J1900) / TimeUtils.DaysPerCent);
      SpeedOver(SeriesAsWritten, jdTT, relativeToSun) - SpeedOver(Series, jdTT, relativeToSun)
        == 0.002577 * Cos(Phase(SpeedTerm(0.002577, 2, 1, -1, 0), args))
         - 0.002577 * Cos(Phase(SpeedTerm(0.002577, 2, -1, 1, 0), args))
  {
    var args := ArgsAt((jdTT - TimeUtils.J1900) / TimeUtils.DaysPerCent);
    var f := ContributionAt(args, CosMCoef(relativeToSun));
    SumRemove(Series, 19, f);
    SumRemove(SeriesAsWritten, 19, f);
    assert SeriesAsWritten[..19] + SeriesAsWritten[20..] == Series[..19] + Series[20..];
  }

  /** The loop: the base plus each entry's contribution, in table order. */
  method SumSeries(table: seq<SpeedTerm>, args: Args, cosMCoef: real, base: real) returns (sum: real)
    ensures sum == base + Sum(table, ContributionAt(args, cosMCoef))
  {
    sum := base;
    for i := 0 to |table|
      invariant sum == base + Sum(table[..i], ContributionAt(args, cosMCoef))
    {
      var s := table[i];
      var arg := Phase(s, args);
      SumStep(table, i, ContributionAt(args, cosMCoef));
      assert ContributionAt(args, cosMCoef)(s) == Contribution(s, args, cosMCoef);
      if s.d == 0 && s.m == 1 && s.mp == 0 && s.f == 0 {
        sum := sum + cosMCoef * Cos(arg);
      } else {
        sum := sum + s.c * Cos(arg);
      }
    }
    assert table[..|table|] == table;
  }

  /**
   * AngularSpeed: the mean arguments from their polynomials, the base and
   * the cos M coefficient chosen by relativeToSun, and one pass over the
   * table as written.
   */
  method ComputeAngularSpeed(jdTT: real, relativeToSun: bool) returns (sum: real)
    ensures sum == AngularSpeed(jdTT, relativeToSun)
  {
    var t := (jdTT - TimeUtils.J1900) / TimeUtils.DaysPerCent;
    var pd := Polynome(t, DCoeffs);
    var pm := Polynome(t, MCoeffs);
    var pmp := Polynome(t, MpCoeffs);
    var pf := Polynome(t, FCoeffs);
    var base := 13.176397;
    if relativeToSun {
      base := 12.190749;
    }
    var cosMcoef := -0.003193;
    if relativeToSun {
      cosMcoef := -0.036211;
    }
    var args := Args(Radians(ReduceDeg(pd)), Radians(ReduceDeg(pm)), Radians(ReduceDeg(pmp)), Radians(ReduceDeg(pf)));
    assert args == ArgsAt(t);
    sum := SumSeries(SeriesAsWritten, args, cosMcoef, base);
  }
}
