/**
 * The VSOP87 series evaluator (internal/vsop87/vsop87.go).
 *
 * A series is a list of groups; group i holds terms A*cos(B + C*τ) and is
 * weighted by τ^i. The value is the polynomial in τ whose i-th coefficient is
 * group i's harmonic sum, divided by 1e8.
 */
module Vsop87 {
  import opened GoMath
  import opened Sums
  import MathUtils

  /** The planets that have VSOP87 series, in declaration order. */
  datatype OrbitType = Mercury | Venus | Earth | Mars | Jupiter | Saturn | Uranus | Neptune

  /** The integer value of each constant (Go's iota). */
  function OrbitIndex(o: OrbitType): (n: nat)
    ensures n < 8
  {
    match o
    case Mercury => 0
    case Venus => 1
    case Earth => 2
    case Mars => 3
    case Jupiter => 4
    case Saturn => 5
    case Uranus => 6
    case Neptune => 7
  }

  /** Mercury through Neptune are numbered 0 through 7, each number used once. */
  lemma OrbitIndexOrder(o1: OrbitType, o2: OrbitType)
    ensures OrbitIndex(Mercury) == 0 && OrbitIndex(Neptune) == 7
    ensures OrbitIndex(o1) == OrbitIndex(o2) <==> o1 == o2
  {
    assert OrbitIndex(Venus) == 1 && OrbitIndex(Earth) == 2 && OrbitIndex(Mars) == 3;
    assert OrbitIndex(Jupiter) == 4 && OrbitIndex(Saturn) == 5 && OrbitIndex(Uranus) == 6;
  }

  /** One VSOP87 term: A*cos(B + C*τ). */
  datatype Coeff = Coeff(a: real, b: real, c: real)

  /** The divisor applied to the raw series value. */
  const CoefficientScale: real := 100000000.0

  function TermValue(tau: real, cf: Coeff): real
  {
    cf.a * Cos(cf.b + cf.c * tau)
  }

  /** The term function at time τ, as the value the generic sum takes. */
  function TermAt(tau: real): Coeff -> real
  {
    cf => TermValue(tau, cf)
  }

  lemma TermAtValue(tau: real, cf: Coeff)
    ensures TermAt(tau)(cf) == cf.a * Cos(cf.b + cf.c * tau)
  {
    assert TermAt(tau)(cf) == TermValue(tau, cf);
  }

  /** Σ A*cos(B + C*τ) over one group. */
  function HarmonicSum(tau: real, group: seq<Coeff>): real
  {
    Sum(group, TermAt(tau))
  }

  const AbsAmplitude: Coeff -> real := (cf: Coeff) => Abs(cf.a)

  /** Σ |A| over one group. */
  function Amplitude(group: seq<Coeff>): real
  {
    Sum(group, AbsAmplitude)
  }

  /** A term never exceeds its amplitude in magnitude. */
  lemma TermBounded(tau: real, cf: Coeff)
    ensures Abs(TermAt(tau)(cf)) <= AbsAmplitude(cf)
  {
    var c := Cos(cf.b + cf.c * tau);
    CosBounded(cf.b + cf.c * tau);
    TermAtValue(tau, cf);
    assert AbsAmplitude(cf) == Abs(cf.a);
    ScaledCosine(cf.a, c, cf.a * c);
  }

  /** |a*c| <= |a| when -1 <= c <= 1. */
  lemma ScaledCosine(a: real, c: real, ac: real)
    requires -1.0 <= c <= 1.0 && ac == a * c
    ensures Abs(ac) <= Abs(a)
  {
    SignOfProduct(a, 1.0 - c);
    SignOfProduct(a, 1.0 + c);
    assert a * (1.0 - c) == a - ac;
    assert a * (1.0 + c) == a + ac;
  }

  /** Every term lies between -|A| and |A|, so a group's sum is bounded by its total amplitude. */
  lemma {:induction false} HarmonicSumBounded(tau: real, group: seq<Coeff>)
    ensures Abs(HarmonicSum(tau, group)) <= Amplitude(group)
  {
    if |group| > 0 {
      var n := |group|;
      HarmonicSumBounded(tau, group[..n - 1]);
      TermBounded(tau, group[n - 1]);
    }
  }

  /** The harmonic sums of all groups, in group order (the `args` slice). */
  function GroupSums(tau: real, series: seq<seq<Coeff>>): (args: seq<real>)
    ensures |args| == |series|
  {
    seq(|series|, i requires 0 <= i < |series| => HarmonicSum(tau, series[i]))
  }

  /** Entry i of `args` is the harmonic sum of group i. */
  lemma GroupSumsAt(tau: real, series: seq<seq<Coeff>>, i: nat)
    requires i < |series|
    ensures GroupSums(tau, series)[i] == HarmonicSum(tau, series[i])
  {
  }

  /** Two series whose groups have equal harmonic sums have equal `args`. */
  lemma GroupSumsEqual(tau: real, s1: seq<seq<Coeff>>, s2: seq<seq<Coeff>>)
    requires |s1| == |s2|
    requires forall i :: 0 <= i < |s1| ==> HarmonicSum(tau, s1[i]) == HarmonicSum(tau, s2[i])
    ensures GroupSums(tau, s1) == GroupSums(tau, s2)
  {
  }

  /** The value of a series at τ: Σ τ^i * (harmonic sum of group i), scaled by 1e-8. */
  function SeriesValue(tau: real, series: seq<seq<Coeff>>): real
  {
    MathUtils.PolySum(tau, GroupSums(tau, series)) / CoefficientScale
  }

  /**
   * ComputeSeries: fill `args` with one harmonic sum per group, then evaluate
   * the polynomial in τ over them and scale down by 1e8.
   */
  method ComputeSeries(tau: real, series: seq<seq<Coeff>>) returns (value: real)
    ensures value == SeriesValue(tau, series)
  {
    var args := new real[|series|];
    for i := 0 to |series|
      invariant forall k :: 0 <= k < i ==> args[k] == HarmonicSum(tau, series[k])
    {
      var group := series[i];
      var sum := 0.0;
      for j := 0 to |group|
        invariant sum == HarmonicSum(tau, group[..j])
        invariant forall k :: 0 <= k < i ==> args[k] == HarmonicSum(tau, series[k])
      {
        SumStep(group, j, TermAt(tau));
        TermAtValue(tau, group[j]);
        sum := sum + group[j].a * Cos(group[j].b + group[j].c * tau);
      }
      assert group[..|group|] == group;
      args[i] := sum;
    }
    forall k | 0 <= k < |series|
      ensures args[k] == GroupSums(tau, series)[k]
    {
      GroupSumsAt(tau, series, k);
    }
    assert args[..] == GroupSums(tau, series);
    var p := MathUtils.Polynome(tau, args[..]);
    value := p / CoefficientScale;
  }

  /** A group without terms sums to 0. */
  lemma HarmonicSumEmpty(tau: real)
    ensures HarmonicSum(tau, []) == 0.0
  {
  }

  /** A series of empty groups has all-zero `args`. */
  lemma GroupSumsOfEmpty(tau: real, series: seq<seq<Coeff>>)
    requires forall i :: 0 <= i < |series| ==> series[i] == []
    ensures forall i :: 0 <= i < |series| ==> GroupSums(tau, series)[i] == 0.0
  {
    forall i | 0 <= i < |series|
      ensures GroupSums(tau, series)[i] == 0.0
    {
      GroupSumsAt(tau, series, i);
      HarmonicSumEmpty(tau);
    }
  }

  /** No groups, or only empty groups, give 0. */
  lemma SeriesEmpty(tau: real, series: seq<seq<Coeff>>)
    requires forall i :: 0 <= i < |series| ==> series[i] == []
    ensures SeriesValue(tau, []) == 0.0
    ensures SeriesValue(tau, series) == 0.0
  {
    var args := GroupSums(tau, series);
    GroupSumsOfEmpty(tau, series);
    forall i
      ensures MathUtils.ScaledAt(args, args, 0.0, i)
    {
    }
    MathUtils.PolyScale(tau, args, args, 0.0);
  }

  /** At τ = 0 only group 0 contributes: Σ A*cos(B) over it, scaled by 1e-8. */
  lemma SeriesAtZero(series: seq<seq<Coeff>>)
    requires |series| > 0
    ensures SeriesValue(0.0, series) == Sum(series[0], (cf: Coeff) => cf.a * Cos(cf.b)) / CoefficientScale
  {
    var args := GroupSums(0.0, series);
    MathUtils.PolyAtZero(args);
    GroupSumsAt(0.0, series, 0);
    forall i | 0 <= i < |series[0]|
      ensures TermAt(0.0)(series[0][i]) == ((cf: Coeff) => cf.a * Cos(cf.b))(series[0][i])
    {
      var cf := series[0][i];
      TermAtValue(0.0, cf);
      assert cf.b + cf.c * 0.0 == cf.b;
    }
    SumCongruent(series[0], TermAt(0.0), (cf: Coeff) => cf.a * Cos(cf.b));
  }

  /** A series' value at τ = 0 (J2000): only group 0 counts, each term giving A·cos B, scaled by 1e-8. */
  function AtEpoch(series: seq<seq<Coeff>>): real
  {
    if |series| == 0 then 0.0 else Sum(series[0], (cf: Coeff) => cf.a * Cos(cf.b)) / CoefficientScale
  }

  /** SeriesValue at τ = 0 is AtEpoch, with or without groups. */
  lemma SeriesAtEpoch(series: seq<seq<Coeff>>)
    ensures SeriesValue(0.0, series) == AtEpoch(series)
  {
    if |series| > 0 {
      SeriesAtZero(series);
    } else {
      SeriesEmpty(0.0, series);
    }
  }

  /** Reordering the terms inside any group does not change the value. */
  lemma SeriesPermutation(tau: real, s1: seq<seq<Coeff>>, s2: seq<seq<Coeff>>)
    requires |s1| == |s2|
    requires forall i :: 0 <= i < |s1| ==> multiset(s1[i]) == multiset(s2[i])
    ensures SeriesValue(tau, s1) == SeriesValue(tau, s2)
  {
    forall i | 0 <= i < |s1|
      ensures HarmonicSum(tau, s1[i]) == HarmonicSum(tau, s2[i])
    {
      SumPermutation(s1[i], s2[i], TermAt(tau));
    }
    GroupSumsEqual(tau, s1, s2);
  }

  /** A term with its amplitude multiplied by k. */
  function ScaleCoeff(k: real): Coeff -> Coeff
  {
    (cf: Coeff) => cf.(a := k * cf.a)
  }

  /** Group i of `scaled` is group i of `series` with every amplitude multiplied by k. */
  predicate GroupScaled(series: seq<seq<Coeff>>, scaled: seq<seq<Coeff>>, k: real, i: int)
  {
    0 <= i < |series| <= |scaled| ==> scaled[i] == Map(series[i], ScaleCoeff(k))
  }

  /** Every amplitude A of the series multiplied by k. */
  function ScaleAmplitudes(series: seq<seq<Coeff>>, k: real): (scaled: seq<seq<Coeff>>)
    ensures |scaled| == |series|
    ensures forall i :: GroupScaled(series, scaled, k, i)
  {
    seq(|series|, i requires 0 <= i < |series| => Map(series[i], ScaleCoeff(k)))
  }

  /** Scaling the amplitude scales the term. */
  lemma TermScale(tau: real, k: real, cf: Coeff)
    ensures TermAt(tau)(ScaleCoeff(k)(cf)) == k * TermAt(tau)(cf)
  {
    var scaled := ScaleCoeff(k)(cf);
    assert scaled == cf.(a := k * cf.a);
    var arg := cf.b + cf.c * tau;
    assert scaled.b + scaled.c * tau == arg;
    TermAtValue(tau, scaled);
    TermAtValue(tau, cf);
    Associate(k, cf.a, Cos(arg));
  }

  lemma Associate(k: real, a: real, c: real)
    ensures (k * a) * c == k * (a * c)
  {
  }

  /** Term by term: every term of the scaled group is k times the original term. */
  lemma TermsScaled(tau: real, group: seq<Coeff>, k: real)
    ensures forall i :: 0 <= i < |group| ==> TermAt(tau)(ScaleCoeff(k)(group[i])) == k * TermAt(tau)(group[i])
  {
    forall i | 0 <= i < |group|
      ensures TermAt(tau)(ScaleCoeff(k)(group[i])) == k * TermAt(tau)(group[i])
    {
      TermScale(tau, k, group[i]);
    }
  }

  /** Scaling every amplitude of a group scales its harmonic sum. */
  lemma HarmonicSumScaled(tau: real, group: seq<Coeff>, k: real)
    ensures Sum(Map(group, ScaleCoeff(k)), TermAt(tau)) == k * Sum(group, TermAt(tau))
  {
    TermsScaled(tau, group, k);
    SumMapScaled(group, ScaleCoeff(k), TermAt(tau), TermAt(tau), k);
  }

  /** Entry i of the scaled series' `args` is k times entry i of the original's. */
  lemma GroupSumScaled(tau: real, series: seq<seq<Coeff>>, k: real, i: nat)
    requires i < |series|
    ensures GroupSums(tau, ScaleAmplitudes(series, k))[i] == k * GroupSums(tau, series)[i]
  {
    var scaled := ScaleAmplitudes(series, k);
    var g := series[i];
    calc {
      GroupSums(tau, scaled)[i];
    == { GroupSumsAt(tau, scaled, i); }
      HarmonicSum(tau, scaled[i]);
    == { assert GroupScaled(series, scaled, k, i); }
      HarmonicSum(tau, Map(g, ScaleCoeff(k)));
    == { HarmonicSumScaled(tau, g, k); }
      k * HarmonicSum(tau, g);
    == { GroupSumsAt(tau, series, i); }
      k * GroupSums(tau, series)[i];
    }
  }

  /** The scaled series' `args` are the original's, each multiplied by k. */
  lemma GroupSumsScaled(tau: real, series: seq<seq<Coeff>>, k: real)
    ensures MathUtils.ScaledBy(GroupSums(tau, series), GroupSums(tau, ScaleAmplitudes(series, k)), k)
  {
    var scaled := ScaleAmplitudes(series, k);
    var a, b := GroupSums(tau, series), GroupSums(tau, scaled);
    assert |a| == |series| == |scaled| == |b|;
    forall i
      ensures MathUtils.ScaledAt(a, b, k, i)
    {
      if 0 <= i < |a| {
        GroupSumScaled(tau, series, k, i);
      }
    }
  }

  /** The polynomial over the scaled series' `args` is k times the original's. */
  lemma ArgsPolyScaled(tau: real, series: seq<seq<Coeff>>, k: real)
    ensures MathUtils.PolySum(tau, GroupSums(tau, ScaleAmplitudes(series, k))) == k * MathUtils.PolySum(tau, GroupSums(tau, series))
  {
    GroupSumsScaled(tau, series, k);
    MathUtils.PolyScale(tau, GroupSums(tau, series), GroupSums(tau, ScaleAmplitudes(series, k)), k);
  }

  /** The series value is linear in the amplitudes A. */
  lemma SeriesLinear(tau: real, series: seq<seq<Coeff>>, k: real)
    ensures SeriesValue(tau, ScaleAmplitudes(series, k)) == k * SeriesValue(tau, series)
  {
    ArgsPolyScaled(tau, series, k);
    ValueScaled(tau, series, ScaleAmplitudes(series, k), k);
  }

  /** A series whose polynomial is k times another's has k times its value. */
  lemma ValueScaled(tau: real, series: seq<seq<Coeff>>, scaled: seq<seq<Coeff>>, k: real)
    requires MathUtils.PolySum(tau, GroupSums(tau, scaled)) == k * MathUtils.PolySum(tau, GroupSums(tau, series))
    ensures SeriesValue(tau, scaled) == k * SeriesValue(tau, series)
  {
    DivideScaled(k, MathUtils.PolySum(tau, GroupSums(tau, series)), MathUtils.PolySum(tau, GroupSums(tau, scaled)), CoefficientScale);
  }

  lemma DivideScaled(k: real, p: real, kp: real, s: real)
    requires s > 0.0 && kp == k * p
    ensures kp / s == k * (p / s)
  {
  }
}

/**
 * The generated VSOP87D coefficient tables, one series per planet and
 * coordinate. Their contents come from an external data file and are left
 * unspecified.
 */
module Vsop87Tables {
  import opened Vsop87

  const Mercury_L: seq<seq<Coeff>>
  const Mercury_B: seq<seq<Coeff>>
  const Mercury_R: seq<seq<Coeff>>
  const Venus_L: seq<seq<Coeff>>
  const Venus_B: seq<seq<Coeff>>
  const Venus_R: seq<seq<Coeff>>
  const Earth_L: seq<seq<Coeff>>
  const Earth_B: seq<seq<Coeff>>
  const Earth_R: seq<seq<Coeff>>
  const Mars_L: seq<seq<Coeff>>
  const Mars_B: seq<seq<Coeff>>
  const Mars_R: seq<seq<Coeff>>
  const Jupiter_L: seq<seq<Coeff>>
  const Jupiter_B: seq<seq<Coeff>>
  const Jupiter_R: seq<seq<Coeff>>
  const Saturn_L: seq<seq<Coeff>>
  const Saturn_B: seq<seq<Coeff>>
  const Saturn_R: seq<seq<Coeff>>
  const Uranus_L: seq<seq<Coeff>>
  const Uranus_B: seq<seq<Coeff>>
  const Uranus_R: seq<seq<Coeff>>
  const Neptune_L: seq<seq<Coeff>>
  const Neptune_B: seq<seq<Coeff>>
  const Neptune_R: seq<seq<Coeff>>
}
