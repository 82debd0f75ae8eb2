/**
 * The display helpers of package/utils/format.go: the zodiac position of an
 * ecliptic longitude and the signed sexagesimal split of a latitude. The
 * model stops at the numbers and the sign text; the printf layout
 * ("%02d:%02d:%02d") is not modelled.
 */
module Format {
  import opened GoMath
  import opened MathUtils

  /** The twelve signs, thirty degrees each, from the vernal equinox. */
  const Zodiac: seq<string> := ["Ari", "Tau", "Gem", "Can", "Leo", "Vir", "Lib", "Sco", "Sag", "Cap", "Aqu", "Pis"]

  /** A longitude as sign, degrees within the sign, minutes and whole seconds. */
  datatype ZodiacPosition = ZodiacPosition(sign: string, index: int, degrees: int, minutes: int, seconds: int)

  /** A latitude as sign text and the degrees, minutes and whole seconds of its size. */
  datatype LatDms = LatDms(sign: string, degrees: int, minutes: int, seconds: int)

  /** The longitude a zodiac position stands for, in degrees. */
  function ZodiacValue(p: ZodiacPosition): real
  {
    (p.index * 30 + p.degrees) as real + p.minutes as real / 60.0 + p.seconds as real / 3600.0
  }

  /**
   * FormatZodiac: the whole degrees of Hms are split by Go's integer `/` and
   * `%` into a sign index and degrees within the sign; the seconds are
   * truncated. Go indexes Zodiac with the quotient, which leaves 0..11 only
   * for longitudes in (-30, 360); the model covers [0, 360).
   */
  function FormatZodiac(deg: real): (p: ZodiacPosition)
    requires 0.0 <= deg < 360.0
    ensures 0 <= p.index < 12 && p.sign == Zodiac[p.index]
    ensures 0 <= p.degrees < 30 && 0 <= p.minutes < 60 && 0 <= p.seconds < 60
    ensures p.index * 30 + p.degrees == deg.Floor
  {
    HmsNonNegative(deg);
    var (d, m, s) := Hms(deg);
    var z := Quo(d, 30);
    ZodiacPosition(Zodiac[z], z, Rem(d, 30), m, Trunc(s))
  }

  /** The position read back lies within one second of arc below the longitude. */
  lemma ZodiacRoundTrip(deg: real)
    requires 0.0 <= deg < 360.0
    ensures ZodiacValue(FormatZodiac(deg)) <= deg < ZodiacValue(FormatZodiac(deg)) + 1.0 / 3600.0
  {
    HmsNonNegative(deg);
    var (d, m, s) := Hms(deg);
    var p := FormatZodiac(deg);
    assert p.index * 30 + p.degrees == d;
    assert p.minutes == m && p.seconds == Trunc(s);
    assert p.seconds as real <= s < p.seconds as real + 1.0;
  }

  /** Each sign covers thirty degrees: the index is the number of whole thirties. */
  lemma ZodiacSign(deg: real)
    requires 0.0 <= deg < 360.0
    ensures (FormatZodiac(deg).index * 30) as real <= deg < (FormatZodiac(deg).index * 30 + 30) as real
  {
  }

  /** The example of the source: 312.5 degrees is Aquarius 12 degrees 30 minutes 0 seconds. */
  lemma ZodiacExample()
    ensures FormatZodiac(312.5) == ZodiacPosition("Aqu", 10, 12, 30, 0)
  {
    HmsNonNegative(312.5);
    assert Modf(312.5) == (312.0, 0.5);
    assert Modf(30.0) == (30.0, 0.0);
    assert Hms(312.5) == (312, 30, 0.0);
  }

  /** FormatLatDms: "-" for a negative latitude, "+" otherwise, then the split of its size. */
  function FormatLatDms(deg: real): (p: LatDms)
    ensures p.sign == (if deg < 0.0 then "-" else "+")
    ensures p.degrees >= 0 && 0 <= p.minutes < 60 && 0 <= p.seconds < 60
  {
    HmsNonNegative(Abs(deg));
    var (d, m, s) := Hms(Abs(deg));
    var sign := if deg < 0.0 then "-" else "+";
    LatDms(sign, d, m, Trunc(s))
  }

  /** The latitude read back from its sign and components, within one second of arc toward zero. */
  lemma LatDmsRoundTrip(deg: real)
    ensures var p := FormatLatDms(deg);
      var size := p.degrees as real + p.minutes as real / 60.0 + p.seconds as real / 3600.0;
      size <= Abs(deg) < size + 1.0 / 3600.0
  {
    HmsNonNegative(Abs(deg));
    var (d, m, s) := Hms(Abs(deg));
    var p := FormatLatDms(deg);
    assert p.seconds as real <= s < p.seconds as real + 1.0;
  }

  /** The example of the source: -45.5 is -45 degrees 30 minutes 0 seconds. */
  lemma LatDmsExample()
    ensures FormatLatDms(-45.5) == LatDms("-", 45, 30, 0)
  {
    HmsNonNegative(45.5);
    assert Modf(45.5) == (45.0, 0.5);
    assert Modf(30.0) == (30.0, 0.0);
    assert Hms(45.5) == (45, 30, 0.0);
  }
}
