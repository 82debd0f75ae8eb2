/**
 * Time constants and the calendar functions of the `timeutils` packages.
 *
 * The calendar conversions (civil date of a Julian day, the preceding
 * midnight, the UT fraction of the day) and the epoch J1900 belong to code
 * outside this model; they are abstract here and nothing is assumed of them.
 */
module TimeUtils {

  /** Julian day of 2000 January 1.5 (timeutils/constants.go). */
  const J2000: real := 2451545.0

  /** Mean number of days in a Julian century. */
  const DaysPerCent: real := 36525.0

  /** Days in a Julian millennium, the VSOP87 time unit. */
  const DaysPerMillennium: real := 365250.0

  /** The J1900 epoch of the public `timeutils` package; its value is not part of this model. */
  const J1900: real

  /** The calendar routines the sidereal-time code calls. */
  datatype CalendarOps = CalendarOps(
    civilYear: real -> int,
    julianMidnight: real -> real,
    extractUTC: real -> real)

  const Calendar: CalendarOps

  /** JulianToCivil(jd).Year */
  function CivilYear(jd: real): int { Calendar.civilYear(jd) }

  /** JulianMidnight(jd) */
  function JulianMidnight(jd: real): real { Calendar.julianMidnight(jd) }

  /** ExtractUTC(jd): the time of day, in hours. */
  function ExtractUTC(jd: real): real { Calendar.extractUTC(jd) }

  /** Julian centuries since J2000. */
  function CenturiesSinceJ2000(jd: real): (t: real)
    ensures t * DaysPerCent == jd - J2000
  {
    (jd - J2000) / DaysPerCent
  }

  /** Julian millennia since J2000. */
  function MillenniaSinceJ2000(jd: real): (tau: real)
    ensures tau * DaysPerMillennium == jd - J2000
  {
    (jd - J2000) / DaysPerMillennium
  }

  /** A millennium is ten centuries: the VSOP87 τ is a tenth of the century count. */
  lemma MillenniaAreTenCenturies(jd: real)
    ensures MillenniaSinceJ2000(jd) * 10.0 == CenturiesSinceJ2000(jd)
    ensures MillenniaSinceJ2000(J2000) == 0.0 && CenturiesSinceJ2000(J2000) == 0.0
  {
    var tau, t := MillenniaSinceJ2000(jd), CenturiesSinceJ2000(jd);
    assert (tau * 10.0) * DaysPerCent == t * DaysPerCent;
  }
}
