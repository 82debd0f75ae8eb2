/** Distance units (utils/utils.go): kilometres and astronomical units. */
module Units {

  /** Kilometres in one astronomical unit. */
  const KmPerAU: real := 149597870.7

  function KmToAU(km: real): (au: real)
    ensures au * KmPerAU == km
  {
    km / KmPerAU
  }

  function AuToKm(au: real): (km: real)
    ensures km / KmPerAU == au
  {
    KmPerAU * au
  }

  /** The conversions undo each other. */
  lemma KmAuRoundTrip(x: real)
    ensures AuToKm(KmToAU(x)) == x
    ensures KmToAU(AuToKm(x)) == x
  {
  }

  /** Both conversions keep the origin and are strictly increasing. */
  lemma KmAuMonotone(x: real, y: real)
    ensures KmToAU(0.0) == 0.0 && AuToKm(0.0) == 0.0
    ensures x < y ==> KmToAU(x) < KmToAU(y)
    ensures x < y ==> AuToKm(x) < AuToKm(y)
  {
  }
}
