/**
 * The per-body computers of the facade (ephem/adapters.go): each one hands
 * (jd, Δψ) to the theory of its body.
 *
 * In Go each Compute returns a bare ecliptic coordinate, although
 * heliocentric.ApparentGeocentric returns a coordinate and an error and
 * sun.Apparent returns three numbers. Here every computer returns an
 * Outcome, so that the light-time error of the planetary search, and the
 * zero distance at which the aberration term and Pluto's declination have no
 * value, reach the caller.
 */
module Adapters {
  import opened GoMath
  import opened Wrappers
  import G = Geocentric
  import H = Heliocentric
  import MoonTheory = Moon
  import SunTheory = Sun
  import PlutoTheory = Pluto

  /** The four adapter types: one VSOP87 planet, the Moon, the Sun, Pluto. */
  datatype Computer = VsopPlanet(hc: H.Planet) | MoonWrapper | SunWrapper | PlutoWrapper

  /** The coordinate returned with an error. */
  const Zero: G.EclCoord := G.EclCoord(0.0, 0.0, 0.0)

  /** A theory's optional (λ, β, Δ) as an outcome: no value is the zero-distance error. */
  function FromTriple(r: Option<(real, real, real)>): (res: G.Outcome)
    ensures r.None? ==> res == G.Outcome(Zero, Some(G.ZeroDistance))
    ensures r.Some? ==> res == G.Outcome(G.EclCoord(r.value.0, r.value.1, r.value.2), None)
  {
    match r
    case None => G.Outcome(Zero, Some(G.ZeroDistance))
    case Some((l, b, d)) => G.Outcome(G.EclCoord(l, b, d), None)
  }

  /**
   * Compute: each adapter delegates to its own theory. A position comes back
   * with its longitude in [0, 2π); the Moon never fails, and the other
   * non-planet adapters fail only at zero distance, with the zero coordinate.
   */
  function Compute(c: Computer, jd: real, deltaPsi: real): (res: G.Outcome)
    ensures res.err.None? ==> 0.0 <= res.ecl.lambda < Pi2
    ensures c.MoonWrapper? ==> res.err.None?
    ensures !c.VsopPlanet? && res.err.Some? ==> res == G.Outcome(Zero, Some(G.ZeroDistance))
    ensures c.VsopPlanet? && res.err.Some? ==> res.err.value.ZeroDistance? || res.err.value.NoConvergence?
  {
    match c
    case VsopPlanet(hc) => G.ApparentGeocentric(jd, hc, deltaPsi)
    case MoonWrapper => G.Outcome(MoonTheory.Apparent(jd, deltaPsi), None)
    case SunWrapper => FromTriple(SunTheory.Apparent(jd, deltaPsi))
    case PlutoWrapper =>
      match PlutoTheory.Apparent(jd, deltaPsi)
      case None => G.Outcome(Zero, Some(G.ZeroDistance))
      case Some(ecl) => G.Outcome(ecl, None)
  }

  /** Each adapter's outcome is its theory's result, and an error only where the theory has one. */
  lemma ComputeDelegates(c: Computer, jd: real, deltaPsi: real)
    ensures c.VsopPlanet? ==> Compute(c, jd, deltaPsi) == G.ApparentGeocentric(jd, c.hc, deltaPsi)
    ensures c.MoonWrapper? ==> Compute(c, jd, deltaPsi) == G.Outcome(MoonTheory.Apparent(jd, deltaPsi), None)
    ensures c.SunWrapper? ==> Compute(c, jd, deltaPsi) == FromTriple(SunTheory.Apparent(jd, deltaPsi))
    ensures c.PlutoWrapper? ==> (Compute(c, jd, deltaPsi).err.None? <==> PlutoTheory.Apparent(jd, deltaPsi).Some?)
    ensures c.PlutoWrapper? && Compute(c, jd, deltaPsi).err.None? ==> Compute(c, jd, deltaPsi).ecl == PlutoTheory.Apparent(jd, deltaPsi).value
  {
  }

  /** Whichever body it is, a position returned without error has its longitude in [0, 2π). */
  lemma ComputeLongitudeInRange(c: Computer, jd: real, deltaPsi: real)
    ensures Compute(c, jd, deltaPsi).err.None? ==> 0.0 <= Compute(c, jd, deltaPsi).ecl.lambda < Pi2
  {
    match c
    case VsopPlanet(hc) =>
    case MoonWrapper =>
    case SunWrapper =>
    case PlutoWrapper =>
  }

  /** Whichever body it is, adding a full turn to Δψ changes nothing. */
  lemma ComputeNutationPeriodic(c: Computer, jd: real, deltaPsi: real)
    ensures Compute(c, jd, deltaPsi + Pi2) == Compute(c, jd, deltaPsi)
  {
    match c
    case VsopPlanet(hc) => G.ApparentNutationPeriodic(jd, hc, deltaPsi);
    case MoonWrapper => MoonTheory.ApparentNutation(MoonTheory.LRTerms, MoonTheory.BTerms, jd, deltaPsi, deltaPsi);
    case SunWrapper => SunTheory.ApparentNutationPeriodic(jd, deltaPsi);
    case PlutoWrapper => PlutoTheory.ApparentNutationPeriodic(jd, deltaPsi);
  }
}
