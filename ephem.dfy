/**
 * The public facade (ephem/ephem.go): a registry from bodies to computers,
 * the apparent position of any body, and its daily motion in longitude by a
 * central difference.
 *
 * The nutation used for each sample comes from the public `earth` package,
 * which is not part of this model; it is the abstract `Earth.nutation` here.
 */
module Ephem {
  import opened GoMath
  import opened Wrappers
  import MathUtils
  import G = Geocentric
  import H = Heliocentric
  import B = EphemBody
  import A = Adapters
  import LunarNode

  /** Why the facade could not give a position. */
  datatype EphemError =
    | UnsupportedBody(body: B.Body)
    | ComputeFailed(cause: G.Failure)

  /** A coordinate with the error that may accompany it, as Go's (EclCoord, error). */
  datatype Position = Position(ecl: G.EclCoord, err: Option<EphemError>)

  /** A coordinate, its daily motion in longitude and the error, as Go's (EclCoord, float64, error). */
  datatype Motion = Motion(ecl: G.EclCoord, speed: real, err: Option<EphemError>)

  /** The public earth package: (Δψ, Δε) of a Julian day. */
  datatype EarthOps = EarthOps(nutation: real -> (real, real))

  const Earth: EarthOps

  /** Registry: which computer serves which body. */
  const Registry: map<B.Body, A.Computer> := map[
    B.Moon := A.MoonWrapper,
    B.Sun := A.SunWrapper,
    B.Mercury := A.VsopPlanet(H.Mercury),
    B.Venus := A.VsopPlanet(H.Venus),
    B.Mars := A.VsopPlanet(H.Mars),
    B.Jupiter := A.VsopPlanet(H.Jupiter),
    B.Saturn := A.VsopPlanet(H.Saturn),
    B.Uranus := A.VsopPlanet(H.Uranus),
    B.Neptune := A.VsopPlanet(H.Neptune),
    B.Pluto := A.PlutoWrapper]

  /** The body a computer is meant for. */
  function Served(c: A.Computer): B.Body
  {
    match c
    case MoonWrapper => B.Moon
    case SunWrapper => B.Sun
    case PlutoWrapper => B.Pluto
    case VsopPlanet(hc) =>
      match hc
      case Mercury => B.Mercury
      case Venus => B.Venus
      case Earth => -1
      case Mars => B.Mars
      case Jupiter => B.Jupiter
      case Saturn => B.Saturn
      case Uranus => B.Uranus
      case Neptune => B.Neptune
  }

  /** The registry covers exactly the ten named bodies, and each is served by its own computer. */
  lemma RegistryCoversBodies()
    ensures forall b :: b in Registry <==> B.IsNamed(b)
    ensures forall b :: b in Registry ==> Served(Registry[b]) == b
  {
  }

  /** Node: an alias of the lunar node, mean or true, in [0, 2π). */
  function Node(jd: real, trueNode: bool): (node: real)
    ensures 0.0 <= node < Pi2
  {
    LunarNode.Node(jd, trueNode)
  }

  /** A computer's outcome as the facade reports it. */
  function Lift(o: G.Outcome): (p: Position)
    ensures p.ecl == o.ecl && (p.err.None? <==> o.err.None?)
  {
    match o.err
    case None => Position(o.ecl, None)
    case Some(f) => Position(o.ecl, Some(ComputeFailed(f)))
  }

  /**
   * EclipticPosition: an unsupported-body error with a zero coordinate
   * exactly for a body the registry does not know; otherwise that body's
   * computer's result.
   */
  function EclipticPosition(body: B.Body, jd: real, deltaPsi: real): (p: Position)
    ensures body !in Registry <==> p.err == Some(UnsupportedBody(body))
    ensures body !in Registry ==> p.ecl == A.Zero
    ensures body in Registry ==> p == Lift(A.Compute(Registry[body], jd, deltaPsi))
  {
    if body !in Registry then Position(A.Zero, Some(UnsupportedBody(body)))
    else Lift(A.Compute(Registry[body], jd, deltaPsi))
  }

  /** Only values outside 0..9 are unsupported; a supported position has its longitude in [0, 2π). */
  lemma EclipticPositionErrors(body: B.Body, jd: real, deltaPsi: real)
    ensures EclipticPosition(body, jd, deltaPsi).err == Some(UnsupportedBody(body)) <==> !B.IsNamed(body)
    ensures EclipticPosition(body, jd, deltaPsi).err.None? ==> 0.0 <= EclipticPosition(body, jd, deltaPsi).ecl.lambda < Pi2
  {
    RegistryCoversBodies();
    if body in Registry {
      A.ComputeLongitudeInRange(Registry[body], jd, deltaPsi);
    }
  }

  /** stepFor: the sampling step in days, two minutes for the Moon, fifteen for the fast bodies, an hour otherwise. */
  function StepFor(body: B.Body): (h: real)
    ensures 0.0 < h <= 1.0 / 24.0
  {
    if body == B.Moon then 1.0 / 720.0
    else if body == B.Mercury || body == B.Venus || body == B.Sun || body == B.Mars then 1.0 / 96.0
    else 1.0 / 24.0
  }

  /** The Moon gets the finest step, the inner bodies a finer one than the rest. */
  lemma StepOrder(body: B.Body)
    ensures StepFor(B.Moon) <= StepFor(body)
    ensures body in {B.Mercury, B.Venus, B.Sun, B.Mars} ==> StepFor(body) == 1.0 / 96.0
    ensures body != B.Moon && body !in {B.Mercury, B.Venus, B.Sun, B.Mars} ==> StepFor(body) == 1.0 / 24.0
  {
  }

  /**
   * centralDiffDeg: the change in longitude over 2h, taken through (-π, π]
   * so that crossing 0 is not a jump of 2π. The result is in radians per day.
   */
  function CentralDiff(lonPlus: real, lonMinus: real, h: real): (v: real)
    requires h != 0.0
    ensures v * (2.0 * h) == MathUtils.NormPi(lonPlus - lonMinus)
  {
    MathUtils.NormPi(lonPlus - lonMinus) / (2.0 * h)
  }

  /** With a positive step the rate is at most π/(2h) in size. */
  lemma CentralDiffBounded(lonPlus: real, lonMinus: real, h: real)
    requires h > 0.0
    ensures -Pi / (2.0 * h) < CentralDiff(lonPlus, lonMinus, h) <= Pi / (2.0 * h)
  {
    var d := MathUtils.NormPi(lonPlus - lonMinus);
    DivideBounds(d, 2.0 * h);
  }

  lemma DivideBounds(d: real, k: real)
    requires k > 0.0 && -Pi < d <= Pi
    ensures -Pi / k < d / k <= Pi / k
  {
    var lo, hi := (d + Pi) / k, (Pi - d) / k;
    assert lo * k == d + Pi && hi * k == Pi - d;
    SignOfProduct(lo, k);
    SignOfProduct(hi, k);
    assert d / k + Pi / k == lo && Pi / k - d / k == hi;
  }

  /**
   * The rate is the plain difference quotient when the samples are less
   * than half a turn apart, and otherwise the quotient of the difference
   * moved by whole turns into (-π, π].
   */
  lemma CentralDiffWraps(lonPlus: real, lonMinus: real, h: real, k: int)
    requires h != 0.0
    requires -Pi < lonPlus - lonMinus - k as real * Pi2 <= Pi
    ensures CentralDiff(lonPlus, lonMinus, h) == (lonPlus - lonMinus - k as real * Pi2) / (2.0 * h)
  {
    MathUtils.NormPiUnique(lonPlus - lonMinus, lonPlus - lonMinus - k as real * Pi2, k);
  }

  /** Exchanging the samples reverses the rate, unless their difference is exactly half a turn. */
  lemma CentralDiffAntisymmetric(lonPlus: real, lonMinus: real, h: real)
    requires h != 0.0
    requires MathUtils.NormPi(lonPlus - lonMinus) != Pi
    ensures CentralDiff(lonMinus, lonPlus, h) == -CentralDiff(lonPlus, lonMinus, h)
  {
    var x := lonPlus - lonMinus;
    var m := ((Pi - x) / Pi2).Floor;
    assert MathUtils.NormPi(x) == x + m as real * Pi2;
    MathUtils.NormPiUnique(lonMinus - lonPlus, -MathUtils.NormPi(x), m);
  }

  /** The position of a body at jd with that day's nutation in longitude. */
  function Sample(body: B.Body, jd: real): Position
  {
    EclipticPosition(body, jd, Earth.nutation(jd).0)
  }

  /**
   * EclipticPositionWithVelocity: samples at jdTT, jdTT + h and jdTT - h in
   * that order; the first one that fails ends the computation with a zero
   * coordinate, speed 0 and its error. Otherwise the coordinate at jdTT and
   * the central difference of the other two longitudes.
   */
  function EclipticPositionWithVelocity(body: B.Body, jdTT: real): (m: Motion)
    ensures m.err.Some? ==> m.ecl == A.Zero && m.speed == 0.0
    ensures m.err.None? ==> m.ecl == Sample(body, jdTT).ecl
  {
    var h := StepFor(body);
    var p0 := Sample(body, jdTT);
    if p0.err.Some? then Motion(A.Zero, 0.0, p0.err)
    else
      var pp := Sample(body, jdTT + h);
      if pp.err.Some? then Motion(A.Zero, 0.0, pp.err)
      else
        var pm := Sample(body, jdTT - h);
        if pm.err.Some? then Motion(A.Zero, 0.0, pm.err)
        else Motion(p0.ecl, CentralDiff(pp.ecl.lambda, pm.ecl.lambda, h), None)
  }

  /**
   * The motion succeeds exactly when all three samples do; it then reports
   * the unshifted sample, in range, and a rate bounded by π/(2h). A failure
   * reports the error of the earliest failing sample, with nothing else.
   */
  lemma VelocityOutcome(body: B.Body, jdTT: real)
    ensures var m := EclipticPositionWithVelocity(body, jdTT);
      var h := StepFor(body);
      var p0, pp, pm := Sample(body, jdTT), Sample(body, jdTT + h), Sample(body, jdTT - h);
      && (m.err.None? <==> p0.err.None? && pp.err.None? && pm.err.None?)
      && (m.err.None? ==> m.ecl == p0.ecl && 0.0 <= m.ecl.lambda < Pi2 && -Pi / (2.0 * h) < m.speed <= Pi / (2.0 * h))
      && (m.err.Some? ==> m.ecl == A.Zero && m.speed == 0.0)
      && (p0.err.Some? ==> m.err == p0.err)
      && (p0.err.None? && pp.err.Some? ==> m.err == pp.err)
      && (p0.err.None? && pp.err.None? && pm.err.Some? ==> m.err == pm.err)
  {
    var h := StepFor(body);
    var p0, pp, pm := Sample(body, jdTT), Sample(body, jdTT + h), Sample(body, jdTT - h);
    EclipticPositionErrors(body, jdTT, Earth.nutation(jdTT).0);
    CentralDiffBounded(pp.ecl.lambda, pm.ecl.lambda, h);
  }

  /**
   * A successful motion's rate is the central difference of the longitudes
   * at +h and -h, so by CentralDiff's contract it times 2h is their change
   * normalised into (-π, π].
   */
  lemma VelocityCentralDiff(body: B.Body, jdTT: real)
    ensures var m, h := EclipticPositionWithVelocity(body, jdTT), StepFor(body);
      m.err.None? ==> m.speed == CentralDiff(Sample(body, jdTT + h).ecl.lambda, Sample(body, jdTT - h).ecl.lambda, h)
  {
  }

  /** An unsupported body fails at the first sample, with the unsupported-body error. */
  lemma VelocityUnsupported(body: B.Body, jdTT: real)
    requires !B.IsNamed(body)
    ensures EclipticPositionWithVelocity(body, jdTT).err == Some(UnsupportedBody(body))
  {
    RegistryCoversBodies();
  }
}
