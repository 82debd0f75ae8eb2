/**
 * Geocentric positions of the VSOP87 planets with light-time, aberration and
 * nutation corrections (internal/heliocentric/geocentric.go).
 */
module Geocentric {
  import opened GoMath
  import opened Wrappers
  import MathUtils
  import Coords
  import H = Heliocentric
  import TimeUtils

  /** Geocentric ecliptic coordinates: longitude and latitude in radians, distance in AU. */
  datatype EclCoord = EclCoord(lambda: real, beta: real, radius: real)

  /** Why a geocentric position could not be produced. */
  datatype Failure =
    | NoConvergence(body: string, iterations: nat, residualArcsec: real)
      // The light-time iteration ran out of attempts.
    | ZeroDistance
      // The body is at the observer's position, where the aberration term divides by zero.

  /** A coordinate together with the error that may accompany it, as Go's (EclCoord, error). */
  datatype Outcome = Outcome(ecl: EclCoord, err: Option<Failure>)

  /** Light-travel time for one AU, in days. */
  const LightTimeDaysPerAU: real := 0.0057755183

  /** 20.4898 seconds of arc, in radians. */
  const AberrationConst: real := 20.4898 * Pi / (180.0 * 3600.0)

  /**
   * AberrationEcl: the correction -κ·cos β / r to the longitude. Its product
   * with r is -κ·cos β, so its size never exceeds κ/|r|.
   */
  function AberrationEcl(r: real, beta: real): (d: real)
    requires r != 0.0
    ensures d * r == -AberrationConst * Cos(beta)
    ensures Abs(d) * Abs(r) <= AberrationConst
  {
    var kc := -AberrationConst * Cos(beta);
    CosBounded(beta);
    var d := kc / r;
    AberrationBound(kc, r, d, Cos(beta));
    d
  }

  lemma AberrationBound(kc: real, r: real, d: real, c: real)
    requires r != 0.0 && d == kc / r && kc == -AberrationConst * c && -1.0 <= c <= 1.0
    ensures d * r == kc
    ensures Abs(d) * Abs(r) <= AberrationConst
  {
    AbsProduct(d, r);
    AbsProduct(-AberrationConst, c);
    SignOfProduct(AberrationConst, 1.0 - Abs(c));
    assert AberrationConst * (1.0 - Abs(c)) == AberrationConst - AberrationConst * Abs(c);
  }

  /**
   * HelioRect: the planet's heliocentric position vector, from its L, B and R
   * series evaluated at τ in Julian millennia, with L reduced into [0, 2π).
   * Its length is the radius vector, its height is R·sin B, and its
   * projection on the ecliptic points at the reduced longitude.
   */
  function HelioRect(jd: real, body: H.Planet): (pt: Coords.Point3D)
    ensures var tau := TimeUtils.MillenniaSinceJ2000(jd);
      && Coords.NormSquared(pt) == H.RadiusVector(body, tau) * H.RadiusVector(body, tau)
      && pt.z == H.RadiusVector(body, tau) * Sin(H.Latitude(body, tau))
    ensures var tau := TimeUtils.MillenniaSinceJ2000(jd);
      var rc := H.RadiusVector(body, tau) * Cos(H.Latitude(body, tau));
      var l := MathUtils.ReduceRad(H.Longitude(body, tau));
      pt.x == rc * Cos(l) && pt.y == rc * Sin(l)
  {
    var tau := TimeUtils.MillenniaSinceJ2000(jd);
    var r, b := H.RadiusVector(body, tau), H.Latitude(body, tau);
    var l := MathUtils.ReduceRad(H.Longitude(body, tau));
    Coords.RectangularOf(r, b, l);
    Coords.ToRectangular(Coords.Spherical(r, b, l))
  }

  /** The vector from a to b: added to a, it gives b. */
  function Displacement(a: Coords.Point3D, b: Coords.Point3D): (v: Coords.Point3D)
    ensures a.x + v.x == b.x && a.y + v.y == b.y && a.z + v.z == b.z
    ensures v == Coords.Point3D(0.0, 0.0, 0.0) <==> a == b
  {
    Coords.Point3D(b.x - a.x, b.y - a.y, b.z - a.z)
  }

  /** The Earth-to-body vector at jd. */
  function EarthToBody(jd: real, body: H.Planet): Coords.Point3D
  {
    Displacement(HelioRect(jd, H.Earth), HelioRect(jd, body))
  }

  /**
   * GeocentricFrom: the spherical form of the Earth-to-body vector, its
   * azimuth reduced into [0, 2π).
   */
  function GeocentricFrom(jd: real, body: H.Planet): (ecl: EclCoord)
    ensures 0.0 <= ecl.lambda < Pi2
    ensures -Pi / 2.0 <= ecl.beta <= Pi / 2.0
    ensures var v := EarthToBody(jd, body); ecl.beta == Atan2(v.z, Sqrt(v.x * v.x + v.y * v.y))
    ensures ecl.radius >= 0.0 && ecl.radius == Sqrt(Coords.NormSquared(EarthToBody(jd, body)))
  {
    var rel := EarthToBody(jd, body);
    var sph := Coords.ToSpherical(rel);
    EclCoord(MathUtils.ReduceRad(sph.phi), sph.theta, sph.r)
  }

  /** The final reduction changes nothing: the longitude is the vector's azimuth in [0, 2π). */
  lemma GeocentricLongitude(jd: real, body: H.Planet)
    ensures GeocentricFrom(jd, body).lambda == MathUtils.ReduceRad(Atan2(EarthToBody(jd, body).y, EarthToBody(jd, body).x))
  {
    var rel := EarthToBody(jd, body);
    var phi := Coords.ToSpherical(rel).phi;
    Coords.ToSphericalPhiReduced(rel);
    MathUtils.ToRangeUnique(phi, Pi2, phi, 0);
  }

  /** Seen from the Earth, the Earth itself is at distance 0. */
  lemma GeocentricEarth(jd: real)
    ensures GeocentricFrom(jd, H.Earth).radius == 0.0
  {
    assert EarthToBody(jd, H.Earth) == Coords.Point3D(0.0, 0.0, 0.0);
  }

  // ---------------------------------------------------------------------
  // Light-time iteration
  // ---------------------------------------------------------------------

  /** Convergence threshold on the longitude, radians. */
  const Tol: real := 0.00000001

  /** Number of attempts before giving up. */
  const MaxIter: nat := 10

  /** The position function the search samples: GeocentricFrom for one body. */
  function Position(body: H.Planet): real -> EclCoord
  {
    t => GeocentricFrom(t, body)
  }

  /** The time a light ray leaving the body reaches the Earth at jd, for a body at ecl's distance. */
  function RetryTime(jd: real, ecl: EclCoord): real
  {
    jd - ecl.radius * LightTimeDaysPerAU
  }

  /** The time at which attempt k samples the position: jd first, then always back from jd itself. */
  function SampleTime(pos: real -> EclCoord, jd: real, k: nat): real
  {
    if k == 0 then jd else RetryTime(jd, pos(SampleTime(pos, jd, k - 1)))
  }

  /** The coordinate computed by attempt k. */
  function Sample(pos: real -> EclCoord, jd: real, k: nat): EclCoord
  {
    pos(SampleTime(pos, jd, k))
  }

  /** The longitude attempt k is compared with: 0 before the first attempt. */
  function PrevLambda(pos: real -> EclCoord, jd: real, k: nat): real
  {
    if k == 0 then 0.0 else Sample(pos, jd, k - 1).lambda
  }

  /** Attempt k moved the longitude by less than the tolerance. */
  predicate Converged(pos: real -> EclCoord, jd: real, k: nat)
  {
    Abs(Sample(pos, jd, k).lambda - PrevLambda(pos, jd, k)) < Tol
  }

  /** A longitude change in seconds of arc. */
  function ResidualArcsec(lambda: real, prev: real): real
  {
    (lambda - prev) * 180.0 * 3600.0 / Pi
  }

  /** The outcome of the search from attempt k on. */
  function SearchFrom(pos: real -> EclCoord, name: string, jd: real, k: nat): Outcome
    requires k < MaxIter
    decreases MaxIter - k
  {
    if Converged(pos, jd, k) then Outcome(Sample(pos, jd, k), None)
    else if k + 1 == MaxIter then
      // by now the previous longitude has been overwritten with this attempt's
      Outcome(Sample(pos, jd, k),
              Some(NoConvergence(name, MaxIter, ResidualArcsec(Sample(pos, jd, k).lambda, PrevLambda(pos, jd, k + 1)))))
    else SearchFrom(pos, name, jd, k + 1)
  }

  /** searchApparent, for any position function: the first attempt that converges, or a failure after the last. */
  function Search(pos: real -> EclCoord, name: string, jd: real): Outcome
  {
    SearchFrom(pos, name, jd, 0)
  }

  /** Attempts that all failed can be skipped. */
  lemma {:induction false} SearchSkip(pos: real -> EclCoord, name: string, jd: real, k: nat)
    requires k < MaxIter
    requires forall j :: 0 <= j < k ==> !Converged(pos, jd, j)
    ensures Search(pos, name, jd) == SearchFrom(pos, name, jd, k)
  {
    if k > 0 {
      SearchSkip(pos, name, jd, k - 1);
    }
  }

  /**
   * searchApparent: at most MaxIter positions, each at jd minus the light
   * time of the previous one; the first whose longitude moved by less than
   * Tol is returned, otherwise the last together with a NoConvergence error.
   * The body enters through its position function, Position(body), and its
   * name. The error's residual is the current longitude less the previous
   * one, read after the previous one was overwritten, so it is always 0.
   */
  method SearchApparent(pos: real -> EclCoord, name: string, jd: real) returns (ecl: EclCoord, err: Option<Failure>)
    ensures Outcome(ecl, err) == Search(pos, name, jd)
    ensures err.Some? ==> err.value.NoConvergence? && err.value.residualArcsec == 0.0
  {
    var jdNew := jd;
    var prevLambda := 0.0;
    ecl := EclCoord(0.0, 0.0, 0.0);
    for i := 0 to MaxIter
      invariant jdNew == SampleTime(pos, jd, i)
      invariant prevLambda == PrevLambda(pos, jd, i)
      invariant forall j :: 0 <= j < i ==> !Converged(pos, jd, j)
      invariant i > 0 ==> ecl == Sample(pos, jd, i - 1) && prevLambda == ecl.lambda
    {
      ecl := pos(jdNew);
      if Abs(ecl.lambda - prevLambda) < Tol {
        assert Converged(pos, jd, i);
        SearchSkip(pos, name, jd, i);
        return ecl, None;
      }
      assert !Converged(pos, jd, i);
      prevLambda := ecl.lambda;
      jdNew := jd - ecl.radius * LightTimeDaysPerAU;
      assert jdNew == SampleTime(pos, jd, i + 1);
    }
    SearchSkip(pos, name, jd, MaxIter - 1);
    err := Some(NoConvergence(name, MaxIter, ResidualArcsec(ecl.lambda, prevLambda)));
  }

  /** The search succeeds exactly when some attempt converges, and then returns the first such attempt. */
  lemma SearchSucceeds(pos: real -> EclCoord, name: string, jd: real, k: nat)
    requires k < MaxIter && Converged(pos, jd, k)
    requires forall j :: 0 <= j < k ==> !Converged(pos, jd, j)
    ensures Search(pos, name, jd) == Outcome(Sample(pos, jd, k), None)
  {
    SearchSkip(pos, name, jd, k);
  }

  /** When no attempt converges, the last attempt's coordinate comes back with an error naming the body and the cap. */
  lemma SearchFails(pos: real -> EclCoord, name: string, jd: real)
    requires forall j :: 0 <= j < MaxIter ==> !Converged(pos, jd, j)
    ensures Search(pos, name, jd).ecl == Sample(pos, jd, MaxIter - 1)
    ensures Search(pos, name, jd).err.Some?
    ensures Search(pos, name, jd).err.value.NoConvergence?
    ensures Search(pos, name, jd).err.value.body == name
    ensures Search(pos, name, jd).err.value.iterations == 10
  {
    SearchSkip(pos, name, jd, MaxIter - 1);
  }

  /** An error is reported only after every one of the MaxIter attempts failed to converge. */
  lemma {:induction false} SearchErrorMeansNoConvergence(pos: real -> EclCoord, name: string, jd: real, k: nat)
    requires k < MaxIter
    requires SearchFrom(pos, name, jd, k).err.Some?
    ensures forall j :: k <= j < MaxIter ==> !Converged(pos, jd, j)
    ensures SearchFrom(pos, name, jd, k).ecl == Sample(pos, jd, MaxIter - 1)
    decreases MaxIter - k
  {
    if k + 1 < MaxIter && !Converged(pos, jd, k) {
      SearchErrorMeansNoConvergence(pos, name, jd, k + 1);
    }
  }

  /** A first longitude below the tolerance is accepted at once, since the previous longitude starts at 0. */
  lemma SearchFirstSmall(body: H.Planet, jd: real)
    requires GeocentricFrom(jd, body).lambda < Tol
    ensures Search(Position(body), H.Name(body), jd) == Outcome(GeocentricFrom(jd, body), None)
  {
    assert Sample(Position(body), jd, 0) == GeocentricFrom(jd, body);
  }

  /** Every retry goes back from the original jd by the light time of the previous attempt's distance. */
  lemma RetryFromOriginal(body: H.Planet, jd: real, k: nat)
    requires k > 0
    ensures jd - SampleTime(Position(body), jd, k)
         == Sample(Position(body), jd, k - 1).radius * LightTimeDaysPerAU
    ensures SampleTime(Position(body), jd, k) <= jd
  {
    var prev := Sample(Position(body), jd, k - 1);
    assert prev == GeocentricFrom(SampleTime(Position(body), jd, k - 1), body);
    SignOfProduct(prev.radius, LightTimeDaysPerAU);
  }

  /**
   * What follows the search: a light-time error is passed on with the
   * uncorrected coordinate; a zero distance, where the aberration term has no
   * value, is an error; otherwise aberration and nutation are added to the
   * longitude, which is reduced into [0, 2π).
   */
  function Corrected(s: Outcome, deltaPsi: real): (res: Outcome)
    ensures s.err.Some? ==> res == s
    ensures res.err.None? <==> s.err.None? && s.ecl.radius != 0.0
    ensures res.err.None? ==> && 0.0 <= res.ecl.lambda < Pi2
                              && res.ecl.lambda == MathUtils.ReduceRad(s.ecl.lambda + AberrationEcl(s.ecl.radius, s.ecl.beta) + deltaPsi)
                              && res.ecl.beta == s.ecl.beta && res.ecl.radius == s.ecl.radius
  {
    if s.err.Some? then s
    else if s.ecl.radius == 0.0 then Outcome(s.ecl, Some(ZeroDistance))
    else
      var aber := AberrationEcl(s.ecl.radius, s.ecl.beta);
      Outcome(s.ecl.(lambda := MathUtils.ReduceRad(s.ecl.lambda + aber + deltaPsi)), None)
  }

  /**
   * ApparentGeocentric: the light-time search for the body, then the
   * corrections. It fails when the search does not converge or the body is
   * at distance zero, and otherwise gives a longitude in [0, 2π), a latitude
   * in [-π/2, π/2] and a positive distance.
   */
  function ApparentGeocentric(jd: real, body: H.Planet, deltaPsi: real): (res: Outcome)
    ensures var s := Search(Position(body), H.Name(body), jd);
      res.err.None? <==> s.err.None? && s.ecl.radius != 0.0
    ensures res.err.Some? ==> res.err.value.ZeroDistance? || res.err.value.NoConvergence?
    ensures res.err.None? ==> && 0.0 <= res.ecl.lambda < Pi2
                              && -Pi / 2.0 <= res.ecl.beta <= Pi / 2.0
                              && res.ecl.radius > 0.0
  {
    var s := Search(Position(body), H.Name(body), jd);
    SearchInRange(body, jd, 0);
    assert s.err.Some? ==> s.err.value.NoConvergence? by {
      if s.err.Some? {
        SearchResidualZero(Position(body), H.Name(body), jd);
      }
    }
    Corrected(s, deltaPsi)
  }

  /** Whatever attempt the search stops at, its coordinate is a geocentric position of the body. */
  lemma {:induction false} SearchInRange(body: H.Planet, jd: real, k: nat)
    requires k < MaxIter
    ensures var ecl := SearchFrom(Position(body), H.Name(body), jd, k).ecl;
      -Pi / 2.0 <= ecl.beta <= Pi / 2.0 && ecl.radius >= 0.0
    decreases MaxIter - k
  {
    assert Sample(Position(body), jd, k) == GeocentricFrom(SampleTime(Position(body), jd, k), body);
    if !Converged(Position(body), jd, k) && k + 1 < MaxIter {
      SearchInRange(body, jd, k + 1);
    }
  }

  /** Adding a full turn to the nutation in longitude does not change the corrected position. */
  lemma CorrectedNutationPeriodic(s: Outcome, deltaPsi: real)
    ensures Corrected(s, deltaPsi + Pi2) == Corrected(s, deltaPsi)
  {
    if s.err.None? && s.ecl.radius != 0.0 {
      var x := s.ecl.lambda + AberrationEcl(s.ecl.radius, s.ecl.beta) + deltaPsi;
      MathUtils.TurnPeriodic(x);
      assert x + Pi2 == s.ecl.lambda + AberrationEcl(s.ecl.radius, s.ecl.beta) + (deltaPsi + Pi2);
    }
  }

  /** Adding a full turn to the nutation in longitude does not change the apparent position. */
  lemma ApparentNutationPeriodic(jd: real, body: H.Planet, deltaPsi: real)
    ensures ApparentGeocentric(jd, body, deltaPsi + Pi2) == ApparentGeocentric(jd, body, deltaPsi)
  {
    CorrectedNutationPeriodic(Search(Position(body), H.Name(body), jd), deltaPsi);
  }

  // ---------------------------------------------------------------------
  // The residual in the non-convergence message
  // ---------------------------------------------------------------------

  /**
   * As written, a failed search always reports a residual of 0: the
   * previous longitude it subtracts is the last attempt's own.
   */
  lemma SearchResidualZero(pos: real -> EclCoord, name: string, jd: real)
    requires Search(pos, name, jd).err.Some?
    ensures Search(pos, name, jd).err.value.NoConvergence?
    ensures Search(pos, name, jd).err.value.residualArcsec == 0.0
  {
    SearchErrorMeansNoConvergence(pos, name, jd, 0);
    SearchSkip(pos, name, jd, MaxIter - 1);
  }

  /** The residual the message means to show: the last attempt's change in longitude, in seconds of arc. */
  function IntendedResidual(pos: real -> EclCoord, jd: real): real
  {
    ResidualArcsec(Sample(pos, jd, MaxIter - 1).lambda, PrevLambda(pos, jd, MaxIter - 1))
  }

  /**
   * Whenever the search fails, the intended residual is at least the
   * tolerance in size, so it would tell the reader how far the search was
   * from converging; the residual as written is 0 there.
   */
  lemma ReportedResidual(pos: real -> EclCoord, name: string, jd: real)
    requires Search(pos, name, jd).err.Some?
    ensures Abs(IntendedResidual(pos, jd)) >= Tol * 180.0 * 3600.0 / Pi
    ensures Search(pos, name, jd).err.value.residualArcsec != IntendedResidual(pos, jd)
  {
    SearchErrorMeansNoConvergence(pos, name, jd, 0);
    SearchResidualZero(pos, name, jd);
    var k := MaxIter - 1;
    ResidualScale(Sample(pos, jd, k).lambda, PrevLambda(pos, jd, k));
  }

  lemma ResidualScale(lambda: real, prev: real)
    requires Abs(lambda - prev) >= Tol
    ensures Abs(ResidualArcsec(lambda, prev)) >= Tol * 180.0 * 3600.0 / Pi
  {
    var d := lambda - prev;
    var c := 180.0 * 3600.0 / Pi;
    assert ResidualArcsec(lambda, prev) == d * c;
    AbsProduct(d, c);
    assert Abs(d) * c >= Tol * c;
  }
}
