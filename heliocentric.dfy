/**
 * The eight VSOP87 planets (internal/heliocentric/<planet>.go).
 *
 * Each planet type of the source is a stateless value whose methods delegate
 * to the series evaluator with that planet's L, B and R tables; here the
 * eight types are the constructors of one datatype and each method is one
 * function over it. The evaluator's time argument is Julian millennia τ.
 */
module Heliocentric {
  import Vsop87
  import T = Vsop87Tables

  datatype Planet = Mercury | Venus | Earth | Mars | Jupiter | Saturn | Uranus | Neptune

  /** BodyType: the planet's orbit constant, the one that names this planet. */
  function BodyType(p: Planet): (o: Vsop87.OrbitType)
    ensures PlanetOf(o) == p
  {
    match p
    case Mercury => Vsop87.Mercury
    case Venus => Vsop87.Venus
    case Earth => Vsop87.Earth
    case Mars => Vsop87.Mars
    case Jupiter => Vsop87.Jupiter
    case Saturn => Vsop87.Saturn
    case Uranus => Vsop87.Uranus
    case Neptune => Vsop87.Neptune
  }

  /** The planet that carries a given orbit constant. */
  function PlanetOf(o: Vsop87.OrbitType): Planet
  {
    match o
    case Mercury => Mercury
    case Venus => Venus
    case Earth => Earth
    case Mars => Mars
    case Jupiter => Jupiter
    case Saturn => Saturn
    case Uranus => Uranus
    case Neptune => Neptune
  }

  /** Every planet has its own orbit constant and every orbit constant belongs to a planet. */
  lemma BodyTypeBijective(p: Planet, q: Planet, o: Vsop87.OrbitType)
    ensures BodyType(PlanetOf(o)) == o
    ensures BodyType(p) == BodyType(q) <==> p == q
  {
  }

  /** Name: the planet's English name. */
  function Name(p: Planet): (name: string)
    ensures |name| >= 4
  {
    match p
    case Mercury => "Mercury"
    case Venus => "Venus"
    case Earth => "Earth"
    case Mars => "Mars"
    case Jupiter => "Jupiter"
    case Saturn => "Saturn"
    case Uranus => "Uranus"
    case Neptune => "Neptune"
  }

  /** No two planets share a name, so the name identifies the planet. */
  lemma NameInjective(p: Planet, q: Planet)
    ensures Name(p) == Name(q) <==> p == q
  {
    if p != q {
      assert Name(p)[0] != Name(q)[0] || Name(p)[1] != Name(q)[1] || |Name(p)| != |Name(q)|;
    }
  }

  function LSeries(p: Planet): seq<seq<Vsop87.Coeff>>
  {
    match p
    case Mercury => T.Mercury_L
    case Venus => T.Venus_L
    case Earth => T.Earth_L
    case Mars => T.Mars_L
    case Jupiter => T.Jupiter_L
    case Saturn => T.Saturn_L
    case Uranus => T.Uranus_L
    case Neptune => T.Neptune_L
  }

  function BSeries(p: Planet): seq<seq<Vsop87.Coeff>>
  {
    match p
    case Mercury => T.Mercury_B
    case Venus => T.Venus_B
    case Earth => T.Earth_B
    case Mars => T.Mars_B
    case Jupiter => T.Jupiter_B
    case Saturn => T.Saturn_B
    case Uranus => T.Uranus_B
    case Neptune => T.Neptune_B
  }

  function RSeries(p: Planet): seq<seq<Vsop87.Coeff>>
  {
    match p
    case Mercury => T.Mercury_R
    case Venus => T.Venus_R
    case Earth => T.Earth_R
    case Mars => T.Mars_R
    case Jupiter => T.Jupiter_R
    case Saturn => T.Saturn_R
    case Uranus => T.Uranus_R
    case Neptune => T.Neptune_R
  }

  /** Heliocentric ecliptic longitude L(τ), radians; at J2000 only the constant group of the planet's table counts. */
  function Longitude(p: Planet, tau: real): (l: real)
    ensures tau == 0.0 ==> l == Vsop87.AtEpoch(LSeries(p))
  {
    Vsop87.SeriesAtEpoch(LSeries(p));
    Vsop87.SeriesValue(tau, LSeries(p))
  }

  /** Heliocentric ecliptic latitude B(τ), radians; at J2000 only the constant group of the planet's table counts. */
  function Latitude(p: Planet, tau: real): (b: real)
    ensures tau == 0.0 ==> b == Vsop87.AtEpoch(BSeries(p))
  {
    Vsop87.SeriesAtEpoch(BSeries(p));
    Vsop87.SeriesValue(tau, BSeries(p))
  }

  /** Radius vector R(τ), AU; at J2000 only the constant group of the planet's table counts. */
  function RadiusVector(p: Planet, tau: real): (r: real)
    ensures tau == 0.0 ==> r == Vsop87.AtEpoch(RSeries(p))
  {
    Vsop87.SeriesAtEpoch(RSeries(p));
    Vsop87.SeriesValue(tau, RSeries(p))
  }

  /** The method form of Longitude: runs the series evaluator loop. */
  method ComputeLongitude(p: Planet, tau: real) returns (l: real)
    ensures l == Longitude(p, tau)
  {
    l := Vsop87.ComputeSeries(tau, LSeries(p));
  }

  method ComputeLatitude(p: Planet, tau: real) returns (b: real)
    ensures b == Latitude(p, tau)
  {
    b := Vsop87.ComputeSeries(tau, BSeries(p));
  }

  method ComputeRadiusVector(p: Planet, tau: real) returns (r: real)
    ensures r == RadiusVector(p, tau)
  {
    r := Vsop87.ComputeSeries(tau, RSeries(p));
  }

  lemma EarthDelegates(tau: real)
    ensures BodyType(Earth) == Vsop87.Earth && Name(Earth) == "Earth"
    ensures Longitude(Earth, tau) == Vsop87.SeriesValue(tau, T.Earth_L)
    ensures Latitude(Earth, tau) == Vsop87.SeriesValue(tau, T.Earth_B)
    ensures RadiusVector(Earth, tau) == Vsop87.SeriesValue(tau, T.Earth_R)
  {
  }

  lemma MercuryDelegates(tau: real)
    ensures BodyType(Mercury) == Vsop87.Mercury && Name(Mercury) == "Mercury"
    ensures Longitude(Mercury, tau) == Vsop87.SeriesValue(tau, T.Mercury_L)
    ensures Latitude(Mercury, tau) == Vsop87.SeriesValue(tau, T.Mercury_B)
    ensures RadiusVector(Mercury, tau) == Vsop87.SeriesValue(tau, T.Mercury_R)
  {
  }

  lemma VenusDelegates(tau: real)
    ensures BodyType(Venus) == Vsop87.Venus && Name(Venus) == "Venus"
    ensures Longitude(Venus, tau) == Vsop87.SeriesValue(tau, T.Venus_L)
    ensures Latitude(Venus, tau) == Vsop87.SeriesValue(tau, T.Venus_B)
    ensures RadiusVector(Venus, tau) == Vsop87.SeriesValue(tau, T.Venus_R)
  {
  }

  lemma MarsDelegates(tau: real)
    ensures BodyType(Mars) == Vsop87.Mars && Name(Mars) == "Mars"
    ensures Longitude(Mars, tau) == Vsop87.SeriesValue(tau, T.Mars_L)
    ensures Latitude(Mars, tau) == Vsop87.SeriesValue(tau, T.Mars_B)
    ensures RadiusVector(Mars, tau) == Vsop87.SeriesValue(tau, T.Mars_R)
  {
  }

  lemma JupiterDelegates(tau: real)
    ensures BodyType(Jupiter) == Vsop87.Jupiter && Name(Jupiter) == "Jupiter"
    ensures Longitude(Jupiter, tau) == Vsop87.SeriesValue(tau, T.Jupiter_L)
    ensures Latitude(Jupiter, tau) == Vsop87.SeriesValue(tau, T.Jupiter_B)
    ensures RadiusVector(Jupiter, tau) == Vsop87.SeriesValue(tau, T.Jupiter_R)
  {
  }

  lemma SaturnDelegates(tau: real)
    ensures BodyType(Saturn) == Vsop87.Saturn && Name(Saturn) == "Saturn"
    ensures Longitude(Saturn, tau) == Vsop87.SeriesValue(tau, T.Saturn_L)
    ensures Latitude(Saturn, tau) == Vsop87.SeriesValue(tau, T.Saturn_B)
    ensures RadiusVector(Saturn, tau) == Vsop87.SeriesValue(tau, T.Saturn_R)
  {
  }

  lemma UranusDelegates(tau: real)
    ensures BodyType(Uranus) == Vsop87.Uranus && Name(Uranus) == "Uranus"
    ensures Longitude(Uranus, tau) == Vsop87.SeriesValue(tau, T.Uranus_L)
    ensures Latitude(Uranus, tau) == Vsop87.SeriesValue(tau, T.Uranus_B)
    ensures RadiusVector(Uranus, tau) == Vsop87.SeriesValue(tau, T.Uranus_R)
  {
  }

  lemma NeptuneDelegates(tau: real)
    ensures BodyType(Neptune) == Vsop87.Neptune && Name(Neptune) == "Neptune"
    ensures Longitude(Neptune, tau) == Vsop87.SeriesValue(tau, T.Neptune_L)
    ensures Latitude(Neptune, tau) == Vsop87.SeriesValue(tau, T.Neptune_B)
    ensures RadiusVector(Neptune, tau) == Vsop87.SeriesValue(tau, T.Neptune_R)
  {
  }
}
