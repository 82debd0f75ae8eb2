/**
 * The Sun's geocentric position as the reflection of the Earth's
 * heliocentric one (internal/sun/sun.go).
 */
module Sun {
  import opened GoMath
  import opened Wrappers
  import MathUtils
  import H = Heliocentric
  import Geocentric
  import TimeUtils

  /** lbr: the Earth's L, B and R series at τ = Julian millennia since J2000. */
  function Lbr(jd: real): (lbr: (real, real, real))
    ensures var tau := TimeUtils.MillenniaSinceJ2000(jd);
      lbr == (H.Longitude(H.Earth, tau), H.Latitude(H.Earth, tau), H.RadiusVector(H.Earth, tau))
  {
    var tau := (jd - TimeUtils.J2000) / 365250.0;
    (H.Longitude(H.Earth, tau), H.Latitude(H.Earth, tau), H.RadiusVector(H.Earth, tau))
  }

  /**
   * Geometric: the Earth's heliocentric direction turned by π and reduced into
   * [0, 2π), its latitude negated, its distance kept.
   */
  function Geometric(jd: real): (lbr: (real, real, real))
    ensures 0.0 <= lbr.0 < Pi2
    ensures lbr.1 == -Lbr(jd).1 && lbr.2 == Lbr(jd).2
  {
    var (l, b, r) := Lbr(jd);
    (MathUtils.ReduceRad(l + Pi), -b, r)
  }

  /** Turning the Sun's geometric longitude by π again gives back the Earth's heliocentric longitude, modulo 2π. */
  lemma GeometricReflection(jd: real)
    ensures MathUtils.ReduceRad(Geometric(jd).0 + Pi) == MathUtils.ReduceRad(Lbr(jd).0)
  {
    MathUtils.HalfTurnTwice(Lbr(jd).0);
  }

  /**
   * Apparent: the geometric longitude plus aberration and nutation, reduced
   * into [0, 2π); latitude and distance as in Geometric. None when the
   * distance is 0, where the aberration term has no value.
   */
  function Apparent(jd: real, deltaPsi: real): (res: Option<(real, real, real)>)
    ensures res.None? <==> Geometric(jd).2 == 0.0
    ensures res.Some? ==>
      && 0.0 <= res.value.0 < Pi2
      && res.value.0 == MathUtils.ReduceRad(Geometric(jd).0 + Geocentric.AberrationEcl(Geometric(jd).2, Geometric(jd).1) + deltaPsi)
      && res.value.1 == Geometric(jd).1 && res.value.2 == Geometric(jd).2
  {
    var (l, b, r) := Geometric(jd);
    if r == 0.0 then None
    else Some((MathUtils.ReduceRad(l + Geocentric.AberrationEcl(r, b) + deltaPsi), b, r))
  }

  /** A full turn added to the nutation in longitude leaves the apparent position unchanged. */
  lemma ApparentNutationPeriodic(jd: real, deltaPsi: real)
    ensures Apparent(jd, deltaPsi + Pi2) == Apparent(jd, deltaPsi)
  {
    var (l, b, r) := Geometric(jd);
    if r != 0.0 {
      var a := Geocentric.AberrationEcl(r, b);
      var x := l + a + deltaPsi;
      MathUtils.TurnPeriodic(x);
      assert Apparent(jd, deltaPsi) == Some((MathUtils.ReduceRad(x), b, r));
      assert Apparent(jd, deltaPsi + Pi2) == Some((MathUtils.ReduceRad(x + Pi2), b, r));
    }
  }
}
