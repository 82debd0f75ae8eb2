/**
 * Cartesian and spherical coordinates (mathutils/coords.go).
 *
 * Theta is the elevation above the XY-plane (a latitude), in [-π/2, π/2];
 * Phi is the azimuth from +X, in [0, 2π).
 */
module Coords {
  import opened GoMath
  import MathUtils

  datatype Point3D = Point3D(x: real, y: real, z: real)

  datatype Spherical = Spherical(r: real, theta: real, phi: real)

  /** Squared distance from the origin. */
  function NormSquared(p: Point3D): real
  {
    p.x * p.x + p.y * p.y + p.z * p.z
  }

  /**
   * Point3D.ToSpherical: R is the Euclidean length, Phi the azimuth moved into
   * [0, 2π) and Theta the angle above the XY-plane.
   */
  function ToSpherical(p: Point3D): (s: Spherical)
    ensures s.r >= 0.0 && s.r == Sqrt(NormSquared(p))
    ensures 0.0 <= s.phi < Pi2
    ensures s.phi == Atan2(p.y, p.x) || s.phi == Atan2(p.y, p.x) + Pi2
    ensures -Pi / 2.0 <= s.theta <= Pi / 2.0
    ensures s.theta == Atan2(p.z, Sqrt(p.x * p.x + p.y * p.y))
  {
    var rho := p.x * p.x + p.y * p.y;
    assert rho + p.z * p.z == NormSquared(p);
    var r := Sqrt(NormSquared(p));
    var phi := Atan2(p.y, p.x);
    var phi' := if phi < 0.0 then phi + Pi2 else phi;
    var theta := Atan2(p.z, Sqrt(rho));
    Spherical(r, theta, phi')
  }

  /** The azimuth is atan2's angle reduced into [0, 2π). */
  lemma ToSphericalPhiReduced(p: Point3D)
    ensures ToSpherical(p).phi == MathUtils.ReduceRad(Atan2(p.y, p.x))
  {
    var a := Atan2(p.y, p.x);
    if a < 0.0 {
      MathUtils.ToRangeUnique(a, Pi2, a + Pi2, -1);
    } else {
      MathUtils.ToRangeUnique(a, Pi2, a, 0);
    }
  }

  /**
   * Spherical.ToRectangular: the projection r·cos θ onto the XY-plane is
   * split along the azimuth φ, and the height is r·sin θ.
   */
  function ToRectangular(s: Spherical): (p: Point3D)
    ensures p.x == (s.r * Cos(s.theta)) * Cos(s.phi) && p.y == (s.r * Cos(s.theta)) * Sin(s.phi)
    ensures p.z == s.r * Sin(s.theta)
    ensures p.x * Sin(s.phi) == p.y * Cos(s.phi)
    ensures p.x * p.x + p.y * p.y == (s.r * Cos(s.theta)) * (s.r * Cos(s.theta))
  {
    var rcst := s.r * Cos(s.theta);
    var p := Point3D(rcst * Cos(s.phi), rcst * Sin(s.phi), s.r * Sin(s.theta));
    SquaredSum(rcst, s.phi);
    p
  }

  /** (k cos φ)² + (k sin φ)² = k². */
  lemma SquaredSum(k: real, phi: real)
    ensures (k * Cos(phi)) * (k * Cos(phi)) + (k * Sin(phi)) * (k * Sin(phi)) == k * k
  {
    SinCos(phi);
    calc {
      (k * Cos(phi)) * (k * Cos(phi)) + (k * Sin(phi)) * (k * Sin(phi));
      (k * k) * (Cos(phi) * Cos(phi) + Sin(phi) * Sin(phi));
      k * k;
    }
  }

  /** The rectangular point lies at distance R from the origin. */
  lemma RectangularLength(s: Spherical)
    ensures NormSquared(ToRectangular(s)) == s.r * s.r
  {
    var p := ToRectangular(s);
    SquaredSum(s.r, s.theta);
    assert (s.r * Cos(s.theta)) * (s.r * Cos(s.theta)) + (s.r * Sin(s.theta)) * (s.r * Sin(s.theta)) == s.r * s.r;
  }

  /** The same, for a position given by its three components. */
  lemma RectangularOf(r: real, theta: real, phi: real)
    ensures NormSquared(ToRectangular(Spherical(r, theta, phi))) == r * r
    ensures ToRectangular(Spherical(r, theta, phi)).z == r * Sin(theta)
  {
    RectangularLength(Spherical(r, theta, phi));
  }

  /** Radius zero gives the origin, whatever the angles. */
  lemma RectangularOrigin(s: Spherical)
    requires s.r == 0.0
    ensures ToRectangular(s) == Point3D(0.0, 0.0, 0.0)
  {
  }
}
