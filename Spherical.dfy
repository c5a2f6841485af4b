/**
 * Spherical coordinates as the Spherical class and Vec3.setFromSphericalCoords use them: radius,
 * polar angle phi measured from +y, and azimuth theta measured in the z-x plane from +z towards +x.
 */
module SphericalCoords {
  import opened Scalar
  import opened Vectors

  datatype Spherical = Spherical(radius: real, phi: real, theta: real)

  /** What Vec3.setFromSphericalCoords(radius, phi, theta) stores. */
  function FromSpherical(lib: MathLib, radius: real, phi: real, theta: real): Vector3 {
    var sinPhiRadius := lib.sin(phi) * radius;
    Vector3(sinPhiRadius * lib.sin(theta), lib.cos(phi) * radius, sinPhiRadius * lib.cos(theta))
  }

  /**
   * What Spherical.setFromCartesianCoords(x, y, z) stores: the radius sqrt(x^2 + y^2 + z^2) is the
   * length of (x, y, z); the origin gets both angles zero, any other point theta = atan2(x, z) and
   * phi = acos(clamp(y / radius, -1, 1)).
   */
  function SphericalFromCartesian(lib: MathLib, x: real, y: real, z: real): Spherical {
    var radius := lib.sqrt(Length2(Vector3(x, y, z)));
    if radius == 0.0 then
      Spherical(radius, 0.0, 0.0)
    else
      Spherical(radius, lib.acos(Clamp(y / radius, -1.0, 1.0)), lib.atan2(x, z))
  }

  /** The radius is the length of (x, y, z), so it is zero exactly at the origin. */
  lemma SphericalRadius(lib: MathLib, x: real, y: real, z: real)
    requires SqrtLaw(lib)
    ensures SphericalFromCartesian(lib, x, y, z).radius == Length(lib, Vector3(x, y, z))
    ensures SphericalFromCartesian(lib, x, y, z).radius == 0.0 <==> x == 0.0 && y == 0.0 && z == 0.0
  {
  }

  /** The origin has radius zero and, by convention, both angles zero. */
  lemma SphericalOfOrigin(lib: MathLib)
    requires SqrtLaw(lib)
    ensures SphericalFromCartesian(lib, 0.0, 0.0, 0.0) == Spherical(0.0, 0.0, 0.0)
  {
    SphericalRadius(lib, 0.0, 0.0, 0.0);
  }

  /** Away from the origin y / radius already lies in [-1, 1], so the clamp changes nothing. */
  lemma SphericalClampUnneeded(lib: MathLib, x: real, y: real, z: real)
    requires SqrtLaw(lib)
    requires SphericalFromCartesian(lib, x, y, z).radius != 0.0
    ensures var radius := SphericalFromCartesian(lib, x, y, z).radius;
      -1.0 <= y / radius <= 1.0 && Clamp(y / radius, -1.0, 1.0) == y / radius
  {
    var radius := SphericalFromCartesian(lib, x, y, z).radius;
    SphericalRadius(lib, x, y, z);
    PolarBound(x, y, z, radius);
  }

  /** |y| <= r when r is the positive root of x^2 + y^2 + z^2; hence y / r lies in [-1, 1]. */
  lemma PolarBound(x: real, y: real, z: real, r: real)
    requires 0.0 < r && Sq(r) == x * x + y * y + z * z
    ensures -1.0 <= y / r <= 1.0
  {
    SquareSign(x);
    SquareSign(z);
    SquareSign(r);
    var u := y / r;
    assert y == u * r;
    assert Sq(u) * Sq(r) == Sq(y);
    if 1.0 < Sq(u) {
      MulPositive(Sq(u) - 1.0, Sq(r));
    }
    if 1.0 < u {
      MulPositive(u - 1.0, u + 1.0);
    } else if u < -1.0 {
      MulPositive(-1.0 - u, 1.0 - u);
    }
  }

  /**
   * A direction (s, c) on the unit circle along which (x, z) points, as atan2 returns it, gives
   * back (x, z) scaled by d = x s + z c, and d^2 = x^2 + z^2.
   */
  lemma DirectionScaling(x: real, z: real, s: real, c: real)
    requires s * s + c * c == 1.0 && x * c == z * s
    ensures Mul(x * s + z * c, s) == x && Mul(x * s + z * c, c) == z
    ensures Sq(x * s + z * c) == x * x + z * z
  {
    assert Mul(x * s + z * c, s) == x * (s * s) + s * (z * c);
    assert Mul(x * s + z * c, c) == z * (c * c) + c * (x * s);
    assert Sq(x * s + z * c) - (x * x + z * z) == -((x * c - z * s) * (x * c - z * s));
  }

  /**
   * sin(phi) * radius is the distance of (x, y, z) from the y axis when phi = acos(y / radius).
   */
  lemma SinPhiRadius(lib: MathLib, x: real, y: real, z: real)
    requires SqrtLaw(lib) && PythagoreanLaw(lib) && AcosLaw(lib)
    requires SphericalFromCartesian(lib, x, y, z).radius != 0.0
    ensures var s := SphericalFromCartesian(lib, x, y, z);
      && 0.0 <= lib.sin(s.phi) * s.radius && Sq(lib.sin(s.phi) * s.radius) == x * x + z * z
      && lib.cos(s.phi) * s.radius == y
  {
    var s := SphericalFromCartesian(lib, x, y, z);
    var radius := s.radius;
    SphericalRadius(lib, x, y, z);
    SphericalClampUnneeded(lib, x, y, z);
    var u := y / radius;
    assert s.phi == lib.acos(u);
    var sn, cs := lib.sin(s.phi), lib.cos(s.phi);
    assert cs == u && 0.0 <= sn && sn * sn + cs * cs == 1.0;
    assert u * radius == y;
    MulPositiveOrZero(sn, radius);
    assert Sq(sn * radius) == (sn * sn) * Sq(radius);
    assert (1.0 - u * u) * Sq(radius) == Sq(radius) - Sq(u * radius);
  }

  lemma MulPositiveOrZero(a: real, b: real)
    requires 0.0 <= a && 0.0 < b
    ensures 0.0 <= a * b
  {
    if a != 0.0 {
      MulPositive(a, b);
    }
  }

  /**
   * setFromSphericalCoords undoes setFromCartesianCoords: converting any point to spherical
   * coordinates and back gives the point itself.
   */
  lemma SphericalRoundTrip(lib: MathLib, x: real, y: real, z: real)
    requires SqrtLaw(lib) && PythagoreanLaw(lib) && AcosLaw(lib) && Atan2DirectionLaw(lib)
    ensures var s := SphericalFromCartesian(lib, x, y, z);
      FromSpherical(lib, s.radius, s.phi, s.theta) == Vector3(x, y, z)
  {
    var s := SphericalFromCartesian(lib, x, y, z);
    SphericalRadius(lib, x, y, z);
    if s.radius == 0.0 {
      ZeroRadius(lib, s.phi, s.theta);
    } else {
      OffOriginRoundTrip(lib, x, y, z);
    }
  }

  lemma OffOriginRoundTrip(lib: MathLib, x: real, y: real, z: real)
    requires SqrtLaw(lib) && PythagoreanLaw(lib) && AcosLaw(lib) && Atan2DirectionLaw(lib)
    requires SphericalFromCartesian(lib, x, y, z).radius != 0.0
    ensures var s := SphericalFromCartesian(lib, x, y, z);
      FromSpherical(lib, s.radius, s.phi, s.theta) == Vector3(x, y, z)
  {
    var s := SphericalFromCartesian(lib, x, y, z);
    SinPhiRadius(lib, x, y, z);
    var p := lib.sin(s.phi) * s.radius;
    AzimuthRoundTrip(lib, x, z, p);
    var v := FromSpherical(lib, s.radius, s.phi, s.theta);
    assert v.x == Mul(p, lib.sin(s.theta)) && v.z == Mul(p, lib.cos(s.theta));
  }

  /** A zero radius gives the origin whatever the angles. */
  lemma ZeroRadius(lib: MathLib, phi: real, theta: real)
    ensures FromSpherical(lib, 0.0, phi, theta) == Zero()
  {
  }

  /**
   * Given the distance p >= 0 of a point from the y axis, sin and cos of theta = atan2(x, z)
   * scale p back to x and z.
   */
  lemma AzimuthRoundTrip(lib: MathLib, x: real, z: real, p: real)
    requires PythagoreanLaw(lib) && Atan2DirectionLaw(lib)
    requires 0.0 <= p && Sq(p) == x * x + z * z
    ensures Mul(p, lib.sin(lib.atan2(x, z))) == x && Mul(p, lib.cos(lib.atan2(x, z))) == z
  {
    var sn, cs := lib.sin(lib.atan2(x, z)), lib.cos(lib.atan2(x, z));
    if x == 0.0 && z == 0.0 {
      SquareSign(p);
    } else {
      assert x * cs == z * sn && 0.0 < x * sn + z * cs;
      assert sn * sn + cs * cs == 1.0;
      DirectionScaling(x, z, sn, cs);
      SquareRootsAgree(p, x * sn + z * cs);
    }
  }
}
