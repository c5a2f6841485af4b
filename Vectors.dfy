/**
 * Value-level meaning of the Vec3 operations: a 3-component vector and the arithmetic the
 * Vec3 methods perform on their fields.
 */
module Vectors {
  import opened Scalar

  datatype Vector3 = Vector3(x: real, y: real, z: real)

  function Zero(): Vector3 {
    Vector3(0.0, 0.0, 0.0)
  }

  function Add(a: Vector3, b: Vector3): Vector3 {
    Vector3(a.x + b.x, a.y + b.y, a.z + b.z)
  }

  function Sub(a: Vector3, b: Vector3): Vector3 {
    Vector3(a.x - b.x, a.y - b.y, a.z - b.z)
  }

  function Scale(a: Vector3, s: real): Vector3 {
    Vector3(a.x * s, a.y * s, a.z * s)
  }

  function Neg(a: Vector3): Vector3 {
    Vector3(-a.x, -a.y, -a.z)
  }

  function Dot(a: Vector3, b: Vector3): real {
    a.x * b.x + a.y * b.y + a.z * b.z
  }

  /** The right-handed cross product. */
  function Cross(a: Vector3, b: Vector3): Vector3 {
    Vector3(a.y * b.z - a.z * b.y, a.z * b.x - a.x * b.z, a.x * b.y - a.y * b.x)
  }

  /** Squared length; zero exactly for the zero vector. */
  function Length2(a: Vector3): (r: real)
    ensures 0.0 <= r
    ensures r == 0.0 <==> a == Zero()
  {
    SquareSign(a.x);
    SquareSign(a.y);
    SquareSign(a.z);
    Sq(a.x) + Sq(a.y) + Sq(a.z)
  }

  /** The length sqrt(length2). */
  function Length(lib: MathLib, a: Vector3): (r: real)
    requires SqrtLaw(lib)
    ensures r == 0.0 <==> a == Zero()
    ensures a != Zero() ==> 0.0 < r && Sq(r) == Length2(a)
  {
    var l2 := Length2(a);
    SqrtZero(lib, l2);
    lib.sqrt(l2)
  }

  /** scale(1 / length): defined for a nonzero vector only (zero gives NaN in floating point). */
  function Normalize(lib: MathLib, a: Vector3): (r: Vector3)
    requires SqrtLaw(lib) && a != Zero()
    ensures Length2(r) == 1.0
  {
    var l := Length(lib, a);
    NormalizeUnit(a, l);
    Scale(a, 1.0 / l)
  }

  lemma NormalizeUnit(a: Vector3, l: real)
    requires 0.0 < l && Sq(l) == Length2(a)
    ensures Length2(Scale(a, 1.0 / l)) == 1.0
  {
    var k := 1.0 / l;
    calc {
      Length2(Scale(a, k));
      (a.x * k) * (a.x * k) + (a.y * k) * (a.y * k) + (a.z * k) * (a.z * k);
      (a.x * a.x + a.y * a.y + a.z * a.z) * (k * k);
      (l * l) * (k * k);
      (l * k) * (l * k);
      { assert l * k == 1.0; }
      1.0;
    }
  }

  /** Normalising keeps the direction: the result is a positive multiple of the input. */
  lemma NormalizeIsScale(lib: MathLib, a: Vector3)
    requires SqrtLaw(lib) && a != Zero()
    ensures 0.0 < Length(lib, a)
    ensures Normalize(lib, a) == Scale(a, 1.0 / Length(lib, a))
  {
  }

  /** A unit vector is its own normalisation. */
  lemma NormalizeOfUnit(lib: MathLib, a: Vector3)
    requires SqrtLaw(lib) && Length2(a) == 1.0
    ensures Normalize(lib, a) == a
  {
    var l := Length(lib, a);
    SquareRootsAgree(l, 1.0);
  }

  /** A zero component stays zero under normalisation. */
  lemma NormalizeZeroComponents(lib: MathLib, a: Vector3)
    requires SqrtLaw(lib) && a != Zero()
    ensures a.x == 0.0 ==> Normalize(lib, a).x == 0.0
    ensures a.y == 0.0 ==> Normalize(lib, a).y == 0.0
    ensures a.z == 0.0 ==> Normalize(lib, a).z == 0.0
  {
    NormalizeIsScale(lib, a);
  }

  /** Cross product is anti-commutative: a x b == -(b x a). */
  lemma CrossAntiCommutative(a: Vector3, b: Vector3)
    ensures Cross(a, b) == Neg(Cross(b, a))
  {
  }

  /** a x b is orthogonal to both a and b. */
  lemma CrossOrthogonal(a: Vector3, b: Vector3)
    ensures Dot(Cross(a, b), a) == 0.0
    ensures Dot(Cross(a, b), b) == 0.0
  {
  }

  /** Lagrange's identity: |a x b|^2 == |a|^2 |b|^2 - (a . b)^2. */
  lemma Lagrange(a: Vector3, b: Vector3)
    ensures Length2(Cross(a, b)) == Length2(a) * Length2(b) - Dot(a, b) * Dot(a, b)
  {
    LagrangeTerms(a.x, a.y, a.z, b.x, b.y, b.z);
  }

  /** Lagrange's identity on the six coordinates, as a polynomial identity. */
  lemma LagrangeTerms(a0: real, a1: real, a2: real, b0: real, b1: real, b2: real)
    ensures (a1 * b2 - a2 * b1) * (a1 * b2 - a2 * b1) + (a2 * b0 - a0 * b2) * (a2 * b0 - a0 * b2)
              + (a0 * b1 - a1 * b0) * (a0 * b1 - a1 * b0)
            == (a0 * a0 + a1 * a1 + a2 * a2) * (b0 * b0 + b1 * b1 + b2 * b2)
              - (a0 * b0 + a1 * b1 + a2 * b2) * (a0 * b0 + a1 * b1 + a2 * b2)
  {
  }

  /** The cross product of two orthogonal unit vectors is a unit vector orthogonal to both. */
  lemma CrossOfOrthonormal(a: Vector3, b: Vector3)
    requires Length2(a) == 1.0 && Length2(b) == 1.0 && Dot(a, b) == 0.0
    ensures Length2(Cross(a, b)) == 1.0
    ensures Dot(Cross(a, b), a) == 0.0 && Dot(Cross(a, b), b) == 0.0
  {
    Lagrange(a, b);
    CrossOrthogonal(a, b);
  }

  /** Cross product distributes over addition in its right argument and commutes with scaling. */
  lemma CrossLinearRight(a: Vector3, b: Vector3, c: Vector3, k: real)
    ensures Cross(a, Add(b, c)) == Add(Cross(a, b), Cross(a, c))
    ensures Cross(a, Scale(b, k)) == Scale(Cross(a, b), k)
  {
  }

  lemma DotSymmetric(a: Vector3, b: Vector3)
    ensures Dot(a, b) == Dot(b, a)
  {
  }
}
