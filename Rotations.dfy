/**
 * Value-level meaning of Quat, Euler and the rotation-building Mat4 methods (compose,
 * makeRotationFromEuler). A quaternion is (x, y, z, w) with w the scalar part; Euler angles are
 * radians about the x, y and z axes, applied in the order the module calls ZYX: the rotation
 * is Rz(z) * Ry(y) * Rx(x).
 */
module Rotations {
  import opened Scalar
  import opened Vectors
  import opened Matrices

  datatype Quaternion = Quaternion(x: real, y: real, z: real, w: real)

  /** Euler angles in radians, order ZYX. */
  datatype Angles = Angles(x: real, y: real, z: real)

  /** The initial value of every Quat: the identity rotation. */
  function IdentityQuaternion(): Quaternion {
    Quaternion(0.0, 0.0, 0.0, 1.0)
  }

  /** The Hamilton product a * b. */
  function QMul(a: Quaternion, b: Quaternion): Quaternion {
    Quaternion(
      a.w * b.x + a.x * b.w + a.y * b.z - a.z * b.y,
      a.w * b.y - a.x * b.z + a.y * b.w + a.z * b.x,
      a.w * b.z + a.x * b.y - a.y * b.x + a.z * b.w,
      a.w * b.w - a.x * b.x - a.y * b.y - a.z * b.z)
  }

  function Conjugate(q: Quaternion): Quaternion {
    Quaternion(-q.x, -q.y, -q.z, q.w)
  }

  function Negate(q: Quaternion): Quaternion {
    Quaternion(-q.x, -q.y, -q.z, -q.w)
  }

  /** The squared norm x^2 + y^2 + z^2 + w^2. */
  function Norm2(q: Quaternion): real {
    q.x * q.x + q.y * q.y + q.z * q.z + q.w * q.w
  }

  /** The rotation of v by a unit quaternion, by the sandwich q * v * conj(q). */
  function Rotate(q: Quaternion, v: Vector3): Vector3 {
    var p := QMul(QMul(q, Quaternion(v.x, v.y, v.z, 0.0)), Conjugate(q));
    Vector3(p.x, p.y, p.z)
  }

  /** Componentwise product, how compose() applies its scale. */
  function ScaleBy(s: Vector3, v: Vector3): Vector3 {
    Vector3(s.x * v.x, s.y * v.y, s.z * v.z)
  }

  /**
   * What compose(quaternion, position, scale) stores: the rotation matrix of the quaternion,
   * written with the doubled products of the source (x2 = x + x, xx = x * x2, xy = x * y2,
   * wz = w * z2, ...) spelled out, its columns scaled by scale.x, scale.y and scale.z, and
   * position in the translation column.
   */
  function Compose(q: Quaternion, position: Vector3, scale: Vector3): Matrix {
    [ (1.0 - (q.y * (q.y + q.y) + q.z * (q.z + q.z))) * scale.x,
      (q.x * (q.y + q.y) + q.w * (q.z + q.z)) * scale.x,
      (q.x * (q.z + q.z) - q.w * (q.y + q.y)) * scale.x,
      0.0,
      (q.x * (q.y + q.y) - q.w * (q.z + q.z)) * scale.y,
      (1.0 - (q.x * (q.x + q.x) + q.z * (q.z + q.z))) * scale.y,
      (q.y * (q.z + q.z) + q.w * (q.x + q.x)) * scale.y,
      0.0,
      (q.x * (q.z + q.z) + q.w * (q.y + q.y)) * scale.z,
      (q.y * (q.z + q.z) - q.w * (q.x + q.x)) * scale.z,
      (1.0 - (q.x * (q.x + q.x) + q.y * (q.y + q.y))) * scale.z,
      0.0,
      position.x, position.y, position.z, 1.0 ]
  }

  /**
   * For a unit quaternion, the composed matrix scales a point, rotates it by the quaternion
   * (the sandwich product) and then moves it by position.
   */
  lemma ComposeMapsPoints(q: Quaternion, position: Vector3, scale: Vector3, v: Vector3)
    requires Norm2(q) == 1.0
    ensures Transform(Compose(q, position, scale), Point(v)) == Point(Add(Rotate(q, ScaleBy(scale, v)), position))
  {
    ComposeMapsPointsX(q, position, scale, v);
    ComposeMapsPointsY(q, position, scale, v);
    ComposeMapsPointsZ(q, position, scale, v);
    var u := ScaleBy(scale, v);
    assert (1.0 - Norm2(q)) * u.x == 0.0 && (1.0 - Norm2(q)) * u.y == 0.0 && (1.0 - Norm2(q)) * u.z == 0.0;
  }

  /** The first half of the sandwich product, q * (u, 0), multiplied out. */
  lemma RotateHalf(q: Quaternion, u: Vector3)
    ensures QMul(q, Quaternion(u.x, u.y, u.z, 0.0)) == Quaternion(
      q.w * u.x + q.y * u.z - q.z * u.y,
      q.w * u.y - q.x * u.z + q.z * u.x,
      q.w * u.z + q.x * u.y - q.y * u.x,
      -(q.x * u.x + q.y * u.y + q.z * u.z))
  {
  }

  /** Row x of the rotation block of compose() applied to u, for a quaternion of any norm. */
  lemma RotateRowX(q: Quaternion, u: Vector3)
    ensures Rotate(q, u).x == (1.0 - (q.y * (q.y + q.y) + q.z * (q.z + q.z))) * u.x + (q.x * (q.y + q.y) - q.w * (q.z + q.z)) * u.y + (q.x * (q.z + q.z) + q.w * (q.y + q.y)) * u.z - (1.0 - Norm2(q)) * u.x
  {
    RotateHalf(q, u);
    var h := QMul(q, Quaternion(u.x, u.y, u.z, 0.0));
    SandwichX(q.x, q.y, q.z, q.w, u.x, u.y, u.z, h.x, h.y, h.z, h.w);
  }

  lemma SandwichX(x: real, y: real, z: real, w: real, a: real, b: real, c: real, hx: real, hy: real, hz: real, hw: real)
    requires hx == w * a + y * c - z * b && hy == w * b - x * c + z * a
    requires hz == w * c + x * b - y * a && hw == -(x * a + y * b + z * c)
    ensures hw * (-x) + hx * w + hy * (-z) - hz * (-y)
      == (1.0 - (y * (y + y) + z * (z + z))) * a + (x * (y + y) - w * (z + z)) * b + (x * (z + z) + w * (y + y)) * c - (1.0 - (x * x + y * y + z * z + w * w)) * a
  {
    assert (w * a + y * c - z * b) * w == w * w * a + w * y * c - w * z * b;
    assert (-(x * a + y * b + z * c)) * (-x) == x * x * a + x * y * b + x * z * c;
    assert (w * b - x * c + z * a) * (-z) == -(w * z * b) + x * z * c - z * z * a;
    assert (w * c + x * b - y * a) * (-y) == -(w * y * c) - x * y * b + y * y * a;
    assert (1.0 - (y * (y + y) + z * (z + z))) * a == a - 2.0 * y * y * a - 2.0 * z * z * a;
    assert (x * (y + y) - w * (z + z)) * b == 2.0 * x * y * b - 2.0 * w * z * b;
    assert (x * (z + z) + w * (y + y)) * c == 2.0 * x * z * c + 2.0 * w * y * c;
    assert (1.0 - (x * x + y * y + z * z + w * w)) * a == a - x * x * a - y * y * a - z * z * a - w * w * a;
  }

  lemma ComposeMapsPointsX(q: Quaternion, position: Vector3, scale: Vector3, v: Vector3)
    ensures Transform(Compose(q, position, scale), Point(v)).x
      == Rotate(q, ScaleBy(scale, v)).x + (1.0 - Norm2(q)) * ScaleBy(scale, v).x + position.x
  {
    ComposeRowX(q, position, scale, v);
    RotateRowX(q, ScaleBy(scale, v));
  }

  /** Row x of compose()'s matrix applied to a point: the rotation-block row times the scaled point, plus position.x. */
  lemma ComposeRowX(q: Quaternion, position: Vector3, scale: Vector3, v: Vector3)
    ensures var u := ScaleBy(scale, v);
      Transform(Compose(q, position, scale), Point(v)).x
      == (1.0 - (q.y * (q.y + q.y) + q.z * (q.z + q.z))) * u.x + (q.x * (q.y + q.y) - q.w * (q.z + q.z)) * u.y + (q.x * (q.z + q.z) + q.w * (q.y + q.y)) * u.z + position.x
  {
    var x, y, z, w := q.x, q.y, q.z, q.w;
    var u := ScaleBy(scale, v);
    var m := Compose(q, position, scale);
    var r0, r1, r2 := 1.0 - (y * (y + y) + z * (z + z)), x * (y + y) - w * (z + z), x * (z + z) + w * (y + y);
    assert Transform(m, Point(v)).x == m[0] * v.x + m[4] * v.y + m[8] * v.z + m[12];
    ScaledTerm(m[0], r0, scale.x, v.x);
    ScaledTerm(m[4], r1, scale.y, v.y);
    ScaledTerm(m[8], r2, scale.z, v.z);
  }

  /** Row y of the rotation block of compose() applied to u, for a quaternion of any norm. */
  lemma RotateRowY(q: Quaternion, u: Vector3)
    ensures Rotate(q, u).y == (q.x * (q.y + q.y) + q.w * (q.z + q.z)) * u.x + (1.0 - (q.x * (q.x + q.x) + q.z * (q.z + q.z))) * u.y + (q.y * (q.z + q.z) - q.w * (q.x + q.x)) * u.z - (1.0 - Norm2(q)) * u.y
  {
    RotateHalf(q, u);
    var h := QMul(q, Quaternion(u.x, u.y, u.z, 0.0));
    SandwichY(q.x, q.y, q.z, q.w, u.x, u.y, u.z, h.x, h.y, h.z, h.w);
  }

  lemma SandwichY(x: real, y: real, z: real, w: real, a: real, b: real, c: real, hx: real, hy: real, hz: real, hw: real)
    requires hx == w * a + y * c - z * b && hy == w * b - x * c + z * a
    requires hz == w * c + x * b - y * a && hw == -(x * a + y * b + z * c)
    ensures hw * (-y) - hx * (-z) + hy * w + hz * (-x)
      == (x * (y + y) + w * (z + z)) * a + (1.0 - (x * (x + x) + z * (z + z))) * b + (y * (z + z) - w * (x + x)) * c - (1.0 - (x * x + y * y + z * z + w * w)) * b
  {
    assert (w * b - x * c + z * a) * w == w * w * b - w * x * c + w * z * a;
    assert (-(x * a + y * b + z * c)) * (-y) == x * y * a + y * y * b + y * z * c;
    assert (w * a + y * c - z * b) * (-z) == -(w * z * a) - y * z * c + z * z * b;
    assert (w * c + x * b - y * a) * (-x) == -(w * x * c) - x * x * b + x * y * a;
    assert (x * (y + y) + w * (z + z)) * a == 2.0 * x * y * a + 2.0 * w * z * a;
    assert (1.0 - (x * (x + x) + z * (z + z))) * b == b - 2.0 * x * x * b - 2.0 * z * z * b;
    assert (y * (z + z) - w * (x + x)) * c == 2.0 * y * z * c - 2.0 * w * x * c;
    assert (1.0 - (x * x + y * y + z * z + w * w)) * b == b - x * x * b - y * y * b - z * z * b - w * w * b;
  }

  lemma ComposeMapsPointsY(q: Quaternion, position: Vector3, scale: Vector3, v: Vector3)
    ensures Transform(Compose(q, position, scale), Point(v)).y
      == Rotate(q, ScaleBy(scale, v)).y + (1.0 - Norm2(q)) * ScaleBy(scale, v).y + position.y
  {
    ComposeRowY(q, position, scale, v);
    RotateRowY(q, ScaleBy(scale, v));
  }

  /** Row y of compose()'s matrix applied to a point: the rotation-block row times the scaled point, plus position.y. */
  lemma ComposeRowY(q: Quaternion, position: Vector3, scale: Vector3, v: Vector3)
    ensures var u := ScaleBy(scale, v);
      Transform(Compose(q, position, scale), Point(v)).y
      == (q.x * (q.y + q.y) + q.w * (q.z + q.z)) * u.x + (1.0 - (q.x * (q.x + q.x) + q.z * (q.z + q.z))) * u.y + (q.y * (q.z + q.z) - q.w * (q.x + q.x)) * u.z + position.y
  {
    var x, y, z, w := q.x, q.y, q.z, q.w;
    var u := ScaleBy(scale, v);
    var m := Compose(q, position, scale);
    var r0, r1, r2 := x * (y + y) + w * (z + z), 1.0 - (x * (x + x) + z * (z + z)), y * (z + z) - w * (x + x);
    assert Transform(m, Point(v)).y == m[1] * v.x + m[5] * v.y + m[9] * v.z + m[13];
    ScaledTerm(m[1], r0, scale.x, v.x);
    ScaledTerm(m[5], r1, scale.y, v.y);
    ScaledTerm(m[9], r2, scale.z, v.z);
  }

  /** Row z of the rotation block of compose() applied to u, for a quaternion of any norm. */
  lemma RotateRowZ(q: Quaternion, u: Vector3)
    ensures Rotate(q, u).z == (q.x * (q.z + q.z) - q.w * (q.y + q.y)) * u.x + (q.y * (q.z + q.z) + q.w * (q.x + q.x)) * u.y + (1.0 - (q.x * (q.x + q.x) + q.y * (q.y + q.y))) * u.z - (1.0 - Norm2(q)) * u.z
  {
    RotateHalf(q, u);
    var h := QMul(q, Quaternion(u.x, u.y, u.z, 0.0));
    SandwichZ(q.x, q.y, q.z, q.w, u.x, u.y, u.z, h.x, h.y, h.z, h.w);
  }

  lemma SandwichZ(x: real, y: real, z: real, w: real, a: real, b: real, c: real, hx: real, hy: real, hz: real, hw: real)
    requires hx == w * a + y * c - z * b && hy == w * b - x * c + z * a
    requires hz == w * c + x * b - y * a && hw == -(x * a + y * b + z * c)
    ensures hw * (-z) + hx * (-y) - hy * (-x) + hz * w
      == (x * (z + z) - w * (y + y)) * a + (y * (z + z) + w * (x + x)) * b + (1.0 - (x * (x + x) + y * (y + y))) * c - (1.0 - (x * x + y * y + z * z + w * w)) * c
  {
    assert (w * c + x * b - y * a) * w == w * w * c + w * x * b - w * y * a;
    assert (-(x * a + y * b + z * c)) * (-z) == x * z * a + y * z * b + z * z * c;
    assert (w * a + y * c - z * b) * (-y) == -(w * y * a) - y * y * c + y * z * b;
    assert (w * b - x * c + z * a) * (-x) == -(w * x * b) + x * x * c - x * z * a;
    assert (x * (z + z) - w * (y + y)) * a == 2.0 * x * z * a - 2.0 * w * y * a;
    assert (y * (z + z) + w * (x + x)) * b == 2.0 * y * z * b + 2.0 * w * x * b;
    assert (1.0 - (x * (x + x) + y * (y + y))) * c == c - 2.0 * x * x * c - 2.0 * y * y * c;
    assert (1.0 - (x * x + y * y + z * z + w * w)) * c == c - x * x * c - y * y * c - z * z * c - w * w * c;
  }

  lemma ComposeMapsPointsZ(q: Quaternion, position: Vector3, scale: Vector3, v: Vector3)
    ensures Transform(Compose(q, position, scale), Point(v)).z
      == Rotate(q, ScaleBy(scale, v)).z + (1.0 - Norm2(q)) * ScaleBy(scale, v).z + position.z
  {
    ComposeRowZ(q, position, scale, v);
    RotateRowZ(q, ScaleBy(scale, v));
  }

  /** Row z of compose()'s matrix applied to a point: the rotation-block row times the scaled point, plus position.z. */
  lemma ComposeRowZ(q: Quaternion, position: Vector3, scale: Vector3, v: Vector3)
    ensures var u := ScaleBy(scale, v);
      Transform(Compose(q, position, scale), Point(v)).z
      == (q.x * (q.z + q.z) - q.w * (q.y + q.y)) * u.x + (q.y * (q.z + q.z) + q.w * (q.x + q.x)) * u.y + (1.0 - (q.x * (q.x + q.x) + q.y * (q.y + q.y))) * u.z + position.z
  {
    var x, y, z, w := q.x, q.y, q.z, q.w;
    var u := ScaleBy(scale, v);
    var m := Compose(q, position, scale);
    var r0, r1, r2 := x * (z + z) - w * (y + y), y * (z + z) + w * (x + x), 1.0 - (x * (x + x) + y * (y + y));
    assert Transform(m, Point(v)).z == m[2] * v.x + m[6] * v.y + m[10] * v.z + m[14];
    ScaledTerm(m[2], r0, scale.x, v.x);
    ScaledTerm(m[6], r1, scale.y, v.y);
    ScaledTerm(m[10], r2, scale.z, v.z);
  }

  lemma ScaledTerm(e: real, r: real, s: real, v: real)
    requires e == r * s
    ensures e * v == r * (s * v)
  {
  }

  /** Rotation about the x axis by the angle with cosine c and sine s, stored column by column. */
  function AxisX(c: real, s: real): Matrix {
    [1.0, 0.0, 0.0, 0.0,  0.0, c, s, 0.0,  0.0, -s, c, 0.0,  0.0, 0.0, 0.0, 1.0]
  }

  /** Rotation about the y axis by the angle with cosine c and sine s, stored column by column. */
  function AxisY(c: real, s: real): Matrix {
    [c, 0.0, -s, 0.0,  0.0, 1.0, 0.0, 0.0,  s, 0.0, c, 0.0,  0.0, 0.0, 0.0, 1.0]
  }

  /** Rotation about the z axis by the angle with cosine c and sine s, stored column by column. */
  function AxisZ(c: real, s: real): Matrix {
    [c, s, 0.0, 0.0,  -s, c, 0.0, 0.0,  0.0, 0.0, 1.0, 0.0,  0.0, 0.0, 0.0, 1.0]
  }

  /**
   * What makeRotationFromEuler(euler) stores, with c1, s1 the cosine and sine of euler.x,
   * c2, s2 those of euler.y and c3, s3 those of euler.z, and the products grouped as the
   * source groups them. The translation column becomes (0, 0, 0, 1).
   */
  function EulerMatrix(lib: MathLib, e: Angles): Matrix {
    EulerRotation(lib.cos(e.x), lib.sin(e.x), lib.cos(e.y), lib.sin(e.y), lib.cos(e.z), lib.sin(e.z))
  }

  /** The rows makeRotationFromEuler passes to set(), over the cosines and sines of the three angles. */
  function EulerRotation(c1: real, s1: real, c2: real, s2: real, c3: real, s3: real): Matrix {
    FromRows([
      c2 * c3, (s1 * c3) * s2 - c1 * s3, s1 * s3 + (c1 * c3) * s2, 0.0,
      c2 * s3, c1 * c3 + (s1 * s3) * s2, (c1 * s3) * s2 - s1 * c3, 0.0,
      -s2, c2 * s1, c1 * c2, 0.0,
      0.0, 0.0, 0.0, 1.0])
  }

  /**
   * The matrix of makeRotationFromEuler in storage order, over the cosines and sines
   * (c1, s1 of x; c2, s2 of y; c3, s3 of z).
   */
  function EulerStored(c1: real, s1: real, c2: real, s2: real, c3: real, s3: real): Matrix {
    [ c2 * c3, c2 * s3, -s2, 0.0,
      (s1 * c3) * s2 - c1 * s3, c1 * c3 + (s1 * s3) * s2, c2 * s1, 0.0,
      s1 * s3 + (c1 * c3) * s2, (c1 * s3) * s2 - s1 * c3, c1 * c2, 0.0,
      0.0, 0.0, 0.0, 1.0 ]
  }

  /** set() transposes the argument list of makeRotationFromEuler into EulerStored. */
  lemma EulerMatrixStored(lib: MathLib, e: Angles)
    ensures EulerMatrix(lib, e)
      == EulerStored(lib.cos(e.x), lib.sin(e.x), lib.cos(e.y), lib.sin(e.y), lib.cos(e.z), lib.sin(e.z))
  {
    EulerRotationStored(lib.cos(e.x), lib.sin(e.x), lib.cos(e.y), lib.sin(e.y), lib.cos(e.z), lib.sin(e.z));
  }

  lemma EulerRotationStored(c1: real, s1: real, c2: real, s2: real, c3: real, s3: real)
    ensures EulerRotation(c1, s1, c2, s2, c3, s3) == EulerStored(c1, s1, c2, s2, c3, s3)
  {
    FromRowsAt([
      c2 * c3, (s1 * c3) * s2 - c1 * s3, s1 * s3 + (c1 * c3) * s2, 0.0,
      c2 * s3, c1 * c3 + (s1 * s3) * s2, (c1 * s3) * s2 - s1 * c3, 0.0,
      -s2, c2 * s1, c1 * c2, 0.0,
      0.0, 0.0, 0.0, 1.0]);
    SlotsEqual(EulerRotation(c1, s1, c2, s2, c3, s3), EulerStored(c1, s1, c2, s2, c3, s3));
  }

  /** Ry * Rx in storage order. */
  function YXStored(c1: real, s1: real, c2: real, s2: real): Matrix {
    [ c2, 0.0, -s2, 0.0,
      s2 * s1, c1, c2 * s1, 0.0,
      s2 * c1, -s1, c2 * c1, 0.0,
      0.0, 0.0, 0.0, 1.0 ]
  }

  /** Ry * Rx, multiplied out. */
  lemma AxisYX(c1: real, s1: real, c2: real, s2: real)
    ensures Multiply(AxisY(c2, s2), AxisX(c1, s1)) == YXStored(c1, s1, c2, s2)
  {
    var p := Multiply(AxisY(c2, s2), AxisX(c1, s1));
    SlotsAt(p);
    SlotsEqual(p, YXStored(c1, s1, c2, s2));
  }

  /** Rz * (Ry * Rx), multiplied out, is the matrix of makeRotationFromEuler. */
  lemma AxisZYX(c1: real, s1: real, c2: real, s2: real, c3: real, s3: real)
    ensures Multiply(AxisZ(c3, s3), YXStored(c1, s1, c2, s2)) == EulerStored(c1, s1, c2, s2, c3, s3)
  {
    var p := Multiply(AxisZ(c3, s3), YXStored(c1, s1, c2, s2));
    SlotsAt(p);
    SlotsEqual(p, EulerStored(c1, s1, c2, s2, c3, s3));
  }

  /** makeRotationFromEuler builds Rz(z) * Ry(y) * Rx(x): rotate about x first, then y, then z. */
  lemma EulerMatrixFactors(lib: MathLib, e: Angles)
    ensures EulerMatrix(lib, e) == Multiply(
      AxisZ(lib.cos(e.z), lib.sin(e.z)),
      Multiply(AxisY(lib.cos(e.y), lib.sin(e.y)), AxisX(lib.cos(e.x), lib.sin(e.x))))
  {
    EulerMatrixStored(lib, e);
    AxisYX(lib.cos(e.x), lib.sin(e.x), lib.cos(e.y), lib.sin(e.y));
    AxisZYX(lib.cos(e.x), lib.sin(e.x), lib.cos(e.y), lib.sin(e.y), lib.cos(e.z), lib.sin(e.z));
  }

  /** Rotations about one axis as quaternions, (sin(t/2) * axis, cos(t/2)), over s = sin(t/2) and c = cos(t/2). */
  function HalfTurnX(s: real, c: real): Quaternion {
    Quaternion(s, 0.0, 0.0, c)
  }

  function HalfTurnY(s: real, c: real): Quaternion {
    Quaternion(0.0, s, 0.0, c)
  }

  function HalfTurnZ(s: real, c: real): Quaternion {
    Quaternion(0.0, 0.0, s, c)
  }

  /**
   * The quaternion setFromEuler builds from the sines and cosines of the half angles
   * (s1, c1 of x / 2; s2, c2 of y / 2; s3, c3 of z / 2).
   */
  function HalfAngleProduct(s1: real, c1: real, s2: real, c2: real, s3: real, c3: real): Quaternion {
    Quaternion(
      s1 * c2 * c3 - c1 * s2 * s3,
      c1 * s2 * c3 + s1 * c2 * s3,
      c1 * c2 * s3 - s1 * s2 * c3,
      c1 * c2 * c3 + s1 * s2 * s3)
  }

  /** What Quat.setFromEuler(euler) stores: the angles are halved (times 0.5) first. */
  function QuatFromEuler(lib: MathLib, e: Angles): Quaternion {
    var x, y, z := e.x * 0.5, e.y * 0.5, e.z * 0.5;
    HalfAngleProduct(lib.sin(x), lib.cos(x), lib.sin(y), lib.cos(y), lib.sin(z), lib.cos(z))
  }

  lemma HalfTurnProduct(s1: real, c1: real, s2: real, c2: real, s3: real, c3: real)
    ensures HalfAngleProduct(s1, c1, s2, c2, s3, c3) == QMul(QMul(HalfTurnZ(s3, c3), HalfTurnY(s2, c2)), HalfTurnX(s1, c1))
  {
    var zy := QMul(HalfTurnZ(s3, c3), HalfTurnY(s2, c2));
    assert zy == Quaternion(-s3 * s2, c3 * s2, s3 * c2, c3 * c2);
  }

  /** setFromEuler is the product qz * qy * qx of the three axis rotations: ZYX order again. */
  lemma QuatFromEulerFactors(lib: MathLib, e: Angles)
    ensures var x, y, z := e.x * 0.5, e.y * 0.5, e.z * 0.5;
      QuatFromEuler(lib, e)
      == QMul(QMul(HalfTurnZ(lib.sin(z), lib.cos(z)), HalfTurnY(lib.sin(y), lib.cos(y))), HalfTurnX(lib.sin(x), lib.cos(x)))
  {
    var x, y, z := e.x * 0.5, e.y * 0.5, e.z * 0.5;
    HalfTurnProduct(lib.sin(x), lib.cos(x), lib.sin(y), lib.cos(y), lib.sin(z), lib.cos(z));
  }

  /** The norm of a product is the product of the norms (Euler's four-square identity). */
  lemma QMulNorm(a: Quaternion, b: Quaternion)
    ensures Norm2(QMul(a, b)) == Mul(Norm2(a), Norm2(b))
  {
    var r := QMul(a, b);
    FourSquares(a.x, a.y, a.z, a.w, b.x, b.y, b.z, b.w, r.x, r.y, r.z, r.w, Norm2(a), Norm2(b));
  }

  /** Euler's four-square identity, for the components of a product of quaternions. */
  lemma FourSquares(a1: real, a2: real, a3: real, a4: real, b1: real, b2: real, b3: real, b4: real,
                    x: real, y: real, z: real, w: real, na: real, nb: real)
    requires x == a4 * b1 + a1 * b4 + a2 * b3 - a3 * b2 && y == a4 * b2 - a1 * b3 + a2 * b4 + a3 * b1
    requires z == a4 * b3 + a1 * b2 - a2 * b1 + a3 * b4 && w == a4 * b4 - a1 * b1 - a2 * b2 - a3 * b3
    requires na == a1 * a1 + a2 * a2 + a3 * a3 + a4 * a4 && nb == b1 * b1 + b2 * b2 + b3 * b3 + b4 * b4
    ensures x * x + y * y + z * z + w * w == Mul(na, nb)
  {
  }

  /** With sin^2 + cos^2 == 1, setFromEuler yields a unit quaternion. */
  lemma QuatFromEulerUnit(lib: MathLib, e: Angles)
    requires PythagoreanLaw(lib)
    ensures Norm2(QuatFromEuler(lib, e)) == 1.0
  {
    var x, y, z := e.x * 0.5, e.y * 0.5, e.z * 0.5;
    var qx, qy, qz := HalfTurnX(lib.sin(x), lib.cos(x)), HalfTurnY(lib.sin(y), lib.cos(y)), HalfTurnZ(lib.sin(z), lib.cos(z));
    assert Norm2(qx) == 1.0 && Norm2(qy) == 1.0 && Norm2(qz) == 1.0;
    QuatFromEulerFactors(lib, e);
    QMulNorm(qz, qy);
    QMulNorm(QMul(qz, qy), qx);
  }

  /**
   * The trace branch of setFromRotationMatrix with root == sqrt(trace + 1):
   * s = 0.5 / root, w = 0.25 / s and the other components a * s, b * s, c * s.
   */
  function TraceBranch(root: real, a: real, b: real, c: real): Quaternion
    requires root != 0.0
  {
    var s := 0.5 / root;
    Quaternion(a * s, b * s, c * s, 0.25 / s)
  }

  /** The components a diagonal branch computes: the dominant one and three others, in source order. */
  datatype Split = Split(dominant: real, first: real, second: real, third: real)

  /**
   * A diagonal branch of setFromRotationMatrix with root == sqrt(1 + 2 * dominant diagonal - trace):
   * s = 2 * root, the dominant component 0.25 * s and the others a / s, b / s, c / s.
   */
  function DiagonalBranch(root: real, a: real, b: real, c: real): Split
    requires root != 0.0
  {
    var s := 2.0 * root;
    Split(0.25 * s, a / s, b / s, c / s)
  }

  /**
   * What Quat.setFromRotationMatrix(m) stores. mRC is the entry in row R and column C of the
   * upper 3x3 block (m11 in slot 0, m12 in slot 4, m21 in slot 1, ...). Exactly one branch runs:
   * trace > 0, else m11 dominant, else m22 > m33, else the last one. The argument of sqrt is
   * positive in every branch, for every matrix, so the divisions are defined.
   */
  function QuatFromMatrix(lib: MathLib, m: Matrix): Quaternion
    requires SqrtLaw(lib)
  {
    var m11, m12, m13 := m[0], m[4], m[8];
    var m21, m22, m23 := m[1], m[5], m[9];
    var m31, m32, m33 := m[2], m[6], m[10];
    var trace := m11 + m22 + m33;
    if trace > 0.0 then
      SqrtPositive(lib, trace + 1.0);
      TraceBranch(lib.sqrt(trace + 1.0), m32 - m23, m13 - m31, m21 - m12)
    else if m11 > m22 && m11 > m33 then
      SqrtPositive(lib, 1.0 + m11 - m22 - m33);
      var d := DiagonalBranch(lib.sqrt(1.0 + m11 - m22 - m33), m12 + m21, m13 + m31, m32 - m23);
      Quaternion(d.dominant, d.first, d.second, d.third)
    else if m22 > m33 then
      SqrtPositive(lib, 1.0 + m22 - m11 - m33);
      var d := DiagonalBranch(lib.sqrt(1.0 + m22 - m11 - m33), m12 + m21, m23 + m32, m13 - m31);
      Quaternion(d.first, d.dominant, d.second, d.third)
    else
      SqrtPositive(lib, 1.0 + m33 - m11 - m22);
      var d := DiagonalBranch(lib.sqrt(1.0 + m33 - m11 - m22), m13 + m31, m23 + m32, m21 - m12);
      Quaternion(d.first, d.second, d.dominant, d.third)
  }

  /** In the trace branch the dominant component w is positive, 4 w^2 == root^2 and 4 w * other == a, b, c. */
  lemma TraceBranchMeaning(root: real, a: real, b: real, c: real)
    requires 0.0 < root
    ensures var r := TraceBranch(root, a, b, c);
      && 0.0 < r.w && 4.0 * (r.w * r.w) == root * root
      && 4.0 * (r.w * r.x) == a && 4.0 * (r.w * r.y) == b && 4.0 * (r.w * r.z) == c
  {
  }

  /** In a diagonal branch the dominant component d is positive, 4 d^2 == root^2 and 4 d * other == a, b, c. */
  lemma DiagonalBranchMeaning(root: real, a: real, b: real, c: real)
    requires 0.0 < root
    ensures var d := DiagonalBranch(root, a, b, c);
      && 0.0 < d.dominant && 4.0 * (d.dominant * d.dominant) == root * root
      && 4.0 * (d.dominant * d.first) == a && 4.0 * (d.dominant * d.second) == b && 4.0 * (d.dominant * d.third) == c
  {
  }

  /**
   * The trace branch: w is the positive root of 4 w^2 == 1 + trace and the other components
   * satisfy 4 w x == m32 - m23, 4 w y == m13 - m31, 4 w z == m21 - m12.
   */
  lemma QuatFromMatrixTrace(lib: MathLib, m: Matrix)
    requires SqrtLaw(lib)
    requires m[0] + m[5] + m[10] > 0.0
    ensures var r := QuatFromMatrix(lib, m);
      && 0.0 < r.w && 4.0 * (r.w * r.w) == 1.0 + m[0] + m[5] + m[10]
      && 4.0 * (r.w * r.x) == m[6] - m[9] && 4.0 * (r.w * r.y) == m[8] - m[2] && 4.0 * (r.w * r.z) == m[1] - m[4]
  {
    var t := m[0] + m[5] + m[10] + 1.0;
    SqrtZero(lib, t);
    TraceBranchMeaning(lib.sqrt(t), m[6] - m[9], m[8] - m[2], m[1] - m[4]);
  }

  /**
   * The branch where m11 dominates the diagonal (and trace <= 0): x is the positive root of
   * 4 x^2 == 1.0 + m11 - m22 - m33 and 4 x * other gives the matching sums and differences.
   */
  lemma QuatFromMatrixX(lib: MathLib, m: Matrix)
    requires SqrtLaw(lib)
    requires m[0] + m[5] + m[10] <= 0.0 && m[0] > m[5] && m[0] > m[10]
    ensures var r := QuatFromMatrix(lib, m);
      && 0.0 < r.x && 4.0 * (r.x * r.x) == 1.0 + m[0] - m[5] - m[10]
      && 4.0 * (r.x * r.y) == m[4] + m[1] && 4.0 * (r.x * r.z) == m[8] + m[2] && 4.0 * (r.x * r.w) == m[6] - m[9]
  {
    var t := 1.0 + m[0] - m[5] - m[10];
    SqrtZero(lib, t);
    DiagonalBranchMeaning(lib.sqrt(t), m[4] + m[1], m[8] + m[2], m[6] - m[9]);
  }

  /**
   * The branch where m22 > m33 (and trace <= 0): y is the positive root of
   * 4 y^2 == 1.0 + m22 - m11 - m33 and 4 y * other gives the matching sums and differences.
   */
  lemma QuatFromMatrixY(lib: MathLib, m: Matrix)
    requires SqrtLaw(lib)
    requires m[0] + m[5] + m[10] <= 0.0 && !(m[0] > m[5] && m[0] > m[10]) && m[5] > m[10]
    ensures var r := QuatFromMatrix(lib, m);
      && 0.0 < r.y && 4.0 * (r.y * r.y) == 1.0 + m[5] - m[0] - m[10]
      && 4.0 * (r.y * r.x) == m[4] + m[1] && 4.0 * (r.y * r.z) == m[9] + m[6] && 4.0 * (r.y * r.w) == m[8] - m[2]
  {
    var t := 1.0 + m[5] - m[0] - m[10];
    SqrtZero(lib, t);
    DiagonalBranchMeaning(lib.sqrt(t), m[4] + m[1], m[9] + m[6], m[8] - m[2]);
  }

  /**
   * The branch where the last branch (and trace <= 0): z is the positive root of
   * 4 z^2 == 1.0 + m33 - m11 - m22 and 4 z * other gives the matching sums and differences.
   */
  lemma QuatFromMatrixZ(lib: MathLib, m: Matrix)
    requires SqrtLaw(lib)
    requires m[0] + m[5] + m[10] <= 0.0 && !(m[0] > m[5] && m[0] > m[10]) && !(m[5] > m[10])
    ensures var r := QuatFromMatrix(lib, m);
      && 0.0 < r.z && 4.0 * (r.z * r.z) == 1.0 + m[10] - m[0] - m[5]
      && 4.0 * (r.z * r.x) == m[8] + m[2] && 4.0 * (r.z * r.y) == m[9] + m[6] && 4.0 * (r.z * r.w) == m[1] - m[4]
  {
    var t := 1.0 + m[10] - m[0] - m[5];
    SqrtZero(lib, t);
    DiagonalBranchMeaning(lib.sqrt(t), m[8] + m[2], m[9] + m[6], m[1] - m[4]);
  }

  /** m11 ... m33 are the entries of the upper 3x3 block of m, as setFromRotationMatrix names them. */
  predicate UpperBlock(m: Matrix, m11: real, m12: real, m13: real, m21: real, m22: real, m23: real,
                       m31: real, m32: real, m33: real) {
    && m11 == m[0] && m12 == m[4] && m13 == m[8]
    && m21 == m[1] && m22 == m[5] && m23 == m[9]
    && m31 == m[2] && m32 == m[6] && m33 == m[10]
  }

  /** QuatFromMatrix in each of its four branches, written out on the named entries. */
  lemma QuatFromMatrixTraceCase(lib: MathLib, m: Matrix, m11: real, m12: real, m13: real, m21: real, m22: real,
                                m23: real, m31: real, m32: real, m33: real, trace: real)
    requires SqrtLaw(lib) && UpperBlock(m, m11, m12, m13, m21, m22, m23, m31, m32, m33)
    requires trace == m11 + m22 + m33 && trace > 0.0
    ensures 0.0 < lib.sqrt(trace + 1.0)
    ensures var s := 0.5 / lib.sqrt(trace + 1.0);
      QuatFromMatrix(lib, m) == Quaternion((m32 - m23) * s, (m13 - m31) * s, (m21 - m12) * s, 0.25 / s)
  {
    SqrtPositive(lib, trace + 1.0);
  }

  lemma QuatFromMatrixXCase(lib: MathLib, m: Matrix, m11: real, m12: real, m13: real, m21: real, m22: real,
                            m23: real, m31: real, m32: real, m33: real, trace: real)
    requires SqrtLaw(lib) && UpperBlock(m, m11, m12, m13, m21, m22, m23, m31, m32, m33)
    requires trace == m11 + m22 + m33 && trace <= 0.0 && m11 > m22 && m11 > m33
    ensures 0.0 < lib.sqrt(1.0 + m11 - m22 - m33)
    ensures var s := 2.0 * lib.sqrt(1.0 + m11 - m22 - m33);
      QuatFromMatrix(lib, m) == Quaternion(0.25 * s, (m12 + m21) / s, (m13 + m31) / s, (m32 - m23) / s)
  {
    SqrtPositive(lib, 1.0 + m11 - m22 - m33);
  }

  lemma QuatFromMatrixYCase(lib: MathLib, m: Matrix, m11: real, m12: real, m13: real, m21: real, m22: real,
                            m23: real, m31: real, m32: real, m33: real, trace: real)
    requires SqrtLaw(lib) && UpperBlock(m, m11, m12, m13, m21, m22, m23, m31, m32, m33)
    requires trace == m11 + m22 + m33 && trace <= 0.0 && !(m11 > m22 && m11 > m33) && m22 > m33
    ensures 0.0 < lib.sqrt(1.0 + m22 - m11 - m33)
    ensures var s := 2.0 * lib.sqrt(1.0 + m22 - m11 - m33);
      QuatFromMatrix(lib, m) == Quaternion((m12 + m21) / s, 0.25 * s, (m23 + m32) / s, (m13 - m31) / s)
  {
    SqrtPositive(lib, 1.0 + m22 - m11 - m33);
  }

  lemma QuatFromMatrixZCase(lib: MathLib, m: Matrix, m11: real, m12: real, m13: real, m21: real, m22: real,
                            m23: real, m31: real, m32: real, m33: real, trace: real)
    requires SqrtLaw(lib) && UpperBlock(m, m11, m12, m13, m21, m22, m23, m31, m32, m33)
    requires trace == m11 + m22 + m33 && trace <= 0.0 && !(m11 > m22 && m11 > m33) && !(m22 > m33)
    ensures 0.0 < lib.sqrt(1.0 + m33 - m11 - m22)
    ensures var s := 2.0 * lib.sqrt(1.0 + m33 - m11 - m22);
      QuatFromMatrix(lib, m) == Quaternion((m13 + m31) / s, (m23 + m32) / s, 0.25 * s, (m21 - m12) / s)
  {
    SqrtPositive(lib, 1.0 + m33 - m11 - m22);
  }

  /**
   * The sums and differences setFromRotationMatrix reads, as they stand in the rotation matrix
   * of the unit quaternion q: each is four times a product of two components of q.
   */
  predicate QuaternionRelations(m: Matrix, q: Quaternion) {
    && m[6] - m[9] == 4.0 * (q.w * q.x) && m[8] - m[2] == 4.0 * (q.w * q.y) && m[1] - m[4] == 4.0 * (q.w * q.z)
    && m[4] + m[1] == 4.0 * (q.x * q.y) && m[8] + m[2] == 4.0 * (q.x * q.z) && m[9] + m[6] == 4.0 * (q.y * q.z)
    && 1.0 + m[0] - m[5] - m[10] == 4.0 * (q.x * q.x)
    && 1.0 + m[5] - m[0] - m[10] == 4.0 * (q.y * q.y)
    && 1.0 + m[10] - m[0] - m[5] == 4.0 * (q.z * q.z)
    && 1.0 + m[0] + m[5] + m[10] == 4.0 * (q.w * q.w)
  }

  /** The matrix compose() builds from a unit quaternion (unit scale) has those relations. */
  lemma ComposeRelations(q: Quaternion, position: Vector3)
    requires Norm2(q) == 1.0
    ensures QuaternionRelations(Compose(q, position, Vector3(1.0, 1.0, 1.0)), q)
  {
    ComposeSums(q, position);
  }

  /** The same sums on the compose() rotation block for a quaternion of any norm. */
  lemma ComposeSums(q: Quaternion, position: Vector3)
    ensures var m := Compose(q, position, Vector3(1.0, 1.0, 1.0));
      && m[6] - m[9] == 4.0 * (q.w * q.x) && m[8] - m[2] == 4.0 * (q.w * q.y) && m[1] - m[4] == 4.0 * (q.w * q.z)
      && m[4] + m[1] == 4.0 * (q.x * q.y) && m[8] + m[2] == 4.0 * (q.x * q.z) && m[9] + m[6] == 4.0 * (q.y * q.z)
      && 1.0 + m[0] - m[5] - m[10] == 4.0 * (q.x * q.x)
      && 1.0 + m[5] - m[0] - m[10] == 4.0 * (q.y * q.y)
      && 1.0 + m[10] - m[0] - m[5] == 4.0 * (q.z * q.z)
      && 1.0 + m[0] + m[5] + m[10] == 4.0 * (q.w * q.w) + 4.0 * (1.0 - Norm2(q))
  {
  }

  /**
   * A positive d with 4 d^2 == 4 a^2 and 4 d e_i == 4 a b_i: (d, e) is (a, b) or its negation.
   */
  lemma SignedMatch(d: real, e1: real, e2: real, e3: real, a: real, b1: real, b2: real, b3: real)
    requires 0.0 < d && 4.0 * (d * d) == 4.0 * (a * a)
    requires 4.0 * (d * e1) == 4.0 * (a * b1) && 4.0 * (d * e2) == 4.0 * (a * b2) && 4.0 * (d * e3) == 4.0 * (a * b3)
    ensures (d == a && e1 == b1 && e2 == b2 && e3 == b3) || (d == -a && e1 == -b1 && e2 == -b2 && e3 == -b3)
  {
    SquareRootsAgree(d, Abs(a));
  }

  /**
   * setFromRotationMatrix undoes compose() with unit scale: from the matrix of a unit quaternion
   * q it recovers q or -q (both describe the same rotation), whichever branch runs.
   */
  lemma QuatFromMatrixRoundTrip(lib: MathLib, q: Quaternion, position: Vector3)
    requires SqrtLaw(lib) && Norm2(q) == 1.0
    ensures var r := QuatFromMatrix(lib, Compose(q, position, Vector3(1.0, 1.0, 1.0)));
      r == q || r == Negate(q)
  {
    ComposeRelations(q, position);
    QuatFromRelations(lib, Compose(q, position, Vector3(1.0, 1.0, 1.0)), q);
  }

  /** On any matrix with the relations of q, setFromRotationMatrix returns q or -q. */
  lemma QuatFromRelations(lib: MathLib, m: Matrix, q: Quaternion)
    requires SqrtLaw(lib) && QuaternionRelations(m, q)
    ensures QuatFromMatrix(lib, m) == q || QuatFromMatrix(lib, m) == Negate(q)
  {
    if m[0] + m[5] + m[10] > 0.0 {
      RelationsTrace(lib, m, q);
    } else if m[0] > m[5] && m[0] > m[10] {
      RelationsX(lib, m, q);
    } else if m[5] > m[10] {
      RelationsY(lib, m, q);
    } else {
      RelationsZ(lib, m, q);
    }
  }

  lemma RelationsTrace(lib: MathLib, m: Matrix, q: Quaternion)
    requires SqrtLaw(lib) && QuaternionRelations(m, q)
    requires m[0] + m[5] + m[10] > 0.0
    ensures QuatFromMatrix(lib, m) == q || QuatFromMatrix(lib, m) == Negate(q)
  {
    var r := QuatFromMatrix(lib, m);
    QuatFromMatrixTrace(lib, m);
    SignedMatch(r.w, r.x, r.y, r.z, q.w, q.x, q.y, q.z);
  }

  lemma RelationsX(lib: MathLib, m: Matrix, q: Quaternion)
    requires SqrtLaw(lib) && QuaternionRelations(m, q)
    requires m[0] + m[5] + m[10] <= 0.0 && m[0] > m[5] && m[0] > m[10]
    ensures QuatFromMatrix(lib, m) == q || QuatFromMatrix(lib, m) == Negate(q)
  {
    var r := QuatFromMatrix(lib, m);
    QuatFromMatrixX(lib, m);
    SignedMatch(r.x, r.y, r.z, r.w, q.x, q.y, q.z, q.w);
  }

  lemma RelationsY(lib: MathLib, m: Matrix, q: Quaternion)
    requires SqrtLaw(lib) && QuaternionRelations(m, q)
    requires m[0] + m[5] + m[10] <= 0.0 && !(m[0] > m[5] && m[0] > m[10]) && m[5] > m[10]
    ensures QuatFromMatrix(lib, m) == q || QuatFromMatrix(lib, m) == Negate(q)
  {
    var r := QuatFromMatrix(lib, m);
    QuatFromMatrixY(lib, m);
    SignedMatch(r.y, r.x, r.z, r.w, q.y, q.x, q.z, q.w);
  }

  lemma RelationsZ(lib: MathLib, m: Matrix, q: Quaternion)
    requires SqrtLaw(lib) && QuaternionRelations(m, q)
    requires m[0] + m[5] + m[10] <= 0.0 && !(m[0] > m[5] && m[0] > m[10]) && !(m[5] > m[10])
    ensures QuatFromMatrix(lib, m) == q || QuatFromMatrix(lib, m) == Negate(q)
  {
    var r := QuatFromMatrix(lib, m);
    QuatFromMatrixZ(lib, m);
    SignedMatch(r.z, r.x, r.y, r.w, q.z, q.x, q.y, q.w);
  }

  /** What Euler.setFromQuat(q) stores. */
  function AnglesFromQuat(lib: MathLib, q: Quaternion): Angles {
    Angles(
      lib.atan2(RollArg(q), RollCos(q)),
      lib.asin(Clamp(PitchArg(q), -1.0, 1.0)),
      lib.atan2(YawArg(q), YawCos(q)))
  }

  /**
   * The arguments setFromQuat passes to atan2 and asin: 2 (w x + y z) and 1 - 2 (x^2 + y^2) for x,
   * 2 (w y - z x) for y, 2 (w z + x y) and 1 - 2 (y^2 + z^2) for z.
   */
  function RollArg(q: Quaternion): real {
    2.0 * (q.w * q.x + q.y * q.z)
  }

  function RollCos(q: Quaternion): real {
    1.0 - 2.0 * (q.x * q.x + q.y * q.y)
  }

  function YawCos(q: Quaternion): real {
    1.0 - 2.0 * (q.y * q.y + q.z * q.z)
  }

  function PitchArg(q: Quaternion): real {
    2.0 * (q.w * q.y - q.z * q.x)
  }

  function YawArg(q: Quaternion): real {
    2.0 * (q.w * q.z + q.x * q.y)
  }

  /**
   * The threshold on |m31| above which setFromRotationMatrix treats the matrix as gimbal-locked
   * (y at +-PI/2) and sets x to zero.
   */
  const GimbalThreshold: real := 0.99999

  /**
   * What Euler.setFromRotationMatrix(m) stores, reading m11 = slot 0, m12 = slot 4,
   * m21 = slot 1, m22 = slot 5, m31 = slot 2, m32 = slot 6, m33 = slot 10.
   */
  function AnglesFromMatrix(lib: MathLib, m: Matrix): Angles {
    var m11, m12 := m[0], m[4];
    var m21, m22 := m[1], m[5];
    var m31, m32, m33 := m[2], m[6], m[10];
    var y := lib.asin(-Clamp(m31, -1.0, 1.0));
    if Abs(m31) < GimbalThreshold then
      Angles(lib.atan2(m32, m33), y, lib.atan2(m21, m11))
    else
      Angles(0.0, y, lib.atan2(-m12, m22))
  }

  /**
   * For a unit quaternion the argument setFromQuat clamps already lies in [-1, 1]:
   * 1 - 2 (w y - z x) == (w - y)^2 + (x + z)^2 and 1 + 2 (w y - z x) == (w + y)^2 + (x - z)^2.
   */
  lemma AnglesFromQuatClampUnneeded(q: Quaternion)
    requires Norm2(q) == 1.0
    ensures -1.0 <= PitchArg(q) <= 1.0
    ensures Clamp(PitchArg(q), -1.0, 1.0) == PitchArg(q)
  {
    SquareSign(q.w - q.y);
    SquareSign(q.x + q.z);
    SquareSign(q.w + q.y);
    SquareSign(q.x - q.z);
    assert 1.0 - PitchArg(q) == Sq(q.w - q.y) + Sq(q.x + q.z);
    assert 1.0 + PitchArg(q) == Sq(q.w + q.y) + Sq(q.x - q.z);
  }

  /**
   * setFromQuat agrees with setFromRotationMatrix applied to the matrix compose() builds from
   * the same quaternion, whenever that matrix is away from gimbal lock.
   */
  lemma AnglesFromQuatMatchesMatrix(lib: MathLib, q: Quaternion, position: Vector3)
    requires var m := Compose(q, position, Vector3(1.0, 1.0, 1.0)); Abs(m[2]) < GimbalThreshold
    ensures AnglesFromQuat(lib, q) == AnglesFromMatrix(lib, Compose(q, position, Vector3(1.0, 1.0, 1.0)))
  {
    var m := Compose(q, position, Vector3(1.0, 1.0, 1.0));
    ComposeEulerEntries(q, position);
    assert -Clamp(m[2], -1.0, 1.0) == Clamp(PitchArg(q), -1.0, 1.0);
  }

  /** The five entries of the compose() matrix (unit scale) that setFromRotationMatrix reads. */
  lemma ComposeEulerEntries(q: Quaternion, position: Vector3)
    ensures var m := Compose(q, position, Vector3(1.0, 1.0, 1.0));
      && m[2] == -PitchArg(q)
      && m[6] == RollArg(q) && m[10] == RollCos(q)
      && m[1] == YawArg(q) && m[0] == YawCos(q)
  {
  }

  /** A point of the unit circle has coordinates in [-1, 1]. */
  lemma UnitCircleBound(s: real, c: real)
    requires s * s + c * c == 1.0
    ensures -1.0 <= s <= 1.0
  {
    SquareSign(c);
    if 1.0 < s {
      MulPositive(s - 1.0, s + 1.0);
    } else if s < -1.0 {
      MulPositive(-1.0 - s, 1.0 - s);
    }
  }

  /** atan2 recovers an angle in (-PI, PI] from any positive multiple of its direction. */
  lemma Atan2OfScaledDirection(lib: MathLib, k: real, t: real)
    requires Atan2Law(lib) && PythagoreanLaw(lib)
    requires -lib.pi < t <= lib.pi && 0.0 < k
    ensures lib.atan2(Mul(k, lib.sin(t)), Mul(k, lib.cos(t))) == t
  {
    var sn, cs := lib.sin(t), lib.cos(t);
    assert sn * sn + cs * cs == 1.0;
    assert (k * sn) * sn + (k * cs) * cs == k * (sn * sn + cs * cs);
  }

  /**
   * setFromRotationMatrix undoes makeRotationFromEuler away from gimbal lock: angles with x and z
   * in (-PI, PI], y in [-PI/2, PI/2] with cos y > 0 and |sin y| below the threshold come back unchanged.
   */
  lemma AnglesFromEulerMatrix(lib: MathLib, e: Angles)
    requires PythagoreanLaw(lib) && AsinLaw(lib) && Atan2Law(lib)
    requires -lib.pi < e.x <= lib.pi && -lib.pi / 2.0 <= e.y <= lib.pi / 2.0 && -lib.pi < e.z <= lib.pi
    requires 0.0 < lib.cos(e.y) && Abs(lib.sin(e.y)) < GimbalThreshold
    ensures AnglesFromMatrix(lib, EulerMatrix(lib, e)) == e
  {
    EulerEntries(lib, e);
    AnglesFromRegularEntries(lib, EulerMatrix(lib, e), e);
  }

  /** The entries of the makeRotationFromEuler matrix that setFromRotationMatrix reads. */
  lemma EulerEntries(lib: MathLib, e: Angles)
    ensures var m, c1, s1, c2, s2, c3, s3 := EulerMatrix(lib, e),
      lib.cos(e.x), lib.sin(e.x), lib.cos(e.y), lib.sin(e.y), lib.cos(e.z), lib.sin(e.z);
      && m[2] == -s2 && m[6] == Mul(c2, s1) && m[10] == Mul(c2, c1) && m[1] == Mul(c2, s3) && m[0] == Mul(c2, c3)
      && m[4] == (s1 * c3) * s2 - c1 * s3 && m[5] == c1 * c3 + (s1 * s3) * s2
  {
    EulerMatrixStored(lib, e);
  }

  /** The regular branch of setFromRotationMatrix, on any matrix with the entries of a rotation by e. */
  lemma AnglesFromRegularEntries(lib: MathLib, m: Matrix, e: Angles)
    requires PythagoreanLaw(lib) && AsinLaw(lib) && Atan2Law(lib)
    requires -lib.pi < e.x <= lib.pi && -lib.pi / 2.0 <= e.y <= lib.pi / 2.0 && -lib.pi < e.z <= lib.pi
    requires 0.0 < lib.cos(e.y) && Abs(lib.sin(e.y)) < GimbalThreshold
    requires var c1, s1, c2, s2, c3, s3 :=
      lib.cos(e.x), lib.sin(e.x), lib.cos(e.y), lib.sin(e.y), lib.cos(e.z), lib.sin(e.z);
      m[2] == -s2 && m[6] == Mul(c2, s1) && m[10] == Mul(c2, c1) && m[1] == Mul(c2, s3) && m[0] == Mul(c2, c3)
    ensures AnglesFromMatrix(lib, m) == e
  {
    var c2, s2 := lib.cos(e.y), lib.sin(e.y);
    UnitCircleBound(s2, c2);
    assert -Clamp(m[2], -1.0, 1.0) == s2;
    Atan2OfScaledDirection(lib, c2, e.x);
    Atan2OfScaledDirection(lib, c2, e.z);
  }

  /**
   * In gimbal lock setFromRotationMatrix fixes x at zero and reads z from m12 and m22: angles with
   * x == 0, y in [-PI/2, PI/2] at or beyond the threshold, and z in (-PI, PI] come back unchanged.
   */
  lemma AnglesFromEulerMatrixGimbal(lib: MathLib, e: Angles)
    requires PythagoreanLaw(lib) && AsinLaw(lib) && Atan2Law(lib) && ZeroAngleLaw(lib)
    requires e.x == 0.0 && -lib.pi / 2.0 <= e.y <= lib.pi / 2.0 && -lib.pi < e.z <= lib.pi
    requires GimbalThreshold <= Abs(lib.sin(e.y))
    ensures AnglesFromMatrix(lib, EulerMatrix(lib, e)) == e
  {
    var m := EulerMatrix(lib, e);
    var c2, s2 := lib.cos(e.y), lib.sin(e.y);
    var c3, s3 := lib.cos(e.z), lib.sin(e.z);
    EulerEntries(lib, e);
    assert m[4] == -s3 && m[5] == c3;
    UnitCircleBound(s2, c2);
    assert -Clamp(m[2], -1.0, 1.0) == s2;
    Atan2OfScaledDirection(lib, 1.0, e.z);
    assert -m[4] == Mul(1.0, s3) && m[5] == Mul(1.0, c3);
  }
}
