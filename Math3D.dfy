/**
 * The classes of src/core/Math.ts as mutable objects: Vec3, Mat4, Quat, Euler and Spherical.
 * Every method writes the fields (or, for Mat4, the sixteen-slot element array) in place, as the
 * source does, and its postcondition ties the new state to the value-level function that the
 * other modules define and prove things about. Optional `out` arguments may be the receiver
 * itself; every postcondition is stated over the values read before the call, so it holds under
 * that aliasing too.
 */
module Math3D {
  import opened Scalar
  import opened Vectors
  import opened Matrices
  import opened Inversion
  import opened Rotations
  import opened Views
  import opened Cofactors
  import SC = SphericalCoords

  /** The outcome of Mat4.invert: it fails, without writing anything, on a zero determinant. */
  datatype InvertOutcome = Inverted | SingularMatrix

  class Vec3 {
    var x: real
    var y: real
    var z: real

    constructor(x0: real, y0: real, z0: real)
      ensures Value() == Vector3(x0, y0, z0)
    {
      x, y, z := x0, y0, z0;
    }

    function Value(): Vector3
      reads this
    {
      Vector3(x, y, z)
    }

    method Set(x0: real, y0: real, z0: real)
      modifies this
      ensures Value() == Vector3(x0, y0, z0)
    {
      x := x0;
      y := y0;
      z := z0;
    }

    /** set(s) with the optional y and z left out: both default to the first argument. */
    method SetAll(s: real)
      modifies this
      ensures Value() == Vector3(s, s, s)
    {
      Set(s, s, s);
    }

    /** An exact test, no tolerance. */
    method IsZero() returns (b: bool)
      ensures b <==> Value() == Zero()
    {
      b := x == 0.0 && y == 0.0 && z == 0.0;
    }

    method Clone() returns (c: Vec3)
      ensures fresh(c) && c.Value() == Value()
    {
      c := new Vec3(0.0, 0.0, 0.0);
      c.Copy(this);
    }

    method Copy(b: Vec3)
      modifies this
      ensures Value() == old(b.Value())
    {
      x := b.x;
      y := b.y;
      z := b.z;
    }

    method Equals(b: Vec3) returns (eq: bool)
      ensures eq <==> Value() == b.Value()
    {
      eq := x == b.x && y == b.y && z == b.z;
    }

    method Add(b: Vec3, out: Vec3)
      modifies out
      ensures out.Value() == Vectors.Add(old(Value()), old(b.Value()))
    {
      var bX, bY, bZ := b.x, b.y, b.z;
      out.x := x + bX;
      out.y := y + bY;
      out.z := z + bZ;
    }

    method Sub(b: Vec3, out: Vec3)
      modifies out
      ensures out.Value() == Vectors.Sub(old(Value()), old(b.Value()))
    {
      var aX, aY, aZ, bX, bY, bZ := x, y, z, b.x, b.y, b.z;
      out.x := aX - bX;
      out.y := aY - bY;
      out.z := aZ - bZ;
    }

    method Length(lib: MathLib) returns (r: real)
      requires SqrtLaw(lib)
      ensures r == Vectors.Length(lib, Value())
      ensures 0.0 <= r && (r == 0.0 <==> Value() == Zero())
    {
      var l2 := Length2();
      r := lib.sqrt(l2);
    }

    method Length2() returns (r: real)
      ensures r == Vectors.Length2(Value())
      ensures 0.0 <= r
    {
      r := x * x + y * y + z * z;
    }

    /** scale(1 / length(), out); a zero vector has no direction (floating point gives NaN). */
    method Normalize(lib: MathLib, out: Vec3)
      requires SqrtLaw(lib) && Value() != Zero()
      modifies out
      ensures out.Value() == Vectors.Normalize(lib, old(Value()))
      ensures Vectors.Length2(out.Value()) == 1.0
    {
      var l := Length(lib);
      Scale(1.0 / l, out);
    }

    method Scale(s: real, out: Vec3)
      modifies out
      ensures out.Value() == Vectors.Scale(old(Value()), s)
    {
      var aX, aY, aZ := x, y, z;
      out.x := aX * s;
      out.y := aY * s;
      out.z := aZ * s;
    }

    /** Both operands are read into locals before out is written, so out may be either of them. */
    method Cross(b: Vec3, out: Vec3)
      modifies out
      ensures out.Value() == Vectors.Cross(old(Value()), old(b.Value()))
    {
      var aX, aY, aZ := x, y, z;
      var bX, bY, bZ := b.x, b.y, b.z;
      out.x := aY * bZ - aZ * bY;
      out.y := aZ * bX - aX * bZ;
      out.z := aX * bY - aY * bX;
    }

    method SetFromMatrixPosition(m: Mat4)
      requires m.Valid()
      modifies this
      ensures Value() == Position(m.Value())
    {
      var me := m.elements;
      x := me[12];
      y := me[13];
      z := me[14];
    }

    method SetFromSpherical(lib: MathLib, s: Spherical)
      modifies this
      ensures Value() == SC.FromSpherical(lib, old(s.radius), old(s.phi), old(s.theta))
    {
      SetFromSphericalCoords(lib, s.radius, s.phi, s.theta);
    }

    method SetFromSphericalCoords(lib: MathLib, radius: real, phi: real, theta: real)
      modifies this
      ensures Value() == SC.FromSpherical(lib, radius, phi, theta)
    {
      var sinPhiRadius := lib.sin(phi) * radius;
      x := sinPhiRadius * lib.sin(theta);
      y := lib.cos(phi) * radius;
      z := sinPhiRadius * lib.cos(theta);
    }

    /** Writes x, y, z into slots offset .. offset + 2 and nothing else. */
    method ToArray(a: array<real>, offset: nat)
      requires offset + 3 <= a.Length
      modifies a
      ensures a[..] == old(a[..])[offset := x][offset + 1 := y][offset + 2 := z]
    {
      a[offset] := x;
      a[offset + 1] := y;
      a[offset + 2] := z;
    }
  }

  class Mat4 {
    const elements: array<real>
    /** The private scratch vectors of lookAt, one triple per matrix. */
    const xAxis: Vec3
    const yAxis: Vec3
    const zAxis: Vec3

    ghost predicate Valid()
      reads this
    {
      elements.Length == 16
    }

    /** The three scratch vectors are distinct objects. */
    ghost predicate ScratchDistinct()
      reads this
    {
      xAxis != yAxis && yAxis != zAxis && xAxis != zAxis
    }

    function Value(): Matrix
      requires Valid()
      reads this, elements
    {
      elements[..]
    }

    /** Every matrix starts as the identity, with its own element array and scratch vectors. */
    constructor()
      ensures Valid() && ScratchDistinct() && Value() == Identity()
      ensures fresh(elements) && fresh(xAxis) && fresh(yAxis) && fresh(zAxis)
    {
      elements := new real[16] [1.0, 0.0, 0.0, 0.0, 0.0, 1.0, 0.0, 0.0, 0.0, 0.0, 1.0, 0.0, 0.0, 0.0, 0.0, 1.0];
      xAxis := new Vec3(0.0, 0.0, 0.0);
      yAxis := new Vec3(0.0, 0.0, 0.0);
      zAxis := new Vec3(0.0, 0.0, 0.0);
    }

    /**
     * Writes the sixteen slots of m. The methods below compute every value they store from what
     * they read before their first write, so storing all slots at once leaves the same array as
     * the slot-by-slot writes of the source.
     */
    method Store(m: Matrix)
      requires Valid()
      modifies elements
      ensures Value() == m
    {
      forall i | 0 <= i < 16 {
        elements[i] := m[i];
      }
    }

    /** The arguments are the matrix read row by row; storage is column by column. */
    method Set(m00: real, m10: real, m20: real, m30: real,
               m01: real, m11: real, m21: real, m31: real,
               m02: real, m12: real, m22: real, m32: real,
               m03: real, m13: real, m23: real, m33: real)
      requires Valid()
      modifies elements
      ensures Value() == FromRows([m00, m10, m20, m30, m01, m11, m21, m31, m02, m12, m22, m32, m03, m13, m23, m33])
    {
      Store(FromRows([m00, m10, m20, m30, m01, m11, m21, m31, m02, m12, m22, m32, m03, m13, m23, m33]));
    }

    /** m may be this matrix itself. */
    method Copy(m: Mat4)
      requires Valid() && m.Valid()
      modifies elements
      ensures Value() == old(m.Value())
    {
      Store(m.Value());
    }

    method Clone() returns (c: Mat4)
      requires Valid()
      ensures fresh(c) && fresh(c.elements) && c.Valid() && c.ScratchDistinct() && c.Value() == Value()
    {
      c := new Mat4();
      c.Copy(this);
    }

    /** The divisions need tan(fovy / 2), aspect and near - far nonzero (else Infinity or NaN). */
    method Perspective(lib: MathLib, fovy: real, aspect: real, near: real, far: real)
      requires Valid()
      requires lib.tan(fovy / 2.0) != 0.0 && aspect != 0.0 && near != far
      modifies elements
      ensures Value() == Matrices.Perspective(lib, fovy, aspect, near, far)
    {
      Store(Matrices.Perspective(lib, fovy, aspect, near, far));
    }

    /** The divisions need left != right, bottom != top and near != far. */
    method Ortho(left: real, right: real, bottom: real, top: real, near: real, far: real)
      requires Valid()
      requires left != right && bottom != top && near != far
      modifies elements
      ensures Value() == Matrices.Ortho(left, right, bottom, top, near, far)
    {
      Store(Matrices.Ortho(left, right, bottom, top, near, far));
    }

    /**
     * lookAt with the corrected nudge rule (see Views): the scratch vectors receive the axes,
     * which then go into slots 0-2, 4-6 and 8-10. The result is defined for every up but the
     * zero vector, which leaves the x axis zero and normalises it (NaN in floating point).
     */
    method LookAt(lib: MathLib, eye: Vec3, target: Vec3, up: Vec3)
      requires Valid() && ScratchDistinct() && SqrtLaw(lib)
      requires up.Value() != Zero()
      requires eye !in {xAxis, yAxis, zAxis} && target !in {xAxis, yAxis, zAxis} && up !in {xAxis, yAxis, zAxis}
      modifies elements, xAxis, yAxis, zAxis
      ensures Value() == WithRotationBlock(old(Value()), LookAtBasis(lib, old(eye.Value()), old(target.Value()), old(up.Value())))
    {
      ViewAxis(lib, eye, target);
      ghost var z0 := zAxis.Value();
      RightAxis(lib, up);
      FallbackAxesProper(lib, eye.Value(), target.Value(), up.Value(), zAxis.Value(), xAxis.Value());
      LookAtBasisFromFallback(lib, eye.Value(), target.Value(), up.Value(), zAxis.Value(), xAxis.Value());
      ghost var b := Axes(lib, zAxis.Value(), xAxis.Value());
      xAxis.Normalize(lib, xAxis);
      zAxis.Cross(xAxis, yAxis);
      assert Basis(xAxis.Value(), yAxis.Value(), zAxis.Value()) == b;
      WriteAxes();
    }

    /** The first step of lookAt: zAxis = normalize(eye - target), with z forced to 1 on eye == target. */
    method ViewAxis(lib: MathLib, eye: Vec3, target: Vec3)
      requires ScratchDistinct() && SqrtLaw(lib)
      requires eye != zAxis && target != zAxis
      modifies zAxis
      ensures zAxis.Value() == Normalize(lib, ViewDirection(old(eye.Value()), old(target.Value())))
    {
      eye.Sub(target, zAxis);
      var coincident := zAxis.IsZero();
      if coincident {
        zAxis.z := 1.0;
      }
      zAxis.Normalize(lib, zAxis);
    }

    /**
     * The second step of lookAt: xAxis = up x zAxis, and when that is exactly zero, zAxis is
     * nudged, renormalised and xAxis recomputed.
     */
    method RightAxis(lib: MathLib, up: Vec3)
      requires ScratchDistinct() && SqrtLaw(lib)
      requires up != xAxis && up != zAxis && Length2(zAxis.Value()) == 1.0
      modifies xAxis, zAxis
      ensures (zAxis.Value(), xAxis.Value()) == FallbackAxes(lib, old(up.Value()), old(zAxis.Value()), NudgeOnX(old(up.Value())))
    {
      ghost var z0 := zAxis.Value();
      up.Cross(zAxis, xAxis);
      var parallel := xAxis.IsZero();
      if parallel {
        if NudgeOnX(up.Value()) {
          zAxis.x := zAxis.x + Nudge;
        } else {
          zAxis.z := zAxis.z + Nudge;
        }
        assert zAxis.Value() == Nudged(z0, NudgeOnX(up.Value()));
        NudgedNonzero(z0, NudgeOnX(up.Value()));
        zAxis.Normalize(lib, zAxis);
        up.Cross(zAxis, xAxis);
      }
    }

    /** The last step of lookAt: the three axes go into the first three columns, nothing else is written. */
    method WriteAxes()
      requires Valid()
      modifies elements
      ensures Value() == WithRotationBlock(old(Value()), Basis(xAxis.Value(), yAxis.Value(), zAxis.Value()))
    {
      var te := elements;
      te[0] := xAxis.x;
      te[1] := xAxis.y;
      te[2] := xAxis.z;
      te[4] := yAxis.x;
      te[5] := yAxis.y;
      te[6] := yAxis.z;
      te[8] := zAxis.x;
      te[9] := zAxis.y;
      te[10] := zAxis.z;
    }

    /**
     * out = this * b. All sixteen entries of `this` are staged in a local copy before out is
     * written, and each column of b is read just before the same column of out is written, so
     * out may be this matrix, b, or both.
     */
    method Multiply(b: Mat4, out: Mat4)
      requires Valid() && b.Valid() && out.Valid()
      modifies out.elements
      ensures out.Value() == Matrices.Multiply(old(Value()), old(b.Value()))
    {
      ghost var bm := b.Value();
      var a := Value();
      var be, oe := b.elements, out.elements;
      var b0, b1, b2, b3 := be[0], be[1], be[2], be[3];
      StoreColumn(oe, 0, a, b0, b1, b2, b3);
      b0, b1, b2, b3 := be[4], be[5], be[6], be[7];
      StoreColumn(oe, 1, a, b0, b1, b2, b3);
      b0, b1, b2, b3 := be[8], be[9], be[10], be[11];
      StoreColumn(oe, 2, a, b0, b1, b2, b3);
      b0, b1, b2, b3 := be[12], be[13], be[14], be[15];
      StoreColumn(oe, 3, a, b0, b1, b2, b3);
      MultiplySlots(a, bm);
      SlotsEqual(out.Value(), Matrices.Multiply(a, bm));
    }

    /**
     * One column of multiply: slot 4 * c + r of oe receives row r of the staged receiver a times
     * the column (b0, b1, b2, b3); the other twelve slots are not written.
     */
    static method StoreColumn(oe: array<real>, c: nat, a: Matrix, b0: real, b1: real, b2: real, b3: real)
      requires oe.Length == 16 && c < 4
      modifies oe
      ensures forall k :: 0 <= k < 4 * c || 4 * c + 4 <= k < 16 ==> oe[k] == old(oe[k])
      ensures oe[4 * c] == Dot4(a[0], a[4], a[8], a[12], b0, b1, b2, b3)
      ensures oe[4 * c + 1] == Dot4(a[1], a[5], a[9], a[13], b0, b1, b2, b3)
      ensures oe[4 * c + 2] == Dot4(a[2], a[6], a[10], a[14], b0, b1, b2, b3)
      ensures oe[4 * c + 3] == Dot4(a[3], a[7], a[11], a[15], b0, b1, b2, b3)
    {
      oe[4 * c] := Dot4(a[0], a[4], a[8], a[12], b0, b1, b2, b3);
      oe[4 * c + 1] := Dot4(a[1], a[5], a[9], a[13], b0, b1, b2, b3);
      oe[4 * c + 2] := Dot4(a[2], a[6], a[10], a[14], b0, b1, b2, b3);
      oe[4 * c + 3] := Dot4(a[3], a[7], a[11], a[15], b0, b1, b2, b3);
    }

    method Compose(q: Quat, position: Vec3, scale: Vec3)
      requires Valid()
      modifies elements
      ensures Value() == Rotations.Compose(old(q.Value()), old(position.Value()), old(scale.Value()))
    {
      Store(Rotations.Compose(q.Value(), position.Value(), scale.Value()));
    }

    /**
     * out = the inverse of this matrix. On an exactly zero determinant the source throws before
     * writing; here that is the SingularMatrix outcome, with out left as it was.
     */
    method Invert(out: Mat4) returns (outcome: InvertOutcome)
      requires Valid() && out.Valid()
      modifies out.elements
      ensures outcome == SingularMatrix <==> Det(old(Value())) == 0.0
      ensures outcome == SingularMatrix ==> out.Value() == old(out.Value())
      ensures outcome == Inverted ==> Det(old(Value())) != 0.0 && out.Value() == Inverse(old(Value()))
    {
      var a := Value();
      if Det(a) == 0.0 {
        return SingularMatrix;
      }
      out.Store(Inverse(a));
      return Inverted;
    }

    method MakeTranslation(x: real, y: real, z: real)
      requires Valid()
      modifies elements
      ensures Value() == Translation(Vector3(x, y, z))
    {
      Set(
        1.0, 0.0, 0.0, x,
        0.0, 1.0, 0.0, y,
        0.0, 0.0, 1.0, z,
        0.0, 0.0, 0.0, 1.0);
    }

    method MakeRotationFromEuler(lib: MathLib, euler: Euler)
      requires Valid()
      modifies elements
      ensures Value() == EulerMatrix(lib, old(euler.Value()))
    {
      var x, y, z := euler.x, euler.y, euler.z;
      var c1, s1 := lib.cos(x), lib.sin(x);
      var c2, s2 := lib.cos(y), lib.sin(y);
      var c3, s3 := lib.cos(z), lib.sin(z);
      Store(EulerRotation(c1, s1, c2, s2, c3, s3));
    }

    /** Overwrites the translation column of out with v; `this` is not read. */
    method Translate(v: Vec3, out: Mat4)
      requires out.Valid()
      modifies out.elements
      ensures out.Value() == WithTranslation(old(out.Value()), old(v.Value()))
    {
      TranlateFromCartesianCoords(v.x, v.y, v.z, out);
    }

    /** The source's spelling of the name is kept. */
    method TranlateFromCartesianCoords(x: real, y: real, z: real, out: Mat4)
      requires out.Valid()
      modifies out.elements
      ensures out.Value() == WithTranslation(old(out.Value()), Vector3(x, y, z))
    {
      var oe := out.elements;
      oe[12] := x;
      oe[13] := y;
      oe[14] := z;
      oe[15] := 1.0;
    }

    /** Writes the sixteen slots, in storage order, into a[offset .. offset + 16]. */
    method ToArray(a: array<real>, offset: nat)
      requires Valid() && offset + 16 <= a.Length
      modifies a
      ensures a[..] == old(a[..offset]) + old(Value()) + old(a[offset + 16..])
    {
      forall k | 0 <= k < 16 {
        a[offset + k] := elements[k];
      }
    }
  }

  class Quat {
    var x: real
    var y: real
    var z: real
    var w: real

    /** A new quaternion is the identity rotation (0, 0, 0, 1). */
    constructor()
      ensures Value() == IdentityQuaternion()
    {
      x, y, z, w := 0.0, 0.0, 0.0, 1.0;
    }

    function Value(): Quaternion
      reads this
    {
      Quaternion(x, y, z, w)
    }

    method Set(x0: real, y0: real, z0: real, w0: real)
      modifies this
      ensures Value() == Quaternion(x0, y0, z0, w0)
    {
      x := x0;
      y := y0;
      z := z0;
      w := w0;
    }

    method Copy(b: Quat)
      modifies this
      ensures Value() == old(b.Value())
    {
      x := b.x;
      y := b.y;
      z := b.z;
      w := b.w;
    }

    method Clone() returns (c: Quat)
      ensures fresh(c) && c.Value() == Value()
    {
      c := new Quat();
      c.Copy(this);
    }

    method Equals(b: Quat) returns (eq: bool)
      ensures eq <==> Value() == b.Value()
    {
      eq := x == b.x && y == b.y && z == b.z && w == b.w;
    }
    /**
     * Reads the upper 3x3 block of m (assumed a pure rotation) and takes the branch on the trace
     * or on the dominant diagonal entry; every argument of sqrt is positive.
     */
    method SetFromRotationMatrix(lib: MathLib, m: Mat4)
      requires SqrtLaw(lib) && m.Valid()
      modifies this
      ensures Value() == QuatFromMatrix(lib, old(m.Value()))
    {
      var me := m.Value();
      var m11, m12, m13 := me[0], me[4], me[8];
      var m21, m22, m23 := me[1], me[5], me[9];
      var m31, m32, m33 := me[2], me[6], me[10];
      var trace := m11 + m22 + m33;
      var qx, qy, qz, qw;
      if trace > 0.0 {
        QuatFromMatrixTraceCase(lib, me, m11, m12, m13, m21, m22, m23, m31, m32, m33, trace);
        var s := 0.5 / lib.sqrt(trace + 1.0);
        qw := 0.25 / s;
        qx := (m32 - m23) * s;
        qy := (m13 - m31) * s;
        qz := (m21 - m12) * s;
        assert Quaternion(qx, qy, qz, qw) == QuatFromMatrix(lib, me);
      } else if m11 > m22 && m11 > m33 {
        QuatFromMatrixXCase(lib, me, m11, m12, m13, m21, m22, m23, m31, m32, m33, trace);
        var s := 2.0 * lib.sqrt(1.0 + m11 - m22 - m33);
        qw := (m32 - m23) / s;
        qx := 0.25 * s;
        qy := (m12 + m21) / s;
        qz := (m13 + m31) / s;
        assert Quaternion(qx, qy, qz, qw) == QuatFromMatrix(lib, me);
      } else if m22 > m33 {
        QuatFromMatrixYCase(lib, me, m11, m12, m13, m21, m22, m23, m31, m32, m33, trace);
        var s := 2.0 * lib.sqrt(1.0 + m22 - m11 - m33);
        qw := (m13 - m31) / s;
        qx := (m12 + m21) / s;
        qy := 0.25 * s;
        qz := (m23 + m32) / s;
        assert Quaternion(qx, qy, qz, qw) == QuatFromMatrix(lib, me);
      } else {
        QuatFromMatrixZCase(lib, me, m11, m12, m13, m21, m22, m23, m31, m32, m33, trace);
        var s := 2.0 * lib.sqrt(1.0 + m33 - m11 - m22);
        qw := (m21 - m12) / s;
        qx := (m13 + m31) / s;
        qy := (m23 + m32) / s;
        qz := 0.25 * s;
        assert Quaternion(qx, qy, qz, qw) == QuatFromMatrix(lib, me);
      }
      x, y, z, w := qx, qy, qz, qw;
    }

    /** Halves the three angles and combines their sines and cosines in ZYX order. */
    method SetFromEuler(lib: MathLib, euler: Euler)
      modifies this
      ensures Value() == QuatFromEuler(lib, old(euler.Value()))
    {
      var ex, ey, ez := euler.x, euler.y, euler.z;
      ex := ex * 0.5;
      ey := ey * 0.5;
      ez := ez * 0.5;
      var s1, c1 := lib.sin(ex), lib.cos(ex);
      var s2, c2 := lib.sin(ey), lib.cos(ey);
      var s3, c3 := lib.sin(ez), lib.cos(ez);
      x := s1 * c2 * c3 - c1 * s2 * s3;
      y := c1 * s2 * c3 + s1 * c2 * s3;
      z := c1 * c2 * s3 - s1 * s2 * c3;
      w := c1 * c2 * c3 + s1 * s2 * s3;
    }
  }

  class Euler {
    var x: real
    var y: real
    var z: real

    constructor(x0: real, y0: real, z0: real)
      ensures Value() == Angles(x0, y0, z0)
    {
      x, y, z := x0, y0, z0;
    }

    function Value(): Angles
      reads this
    {
      Angles(x, y, z)
    }

    method Copy(b: Euler)
      modifies this
      ensures Value() == old(b.Value())
    {
      x := b.x;
      y := b.y;
      z := b.z;
    }

    method Clone() returns (c: Euler)
      ensures fresh(c) && c.Value() == Value()
    {
      c := new Euler(0.0, 0.0, 0.0);
      c.Copy(this);
    }

    method Equals(b: Euler) returns (eq: bool)
      ensures eq <==> Value() == b.Value()
    {
      eq := x == b.x && y == b.y && z == b.z;
    }
    method SetFromQuat(lib: MathLib, q: Quat)
      modifies this
      ensures Value() == AnglesFromQuat(lib, old(q.Value()))
    {
      var qx, qy, qz, qw := q.x, q.y, q.z, q.w;
      ghost var qv := q.Value();
      assert 2.0 * (qw * qx + qy * qz) == RollArg(qv) && 1.0 - 2.0 * (qx * qx + qy * qy) == RollCos(qv);
      assert 2.0 * (qw * qy - qz * qx) == PitchArg(qv);
      assert 2.0 * (qw * qz + qx * qy) == YawArg(qv) && 1.0 - 2.0 * (qy * qy + qz * qz) == YawCos(qv);
      x := lib.atan2(2.0 * (qw * qx + qy * qz), 1.0 - 2.0 * (qx * qx + qy * qy));
      y := lib.asin(Clamp(2.0 * (qw * qy - qz * qx), -1.0, 1.0));
      z := lib.atan2(2.0 * (qw * qz + qx * qy), 1.0 - 2.0 * (qy * qy + qz * qz));
    }

    /** Reads the upper 3x3 block of m (assumed a pure rotation); near gimbal lock x is set to zero. */
    method SetFromRotationMatrix(lib: MathLib, m: Mat4)
      requires m.Valid()
      modifies this
      ensures Value() == AnglesFromMatrix(lib, old(m.Value()))
    {
      var me := m.Value();
      var m11, m12 := me[0], me[4];
      var m21, m22 := me[1], me[5];
      var m31, m32, m33 := me[2], me[6], me[10];
      y := lib.asin(-Clamp(m31, -1.0, 1.0));
      if Abs(m31) < GimbalThreshold {
        x := lib.atan2(m32, m33);
        z := lib.atan2(m21, m11);
      } else {
        x := 0.0;
        z := lib.atan2(-m12, m22);
      }
    }
  }

  class Spherical {
    var radius: real
    var phi: real
    var theta: real

    constructor(radius0: real, phi0: real, theta0: real)
      ensures Value() == SC.Spherical(radius0, phi0, theta0)
    {
      radius, phi, theta := radius0, phi0, theta0;
    }

    function Value(): SC.Spherical
      reads this
    {
      SC.Spherical(radius, phi, theta)
    }

    method SetFromVec3(lib: MathLib, v: Vec3)
      modifies this
      ensures Value() == SC.SphericalFromCartesian(lib, old(v.x), old(v.y), old(v.z))
    {
      SetFromCartesianCoords(lib, v.x, v.y, v.z);
    }

    /** The radius is stored first and then read back for the test against zero and the division. */
    method SetFromCartesianCoords(lib: MathLib, x: real, y: real, z: real)
      modifies this
      ensures Value() == SC.SphericalFromCartesian(lib, x, y, z)
    {
      radius := lib.sqrt(x * x + y * y + z * z);
      assert x * x + y * y + z * z == Length2(Vector3(x, y, z));
      if radius == 0.0 {
        theta := 0.0;
        phi := 0.0;
      } else {
        theta := lib.atan2(x, z);
        phi := lib.acos(Clamp(y / radius, -1.0, 1.0));
      }
    }
  }
}
