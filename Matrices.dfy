/**
 * Value-level meaning of Mat4: sixteen numbers stored column by column, so that slot 4 * c + r
 * holds the entry in row r and column c. The functions here are what the Mat4 methods write into
 * their element arrays; the lemmas say what those matrices mean as transformations.
 */
module Matrices {
  import opened Scalar
  import opened Vectors

  type Matrix = m: seq<real> | |m| == 16
    witness [1.0, 0.0, 0.0, 0.0, 0.0, 1.0, 0.0, 0.0, 0.0, 0.0, 1.0, 0.0, 0.0, 0.0, 0.0, 1.0]

  /** The entry in row r and column c. */
  function At(m: Matrix, r: nat, c: nat): real
    requires r < 4 && c < 4
  {
    m[4 * c + r]
  }

  /** The initial value of every Mat4. */
  function Identity(): Matrix {
    [1.0, 0.0, 0.0, 0.0, 0.0, 1.0, 0.0, 0.0, 0.0, 0.0, 1.0, 0.0, 0.0, 0.0, 0.0, 1.0]
  }

  /**
   * What set() stores: its sixteen arguments are the matrix read row by row, so argument k
   * (row k / 4, column k % 4) lands in slot 4 * (k % 4) + k / 4.
   */
  function FromRows(rows: seq<real>): (m: Matrix)
    requires |rows| == 16
    ensures forall r: nat, c: nat {:trigger At(m, r, c)} :: r < 4 && c < 4 ==> At(m, r, c) == rows[4 * r + c]
  {
    seq(16, i requires 0 <= i < 16 => rows[4 * (i % 4) + i / 4])
  }

  /** Storage is the transpose of the argument order: applying it twice gives the arguments back. */
  lemma FromRowsTwice(rows: seq<real>)
    requires |rows| == 16
    ensures FromRows(FromRows(rows)) == rows
  {
    var m := FromRows(FromRows(rows));
    forall i | 0 <= i < 16
      ensures m[i] == rows[i]
    {
      assert m[i] == At(FromRows(rows), i / 4, i % 4);
    }
  }

  /** The slots set() fills, one by one: slot 4c + r receives argument 4r + c. */
  lemma FromRowsAt(rows: seq<real>)
    requires |rows| == 16
    ensures var m := FromRows(rows);
      && m[0] == rows[0] && m[1] == rows[4] && m[2] == rows[8] && m[3] == rows[12]
      && m[4] == rows[1] && m[5] == rows[5] && m[6] == rows[9] && m[7] == rows[13]
      && m[8] == rows[2] && m[9] == rows[6] && m[10] == rows[10] && m[11] == rows[14]
      && m[12] == rows[3] && m[13] == rows[7] && m[14] == rows[11] && m[15] == rows[15]
  {
    SlotsAt(FromRows(rows));
  }

  /** set() written out slot by slot: the transpose of its argument list. */
  lemma FromRowsSlots(rows: seq<real>)
    requires |rows| == 16
    ensures FromRows(rows) == [
      rows[0], rows[4], rows[8], rows[12],
      rows[1], rows[5], rows[9], rows[13],
      rows[2], rows[6], rows[10], rows[14],
      rows[3], rows[7], rows[11], rows[15]]
  {
    var m := FromRows(rows);
    SlotsAt(m);
    SlotsEqual(m, [
      rows[0], rows[4], rows[8], rows[12],
      rows[1], rows[5], rows[9], rows[13],
      rows[2], rows[6], rows[10], rows[14],
      rows[3], rows[7], rows[11], rows[15]]);
  }

  /** A homogeneous coordinate vector. */
  datatype Vector4 = Vector4(x: real, y: real, z: real, w: real)

  /** A point of space in homogeneous coordinates. */
  function Point(p: Vector3): Vector4 {
    Vector4(p.x, p.y, p.z, 1.0)
  }

  /** A direction (a point at infinity) in homogeneous coordinates. */
  function Direction(d: Vector3): Vector4 {
    Vector4(d.x, d.y, d.z, 0.0)
  }

  /** The matrix applied to a column vector: row r of m times v. */
  function Transform(m: Matrix, v: Vector4): Vector4 {
    Vector4(
      Dot4(At(m, 0, 0), At(m, 0, 1), At(m, 0, 2), At(m, 0, 3), v.x, v.y, v.z, v.w),
      Dot4(At(m, 1, 0), At(m, 1, 1), At(m, 1, 2), At(m, 1, 3), v.x, v.y, v.z, v.w),
      Dot4(At(m, 2, 0), At(m, 2, 1), At(m, 2, 2), At(m, 2, 3), v.x, v.y, v.z, v.w),
      Dot4(At(m, 3, 0), At(m, 3, 1), At(m, 3, 2), At(m, 3, 3), v.x, v.y, v.z, v.w))
  }

  /** Row r of a times column c of b. */
  function RowCol(a: Matrix, b: Matrix, r: nat, c: nat): real
    requires r < 4 && c < 4
  {
    Dot4(At(a, r, 0), At(a, r, 1), At(a, r, 2), At(a, r, 3), At(b, 0, c), At(b, 1, c), At(b, 2, c), At(b, 3, c))
  }

  /** The matrix product a * b, the value multiply() stores when `this` holds a. */
  function Multiply(a: Matrix, b: Matrix): (p: Matrix)
    ensures forall r: nat, c: nat {:trigger At(p, r, c)} :: r < 4 && c < 4 ==> At(p, r, c) == RowCol(a, b, r, c)
  {
    seq(16, i requires 0 <= i < 16 => RowCol(a, b, i % 4, i / 4))
  }

  /**
   * The product written out slot by slot, as multiply() computes it: slot 4 * c + r is row r of
   * a (slots r, 4 + r, 8 + r, 12 + r) times column c of b (slots 4 * c .. 4 * c + 3).
   */
  lemma MultiplySlots(a: Matrix, b: Matrix)
    ensures Multiply(a, b)[0] == Dot4(a[0], a[4], a[8], a[12], b[0], b[1], b[2], b[3])
    ensures Multiply(a, b)[1] == Dot4(a[1], a[5], a[9], a[13], b[0], b[1], b[2], b[3])
    ensures Multiply(a, b)[2] == Dot4(a[2], a[6], a[10], a[14], b[0], b[1], b[2], b[3])
    ensures Multiply(a, b)[3] == Dot4(a[3], a[7], a[11], a[15], b[0], b[1], b[2], b[3])
    ensures Multiply(a, b)[4] == Dot4(a[0], a[4], a[8], a[12], b[4], b[5], b[6], b[7])
    ensures Multiply(a, b)[5] == Dot4(a[1], a[5], a[9], a[13], b[4], b[5], b[6], b[7])
    ensures Multiply(a, b)[6] == Dot4(a[2], a[6], a[10], a[14], b[4], b[5], b[6], b[7])
    ensures Multiply(a, b)[7] == Dot4(a[3], a[7], a[11], a[15], b[4], b[5], b[6], b[7])
    ensures Multiply(a, b)[8] == Dot4(a[0], a[4], a[8], a[12], b[8], b[9], b[10], b[11])
    ensures Multiply(a, b)[9] == Dot4(a[1], a[5], a[9], a[13], b[8], b[9], b[10], b[11])
    ensures Multiply(a, b)[10] == Dot4(a[2], a[6], a[10], a[14], b[8], b[9], b[10], b[11])
    ensures Multiply(a, b)[11] == Dot4(a[3], a[7], a[11], a[15], b[8], b[9], b[10], b[11])
    ensures Multiply(a, b)[12] == Dot4(a[0], a[4], a[8], a[12], b[12], b[13], b[14], b[15])
    ensures Multiply(a, b)[13] == Dot4(a[1], a[5], a[9], a[13], b[12], b[13], b[14], b[15])
    ensures Multiply(a, b)[14] == Dot4(a[2], a[6], a[10], a[14], b[12], b[13], b[14], b[15])
    ensures Multiply(a, b)[15] == Dot4(a[3], a[7], a[11], a[15], b[12], b[13], b[14], b[15])
  {
    SlotsAt(Multiply(a, b));
  }

  /** Two matrices that agree slot by slot are equal. */
  lemma SlotsEqual(p: Matrix, q: Matrix)
    requires p[0] == q[0] && p[1] == q[1] && p[2] == q[2] && p[3] == q[3]
    requires p[4] == q[4] && p[5] == q[5] && p[6] == q[6] && p[7] == q[7]
    requires p[8] == q[8] && p[9] == q[9] && p[10] == q[10] && p[11] == q[11]
    requires p[12] == q[12] && p[13] == q[13] && p[14] == q[14] && p[15] == q[15]
    ensures p == q
  {
    forall i | 0 <= i < 16
      ensures p[i] == q[i]
    {
      if i < 8 {
        if i < 4 { } else { }
      } else {
        if i < 12 { } else { }
      }
    }
  }

  /** Two matrices that agree entry by entry are equal. */
  lemma EntriesEqual(p: Matrix, q: Matrix)
    requires forall r: nat, c: nat {:trigger At(p, r, c)} :: r < 4 && c < 4 ==> At(p, r, c) == At(q, r, c)
    ensures p == q
  {
    forall i | 0 <= i < 16
      ensures p[i] == q[i]
    {
      assert p[i] == At(p, i % 4, i / 4);
    }
  }

  /** The identity is a unit on both sides of the product. */
  lemma MultiplyIdentity(a: Matrix)
    ensures Multiply(Identity(), a) == a
    ensures Multiply(a, Identity()) == a
  {
    var i := Identity();
    assert At(i, 0, 0) == 1.0 && At(i, 1, 0) == 0.0 && At(i, 2, 0) == 0.0 && At(i, 3, 0) == 0.0;
    assert At(i, 0, 1) == 0.0 && At(i, 1, 1) == 1.0 && At(i, 2, 1) == 0.0 && At(i, 3, 1) == 0.0;
    assert At(i, 0, 2) == 0.0 && At(i, 1, 2) == 0.0 && At(i, 2, 2) == 1.0 && At(i, 3, 2) == 0.0;
    assert At(i, 0, 3) == 0.0 && At(i, 1, 3) == 0.0 && At(i, 2, 3) == 0.0 && At(i, 3, 3) == 1.0;
    SlotsAt(Multiply(i, a));
    SlotsAt(Multiply(a, i));
    SlotsAt(a);
    SlotsEqual(Multiply(i, a), a);
    SlotsEqual(Multiply(a, i), a);
  }

  /** Applying a * b is applying b first and then a: the order in which multiply() composes. */
  lemma TransformMultiply(a: Matrix, b: Matrix, v: Vector4)
    ensures Transform(Multiply(a, b), v) == Transform(a, Transform(b, v))
  {
    forall r: nat | r < 4 {
      Dot4Regroup(
        At(a, r, 0), At(a, r, 1), At(a, r, 2), At(a, r, 3),
        At(b, 0, 0), At(b, 0, 1), At(b, 0, 2), At(b, 0, 3),
        At(b, 1, 0), At(b, 1, 1), At(b, 1, 2), At(b, 1, 3),
        At(b, 2, 0), At(b, 2, 1), At(b, 2, 2), At(b, 2, 3),
        At(b, 3, 0), At(b, 3, 1), At(b, 3, 2), At(b, 3, 3),
        v.x, v.y, v.z, v.w);
    }
  }

  /** The product is associative. */
  lemma MultiplyAssociative(a: Matrix, b: Matrix, c: Matrix)
    ensures Multiply(Multiply(a, b), c) == Multiply(a, Multiply(b, c))
  {
    var ab, bc := Multiply(a, b), Multiply(b, c);
    forall r: nat, k: nat | r < 4 && k < 4
      ensures At(Multiply(ab, c), r, k) == At(Multiply(a, bc), r, k)
    {
      Dot4Regroup(
        At(a, r, 0), At(a, r, 1), At(a, r, 2), At(a, r, 3),
        At(b, 0, 0), At(b, 0, 1), At(b, 0, 2), At(b, 0, 3),
        At(b, 1, 0), At(b, 1, 1), At(b, 1, 2), At(b, 1, 3),
        At(b, 2, 0), At(b, 2, 1), At(b, 2, 2), At(b, 2, 3),
        At(b, 3, 0), At(b, 3, 1), At(b, 3, 2), At(b, 3, 3),
        At(c, 0, k), At(c, 1, k), At(c, 2, k), At(c, 3, k));
    }
    EntriesEqual(Multiply(ab, c), Multiply(a, bc));
  }

  /** Each slot of m named by its row and column. */
  lemma SlotsAt(m: Matrix)
    ensures m[0] == At(m, 0, 0) && m[1] == At(m, 1, 0) && m[2] == At(m, 2, 0) && m[3] == At(m, 3, 0)
    ensures m[4] == At(m, 0, 1) && m[5] == At(m, 1, 1) && m[6] == At(m, 2, 1) && m[7] == At(m, 3, 1)
    ensures m[8] == At(m, 0, 2) && m[9] == At(m, 1, 2) && m[10] == At(m, 2, 2) && m[11] == At(m, 3, 2)
    ensures m[12] == At(m, 0, 3) && m[13] == At(m, 1, 3) && m[14] == At(m, 2, 3) && m[15] == At(m, 3, 3)
  {
  }

  /** What makeTranslation(x, y, z) stores: the identity with (x, y, z) in the last column. */
  function Translation(v: Vector3): Matrix {
    FromRows([
      1.0, 0.0, 0.0, v.x,
      0.0, 1.0, 0.0, v.y,
      0.0, 0.0, 1.0, v.z,
      0.0, 0.0, 0.0, 1.0])
  }

  /** A translation moves every point by v and leaves directions alone. */
  lemma TranslationMoves(v: Vector3, p: Vector3)
    ensures Transform(Translation(v), Point(p)) == Point(Add(p, v))
    ensures Transform(Translation(v), Direction(p)) == Direction(p)
  {
    var t := Translation(v);
    assert At(t, 0, 0) == 1.0 && At(t, 0, 1) == 0.0 && At(t, 0, 2) == 0.0 && At(t, 0, 3) == v.x;
    assert At(t, 1, 0) == 0.0 && At(t, 1, 1) == 1.0 && At(t, 1, 2) == 0.0 && At(t, 1, 3) == v.y;
    assert At(t, 2, 0) == 0.0 && At(t, 2, 1) == 0.0 && At(t, 2, 2) == 1.0 && At(t, 2, 3) == v.z;
    assert At(t, 3, 0) == 0.0 && At(t, 3, 1) == 0.0 && At(t, 3, 2) == 0.0 && At(t, 3, 3) == 1.0;
  }

  /** Translating by v and then by w is translating by v + w. */
  lemma TranslationCompose(v: Vector3, w: Vector3)
    ensures Multiply(Translation(v), Translation(w)) == Translation(Add(v, w))
  {
    TranslationSlots(v);
    TranslationSlots(w);
    TranslationSlots(Add(v, w));
    MultiplySlots(Translation(v), Translation(w));
    SlotsEqual(Multiply(Translation(v), Translation(w)), Translation(Add(v, w)));
  }

  /** makeTranslation written out slot by slot. */
  lemma TranslationSlots(v: Vector3)
    ensures var t := Translation(v);
      && t[0] == 1.0 && t[1] == 0.0 && t[2] == 0.0 && t[3] == 0.0
      && t[4] == 0.0 && t[5] == 1.0 && t[6] == 0.0 && t[7] == 0.0
      && t[8] == 0.0 && t[9] == 0.0 && t[10] == 1.0 && t[11] == 0.0
      && t[12] == v.x && t[13] == v.y && t[14] == v.z && t[15] == 1.0
  {
    var t := Translation(v);
    SlotsAt(t);
  }

  /**
   * What tranlateFromCartesianCoords(x, y, z, out) (and translate(v, out), which calls it) leaves
   * in out: slots 12, 13 and 14 become (x, y, z), slot 15 becomes 1, and the other twelve slots
   * of out keep their values. `this` is not read.
   */
  function WithTranslation(m: Matrix, v: Vector3): Matrix {
    m[12 := v.x][13 := v.y][14 := v.z][15 := 1.0]
  }

  /** The translation column, what setFromMatrixPosition reads: slots 12, 13 and 14. */
  function Position(m: Matrix): Vector3 {
    Vector3(m[12], m[13], m[14])
  }

  /** The position of m is where m takes the origin (up to the weight in slot 15). */
  lemma PositionIsImageOfOrigin(m: Matrix)
    ensures Transform(m, Point(Zero())) == Vector4(Position(m).x, Position(m).y, Position(m).z, m[15])
  {
  }

  /**
   * translate() replaces the translation column: afterwards the position is v, translating
   * twice keeps only the second, and on the identity it is makeTranslation.
   */
  lemma WithTranslationPosition(m: Matrix, v: Vector3, w: Vector3)
    ensures Position(WithTranslation(m, v)) == v
    ensures WithTranslation(WithTranslation(m, v), w) == WithTranslation(m, w)
    ensures WithTranslation(Identity(), v) == Translation(v)
    ensures Position(Translation(v)) == v
  {
    SlotsEqual(WithTranslation(WithTranslation(m, v), w), WithTranslation(m, w));
    SlotsEqual(WithTranslation(Identity(), v), Translation(v));
  }

  /**
   * On an affine matrix (bottom row 0, 0, 0, 1), translate() makes the matrix move every point
   * by what the first three columns do to it, plus v.
   */
  lemma WithTranslationMoves(m: Matrix, v: Vector3, p: Vector3)
    requires At(m, 3, 0) == 0.0 && At(m, 3, 1) == 0.0 && At(m, 3, 2) == 0.0
    ensures var q, d := Transform(WithTranslation(m, v), Point(p)), Transform(m, Direction(p));
      q == Vector4(d.x + v.x, d.y + v.y, d.z + v.z, 1.0)
  {
  }

  /**
   * What perspective(fovy, aspect, near, far) stores, with f == 1 / tan(fovy / 2) and
   * nf == 1 / (near - far). The divisions are defined only when tan(fovy / 2), aspect and
   * near - far are nonzero.
   */
  function Perspective(lib: MathLib, fovy: real, aspect: real, near: real, far: real): Matrix
    requires lib.tan(fovy / 2.0) != 0.0 && aspect != 0.0 && near != far
  {
    var f := 1.0 / lib.tan(fovy / 2.0);
    var nf := 1.0 / (near - far);
    [ f / aspect, 0.0, 0.0, 0.0,
      0.0, f, 0.0, 0.0,
      0.0, 0.0, (far + near) * nf, -1.0,
      0.0, 0.0, 2.0 * far * near * nf, 0.0 ]
  }

  /**
   * The depth entries of the perspective matrix: row 2, column 2 is (far + near) / (near - far),
   * row 3, column 2 is -1 (the w of the result is minus the view-space z) and row 3, column 3 is 0.
   */
  lemma PerspectiveEntries(lib: MathLib, fovy: real, aspect: real, near: real, far: real)
    requires lib.tan(fovy / 2.0) != 0.0 && aspect != 0.0 && near != far
    ensures var p := Perspective(lib, fovy, aspect, near, far);
      && At(p, 2, 2) == (far + near) / (near - far) && At(p, 3, 2) == -1.0 && At(p, 3, 3) == 0.0
      && At(p, 2, 3) == 2.0 * far * near / (near - far)
  {
  }

  /**
   * The perspective matrix sends a point at depth -near to clip depth -w and one at depth -far
   * to clip depth +w, with w the distance in front of the eye: after the divide by w they land
   * on -1 and +1. The x and y coordinates are scaled by f / aspect and f.
   */
  lemma PerspectiveDepth(lib: MathLib, fovy: real, aspect: real, near: real, far: real, x: real, y: real)
    requires lib.tan(fovy / 2.0) != 0.0 && aspect != 0.0 && near != far
    ensures var q := Transform(Perspective(lib, fovy, aspect, near, far), Point(Vector3(x, y, -near)));
      q.w == near && q.z == -near
    ensures var q := Transform(Perspective(lib, fovy, aspect, near, far), Point(Vector3(x, y, -far)));
      q.w == far && q.z == far
    ensures var q, f := Transform(Perspective(lib, fovy, aspect, near, far), Point(Vector3(x, y, -near))), 1.0 / lib.tan(fovy / 2.0);
      q.x == f / aspect * x && q.y == f * y
  {
    var nf := 1.0 / (near - far);
    assert (near - far) * nf == 1.0;
    calc {
      (far + near) * nf * -near + 2.0 * far * near * nf;
      near * (far - near) * nf;
      -near * ((near - far) * nf);
      -near;
    }
    calc {
      (far + near) * nf * -far + 2.0 * far * near * nf;
      far * (near - far) * nf;
      far * ((near - far) * nf);
      far;
    }
  }

  /**
   * What ortho(left, right, bottom, top, near, far) stores, with lr == 1 / (left - right),
   * bt == 1 / (bottom - top) and nf == 1 / (near - far).
   */
  function Ortho(left: real, right: real, bottom: real, top: real, near: real, far: real): Matrix
    requires left != right && bottom != top && near != far
  {
    var lr := 1.0 / (left - right);
    var bt := 1.0 / (bottom - top);
    var nf := 1.0 / (near - far);
    [ -2.0 * lr, 0.0, 0.0, 0.0,
      0.0, -2.0 * bt, 0.0, 0.0,
      0.0, 0.0, 2.0 * nf, 0.0,
      (left + right) * lr, (top + bottom) * bt, (far + near) * nf, 1.0 ]
  }

  /**
   * The orthographic matrix maps the box [left, right] x [bottom, top] x [-near, -far] onto the
   * cube [-1, 1]^3: the corner (left, bottom, -near) goes to (-1, -1, -1) and the corner
   * (right, top, -far) to (1, 1, 1).
   */
  lemma OrthoCorners(left: real, right: real, bottom: real, top: real, near: real, far: real)
    requires left != right && bottom != top && near != far
    ensures Transform(Ortho(left, right, bottom, top, near, far), Point(Vector3(left, bottom, -near)))
      == Vector4(-1.0, -1.0, -1.0, 1.0)
    ensures Transform(Ortho(left, right, bottom, top, near, far), Point(Vector3(right, top, -far)))
      == Vector4(1.0, 1.0, 1.0, 1.0)
  {
    var lr, bt, nf := 1.0 / (left - right), 1.0 / (bottom - top), 1.0 / (near - far);
    assert (left - right) * lr == 1.0 && (bottom - top) * bt == 1.0 && (near - far) * nf == 1.0;
    calc {
      -2.0 * lr * left + (left + right) * lr;
      -((left - right) * lr);
      -1.0;
    }
    calc {
      -2.0 * lr * right + (left + right) * lr;
      (left - right) * lr;
      1.0;
    }
    calc {
      -2.0 * bt * bottom + (top + bottom) * bt;
      -((bottom - top) * bt);
      -1.0;
    }
    calc {
      -2.0 * bt * top + (top + bottom) * bt;
      (bottom - top) * bt;
      1.0;
    }
    calc {
      2.0 * nf * -near + (far + near) * nf;
      -((near - far) * nf);
      -1.0;
    }
    calc {
      2.0 * nf * -far + (far + near) * nf;
      (near - far) * nf;
      1.0;
    }
  }
}
