/**
 * The view basis Mat4.lookAt builds: z points from target to eye, x is up x z and y is z x x.
 * Two degenerate inputs are repaired before normalising: eye == target (z is forced to
 * (0, 0, 1)), and up parallel to z (z is nudged by 0.0001 on one component and the x axis is
 * recomputed). The nudge rule as written leaves the x axis zero when up lies on the z axis with
 * |up.z| != 1; LookAtAxes models it as written and LookAtBasis with the corrected rule.
 */
module Views {
  import opened Scalar
  import opened Vectors
  import opened Matrices

  datatype Option<T> = None | Some(value: T)

  /** What lookAt adds to one component of the z axis when up and z are parallel. */
  const Nudge: real := 0.0001

  /** The three axes lookAt writes into the first three columns. */
  datatype Basis = Basis(x: Vector3, y: Vector3, z: Vector3)

  /** Unit length, pairwise perpendicular axes. */
  predicate Orthonormal(b: Basis) {
    && Length2(b.x) == 1.0 && Length2(b.y) == 1.0 && Length2(b.z) == 1.0
    && Dot(b.x, b.y) == 0.0 && Dot(b.y, b.z) == 0.0 && Dot(b.x, b.z) == 0.0
  }

  /**
   * The z axis before it is normalised: eye - target, with its z component set to 1 when eye
   * and target coincide exactly.
   */
  function ViewDirection(eye: Vector3, target: Vector3): (d: Vector3)
    ensures d != Zero()
    ensures Sub(eye, target) != Zero() ==> d == Sub(eye, target)
    ensures Sub(eye, target) == Zero() ==> d == Vector3(0.0, 0.0, 1.0)
  {
    var d := Sub(eye, target);
    if d == Zero() then d.(z := 1.0) else d
  }

  /** The nudged z axis: the nudge goes on x when onX holds and on z otherwise. */
  function Nudged(z: Vector3, onX: bool): Vector3 {
    if onX then Add(z, Vector3(Nudge, 0.0, 0.0)) else Add(z, Vector3(0.0, 0.0, Nudge))
  }

  /** A nudged unit vector is not zero: the nudge is shorter than the vector. */
  lemma NudgedNonzero(z: Vector3, onX: bool)
    requires Length2(z) == 1.0
    ensures Nudged(z, onX) != Zero()
  {
    assert Length2(Vector3(-Nudge, 0.0, 0.0)) != 1.0;
    assert Length2(Vector3(0.0, 0.0, -Nudge)) != 1.0;
  }

  /** The rule as written: the nudge goes on x exactly when |up.z| == 1. */
  predicate NudgeOnXAsWritten(up: Vector3) {
    Abs(up.z) == 1.0
  }

  /** The corrected rule: also nudge x when up lies on the z axis, where a z nudge keeps z parallel to up. */
  predicate NudgeOnX(up: Vector3) {
    Abs(up.z) == 1.0 || (up.x == 0.0 && up.y == 0.0)
  }

  /**
   * The unit z axis and the (not yet normalised) x axis after the parallel-up fallback: when
   * up x z is zero, z is nudged by the given rule, renormalised, and x recomputed from it.
   */
  function FallbackAxes(lib: MathLib, up: Vector3, z0: Vector3, onX: bool): (r: (Vector3, Vector3))
    requires SqrtLaw(lib) && Length2(z0) == 1.0
    ensures Length2(r.0) == 1.0 && r.1 == Cross(up, r.0)
    ensures Cross(up, z0) != Zero() ==> r.0 == z0
  {
    if Cross(up, z0) == Zero() then
      NudgedNonzero(z0, onX);
      var z1 := Normalize(lib, Nudged(z0, onX));
      (z1, Cross(up, z1))
    else
      (z0, Cross(up, z0))
  }

  /** The axes from a unit z axis and a nonzero x axis: x is normalised and y = z x x. */
  function Axes(lib: MathLib, z: Vector3, x: Vector3): (b: Basis)
    requires SqrtLaw(lib) && Length2(z) == 1.0 && x != Zero() && Dot(x, z) == 0.0
    ensures Orthonormal(b) && b.z == z
  {
    var xn := Normalize(lib, x);
    NormalizeKeepsPerpendicular(lib, x, z);
    DotSymmetric(xn, z);
    CrossOfOrthonormal(z, xn);
    DotSymmetric(Cross(z, xn), z);
    Basis(xn, Cross(z, xn), z)
  }

  /**
   * The axes lookAt computes, as written. None is the input on which the x axis is still zero
   * when lookAt normalises it: normalize then divides by zero and the matrix receives NaN.
   */
  function LookAtAxes(lib: MathLib, eye: Vector3, target: Vector3, up: Vector3): Option<Basis>
    requires SqrtLaw(lib)
  {
    var z0 := Normalize(lib, ViewDirection(eye, target));
    var (z, x) := FallbackAxes(lib, up, z0, NudgeOnXAsWritten(up));
    if x == Zero() then None
    else
      CrossOrthogonal(up, z);
      Some(Axes(lib, z, x))
  }

  /** The axes lookAt computes with the corrected nudge rule; defined for every nonzero up. */
  function LookAtBasis(lib: MathLib, eye: Vector3, target: Vector3, up: Vector3): (b: Basis)
    requires SqrtLaw(lib) && up != Zero()
    ensures Orthonormal(b)
  {
    var z0 := Normalize(lib, ViewDirection(eye, target));
    var (z, x) := FallbackAxes(lib, up, z0, NudgeOnX(up));
    FallbackRepairs(lib, up, z0);
    CrossOrthogonal(up, z);
    Axes(lib, z, x)
  }

  /**
   * LookAtBasis in the order lookAt computes it: the fallback first, then the axes from the z and
   * x it leaves.
   */
  lemma LookAtBasisFromFallback(lib: MathLib, eye: Vector3, target: Vector3, up: Vector3, z: Vector3, x: Vector3)
    requires SqrtLaw(lib) && up != Zero()
    requires (z, x) == FallbackAxes(lib, up, Normalize(lib, ViewDirection(eye, target)), NudgeOnX(up))
    requires Length2(z) == 1.0 && x != Zero() && Dot(x, z) == 0.0
    ensures LookAtBasis(lib, eye, target, up) == Axes(lib, z, x)
  {
  }

  /** The z and x axes the fallback leaves meet what Axes asks of them. */
  lemma FallbackAxesProper(lib: MathLib, eye: Vector3, target: Vector3, up: Vector3, z: Vector3, x: Vector3)
    requires SqrtLaw(lib) && up != Zero()
    requires (z, x) == FallbackAxes(lib, up, Normalize(lib, ViewDirection(eye, target)), NudgeOnX(up))
    ensures Length2(z) == 1.0 && x != Zero() && Dot(x, z) == 0.0
  {
    FallbackRepairs(lib, up, Normalize(lib, ViewDirection(eye, target)));
    CrossOrthogonal(up, z);
  }

  /** Normalising a vector perpendicular to z keeps it perpendicular. */
  lemma NormalizeKeepsPerpendicular(lib: MathLib, x: Vector3, z: Vector3)
    requires SqrtLaw(lib) && x != Zero() && Dot(x, z) == 0.0
    ensures Dot(Normalize(lib, x), z) == 0.0
  {
    var k := 1.0 / Length(lib, x);
    assert Dot(Scale(x, k), z) == k * Dot(x, z);
  }

  /** up x (z + n) == up x z + up x n. */
  lemma CrossNudged(up: Vector3, z: Vector3, onX: bool)
    ensures Cross(up, Nudged(z, onX))
      == Add(Cross(up, z), if onX then Vector3(0.0, up.z * Nudge, -(up.y * Nudge)) else Vector3(up.y * Nudge, -(up.x * Nudge), 0.0))
  {
  }

  /**
   * With the corrected rule and a nonzero up, the x axis after the fallback is never zero:
   * the nudge adds up x (0.0001 e) to a zero cross product, and the axis e is chosen so that
   * up is not parallel to it.
   */
  lemma FallbackRepairs(lib: MathLib, up: Vector3, z0: Vector3)
    requires SqrtLaw(lib) && Length2(z0) == 1.0 && up != Zero()
    ensures FallbackAxes(lib, up, z0, NudgeOnX(up)).1 != Zero()
  {
    if Cross(up, z0) == Zero() {
      var onX := NudgeOnX(up);
      var n := Nudged(z0, onX);
      NudgedNonzero(z0, onX);
      CrossNudged(up, z0, onX);
      var l := Length(lib, n);
      var z1 := Normalize(lib, n);
      assert z1 == Scale(n, 1.0 / l);
      CrossLinearRight(up, n, Zero(), 1.0 / l);
      var c := Cross(up, n);
      assert c != Zero() by {
        if onX {
          assert up.z != 0.0;
        } else {
          assert up.x != 0.0 || up.y != 0.0;
        }
      }
      assert 1.0 / l != 0.0;
      assert Cross(up, z1) == Scale(c, 1.0 / l);
    }
  }

  /**
   * Where the source fails: lookAt normalises a zero x axis exactly when up is zero, or when up
   * lies on the z axis with |up.z| != 1 and the view direction is parallel to it.
   */
  lemma LookAtAxesFails(lib: MathLib, eye: Vector3, target: Vector3, up: Vector3)
    requires SqrtLaw(lib)
    ensures LookAtAxes(lib, eye, target, up) == None <==> FailingInput(eye, target, up)
  {
    var d := ViewDirection(eye, target);
    var z0 := Normalize(lib, d);
    LookAtAxesNone(lib, eye, target, up);
    if up == Zero() {
      FallbackOnZeroUp(lib, z0, NudgeOnXAsWritten(up));
    } else if up.x == 0.0 && up.y == 0.0 && Abs(up.z) != 1.0 {
      ParallelToUpOnZAxis(lib, eye, target, up);
      if d.x == 0.0 && d.y == 0.0 {
        UpOnZAxisStaysParallel(lib, up, z0);
      }
    } else {
      FallbackRepairs(lib, up, z0);
    }
  }

  /** The source's lookAt fails exactly where the fallback leaves the x axis zero. */
  lemma LookAtAxesNone(lib: MathLib, eye: Vector3, target: Vector3, up: Vector3)
    requires SqrtLaw(lib)
    ensures LookAtAxes(lib, eye, target, up) == None
      <==> FallbackAxes(lib, up, Normalize(lib, ViewDirection(eye, target)), NudgeOnXAsWritten(up)).1 == Zero()
  {
  }

  /** A zero up gives a zero x axis whatever the nudge. */
  lemma FallbackOnZeroUp(lib: MathLib, z0: Vector3, onX: bool)
    requires SqrtLaw(lib) && Length2(z0) == 1.0
    ensures FallbackAxes(lib, Zero(), z0, onX).1 == Zero()
  {
  }

  /** With up on the z axis, up x z is zero exactly when the view direction is on the z axis too. */
  lemma ParallelToUpOnZAxis(lib: MathLib, eye: Vector3, target: Vector3, up: Vector3)
    requires SqrtLaw(lib) && up.x == 0.0 && up.y == 0.0 && up.z != 0.0
    ensures var d := ViewDirection(eye, target);
      Cross(up, Normalize(lib, d)) == Zero() <==> d.x == 0.0 && d.y == 0.0
  {
    var d := ViewDirection(eye, target);
    var z0 := Normalize(lib, d);
    NormalizeIsScale(lib, d);
    var k := 1.0 / Length(lib, d);
    assert k != 0.0;
    assert z0.x == d.x * k && z0.y == d.y * k;
    assert Cross(up, z0) == Vector3(-(up.z * z0.y), up.z * z0.x, 0.0);
  }

  /** The inputs on which the source's x axis stays zero. */
  predicate FailingInput(eye: Vector3, target: Vector3, up: Vector3) {
    var d := ViewDirection(eye, target);
    up == Zero() || (up.x == 0.0 && up.y == 0.0 && Abs(up.z) != 1.0 && d.x == 0.0 && d.y == 0.0)
  }

  /** Wherever the source produces axes, they are the corrected ones: the two rules differ only where the source fails. */
  lemma LookAtAxesAgree(lib: MathLib, eye: Vector3, target: Vector3, up: Vector3)
    requires SqrtLaw(lib) && up != Zero() && !FailingInput(eye, target, up)
    ensures LookAtAxes(lib, eye, target, up) == Some(LookAtBasis(lib, eye, target, up))
  {
    var z0 := Normalize(lib, ViewDirection(eye, target));
    LookAtAxesFails(lib, eye, target, up);
    if up.x == 0.0 && up.y == 0.0 && up.z != 0.0 {
      ParallelToUpOnZAxis(lib, eye, target, up);
    }
    assert Cross(up, z0) == Zero() ==> NudgeOnXAsWritten(up) == NudgeOnX(up);
  }

  /**
   * The as-written rule on up = (0, 0, k) with |k| != 1: if z is (0, 0, +-1) the nudge on z keeps
   * it on the z axis, so the recomputed x axis is zero again.
   */
  lemma UpOnZAxisStaysParallel(lib: MathLib, up: Vector3, z0: Vector3)
    requires SqrtLaw(lib) && Length2(z0) == 1.0
    requires up.x == 0.0 && up.y == 0.0 && Abs(up.z) != 1.0 && Cross(up, z0) == Zero()
    ensures FallbackAxes(lib, up, z0, NudgeOnXAsWritten(up)).1 == Zero()
  {
    if up.z == 0.0 {
      assert up == Zero();
    } else {
      assert z0.x == 0.0 && z0.y == 0.0;
      var n := Nudged(z0, false);
      NudgedNonzero(z0, false);
      var z1 := Normalize(lib, n);
      assert z1 == Scale(n, 1.0 / Length(lib, n));
      assert z1.x == 0.0 && z1.y == 0.0;
    }
  }

  /**
   * The discrepancy on a concrete input: up = (0, 0, 2) and eye - target = (0, 0, 1). The x axis
   * is zero before and after the nudge, and lookAt normalises a zero vector.
   */
  lemma LookAtAxesFailsOnLongUp(lib: MathLib)
    requires SqrtLaw(lib)
    ensures LookAtAxes(lib, Vector3(0.0, 0.0, 1.0), Zero(), Vector3(0.0, 0.0, 2.0)) == None
  {
    LookAtAxesFails(lib, Vector3(0.0, 0.0, 1.0), Zero(), Vector3(0.0, 0.0, 2.0));
  }

  /** The corrected axes on the same input: the nudge goes on x and the basis is orthonormal. */
  lemma LookAtBasisOnLongUp(lib: MathLib)
    requires SqrtLaw(lib)
    ensures var b := LookAtBasis(lib, Vector3(0.0, 0.0, 1.0), Zero(), Vector3(0.0, 0.0, 2.0));
      Orthonormal(b) && Dot(b.x, Vector3(0.0, 0.0, 2.0)) == 0.0
  {
    var up := Vector3(0.0, 0.0, 2.0);
    LookAtBasisPerpendicularToUp(lib, Vector3(0.0, 0.0, 1.0), Zero(), up);
  }

  /** The x axis of the basis is perpendicular to up (it is a multiple of up x z). */
  lemma LookAtBasisPerpendicularToUp(lib: MathLib, eye: Vector3, target: Vector3, up: Vector3)
    requires SqrtLaw(lib) && up != Zero()
    ensures Dot(LookAtBasis(lib, eye, target, up).x, up) == 0.0
  {
    var z0 := Normalize(lib, ViewDirection(eye, target));
    var (z, x) := FallbackAxes(lib, up, z0, NudgeOnX(up));
    FallbackRepairs(lib, up, z0);
    CrossOrthogonal(up, z);
    DotSymmetric(x, up);
    NormalizeKeepsPerpendicular(lib, x, up);
  }

  /**
   * Away from both degenerate inputs (eye != target, up not parallel to eye - target) the z axis
   * is the unit vector from target to eye.
   */
  lemma LookAtBasisRegular(lib: MathLib, eye: Vector3, target: Vector3, up: Vector3)
    requires SqrtLaw(lib) && up != Zero() && Sub(eye, target) != Zero()
    requires Cross(up, Normalize(lib, Sub(eye, target))) != Zero()
    ensures LookAtBasis(lib, eye, target, up).z == Normalize(lib, Sub(eye, target))
  {
  }

  /** With eye == target the normalised view direction is (0, 0, 1). */
  lemma CoincidentDirection(lib: MathLib, eye: Vector3)
    requires SqrtLaw(lib)
    ensures Normalize(lib, ViewDirection(eye, eye)) == Vector3(0.0, 0.0, 1.0)
  {
    var d := ViewDirection(eye, eye);
    assert Length2(d) == 1.0;
    NormalizeOfUnit(lib, d);
  }

  /**
   * What lookAt leaves in the element array: the axes in slots 0-2, 4-6 and 8-10 (the first
   * three columns of the rotation block); slots 3, 7, 11 and the translation column are kept.
   */
  function WithRotationBlock(m: Matrix, b: Basis): (r: Matrix)
    ensures r[3] == m[3] && r[7] == m[7] && r[11] == m[11] && r[15] == m[15]
    ensures Position(r) == Position(m)
  {
    m[0 := b.x.x][1 := b.x.y][2 := b.x.z][4 := b.y.x][5 := b.y.y][6 := b.y.z][8 := b.z.x][9 := b.z.y][10 := b.z.z]
  }

  /**
   * On a matrix whose bottom row starts 0, 0, 0 (any affine transform), the new matrix sends
   * the coordinate directions to the three axes and keeps the translation.
   */
  lemma WithRotationBlockMaps(m: Matrix, b: Basis)
    requires m[3] == 0.0 && m[7] == 0.0 && m[11] == 0.0
    ensures var r := WithRotationBlock(m, b);
      && Transform(r, Direction(Vector3(1.0, 0.0, 0.0))) == Direction(b.x)
      && Transform(r, Direction(Vector3(0.0, 1.0, 0.0))) == Direction(b.y)
      && Transform(r, Direction(Vector3(0.0, 0.0, 1.0))) == Direction(b.z)
  {
    var r := WithRotationBlock(m, b);
    SlotsAt(r);
  }
}
