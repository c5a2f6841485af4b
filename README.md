# Transform math of a small WebGL template, in Dafny

This project models the transform-math module `src/core/Math.ts` of a small WebGL starter
template. The module provides:

- the mutable classes `Vec3`, `Mat4` (sixteen numbers stored column by column), `Quat`, `Euler`
  (radians, ZYX order) and `Spherical`;
- the scalar helpers `degToRad` and `clamp`.

Every number is a Dafny `real`. The host functions the module calls (sin, cos, tan, sqrt, asin,
acos, atan2) and `Math.PI` are fields of a `MathLib` value passed as a parameter. Nothing is
assumed about them except a few laws stated as ghost predicates:

- `SqrtLaw`: sqrt gives the non-negative root;
- `PythagoreanLaw`: sin² + cos² = 1;
- `AsinLaw`, `AcosLaw`, `Atan2Law`, `Atan2DirectionLaw`: the inverse functions undo sin and cos on their principal ranges;
- `ZeroAngleLaw`: sin 0 = 0 and cos 0 = 1.

Each law is a `requires` of exactly the members whose proofs use it.

The modules are:

- `Scalar`: `MathLib`, the laws, `Clamp`, `DegToRad` and small arithmetic helpers.
- `Vectors`: 3-vectors as values (add, sub, scale, dot, cross, length, normalize).
- `Matrices`: 16-slot matrices as values: the transposed storage of `set`, the product, translation, perspective, ortho.
- `Cofactors` and `Inversion`: the determinant and the cofactor inverse that `invert` computes, with the proof that it is a two-sided inverse.
- `Rotations`: quaternions and Euler angles: `compose`, `makeRotationFromEuler`, `Quat.setFromEuler`, `Quat.setFromRotationMatrix`, `Euler.setFromQuat`, `Euler.setFromRotationMatrix`.
- `Views`: the axes `lookAt` computes, both as written and with a corrected nudge rule (see Findings).
- `SphericalCoords`: the spherical/cartesian conversions.
- `Math3D`: the classes themselves. Every method writes fields, or slots of the `elements` array, in place. Its postcondition ties the new state to the value-level function above, stated over the values read before the call. That makes it hold when an `out` argument is the receiver or another operand. `lookAt`'s scratch vectors are per-matrix fields, as in the source, where each instance builds its own closure.

## Model

| member | source | states |
|---|---|---|
| Scalar.Clamp | src/core/Math.ts:21-23 | With ordered bounds the result lies in [min, max]. It is the value itself inside, the nearer bound outside, and the lower bound when the bounds are inverted. |
| Scalar.DegToRad | src/core/Math.ts:17-19 | 180 degrees is PI radians and 0 degrees is 0. |
| Scalar.DegToRadRoundTrip | src/core/Math.ts:14-19 | Converting degrees to radians and multiplying by RAD2DEG gives the original degrees. |
| Vectors.Length2 | src/core/Math.ts:99-102 | The squared length is non-negative and zero exactly for the zero vector. |
| Vectors.Length | src/core/Math.ts:95-97 | The length is the non-negative root of length2, zero exactly for the zero vector. |
| Vectors.Normalize | src/core/Math.ts:104-106 | A nonzero vector normalises to a unit vector (so a nonzero one). |
| Vectors.NormalizeIsScale | src/core/Math.ts:104-113 | normalize is scale by 1 / length with a positive length, so it keeps the direction. |
| Vectors.NormalizeOfUnit | src/core/Math.ts:104-106 | A unit vector is its own normalisation. |
| Vectors.NormalizeZeroComponents | src/core/Math.ts:104-106 | A zero component stays zero under normalisation. |
| Vectors.CrossAntiCommutative | src/core/Math.ts:115-125 | a × b = −(b × a). |
| Vectors.CrossOrthogonal | src/core/Math.ts:115-125 | a × b is orthogonal to a and to b. |
| Vectors.Lagrange | src/core/Math.ts:115-125 | \|a × b\|² = \|a\|²\|b\|² − (a·b)². |
| Vectors.CrossOfOrthonormal | src/core/Math.ts:115-125 | The cross product of two orthogonal unit vectors is a unit vector orthogonal to both. |
| Vectors.CrossLinearRight | src/core/Math.ts:115-125 | The cross product is linear in its right argument. |
| Math3D.Vec3.constructor | src/core/Math.ts:49-53 | The new vector holds the three arguments. |
| Math3D.Vec3.Set | src/core/Math.ts:55-60 | set(x, y, z) stores the three arguments. |
| Math3D.Vec3.SetAll | src/core/Math.ts:55-60 | set(s) with y and z omitted stores (s, s, s). |
| Math3D.Vec3.IsZero | src/core/Math.ts:62-64 | True exactly when all three components are zero. |
| Math3D.Vec3.Clone | src/core/Math.ts:66-68 | A fresh vector with the same value. |
| Math3D.Vec3.Copy | src/core/Math.ts:70-75 | The receiver takes the value of the argument. |
| Math3D.Vec3.Equals | src/core/Math.ts:77-79 | True exactly when all three components are equal. |
| Math3D.Vec3.Add | src/core/Math.ts:81-86 | out receives the sum of the old operands, even when out is one of them. |
| Math3D.Vec3.Sub | src/core/Math.ts:88-93 | out receives the difference of the old operands, even when out is one of them. |
| Math3D.Vec3.Length | src/core/Math.ts:95-97 | Returns the Euclidean length: non-negative, and zero exactly for the zero vector. |
| Math3D.Vec3.Length2 | src/core/Math.ts:99-102 | Returns the non-negative squared length. |
| Math3D.Vec3.Normalize | src/core/Math.ts:104-106 | out receives the unit vector in the direction of the old receiver. |
| Math3D.Vec3.Scale | src/core/Math.ts:108-113 | out receives the old receiver scaled by s. |
| Math3D.Vec3.Cross | src/core/Math.ts:115-125 | out receives the right-handed cross product of the old operands, even when out is the receiver or b. |
| Math3D.Vec3.SetFromMatrixPosition | src/core/Math.ts:128-136 | The receiver takes slots 12, 13 and 14 of the matrix. |
| Math3D.Vec3.SetFromSpherical | src/core/Math.ts:138-140 | The receiver takes the cartesian point of the spherical argument. |
| Math3D.Vec3.SetFromSphericalCoords | src/core/Math.ts:142-148 | The receiver takes (r sin φ sin θ, r cos φ, r sin φ cos θ). |
| Math3D.Vec3.ToArray | src/core/Math.ts:150-155 | Slots offset, offset+1 and offset+2 receive x, y and z; nothing else in the array changes. |
| Matrices.FromRows | src/core/Math.ts:167-181 | The entry in row r and column c is argument 4r + c. |
| Matrices.FromRowsAt | src/core/Math.ts:167-181 | Slot 4c + r receives argument 4r + c, for each of the sixteen slots. |
| Matrices.FromRowsTwice | src/core/Math.ts:167-181 | The storage order is a transpose: applying it twice gives the arguments back. |
| Math3D.Mat4.constructor | src/core/Math.ts:160-165 | A new matrix is the identity, with its own array and three distinct scratch vectors. |
| Math3D.Mat4.Set | src/core/Math.ts:167-181 | The sixteen arguments, read row by row, are stored column by column. |
| Math3D.Mat4.Copy | src/core/Math.ts:183-194 | All sixteen slots take the source's old values. |
| Math3D.Mat4.Clone | src/core/Math.ts:196-198 | A fresh matrix with its own array and the same value. |
| Math3D.Mat4.Perspective | src/core/Math.ts:200-227 | Stores the perspective matrix of fovy, aspect, near and far. |
| Matrices.PerspectiveEntries | src/core/Math.ts:200-227 | Entry (2,2) is (far+near)/(near−far), (2,3) is 2·far·near/(near−far), (3,2) is −1 and (3,3) is 0. |
| Matrices.PerspectiveDepth | src/core/Math.ts:200-227 | Points at depth −near and −far reach clip depth −w and +w; x and y are scaled by f/aspect and f. |
| Math3D.Mat4.Ortho | src/core/Math.ts:230-258 | Stores the orthographic matrix of the six planes. |
| Matrices.OrthoCorners | src/core/Math.ts:230-258 | The corners (left, bottom, −near) and (right, top, −far) go to (−1,−1,−1) and (1,1,1). |
| Matrices.Multiply | src/core/Math.ts:342-380 | The entry in row r and column c is row r of a times column c of b. |
| Matrices.MultiplySlots | src/core/Math.ts:342-380 | Slot 4c + r is the four-term sum multiply writes there, for each of the sixteen slots. |
| Matrices.MultiplyIdentity | src/core/Math.ts:342-380 | The identity is a left and a right unit. |
| Matrices.TransformMultiply | src/core/Math.ts:342-380 | Applying a·b to a vector applies b first, then a. |
| Matrices.MultiplyAssociative | src/core/Math.ts:342-380 | The product is associative. |
| Math3D.Mat4.Multiply | src/core/Math.ts:342-380 | out receives the product of the old receiver and the old b, even when out is the receiver, b, or both. |
| Math3D.Mat4.Compose | src/core/Math.ts:382-427 | Stores the matrix of the quaternion, position and scale. |
| Rotations.ComposeMapsPoints | src/core/Math.ts:382-427 | For a unit quaternion, the composed matrix sends a point v to rotate(q, scale ∘ v) + position. |
| Inversion.InverseProduct | src/core/Math.ts:429-483 | With a nonzero determinant, the stored inverse is a two-sided inverse: a·inv = inv·a = I. |
| Inversion.InverseUnique | src/core/Math.ts:429-483 | Any right inverse equals the inverse invert computes. |
| Math3D.Mat4.Invert | src/core/Math.ts:429-483 | Fails exactly when the determinant is zero, and then leaves out unchanged. Otherwise out receives the inverse of the old receiver. |
| Matrices.TranslationMoves | src/core/Math.ts:485-495 | A translation moves every point by v and leaves directions alone. |
| Matrices.TranslationCompose | src/core/Math.ts:485-495 | Translating by v and then by w is translating by v + w. |
| Inversion.TranslationInverse | src/core/Math.ts:485-495 | A translation has determinant 1, and its inverse is the opposite translation. |
| Math3D.Mat4.MakeTranslation | src/core/Math.ts:485-495 | Stores the translation by (x, y, z). |
| Rotations.EulerMatrixFactors | src/core/Math.ts:500-532 | makeRotationFromEuler's matrix is Rz(z)·Ry(y)·Rx(x). |
| Math3D.Mat4.MakeRotationFromEuler | src/core/Math.ts:500-532 | Stores the ZYX rotation matrix of the Euler angles. |
| Matrices.WithTranslationPosition | src/core/Math.ts:534-545 | Afterwards the position is v. A second call keeps only its own v. On the identity it equals makeTranslation. |
| Matrices.WithTranslationMoves | src/core/Math.ts:534-545 | On an affine matrix, the result moves a point by what the 3×3 block does to it, plus v. |
| Math3D.Mat4.Translate | src/core/Math.ts:534-536 | out's slots 12–15 become (v, 1); its other twelve slots keep their values. |
| Math3D.Mat4.TranlateFromCartesianCoords | src/core/Math.ts:538-545 | out's slots 12–15 become (x, y, z, 1); its other twelve slots keep their values. |
| Math3D.Mat4.ToArray | src/core/Math.ts:547-572 | Slots offset … offset+15 receive the sixteen elements in storage order; nothing else changes. |
| Matrices.PositionIsImageOfOrigin | src/core/Math.ts:128-136 | The position that setFromMatrixPosition reads is where the matrix sends the origin. |
| Views.ViewDirection | src/core/Math.ts:296-302 | The z axis before normalising is eye − target, or (0, 0, 1) when eye and target coincide; never zero. |
| Views.FallbackAxes | src/core/Math.ts:305-321 | The z axis stays unit and x is up × z; z changes only when up × z is zero. |
| Views.Axes | src/core/Math.ts:323-324 | A unit z and a nonzero x perpendicular to z give an orthonormal basis with that z. |
| Views.FallbackRepairs | src/core/Math.ts:307-321 | With the corrected nudge rule and a nonzero up, the x axis after the fallback is never zero. |
| Views.LookAtBasis | src/core/Math.ts:296-324 | With the corrected rule, every nonzero up gives an orthonormal basis. |
| Views.LookAtBasisPerpendicularToUp | src/core/Math.ts:305-323 | The x axis is perpendicular to up. |
| Views.LookAtBasisRegular | src/core/Math.ts:296-305 | Away from both degenerate inputs, z is the unit vector from target to eye. |
| Views.CoincidentDirection | src/core/Math.ts:298-304 | When eye equals target, the normalised view direction is (0, 0, 1). |
| Views.LookAtAxesNone | src/core/Math.ts:305-324 | The as-written lookAt fails exactly where the fallback leaves the x axis zero. |
| Views.LookAtAxesFails | src/core/Math.ts:305-324 | The as-written lookAt fails exactly when up is zero, or when up lies on the z axis with \|up.z\| ≠ 1 and the view direction is on the z axis. |
| Views.UpOnZAxisStaysParallel | src/core/Math.ts:307-321 | For up on the z axis with \|up.z\| ≠ 1 and z parallel to it, the as-written z nudge keeps the x axis zero. |
| Views.LookAtAxesAgree | src/core/Math.ts:305-324 | Wherever the as-written lookAt succeeds, it gives the corrected basis. |
| Views.LookAtAxesFailsOnLongUp | src/core/Math.ts:310-324 | On eye (0,0,1), target 0 and up (0,0,2), the as-written lookAt normalises a zero x axis. |
| Views.LookAtBasisOnLongUp | src/core/Math.ts:310-324 | On the same input, the corrected rule gives an orthonormal basis whose x axis is perpendicular to up. |
| Views.WithRotationBlock | src/core/Math.ts:326-336 | Slots 3, 7, 11 and 15 and the translation column keep their values. |
| Views.WithRotationBlockMaps | src/core/Math.ts:326-336 | On an affine matrix, the result sends the coordinate directions to the three axes. |
| Math3D.Mat4.ViewAxis | src/core/Math.ts:296-304 | The scratch z axis becomes the normalised view direction. |
| Math3D.Mat4.RightAxis | src/core/Math.ts:305-321 | The scratch z and x axes become the result of the fallback, with the corrected nudge rule. |
| Math3D.Mat4.WriteAxes | src/core/Math.ts:326-336 | The three axes go into slots 0–2, 4–6 and 8–10; the other slots keep their values. |
| Math3D.Mat4.LookAt | src/core/Math.ts:288-338 | The rotation block receives the corrected lookAt basis; slots 3, 7, 11 and 12–15 keep their values. |
| Math3D.Quat.constructor | src/core/Math.ts:577-580 | A new quaternion is the identity rotation (0, 0, 0, 1). |
| Math3D.Quat.Set | src/core/Math.ts:582-590 | Stores the four arguments. |
| Math3D.Quat.Copy | src/core/Math.ts:592-600 | The receiver takes the value of the argument. |
| Math3D.Quat.Clone | src/core/Math.ts:602-605 | A fresh quaternion with the same value. |
| Math3D.Quat.Equals | src/core/Math.ts:607-610 | True exactly when all four components are equal. |
| Rotations.QuatFromMatrixTrace | src/core/Math.ts:627-634 | In the trace > 0 branch, w is positive with 4w² = 1 + trace, and 4w·(x, y, z) are the three differences. |
| Rotations.QuatFromMatrixX | src/core/Math.ts:636-643 | When m11 dominates, x is positive with 4x² = 1 + m11 − m22 − m33, and 4x times the others gives the sums and the difference. |
| Rotations.QuatFromMatrixY | src/core/Math.ts:645-652 | When m22 > m33, y is positive with 4y² = 1 + m22 − m11 − m33, and 4y times the others gives the sums and the difference. |
| Rotations.QuatFromMatrixZ | src/core/Math.ts:654-662 | In the last branch, z is positive with 4z² = 1 + m33 − m11 − m22, and 4z times the others gives the sums and the difference. |
| Rotations.QuatFromRelations | src/core/Math.ts:617-666 | On any matrix with the sums and differences of q, the result is q or −q, whichever branch runs. |
| Rotations.QuatFromMatrixRoundTrip | src/core/Math.ts:617-666 | On the matrix compose builds from a unit quaternion q, the result is q or −q. |
| Math3D.Quat.SetFromRotationMatrix | src/core/Math.ts:617-666 | Stores the quaternion of the branch selected by the trace and the diagonal. |
| Rotations.QuatFromEulerFactors | src/core/Math.ts:672-691 | The result is qz·qy·qx of the half-angle axis rotations (ZYX order). |
| Rotations.QuatFromEulerUnit | src/core/Math.ts:672-691 | The result is a unit quaternion. |
| Math3D.Quat.SetFromEuler | src/core/Math.ts:672-691 | Stores the quaternion of the halved angles. |
| Math3D.Euler.constructor | src/core/Math.ts:706-710 | The new angles are the three arguments. |
| Math3D.Euler.Copy | src/core/Math.ts:712-717 | The receiver takes the value of the argument. |
| Math3D.Euler.Clone | src/core/Math.ts:719-721 | Fresh angles with the same value. |
| Math3D.Euler.Equals | src/core/Math.ts:723-725 | True exactly when all three angles are equal. |
| Rotations.AnglesFromQuatClampUnneeded | src/core/Math.ts:727-733 | For a unit quaternion, the argument of the clamp already lies in [−1, 1]. |
| Rotations.AnglesFromQuatMatchesMatrix | src/core/Math.ts:727-763 | Away from gimbal lock, setFromQuat equals setFromRotationMatrix on compose's matrix of the same quaternion. |
| Math3D.Euler.SetFromQuat | src/core/Math.ts:727-733 | Stores the ZYX angles of the quaternion. |
| Rotations.AnglesFromEulerMatrix | src/core/Math.ts:748-753 | Away from gimbal lock, angles in the principal ranges survive makeRotationFromEuler and then setFromRotationMatrix. |
| Rotations.AnglesFromRegularEntries | src/core/Math.ts:748-753 | On any matrix with the regular-branch entries of a rotation by e, the angles read back are e. |
| Rotations.AnglesFromEulerMatrixGimbal | src/core/Math.ts:748-760 | In gimbal lock (\|sin y\| ≥ 0.99999), angles with x = 0 survive the round trip. |
| Math3D.Euler.SetFromRotationMatrix | src/core/Math.ts:740-763 | Stores y = asin(−clamp(m31)), with x and z chosen by the 0.99999 threshold on \|m31\|. |
| SphericalCoords.SphericalRadius | src/core/Math.ts:791-792 | The radius is the length of (x, y, z), zero exactly at the origin. |
| SphericalCoords.SphericalOfOrigin | src/core/Math.ts:791-795 | The origin gets radius 0 and both angles 0. |
| SphericalCoords.SphericalClampUnneeded | src/core/Math.ts:796-798 | Off the origin, y / radius already lies in [−1, 1]. |
| SphericalCoords.SphericalRoundTrip | src/core/Math.ts:791-801 | setFromSphericalCoords on the result of setFromCartesianCoords gives back the point. |
| SphericalCoords.ZeroRadius | src/core/Math.ts:142-148 | A zero radius gives the origin, whatever the angles. |
| Math3D.Spherical.constructor | src/core/Math.ts:781-785 | The new coordinates are the three arguments. |
| Math3D.Spherical.SetFromVec3 | src/core/Math.ts:787-789 | Stores the spherical coordinates of the vector's old components. |
| Math3D.Spherical.SetFromCartesianCoords | src/core/Math.ts:791-801 | Stores the spherical coordinates of (x, y, z), with both angles 0 at the origin. |

## Left out

- IEEE-754 arithmetic: rounding, NaN and Infinity. The model computes over exact reals.
- Divisions by zero become preconditions. They are normalising a zero vector, perspective with tan(fovy/2) = 0, aspect = 0 or near = far, and ortho with a degenerate box. In the source these produce NaN or Infinity rather than an error.
- Math3D.Vec3.Normalize: requires a nonzero vector; the source returns NaN components for the zero vector.
- Math3D.Mat4.LookAt: uses the corrected nudge rule (see Findings) and requires a nonzero up. The as-written rule is `Views.LookAtAxes`, and the two agree wherever the source produces finite axes (`Views.LookAtAxesAgree`).
- Math3D.Mat4.LookAt: requires that eye, target and up are not the matrix's own scratch vectors. The scratch vectors are private to the closure and unreachable by callers.
- The transcendental functions and PI are parameters, not definitions. Only the stated laws are known of them, so no property depends on a particular numeric value of sin, cos or atan2.
- Vec3.ToArray and Mat4.ToArray: require an array long enough to hold the result; JavaScript arrays grow on write past the end.
- Writes done in one step: `copy`, `compose`, `invert`, `perspective`, `ortho`, `makeTranslation` and `makeRotationFromEuler` store all sixteen slots at once. The source writes them one at a time, but it computes every value from what it read before its first write, so the final array is the same. `multiply`, `lookAt` and `tranlateFromCartesianCoords` are modelled slot by slot.
- The setters return `this` for chaining. The methods here return nothing, or their boolean or number result.
- Default arguments: `Vec3`, `Euler` and `Spherical` constructors take their three arguments explicitly. `Vec3.set(s)` with y and z omitted is `SetAll`.
- `Vec2` is a plain pair with a setter and has nothing to state.
- The demo page (WebGL shaders, buffers, the render loop and frame timing) and the build and dev-server script are I/O and tooling, and are not part of this model.
- The commented-out alternative lookAt above the live one is not modelled.
- The Euler → Quat → matrix round trip: `setFromEuler` followed by `compose` gives the matrix of `makeRotationFromEuler` only through the double-angle identities. That step is not proved; the two are shown to be the same ZYX product of axis rotations instead (`Rotations.QuatFromEulerFactors`, `Rotations.EulerMatrixFactors`).
- Rotations.AnglesFromEulerMatrix: requires cos y > 0 and the principal ranges of atan2 and asin. Angles outside those ranges come back as an equivalent triple, which is not stated.
- Rotations.QuatFromMatrixRoundTrip: proved for matrices that compose builds with unit scale. A scaled matrix breaks the source's own assumption of a pure rotation.

## Findings

| source | as written | input that shows it | evidently intended | confidence | as-written member | corrected member |
|---|---|---|---|---|---|---|
| src/core/Math.ts:307-323 | When up × z is zero, z is nudged on x only if \|up.z\| == 1, and on z otherwise. | eye = (0, 0, 1), target = (0, 0, 0), up = (0, 0, 2): up × z is zero, and the z nudge keeps z on the z axis, so x stays zero and normalize divides by zero (NaN in the matrix). | Nudge on x whenever up lies on the z axis, so that the nudge always breaks the parallelism: \|up.z\| == 1 or up.x == up.y == 0. | medium: the NaN follows from the code, the intent to accept a non-unit up is inferred; not executed | Views.LookAtAxesFailsOnLongUp | Views.LookAtBasisOnLongUp |
