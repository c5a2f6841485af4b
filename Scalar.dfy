/**
 * Scalar helpers of the transform-math module and the host math library it calls.
 *
 * Every number is a `real`. The transcendental functions the module takes from the host
 * (sin, cos, tan, sqrt, asin, acos, atan2) and the constant PI are not defined here: they are
 * fields of a `MathLib` value that every operation needing them receives as a parameter. Nothing
 * is assumed about them except the laws below, and each law is a `requires` of exactly the
 * members whose proofs use it.
 */
module Scalar {

  /** The host's standard math functions and the constant PI. */
  datatype MathLib = MathLib(
    pi: real,
    sin: real -> real,
    cos: real -> real,
    tan: real -> real,
    sqrt: real -> real,
    asin: real -> real,
    acos: real -> real,
    atan2: (real, real) -> real)

  /** sqrt returns the non-negative square root of a non-negative argument. */
  ghost predicate SqrtLaw(lib: MathLib) {
    forall x :: 0.0 <= x ==> 0.0 <= lib.sqrt(x) && lib.sqrt(x) * lib.sqrt(x) == x
  }

  /** sin and cos lie on the unit circle. */
  ghost predicate PythagoreanLaw(lib: MathLib) {
    forall t :: lib.sin(t) * lib.sin(t) + lib.cos(t) * lib.cos(t) == 1.0
  }

  /** asin undoes sin on [-PI/2, PI/2]. */
  ghost predicate AsinLaw(lib: MathLib) {
    forall t :: -lib.pi / 2.0 <= t <= lib.pi / 2.0 ==> lib.asin(lib.sin(t)) == t
  }

  /**
   * atan2(a, b) is the angle t in (-PI, PI] whose direction (sin t, cos t) is a positive multiple
   * of (a, b). The guard says exactly that: (a, b) is parallel to (sin t, cos t) and points the same way.
   */
  ghost predicate Atan2Law(lib: MathLib) {
    forall a, b, t {:trigger lib.atan2(a, b), lib.sin(t)} ::
      -lib.pi < t <= lib.pi && a * lib.cos(t) == b * lib.sin(t) && 0.0 < a * lib.sin(t) + b * lib.cos(t)
      ==> lib.atan2(a, b) == t
  }

  /** The direction of atan2(a, b) is that of (a, b), and atan2(0, 0) is 0 as in JavaScript. */
  ghost predicate Atan2DirectionLaw(lib: MathLib) {
    && lib.atan2(0.0, 0.0) == 0.0
    && forall a, b :: (a != 0.0 || b != 0.0) ==>
         var t := lib.atan2(a, b);
         a * lib.cos(t) == b * lib.sin(t) && 0.0 < a * lib.sin(t) + b * lib.cos(t)
  }

  /** acos maps [-1, 1] back onto the upper half circle. */
  ghost predicate AcosLaw(lib: MathLib) {
    forall u :: -1.0 <= u <= 1.0 ==> lib.cos(lib.acos(u)) == u && 0.0 <= lib.sin(lib.acos(u))
  }

  /** sin(0) == 0 and cos(0) == 1. */
  ghost predicate ZeroAngleLaw(lib: MathLib) {
    lib.sin(0.0) == 0.0 && lib.cos(0.0) == 1.0
  }

  function Abs(x: real): (r: real)
    ensures 0.0 <= r && (r == x || r == -x)
  {
    if x < 0.0 then -x else x
  }

  function Max(a: real, b: real): (r: real)
    ensures a <= r && b <= r && (r == a || r == b)
  {
    if a < b then b else a
  }

  function Min(a: real, b: real): (r: real)
    ensures r <= a && r <= b && (r == a || r == b)
  {
    if a < b then a else b
  }

  /**
   * clamp(value, minValue, maxValue) == max(minValue, min(value, maxValue)).
   * With ordered bounds the result is the point of [minValue, maxValue] nearest to value;
   * with inverted bounds the lower bound wins.
   */
  function Clamp(value: real, minValue: real, maxValue: real): (r: real)
    ensures minValue <= maxValue ==> minValue <= r <= maxValue
    ensures minValue <= value <= maxValue ==> r == value
    ensures value < minValue ==> r == minValue
    ensures minValue <= maxValue < value ==> r == maxValue
    ensures maxValue < minValue ==> r == minValue
  {
    Max(minValue, Min(value, maxValue))
  }

  /** The DEG2RAD constant, PI / 180. */
  function Deg2Rad(lib: MathLib): real {
    lib.pi / 180.0
  }

  /** The RAD2DEG constant, 180 / PI. */
  function Rad2Deg(lib: MathLib): real
    requires lib.pi != 0.0
  {
    180.0 / lib.pi
  }

  function DegToRad(lib: MathLib, degrees: real): (r: real)
    ensures degrees == 180.0 ==> r == lib.pi
    ensures degrees == 0.0 ==> r == 0.0
  {
    degrees * Deg2Rad(lib)
  }

  /** Converting to radians and back with RAD2DEG gives the original number of degrees. */
  lemma DegToRadRoundTrip(lib: MathLib, degrees: real)
    requires lib.pi != 0.0
    ensures DegToRad(lib, degrees) * Rad2Deg(lib) == degrees
  {
    calc {
      DegToRad(lib, degrees) * Rad2Deg(lib);
      degrees * (lib.pi / 180.0) * (180.0 / lib.pi);
      degrees * ((lib.pi / 180.0) * (180.0 / lib.pi));
      { assert (lib.pi / 180.0) * (180.0 / lib.pi) == 1.0; }
      degrees;
    }
  }

  /** x * x, kept behind a function so that facts about its sign stay visible to the solver. */
  function Sq(x: real): real {
    x * x
  }

  /** a * b, kept behind a function for the same reason as Sq. */
  function Mul(a: real, b: real): real {
    a * b
  }

  lemma MulPositive(a: real, b: real)
    requires 0.0 < a && 0.0 < b
    ensures 0.0 < Mul(a, b)
  {
  }

  /** A square is non-negative, and zero only at zero. */
  lemma SquareSign(x: real)
    ensures 0.0 <= Sq(x)
    ensures x != 0.0 ==> 0.0 < Sq(x)
    ensures x == 0.0 ==> Sq(x) == 0.0
  {
    if x < 0.0 {
      MulPositive(-x, -x);
      assert Mul(-x, -x) == Sq(x);
    } else if x > 0.0 {
      MulPositive(x, x);
      assert Mul(x, x) == Sq(x);
    }
  }

  /** Two non-negative numbers with equal squares are equal. */
  lemma SquareRootsAgree(r: real, s: real)
    requires 0.0 <= r && 0.0 <= s && Sq(r) == Sq(s)
    ensures r == s
  {
    if r < s {
      MulPositive(s - r, s + r);
    } else if s < r {
      MulPositive(r - s, r + s);
    }
  }

  /** The square root of a square is the absolute value. */
  lemma SqrtOfSquare(lib: MathLib, a: real)
    requires SqrtLaw(lib)
    ensures lib.sqrt(Sq(a)) == Abs(a)
  {
    SquareSign(a);
    var r := lib.sqrt(Sq(a));
    assert 0.0 <= r && r * r == Sq(a);
    assert Sq(Abs(a)) == Sq(a);
    SquareRootsAgree(r, Abs(a));
  }

  /** sqrt of a non-negative number is a non-negative root of it, zero exactly at zero. */
  lemma SqrtZero(lib: MathLib, x: real)
    requires SqrtLaw(lib) && 0.0 <= x
    ensures 0.0 <= lib.sqrt(x) && Sq(lib.sqrt(x)) == x
    ensures lib.sqrt(x) == 0.0 <==> x == 0.0
  {
    var s := lib.sqrt(x);
    assert 0.0 <= s && s * s == x;
    SquareSign(s);
  }

  /** sqrt of a positive number is positive. */
  lemma SqrtPositive(lib: MathLib, x: real)
    requires SqrtLaw(lib) && 0.0 < x
    ensures 0.0 < lib.sqrt(x)
  {
    SqrtZero(lib, x);
  }

  /** The sum of four products x_i * y_i: one row of a 4x4 matrix times one column. */
  function Dot4(x0: real, x1: real, x2: real, x3: real, y0: real, y1: real, y2: real, y3: real): real {
    x0 * y0 + x1 * y1 + x2 * y2 + x3 * y3
  }

  /**
   * Scaling one side of a four-term dot product scales the result. The products are written
   * with Mul so that callers can match them against their own terms.
   */
  lemma Dot4Scale(x0: real, x1: real, x2: real, x3: real, y0: real, y1: real, y2: real, y3: real, k: real)
    ensures Dot4(x0, x1, x2, x3, Mul(y0, k), Mul(y1, k), Mul(y2, k), Mul(y3, k)) == Mul(Dot4(x0, x1, x2, x3, y0, y1, y2, y3), k)
    ensures Dot4(Mul(x0, k), Mul(x1, k), Mul(x2, k), Mul(x3, k), y0, y1, y2, y3) == Mul(Dot4(x0, x1, x2, x3, y0, y1, y2, y3), k)
  {
  }

  /** A dot product times a number, expanded into its four monomials. */
  lemma Dot4Times(x0: real, x1: real, x2: real, x3: real, y0: real, y1: real, y2: real, y3: real, v: real)
    ensures Dot4(x0, x1, x2, x3, y0, y1, y2, y3) * v == x0 * y0 * v + x1 * y1 * v + x2 * y2 * v + x3 * y3 * v
  {
  }

  /** A number times a dot product, expanded into its four monomials. */
  lemma TimesDot4(x: real, y0: real, y1: real, y2: real, y3: real, v0: real, v1: real, v2: real, v3: real)
    ensures x * Dot4(y0, y1, y2, y3, v0, v1, v2, v3) == x * y0 * v0 + x * y1 * v1 + x * y2 * v2 + x * y3 * v3
  {
  }

  /**
   * A row x times a 4x4 block b (bKC in row K, column C), then times a column v, equals x times
   * (b times v): the regrouping behind associativity of the matrix product.
   */
  lemma Dot4Regroup(
    x0: real, x1: real, x2: real, x3: real,
    b00: real, b01: real, b02: real, b03: real,
    b10: real, b11: real, b12: real, b13: real,
    b20: real, b21: real, b22: real, b23: real,
    b30: real, b31: real, b32: real, b33: real,
    v0: real, v1: real, v2: real, v3: real)
    ensures Dot4(
      Dot4(x0, x1, x2, x3, b00, b10, b20, b30),
      Dot4(x0, x1, x2, x3, b01, b11, b21, b31),
      Dot4(x0, x1, x2, x3, b02, b12, b22, b32),
      Dot4(x0, x1, x2, x3, b03, b13, b23, b33),
      v0, v1, v2, v3)
      == Dot4(
      x0, x1, x2, x3,
      Dot4(b00, b01, b02, b03, v0, v1, v2, v3),
      Dot4(b10, b11, b12, b13, v0, v1, v2, v3),
      Dot4(b20, b21, b22, b23, v0, v1, v2, v3),
      Dot4(b30, b31, b32, b33, v0, v1, v2, v3))
  {
    Dot4Times(x0, x1, x2, x3, b00, b10, b20, b30, v0);
    Dot4Times(x0, x1, x2, x3, b01, b11, b21, b31, v1);
    Dot4Times(x0, x1, x2, x3, b02, b12, b22, b32, v2);
    Dot4Times(x0, x1, x2, x3, b03, b13, b23, b33, v3);
    TimesDot4(x0, b00, b01, b02, b03, v0, v1, v2, v3);
    TimesDot4(x1, b10, b11, b12, b13, v0, v1, v2, v3);
    TimesDot4(x2, b20, b21, b22, b23, v0, v1, v2, v3);
    TimesDot4(x3, b30, b31, b32, b33, v0, v1, v2, v3);
  }
}
