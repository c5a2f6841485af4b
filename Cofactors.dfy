/**
 * The cofactor expansion invert() performs, over plain numbers.
 *
 * aCR names the entry held in slot 4 * C + R of the element array, exactly as invert() names its
 * locals: a00..a03 is the first column, a30..a33 the last. bNN are the twelve 2x2 minors
 * invert() forms from the first two and the last two columns, DetOf is its determinant and
 * AdjugateK the expression it stores (before scaling by 1 / det) in slot K.
 *
 * The lemmas are the 32 entries of a * adj(a) == det(a) * I and adj(a) * a == det(a) * I,
 * one entry per lemma so that each is a small polynomial identity.
 */
module Cofactors {
  import opened Scalar

  function DetOf(
    a00: real, a01: real, a02: real, a03: real,
    a10: real, a11: real, a12: real, a13: real,
    a20: real, a21: real, a22: real, a23: real,
    a30: real, a31: real, a32: real, a33: real): real
  {
    var b00 := a00 * a11 - a01 * a10;
    var b01 := a00 * a12 - a02 * a10;
    var b02 := a00 * a13 - a03 * a10;
    var b03 := a01 * a12 - a02 * a11;
    var b04 := a01 * a13 - a03 * a11;
    var b05 := a02 * a13 - a03 * a12;
    var b06 := a20 * a31 - a21 * a30;
    var b07 := a20 * a32 - a22 * a30;
    var b08 := a20 * a33 - a23 * a30;
    var b09 := a21 * a32 - a22 * a31;
    var b10 := a21 * a33 - a23 * a31;
    var b11 := a22 * a33 - a23 * a32;
    b00 * b11 - b01 * b10 + b02 * b09 + b03 * b08 - b04 * b07 + b05 * b06
  }

  function Adjugate0(
    a00: real, a01: real, a02: real, a03: real,
    a10: real, a11: real, a12: real, a13: real,
    a20: real, a21: real, a22: real, a23: real,
    a30: real, a31: real, a32: real, a33: real): real
  {
    var b09 := a21 * a32 - a22 * a31;
    var b10 := a21 * a33 - a23 * a31;
    var b11 := a22 * a33 - a23 * a32;
    a11 * b11 - a12 * b10 + a13 * b09
  }

  function Adjugate1(
    a00: real, a01: real, a02: real, a03: real,
    a10: real, a11: real, a12: real, a13: real,
    a20: real, a21: real, a22: real, a23: real,
    a30: real, a31: real, a32: real, a33: real): real
  {
    var b09 := a21 * a32 - a22 * a31;
    var b10 := a21 * a33 - a23 * a31;
    var b11 := a22 * a33 - a23 * a32;
    a02 * b10 - a01 * b11 - a03 * b09
  }

  function Adjugate2(
    a00: real, a01: real, a02: real, a03: real,
    a10: real, a11: real, a12: real, a13: real,
    a20: real, a21: real, a22: real, a23: real,
    a30: real, a31: real, a32: real, a33: real): real
  {
    var b03 := a01 * a12 - a02 * a11;
    var b04 := a01 * a13 - a03 * a11;
    var b05 := a02 * a13 - a03 * a12;
    a31 * b05 - a32 * b04 + a33 * b03
  }

  function Adjugate3(
    a00: real, a01: real, a02: real, a03: real,
    a10: real, a11: real, a12: real, a13: real,
    a20: real, a21: real, a22: real, a23: real,
    a30: real, a31: real, a32: real, a33: real): real
  {
    var b03 := a01 * a12 - a02 * a11;
    var b04 := a01 * a13 - a03 * a11;
    var b05 := a02 * a13 - a03 * a12;
    a22 * b04 - a21 * b05 - a23 * b03
  }

  function Adjugate4(
    a00: real, a01: real, a02: real, a03: real,
    a10: real, a11: real, a12: real, a13: real,
    a20: real, a21: real, a22: real, a23: real,
    a30: real, a31: real, a32: real, a33: real): real
  {
    var b07 := a20 * a32 - a22 * a30;
    var b08 := a20 * a33 - a23 * a30;
    var b11 := a22 * a33 - a23 * a32;
    a12 * b08 - a10 * b11 - a13 * b07
  }

  function Adjugate5(
    a00: real, a01: real, a02: real, a03: real,
    a10: real, a11: real, a12: real, a13: real,
    a20: real, a21: real, a22: real, a23: real,
    a30: real, a31: real, a32: real, a33: real): real
  {
    var b07 := a20 * a32 - a22 * a30;
    var b08 := a20 * a33 - a23 * a30;
    var b11 := a22 * a33 - a23 * a32;
    a00 * b11 - a02 * b08 + a03 * b07
  }

  function Adjugate6(
    a00: real, a01: real, a02: real, a03: real,
    a10: real, a11: real, a12: real, a13: real,
    a20: real, a21: real, a22: real, a23: real,
    a30: real, a31: real, a32: real, a33: real): real
  {
    var b01 := a00 * a12 - a02 * a10;
    var b02 := a00 * a13 - a03 * a10;
    var b05 := a02 * a13 - a03 * a12;
    a32 * b02 - a30 * b05 - a33 * b01
  }

  function Adjugate7(
    a00: real, a01: real, a02: real, a03: real,
    a10: real, a11: real, a12: real, a13: real,
    a20: real, a21: real, a22: real, a23: real,
    a30: real, a31: real, a32: real, a33: real): real
  {
    var b01 := a00 * a12 - a02 * a10;
    var b02 := a00 * a13 - a03 * a10;
    var b05 := a02 * a13 - a03 * a12;
    a20 * b05 - a22 * b02 + a23 * b01
  }

  function Adjugate8(
    a00: real, a01: real, a02: real, a03: real,
    a10: real, a11: real, a12: real, a13: real,
    a20: real, a21: real, a22: real, a23: real,
    a30: real, a31: real, a32: real, a33: real): real
  {
    var b06 := a20 * a31 - a21 * a30;
    var b08 := a20 * a33 - a23 * a30;
    var b10 := a21 * a33 - a23 * a31;
    a10 * b10 - a11 * b08 + a13 * b06
  }

  function Adjugate9(
    a00: real, a01: real, a02: real, a03: real,
    a10: real, a11: real, a12: real, a13: real,
    a20: real, a21: real, a22: real, a23: real,
    a30: real, a31: real, a32: real, a33: real): real
  {
    var b06 := a20 * a31 - a21 * a30;
    var b08 := a20 * a33 - a23 * a30;
    var b10 := a21 * a33 - a23 * a31;
    a01 * b08 - a00 * b10 - a03 * b06
  }

  function Adjugate10(
    a00: real, a01: real, a02: real, a03: real,
    a10: real, a11: real, a12: real, a13: real,
    a20: real, a21: real, a22: real, a23: real,
    a30: real, a31: real, a32: real, a33: real): real
  {
    var b00 := a00 * a11 - a01 * a10;
    var b02 := a00 * a13 - a03 * a10;
    var b04 := a01 * a13 - a03 * a11;
    a30 * b04 - a31 * b02 + a33 * b00
  }

  function Adjugate11(
    a00: real, a01: real, a02: real, a03: real,
    a10: real, a11: real, a12: real, a13: real,
    a20: real, a21: real, a22: real, a23: real,
    a30: real, a31: real, a32: real, a33: real): real
  {
    var b00 := a00 * a11 - a01 * a10;
    var b02 := a00 * a13 - a03 * a10;
    var b04 := a01 * a13 - a03 * a11;
    a21 * b02 - a20 * b04 - a23 * b00
  }

  function Adjugate12(
    a00: real, a01: real, a02: real, a03: real,
    a10: real, a11: real, a12: real, a13: real,
    a20: real, a21: real, a22: real, a23: real,
    a30: real, a31: real, a32: real, a33: real): real
  {
    var b06 := a20 * a31 - a21 * a30;
    var b07 := a20 * a32 - a22 * a30;
    var b09 := a21 * a32 - a22 * a31;
    a11 * b07 - a10 * b09 - a12 * b06
  }

  function Adjugate13(
    a00: real, a01: real, a02: real, a03: real,
    a10: real, a11: real, a12: real, a13: real,
    a20: real, a21: real, a22: real, a23: real,
    a30: real, a31: real, a32: real, a33: real): real
  {
    var b06 := a20 * a31 - a21 * a30;
    var b07 := a20 * a32 - a22 * a30;
    var b09 := a21 * a32 - a22 * a31;
    a00 * b09 - a01 * b07 + a02 * b06
  }

  function Adjugate14(
    a00: real, a01: real, a02: real, a03: real,
    a10: real, a11: real, a12: real, a13: real,
    a20: real, a21: real, a22: real, a23: real,
    a30: real, a31: real, a32: real, a33: real): real
  {
    var b00 := a00 * a11 - a01 * a10;
    var b01 := a00 * a12 - a02 * a10;
    var b03 := a01 * a12 - a02 * a11;
    a31 * b01 - a30 * b03 - a32 * b00
  }

  function Adjugate15(
    a00: real, a01: real, a02: real, a03: real,
    a10: real, a11: real, a12: real, a13: real,
    a20: real, a21: real, a22: real, a23: real,
    a30: real, a31: real, a32: real, a33: real): real
  {
    var b00 := a00 * a11 - a01 * a10;
    var b01 := a00 * a12 - a02 * a10;
    var b03 := a01 * a12 - a02 * a11;
    a20 * b03 - a21 * b01 + a22 * b00
  }

  // Row r of a times column c of adj(a) is det(a) when r == c and 0 otherwise.

  lemma AdjugateRight00(
    a00: real, a01: real, a02: real, a03: real,
    a10: real, a11: real, a12: real, a13: real,
    a20: real, a21: real, a22: real, a23: real,
    a30: real, a31: real, a32: real, a33: real)
    ensures Dot4(
      a00, a10, a20, a30,
      Adjugate0(a00, a01, a02, a03, a10, a11, a12, a13, a20, a21, a22, a23, a30, a31, a32, a33),
      Adjugate1(a00, a01, a02, a03, a10, a11, a12, a13, a20, a21, a22, a23, a30, a31, a32, a33),
      Adjugate2(a00, a01, a02, a03, a10, a11, a12, a13, a20, a21, a22, a23, a30, a31, a32, a33),
      Adjugate3(a00, a01, a02, a03, a10, a11, a12, a13, a20, a21, a22, a23, a30, a31, a32, a33))
      == DetOf(a00, a01, a02, a03, a10, a11, a12, a13, a20, a21, a22, a23, a30, a31, a32, a33)
  {
  }

  lemma AdjugateRight10(
    a00: real, a01: real, a02: real, a03: real,
    a10: real, a11: real, a12: real, a13: real,
    a20: real, a21: real, a22: real, a23: real,
    a30: real, a31: real, a32: real, a33: real)
    ensures Dot4(
      a01, a11, a21, a31,
      Adjugate0(a00, a01, a02, a03, a10, a11, a12, a13, a20, a21, a22, a23, a30, a31, a32, a33),
      Adjugate1(a00, a01, a02, a03, a10, a11, a12, a13, a20, a21, a22, a23, a30, a31, a32, a33),
      Adjugate2(a00, a01, a02, a03, a10, a11, a12, a13, a20, a21, a22, a23, a30, a31, a32, a33),
      Adjugate3(a00, a01, a02, a03, a10, a11, a12, a13, a20, a21, a22, a23, a30, a31, a32, a33))
      == 0.0
  {
  }

  lemma AdjugateRight20(
    a00: real, a01: real, a02: real, a03: real,
    a10: real, a11: real, a12: real, a13: real,
    a20: real, a21: real, a22: real, a23: real,
    a30: real, a31: real, a32: real, a33: real)
    ensures Dot4(
      a02, a12, a22, a32,
      Adjugate0(a00, a01, a02, a03, a10, a11, a12, a13, a20, a21, a22, a23, a30, a31, a32, a33),
      Adjugate1(a00, a01, a02, a03, a10, a11, a12, a13, a20, a21, a22, a23, a30, a31, a32, a33),
      Adjugate2(a00, a01, a02, a03, a10, a11, a12, a13, a20, a21, a22, a23, a30, a31, a32, a33),
      Adjugate3(a00, a01, a02, a03, a10, a11, a12, a13, a20, a21, a22, a23, a30, a31, a32, a33))
      == 0.0
  {
  }

  lemma AdjugateRight30(
    a00: real, a01: real, a02: real, a03: real,
    a10: real, a11: real, a12: real, a13: real,
    a20: real, a21: real, a22: real, a23: real,
    a30: real, a31: real, a32: real, a33: real)
    ensures Dot4(
      a03, a13, a23, a33,
      Adjugate0(a00, a01, a02, a03, a10, a11, a12, a13, a20, a21, a22, a23, a30, a31, a32, a33),
      Adjugate1(a00, a01, a02, a03, a10, a11, a12, a13, a20, a21, a22, a23, a30, a31, a32, a33),
      Adjugate2(a00, a01, a02, a03, a10, a11, a12, a13, a20, a21, a22, a23, a30, a31, a32, a33),
      Adjugate3(a00, a01, a02, a03, a10, a11, a12, a13, a20, a21, a22, a23, a30, a31, a32, a33))
      == 0.0
  {
  }

  lemma AdjugateRight01(
    a00: real, a01: real, a02: real, a03: real,
    a10: real, a11: real, a12: real, a13: real,
    a20: real, a21: real, a22: real, a23: real,
    a30: real, a31: real, a32: real, a33: real)
    ensures Dot4(
      a00, a10, a20, a30,
      Adjugate4(a00, a01, a02, a03, a10, a11, a12, a13, a20, a21, a22, a23, a30, a31, a32, a33),
      Adjugate5(a00, a01, a02, a03, a10, a11, a12, a13, a20, a21, a22, a23, a30, a31, a32, a33),
      Adjugate6(a00, a01, a02, a03, a10, a11, a12, a13, a20, a21, a22, a23, a30, a31, a32, a33),
      Adjugate7(a00, a01, a02, a03, a10, a11, a12, a13, a20, a21, a22, a23, a30, a31, a32, a33))
      == 0.0
  {
  }

  lemma AdjugateRight11(
    a00: real, a01: real, a02: real, a03: real,
    a10: real, a11: real, a12: real, a13: real,
    a20: real, a21: real, a22: real, a23: real,
    a30: real, a31: real, a32: real, a33: real)
    ensures Dot4(
      a01, a11, a21, a31,
      Adjugate4(a00, a01, a02, a03, a10, a11, a12, a13, a20, a21, a22, a23, a30, a31, a32, a33),
      Adjugate5(a00, a01, a02, a03, a10, a11, a12, a13, a20, a21, a22, a23, a30, a31, a32, a33),
      Adjugate6(a00, a01, a02, a03, a10, a11, a12, a13, a20, a21, a22, a23, a30, a31, a32, a33),
      Adjugate7(a00, a01, a02, a03, a10, a11, a12, a13, a20, a21, a22, a23, a30, a31, a32, a33))
      == DetOf(a00, a01, a02, a03, a10, a11, a12, a13, a20, a21, a22, a23, a30, a31, a32, a33)
  {
  }

  lemma AdjugateRight21(
    a00: real, a01: real, a02: real, a03: real,
    a10: real, a11: real, a12: real, a13: real,
    a20: real, a21: real, a22: real, a23: real,
    a30: real, a31: real, a32: real, a33: real)
    ensures Dot4(
      a02, a12, a22, a32,
      Adjugate4(a00, a01, a02, a03, a10, a11, a12, a13, a20, a21, a22, a23, a30, a31, a32, a33),
      Adjugate5(a00, a01, a02, a03, a10, a11, a12, a13, a20, a21, a22, a23, a30, a31, a32, a33),
      Adjugate6(a00, a01, a02, a03, a10, a11, a12, a13, a20, a21, a22, a23, a30, a31, a32, a33),
      Adjugate7(a00, a01, a02, a03, a10, a11, a12, a13, a20, a21, a22, a23, a30, a31, a32, a33))
      == 0.0
  {
  }

  lemma AdjugateRight31(
    a00: real, a01: real, a02: real, a03: real,
    a10: real, a11: real, a12: real, a13: real,
    a20: real, a21: real, a22: real, a23: real,
    a30: real, a31: real, a32: real, a33: real)
    ensures Dot4(
      a03, a13, a23, a33,
      Adjugate4(a00, a01, a02, a03, a10, a11, a12, a13, a20, a21, a22, a23, a30, a31, a32, a33),
      Adjugate5(a00, a01, a02, a03, a10, a11, a12, a13, a20, a21, a22, a23, a30, a31, a32, a33),
      Adjugate6(a00, a01, a02, a03, a10, a11, a12, a13, a20, a21, a22, a23, a30, a31, a32, a33),
      Adjugate7(a00, a01, a02, a03, a10, a11, a12, a13, a20, a21, a22, a23, a30, a31, a32, a33))
      == 0.0
  {
  }

  lemma AdjugateRight02(
    a00: real, a01: real, a02: real, a03: real,
    a10: real, a11: real, a12: real, a13: real,
    a20: real, a21: real, a22: real, a23: real,
    a30: real, a31: real, a32: real, a33: real)
    ensures Dot4(
      a00, a10, a20, a30,
      Adjugate8(a00, a01, a02, a03, a10, a11, a12, a13, a20, a21, a22, a23, a30, a31, a32, a33),
      Adjugate9(a00, a01, a02, a03, a10, a11, a12, a13, a20, a21, a22, a23, a30, a31, a32, a33),
      Adjugate10(a00, a01, a02, a03, a10, a11, a12, a13, a20, a21, a22, a23, a30, a31, a32, a33),
      Adjugate11(a00, a01, a02, a03, a10, a11, a12, a13, a20, a21, a22, a23, a30, a31, a32, a33))
      == 0.0
  {
  }

  lemma AdjugateRight12(
    a00: real, a01: real, a02: real, a03: real,
    a10: real, a11: real, a12: real, a13: real,
    a20: real, a21: real, a22: real, a23: real,
    a30: real, a31: real, a32: real, a33: real)
    ensures Dot4(
      a01, a11, a21, a31,
      Adjugate8(a00, a01, a02, a03, a10, a11, a12, a13, a20, a21, a22, a23, a30, a31, a32, a33),
      Adjugate9(a00, a01, a02, a03, a10, a11, a12, a13, a20, a21, a22, a23, a30, a31, a32, a33),
      Adjugate10(a00, a01, a02, a03, a10, a11, a12, a13, a20, a21, a22, a23, a30, a31, a32, a33),
      Adjugate11(a00, a01, a02, a03, a10, a11, a12, a13, a20, a21, a22, a23, a30, a31, a32, a33))
      == 0.0
  {
  }

  lemma AdjugateRight22(
    a00: real, a01: real, a02: real, a03: real,
    a10: real, a11: real, a12: real, a13: real,
    a20: real, a21: real, a22: real, a23: real,
    a30: real, a31: real, a32: real, a33: real)
    ensures Dot4(
      a02, a12, a22, a32,
      Adjugate8(a00, a01, a02, a03, a10, a11, a12, a13, a20, a21, a22, a23, a30, a31, a32, a33),
      Adjugate9(a00, a01, a02, a03, a10, a11, a12, a13, a20, a21, a22, a23, a30, a31, a32, a33),
      Adjugate10(a00, a01, a02, a03, a10, a11, a12, a13, a20, a21, a22, a23, a30, a31, a32, a33),
      Adjugate11(a00, a01, a02, a03, a10, a11, a12, a13, a20, a21, a22, a23, a30, a31, a32, a33))
      == DetOf(a00, a01, a02, a03, a10, a11, a12, a13, a20, a21, a22, a23, a30, a31, a32, a33)
  {
  }

  lemma AdjugateRight32(
    a00: real, a01: real, a02: real, a03: real,
    a10: real, a11: real, a12: real, a13: real,
    a20: real, a21: real, a22: real, a23: real,
    a30: real, a31: real, a32: real, a33: real)
    ensures Dot4(
      a03, a13, a23, a33,
      Adjugate8(a00, a01, a02, a03, a10, a11, a12, a13, a20, a21, a22, a23, a30, a31, a32, a33),
      Adjugate9(a00, a01, a02, a03, a10, a11, a12, a13, a20, a21, a22, a23, a30, a31, a32, a33),
      Adjugate10(a00, a01, a02, a03, a10, a11, a12, a13, a20, a21, a22, a23, a30, a31, a32, a33),
      Adjugate11(a00, a01, a02, a03, a10, a11, a12, a13, a20, a21, a22, a23, a30, a31, a32, a33))
      == 0.0
  {
  }

  lemma AdjugateRight03(
    a00: real, a01: real, a02: real, a03: real,
    a10: real, a11: real, a12: real, a13: real,
    a20: real, a21: real, a22: real, a23: real,
    a30: real, a31: real, a32: real, a33: real)
    ensures Dot4(
      a00, a10, a20, a30,
      Adjugate12(a00, a01, a02, a03, a10, a11, a12, a13, a20, a21, a22, a23, a30, a31, a32, a33),
      Adjugate13(a00, a01, a02, a03, a10, a11, a12, a13, a20, a21, a22, a23, a30, a31, a32, a33),
      Adjugate14(a00, a01, a02, a03, a10, a11, a12, a13, a20, a21, a22, a23, a30, a31, a32, a33),
      Adjugate15(a00, a01, a02, a03, a10, a11, a12, a13, a20, a21, a22, a23, a30, a31, a32, a33))
      == 0.0
  {
  }

  lemma AdjugateRight13(
    a00: real, a01: real, a02: real, a03: real,
    a10: real, a11: real, a12: real, a13: real,
    a20: real, a21: real, a22: real, a23: real,
    a30: real, a31: real, a32: real, a33: real)
    ensures Dot4(
      a01, a11, a21, a31,
      Adjugate12(a00, a01, a02, a03, a10, a11, a12, a13, a20, a21, a22, a23, a30, a31, a32, a33),
      Adjugate13(a00, a01, a02, a03, a10, a11, a12, a13, a20, a21, a22, a23, a30, a31, a32, a33),
      Adjugate14(a00, a01, a02, a03, a10, a11, a12, a13, a20, a21, a22, a23, a30, a31, a32, a33),
      Adjugate15(a00, a01, a02, a03, a10, a11, a12, a13, a20, a21, a22, a23, a30, a31, a32, a33))
      == 0.0
  {
  }

  lemma AdjugateRight23(
    a00: real, a01: real, a02: real, a03: real,
    a10: real, a11: real, a12: real, a13: real,
    a20: real, a21: real, a22: real, a23: real,
    a30: real, a31: real, a32: real, a33: real)
    ensures Dot4(
      a02, a12, a22, a32,
      Adjugate12(a00, a01, a02, a03, a10, a11, a12, a13, a20, a21, a22, a23, a30, a31, a32, a33),
      Adjugate13(a00, a01, a02, a03, a10, a11, a12, a13, a20, a21, a22, a23, a30, a31, a32, a33),
      Adjugate14(a00, a01, a02, a03, a10, a11, a12, a13, a20, a21, a22, a23, a30, a31, a32, a33),
      Adjugate15(a00, a01, a02, a03, a10, a11, a12, a13, a20, a21, a22, a23, a30, a31, a32, a33))
      == 0.0
  {
  }

  lemma AdjugateRight33(
    a00: real, a01: real, a02: real, a03: real,
    a10: real, a11: real, a12: real, a13: real,
    a20: real, a21: real, a22: real, a23: real,
    a30: real, a31: real, a32: real, a33: real)
    ensures Dot4(
      a03, a13, a23, a33,
      Adjugate12(a00, a01, a02, a03, a10, a11, a12, a13, a20, a21, a22, a23, a30, a31, a32, a33),
      Adjugate13(a00, a01, a02, a03, a10, a11, a12, a13, a20, a21, a22, a23, a30, a31, a32, a33),
      Adjugate14(a00, a01, a02, a03, a10, a11, a12, a13, a20, a21, a22, a23, a30, a31, a32, a33),
      Adjugate15(a00, a01, a02, a03, a10, a11, a12, a13, a20, a21, a22, a23, a30, a31, a32, a33))
      == DetOf(a00, a01, a02, a03, a10, a11, a12, a13, a20, a21, a22, a23, a30, a31, a32, a33)
  {
  }

  // Row r of adj(a) times column c of a is det(a) when r == c and 0 otherwise.

  lemma AdjugateLeft00(
    a00: real, a01: real, a02: real, a03: real,
    a10: real, a11: real, a12: real, a13: real,
    a20: real, a21: real, a22: real, a23: real,
    a30: real, a31: real, a32: real, a33: real)
    ensures Dot4(
      Adjugate0(a00, a01, a02, a03, a10, a11, a12, a13, a20, a21, a22, a23, a30, a31, a32, a33),
      Adjugate4(a00, a01, a02, a03, a10, a11, a12, a13, a20, a21, a22, a23, a30, a31, a32, a33),
      Adjugate8(a00, a01, a02, a03, a10, a11, a12, a13, a20, a21, a22, a23, a30, a31, a32, a33),
      Adjugate12(a00, a01, a02, a03, a10, a11, a12, a13, a20, a21, a22, a23, a30, a31, a32, a33),
      a00, a01, a02, a03)
      == DetOf(a00, a01, a02, a03, a10, a11, a12, a13, a20, a21, a22, a23, a30, a31, a32, a33)
  {
  }

  lemma AdjugateLeft10(
    a00: real, a01: real, a02: real, a03: real,
    a10: real, a11: real, a12: real, a13: real,
    a20: real, a21: real, a22: real, a23: real,
    a30: real, a31: real, a32: real, a33: real)
    ensures Dot4(
      Adjugate1(a00, a01, a02, a03, a10, a11, a12, a13, a20, a21, a22, a23, a30, a31, a32, a33),
      Adjugate5(a00, a01, a02, a03, a10, a11, a12, a13, a20, a21, a22, a23, a30, a31, a32, a33),
      Adjugate9(a00, a01, a02, a03, a10, a11, a12, a13, a20, a21, a22, a23, a30, a31, a32, a33),
      Adjugate13(a00, a01, a02, a03, a10, a11, a12, a13, a20, a21, a22, a23, a30, a31, a32, a33),
      a00, a01, a02, a03)
      == 0.0
  {
  }

  lemma AdjugateLeft20(
    a00: real, a01: real, a02: real, a03: real,
    a10: real, a11: real, a12: real, a13: real,
    a20: real, a21: real, a22: real, a23: real,
    a30: real, a31: real, a32: real, a33: real)
    ensures Dot4(
      Adjugate2(a00, a01, a02, a03, a10, a11, a12, a13, a20, a21, a22, a23, a30, a31, a32, a33),
      Adjugate6(a00, a01, a02, a03, a10, a11, a12, a13, a20, a21, a22, a23, a30, a31, a32, a33),
      Adjugate10(a00, a01, a02, a03, a10, a11, a12, a13, a20, a21, a22, a23, a30, a31, a32, a33),
      Adjugate14(a00, a01, a02, a03, a10, a11, a12, a13, a20, a21, a22, a23, a30, a31, a32, a33),
      a00, a01, a02, a03)
      == 0.0
  {
  }

  lemma AdjugateLeft30(
    a00: real, a01: real, a02: real, a03: real,
    a10: real, a11: real, a12: real, a13: real,
    a20: real, a21: real, a22: real, a23: real,
    a30: real, a31: real, a32: real, a33: real)
    ensures Dot4(
      Adjugate3(a00, a01, a02, a03, a10, a11, a12, a13, a20, a21, a22, a23, a30, a31, a32, a33),
      Adjugate7(a00, a01, a02, a03, a10, a11, a12, a13, a20, a21, a22, a23, a30, a31, a32, a33),
      Adjugate11(a00, a01, a02, a03, a10, a11, a12, a13, a20, a21, a22, a23, a30, a31, a32, a33),
      Adjugate15(a00, a01, a02, a03, a10, a11, a12, a13, a20, a21, a22, a23, a30, a31, a32, a33),
      a00, a01, a02, a03)
      == 0.0
  {
  }

  lemma AdjugateLeft01(
    a00: real, a01: real, a02: real, a03: real,
    a10: real, a11: real, a12: real, a13: real,
    a20: real, a21: real, a22: real, a23: real,
    a30: real, a31: real, a32: real, a33: real)
    ensures Dot4(
      Adjugate0(a00, a01, a02, a03, a10, a11, a12, a13, a20, a21, a22, a23, a30, a31, a32, a33),
      Adjugate4(a00, a01, a02, a03, a10, a11, a12, a13, a20, a21, a22, a23, a30, a31, a32, a33),
      Adjugate8(a00, a01, a02, a03, a10, a11, a12, a13, a20, a21, a22, a23, a30, a31, a32, a33),
      Adjugate12(a00, a01, a02, a03, a10, a11, a12, a13, a20, a21, a22, a23, a30, a31, a32, a33),
      a10, a11, a12, a13)
      == 0.0
  {
  }

  lemma AdjugateLeft11(
    a00: real, a01: real, a02: real, a03: real,
    a10: real, a11: real, a12: real, a13: real,
    a20: real, a21: real, a22: real, a23: real,
    a30: real, a31: real, a32: real, a33: real)
    ensures Dot4(
      Adjugate1(a00, a01, a02, a03, a10, a11, a12, a13, a20, a21, a22, a23, a30, a31, a32, a33),
      Adjugate5(a00, a01, a02, a03, a10, a11, a12, a13, a20, a21, a22, a23, a30, a31, a32, a33),
      Adjugate9(a00, a01, a02, a03, a10, a11, a12, a13, a20, a21, a22, a23, a30, a31, a32, a33),
      Adjugate13(a00, a01, a02, a03, a10, a11, a12, a13, a20, a21, a22, a23, a30, a31, a32, a33),
      a10, a11, a12, a13)
      == DetOf(a00, a01, a02, a03, a10, a11, a12, a13, a20, a21, a22, a23, a30, a31, a32, a33)
  {
  }

  lemma AdjugateLeft21(
    a00: real, a01: real, a02: real, a03: real,
    a10: real, a11: real, a12: real, a13: real,
    a20: real, a21: real, a22: real, a23: real,
    a30: real, a31: real, a32: real, a33: real)
    ensures Dot4(
      Adjugate2(a00, a01, a02, a03, a10, a11, a12, a13, a20, a21, a22, a23, a30, a31, a32, a33),
      Adjugate6(a00, a01, a02, a03, a10, a11, a12, a13, a20, a21, a22, a23, a30, a31, a32, a33),
      Adjugate10(a00, a01, a02, a03, a10, a11, a12, a13, a20, a21, a22, a23, a30, a31, a32, a33),
      Adjugate14(a00, a01, a02, a03, a10, a11, a12, a13, a20, a21, a22, a23, a30, a31, a32, a33),
      a10, a11, a12, a13)
      == 0.0
  {
  }

  lemma AdjugateLeft31(
    a00: real, a01: real, a02: real, a03: real,
    a10: real, a11: real, a12: real, a13: real,
    a20: real, a21: real, a22: real, a23: real,
    a30: real, a31: real, a32: real, a33: real)
    ensures Dot4(
      Adjugate3(a00, a01, a02, a03, a10, a11, a12, a13, a20, a21, a22, a23, a30, a31, a32, a33),
      Adjugate7(a00, a01, a02, a03, a10, a11, a12, a13, a20, a21, a22, a23, a30, a31, a32, a33),
      Adjugate11(a00, a01, a02, a03, a10, a11, a12, a13, a20, a21, a22, a23, a30, a31, a32, a33),
      Adjugate15(a00, a01, a02, a03, a10, a11, a12, a13, a20, a21, a22, a23, a30, a31, a32, a33),
      a10, a11, a12, a13)
      == 0.0
  {
  }

  lemma AdjugateLeft02(
    a00: real, a01: real, a02: real, a03: real,
    a10: real, a11: real, a12: real, a13: real,
    a20: real, a21: real, a22: real, a23: real,
    a30: real, a31: real, a32: real, a33: real)
    ensures Dot4(
      Adjugate0(a00, a01, a02, a03, a10, a11, a12, a13, a20, a21, a22, a23, a30, a31, a32, a33),
      Adjugate4(a00, a01, a02, a03, a10, a11, a12, a13, a20, a21, a22, a23, a30, a31, a32, a33),
      Adjugate8(a00, a01, a02, a03, a10, a11, a12, a13, a20, a21, a22, a23, a30, a31, a32, a33),
      Adjugate12(a00, a01, a02, a03, a10, a11, a12, a13, a20, a21, a22, a23, a30, a31, a32, a33),
      a20, a21, a22, a23)
      == 0.0
  {
  }

  lemma AdjugateLeft12(
    a00: real, a01: real, a02: real, a03: real,
    a10: real, a11: real, a12: real, a13: real,
    a20: real, a21: real, a22: real, a23: real,
    a30: real, a31: real, a32: real, a33: real)
    ensures Dot4(
      Adjugate1(a00, a01, a02, a03, a10, a11, a12, a13, a20, a21, a22, a23, a30, a31, a32, a33),
      Adjugate5(a00, a01, a02, a03, a10, a11, a12, a13, a20, a21, a22, a23, a30, a31, a32, a33),
      Adjugate9(a00, a01, a02, a03, a10, a11, a12, a13, a20, a21, a22, a23, a30, a31, a32, a33),
      Adjugate13(a00, a01, a02, a03, a10, a11, a12, a13, a20, a21, a22, a23, a30, a31, a32, a33),
      a20, a21, a22, a23)
      == 0.0
  {
  }

  lemma AdjugateLeft22(
    a00: real, a01: real, a02: real, a03: real,
    a10: real, a11: real, a12: real, a13: real,
    a20: real, a21: real, a22: real, a23: real,
    a30: real, a31: real, a32: real, a33: real)
    ensures Dot4(
      Adjugate2(a00, a01, a02, a03, a10, a11, a12, a13, a20, a21, a22, a23, a30, a31, a32, a33),
      Adjugate6(a00, a01, a02, a03, a10, a11, a12, a13, a20, a21, a22, a23, a30, a31, a32, a33),
      Adjugate10(a00, a01, a02, a03, a10, a11, a12, a13, a20, a21, a22, a23, a30, a31, a32, a33),
      Adjugate14(a00, a01, a02, a03, a10, a11, a12, a13, a20, a21, a22, a23, a30, a31, a32, a33),
      a20, a21, a22, a23)
      == DetOf(a00, a01, a02, a03, a10, a11, a12, a13, a20, a21, a22, a23, a30, a31, a32, a33)
  {
  }

  lemma AdjugateLeft32(
    a00: real, a01: real, a02: real, a03: real,
    a10: real, a11: real, a12: real, a13: real,
    a20: real, a21: real, a22: real, a23: real,
    a30: real, a31: real, a32: real, a33: real)
    ensures Dot4(
      Adjugate3(a00, a01, a02, a03, a10, a11, a12, a13, a20, a21, a22, a23, a30, a31, a32, a33),
      Adjugate7(a00, a01, a02, a03, a10, a11, a12, a13, a20, a21, a22, a23, a30, a31, a32, a33),
      Adjugate11(a00, a01, a02, a03, a10, a11, a12, a13, a20, a21, a22, a23, a30, a31, a32, a33),
      Adjugate15(a00, a01, a02, a03, a10, a11, a12, a13, a20, a21, a22, a23, a30, a31, a32, a33),
      a20, a21, a22, a23)
      == 0.0
  {
  }

  lemma AdjugateLeft03(
    a00: real, a01: real, a02: real, a03: real,
    a10: real, a11: real, a12: real, a13: real,
    a20: real, a21: real, a22: real, a23: real,
    a30: real, a31: real, a32: real, a33: real)
    ensures Dot4(
      Adjugate0(a00, a01, a02, a03, a10, a11, a12, a13, a20, a21, a22, a23, a30, a31, a32, a33),
      Adjugate4(a00, a01, a02, a03, a10, a11, a12, a13, a20, a21, a22, a23, a30, a31, a32, a33),
      Adjugate8(a00, a01, a02, a03, a10, a11, a12, a13, a20, a21, a22, a23, a30, a31, a32, a33),
      Adjugate12(a00, a01, a02, a03, a10, a11, a12, a13, a20, a21, a22, a23, a30, a31, a32, a33),
      a30, a31, a32, a33)
      == 0.0
  {
  }

  lemma AdjugateLeft13(
    a00: real, a01: real, a02: real, a03: real,
    a10: real, a11: real, a12: real, a13: real,
    a20: real, a21: real, a22: real, a23: real,
    a30: real, a31: real, a32: real, a33: real)
    ensures Dot4(
      Adjugate1(a00, a01, a02, a03, a10, a11, a12, a13, a20, a21, a22, a23, a30, a31, a32, a33),
      Adjugate5(a00, a01, a02, a03, a10, a11, a12, a13, a20, a21, a22, a23, a30, a31, a32, a33),
      Adjugate9(a00, a01, a02, a03, a10, a11, a12, a13, a20, a21, a22, a23, a30, a31, a32, a33),
      Adjugate13(a00, a01, a02, a03, a10, a11, a12, a13, a20, a21, a22, a23, a30, a31, a32, a33),
      a30, a31, a32, a33)
      == 0.0
  {
  }

  lemma AdjugateLeft23(
    a00: real, a01: real, a02: real, a03: real,
    a10: real, a11: real, a12: real, a13: real,
    a20: real, a21: real, a22: real, a23: real,
    a30: real, a31: real, a32: real, a33: real)
    ensures Dot4(
      Adjugate2(a00, a01, a02, a03, a10, a11, a12, a13, a20, a21, a22, a23, a30, a31, a32, a33),
      Adjugate6(a00, a01, a02, a03, a10, a11, a12, a13, a20, a21, a22, a23, a30, a31, a32, a33),
      Adjugate10(a00, a01, a02, a03, a10, a11, a12, a13, a20, a21, a22, a23, a30, a31, a32, a33),
      Adjugate14(a00, a01, a02, a03, a10, a11, a12, a13, a20, a21, a22, a23, a30, a31, a32, a33),
      a30, a31, a32, a33)
      == 0.0
  {
  }

  lemma AdjugateLeft33(
    a00: real, a01: real, a02: real, a03: real,
    a10: real, a11: real, a12: real, a13: real,
    a20: real, a21: real, a22: real, a23: real,
    a30: real, a31: real, a32: real, a33: real)
    ensures Dot4(
      Adjugate3(a00, a01, a02, a03, a10, a11, a12, a13, a20, a21, a22, a23, a30, a31, a32, a33),
      Adjugate7(a00, a01, a02, a03, a10, a11, a12, a13, a20, a21, a22, a23, a30, a31, a32, a33),
      Adjugate11(a00, a01, a02, a03, a10, a11, a12, a13, a20, a21, a22, a23, a30, a31, a32, a33),
      Adjugate15(a00, a01, a02, a03, a10, a11, a12, a13, a20, a21, a22, a23, a30, a31, a32, a33),
      a30, a31, a32, a33)
      == DetOf(a00, a01, a02, a03, a10, a11, a12, a13, a20, a21, a22, a23, a30, a31, a32, a33)
  {
  }
}
