/**
 * The value invert() stores and the proof that it is the inverse: a * inv == inv * a == I
 * whenever the determinant is nonzero. The polynomial identities live in Cofactors, one entry
 * at a time; the lemmas here carry them over to the sixteen-slot matrices entry by entry.
 */
module Inversion {
  import opened Scalar
  import opened Cofactors
  import opened Vectors
  import opened Matrices

  /** The determinant invert() computes from the twelve 2x2 minors of the element array. */
  function Det(a: Matrix): real {
    DetOf(a[0], a[1], a[2], a[3], a[4], a[5], a[6], a[7], a[8], a[9], a[10], a[11], a[12], a[13], a[14], a[15])
  }

  /**
   * The value invert() stores: slot by slot, the cofactor expression (the adjugate of a)
   * times invDet == 1 / det. Mul is plain multiplication, kept as one term so that the entry
   * lemmas below can name each product.
   */
  function Inverse(a: Matrix): Matrix
    requires Det(a) != 0.0
  {
    var s := 1.0 / Det(a);
    [ Mul(Adjugate0(a[0], a[1], a[2], a[3], a[4], a[5], a[6], a[7], a[8], a[9], a[10], a[11], a[12], a[13], a[14], a[15]), s),
      Mul(Adjugate1(a[0], a[1], a[2], a[3], a[4], a[5], a[6], a[7], a[8], a[9], a[10], a[11], a[12], a[13], a[14], a[15]), s),
      Mul(Adjugate2(a[0], a[1], a[2], a[3], a[4], a[5], a[6], a[7], a[8], a[9], a[10], a[11], a[12], a[13], a[14], a[15]), s),
      Mul(Adjugate3(a[0], a[1], a[2], a[3], a[4], a[5], a[6], a[7], a[8], a[9], a[10], a[11], a[12], a[13], a[14], a[15]), s),
      Mul(Adjugate4(a[0], a[1], a[2], a[3], a[4], a[5], a[6], a[7], a[8], a[9], a[10], a[11], a[12], a[13], a[14], a[15]), s),
      Mul(Adjugate5(a[0], a[1], a[2], a[3], a[4], a[5], a[6], a[7], a[8], a[9], a[10], a[11], a[12], a[13], a[14], a[15]), s),
      Mul(Adjugate6(a[0], a[1], a[2], a[3], a[4], a[5], a[6], a[7], a[8], a[9], a[10], a[11], a[12], a[13], a[14], a[15]), s),
      Mul(Adjugate7(a[0], a[1], a[2], a[3], a[4], a[5], a[6], a[7], a[8], a[9], a[10], a[11], a[12], a[13], a[14], a[15]), s),
      Mul(Adjugate8(a[0], a[1], a[2], a[3], a[4], a[5], a[6], a[7], a[8], a[9], a[10], a[11], a[12], a[13], a[14], a[15]), s),
      Mul(Adjugate9(a[0], a[1], a[2], a[3], a[4], a[5], a[6], a[7], a[8], a[9], a[10], a[11], a[12], a[13], a[14], a[15]), s),
      Mul(Adjugate10(a[0], a[1], a[2], a[3], a[4], a[5], a[6], a[7], a[8], a[9], a[10], a[11], a[12], a[13], a[14], a[15]), s),
      Mul(Adjugate11(a[0], a[1], a[2], a[3], a[4], a[5], a[6], a[7], a[8], a[9], a[10], a[11], a[12], a[13], a[14], a[15]), s),
      Mul(Adjugate12(a[0], a[1], a[2], a[3], a[4], a[5], a[6], a[7], a[8], a[9], a[10], a[11], a[12], a[13], a[14], a[15]), s),
      Mul(Adjugate13(a[0], a[1], a[2], a[3], a[4], a[5], a[6], a[7], a[8], a[9], a[10], a[11], a[12], a[13], a[14], a[15]), s),
      Mul(Adjugate14(a[0], a[1], a[2], a[3], a[4], a[5], a[6], a[7], a[8], a[9], a[10], a[11], a[12], a[13], a[14], a[15]), s),
      Mul(Adjugate15(a[0], a[1], a[2], a[3], a[4], a[5], a[6], a[7], a[8], a[9], a[10], a[11], a[12], a[13], a[14], a[15]), s) ]
  }

  /** What invert() stores is a two-sided inverse: a * inv == inv * a == I. */
  lemma InverseProduct(a: Matrix)
    requires Det(a) != 0.0
    ensures Multiply(a, Inverse(a)) == Identity()
    ensures Multiply(Inverse(a), a) == Identity()
  {
    InverseRight00(a);
    InverseRight10(a);
    InverseRight20(a);
    InverseRight30(a);
    InverseRight01(a);
    InverseRight11(a);
    InverseRight21(a);
    InverseRight31(a);
    InverseRight02(a);
    InverseRight12(a);
    InverseRight22(a);
    InverseRight32(a);
    InverseRight03(a);
    InverseRight13(a);
    InverseRight23(a);
    InverseRight33(a);
    InverseLeft00(a);
    InverseLeft10(a);
    InverseLeft20(a);
    InverseLeft30(a);
    InverseLeft01(a);
    InverseLeft11(a);
    InverseLeft21(a);
    InverseLeft31(a);
    InverseLeft02(a);
    InverseLeft12(a);
    InverseLeft22(a);
    InverseLeft32(a);
    InverseLeft03(a);
    InverseLeft13(a);
    InverseLeft23(a);
    InverseLeft33(a);
    SlotsAt(Multiply(a, Inverse(a)));
    SlotsAt(Multiply(Inverse(a), a));
    SlotsEqual(Multiply(a, Inverse(a)), Identity());
    SlotsEqual(Multiply(Inverse(a), a), Identity());
  }

  /** Slot k of the inverse, read off the definition. */
  lemma InverseSlots(a: Matrix)
    requires Det(a) != 0.0
    ensures Inverse(a)[0] == Mul(Adjugate0(a[0], a[1], a[2], a[3], a[4], a[5], a[6], a[7], a[8], a[9], a[10], a[11], a[12], a[13], a[14], a[15]), 1.0 / Det(a))
    ensures Inverse(a)[1] == Mul(Adjugate1(a[0], a[1], a[2], a[3], a[4], a[5], a[6], a[7], a[8], a[9], a[10], a[11], a[12], a[13], a[14], a[15]), 1.0 / Det(a))
    ensures Inverse(a)[2] == Mul(Adjugate2(a[0], a[1], a[2], a[3], a[4], a[5], a[6], a[7], a[8], a[9], a[10], a[11], a[12], a[13], a[14], a[15]), 1.0 / Det(a))
    ensures Inverse(a)[3] == Mul(Adjugate3(a[0], a[1], a[2], a[3], a[4], a[5], a[6], a[7], a[8], a[9], a[10], a[11], a[12], a[13], a[14], a[15]), 1.0 / Det(a))
    ensures Inverse(a)[4] == Mul(Adjugate4(a[0], a[1], a[2], a[3], a[4], a[5], a[6], a[7], a[8], a[9], a[10], a[11], a[12], a[13], a[14], a[15]), 1.0 / Det(a))
    ensures Inverse(a)[5] == Mul(Adjugate5(a[0], a[1], a[2], a[3], a[4], a[5], a[6], a[7], a[8], a[9], a[10], a[11], a[12], a[13], a[14], a[15]), 1.0 / Det(a))
    ensures Inverse(a)[6] == Mul(Adjugate6(a[0], a[1], a[2], a[3], a[4], a[5], a[6], a[7], a[8], a[9], a[10], a[11], a[12], a[13], a[14], a[15]), 1.0 / Det(a))
    ensures Inverse(a)[7] == Mul(Adjugate7(a[0], a[1], a[2], a[3], a[4], a[5], a[6], a[7], a[8], a[9], a[10], a[11], a[12], a[13], a[14], a[15]), 1.0 / Det(a))
    ensures Inverse(a)[8] == Mul(Adjugate8(a[0], a[1], a[2], a[3], a[4], a[5], a[6], a[7], a[8], a[9], a[10], a[11], a[12], a[13], a[14], a[15]), 1.0 / Det(a))
    ensures Inverse(a)[9] == Mul(Adjugate9(a[0], a[1], a[2], a[3], a[4], a[5], a[6], a[7], a[8], a[9], a[10], a[11], a[12], a[13], a[14], a[15]), 1.0 / Det(a))
    ensures Inverse(a)[10] == Mul(Adjugate10(a[0], a[1], a[2], a[3], a[4], a[5], a[6], a[7], a[8], a[9], a[10], a[11], a[12], a[13], a[14], a[15]), 1.0 / Det(a))
    ensures Inverse(a)[11] == Mul(Adjugate11(a[0], a[1], a[2], a[3], a[4], a[5], a[6], a[7], a[8], a[9], a[10], a[11], a[12], a[13], a[14], a[15]), 1.0 / Det(a))
    ensures Inverse(a)[12] == Mul(Adjugate12(a[0], a[1], a[2], a[3], a[4], a[5], a[6], a[7], a[8], a[9], a[10], a[11], a[12], a[13], a[14], a[15]), 1.0 / Det(a))
    ensures Inverse(a)[13] == Mul(Adjugate13(a[0], a[1], a[2], a[3], a[4], a[5], a[6], a[7], a[8], a[9], a[10], a[11], a[12], a[13], a[14], a[15]), 1.0 / Det(a))
    ensures Inverse(a)[14] == Mul(Adjugate14(a[0], a[1], a[2], a[3], a[4], a[5], a[6], a[7], a[8], a[9], a[10], a[11], a[12], a[13], a[14], a[15]), 1.0 / Det(a))
    ensures Inverse(a)[15] == Mul(Adjugate15(a[0], a[1], a[2], a[3], a[4], a[5], a[6], a[7], a[8], a[9], a[10], a[11], a[12], a[13], a[14], a[15]), 1.0 / Det(a))
  {
  }

  // Row r of a times column c of the inverse is 1 when r == c and 0 otherwise.

  lemma InverseRight00(a: Matrix)
    requires Det(a) != 0.0
    ensures RowCol(a, Inverse(a), 0, 0) == 1.0
  {
    var s := 1.0 / Det(a);
    assert Mul(Det(a), s) == 1.0 && Mul(0.0, s) == 0.0;
    InverseSlots(a);
    AdjugateRight00(a[0], a[1], a[2], a[3], a[4], a[5], a[6], a[7], a[8], a[9], a[10], a[11], a[12], a[13], a[14], a[15]);
    Dot4Scale(
      a[0],
      a[4],
      a[8],
      a[12],
      Adjugate0(a[0], a[1], a[2], a[3], a[4], a[5], a[6], a[7], a[8], a[9], a[10], a[11], a[12], a[13], a[14], a[15]),
      Adjugate1(a[0], a[1], a[2], a[3], a[4], a[5], a[6], a[7], a[8], a[9], a[10], a[11], a[12], a[13], a[14], a[15]),
      Adjugate2(a[0], a[1], a[2], a[3], a[4], a[5], a[6], a[7], a[8], a[9], a[10], a[11], a[12], a[13], a[14], a[15]),
      Adjugate3(a[0], a[1], a[2], a[3], a[4], a[5], a[6], a[7], a[8], a[9], a[10], a[11], a[12], a[13], a[14], a[15]),
      s);
  }

  lemma InverseRight10(a: Matrix)
    requires Det(a) != 0.0
    ensures RowCol(a, Inverse(a), 1, 0) == 0.0
  {
    var s := 1.0 / Det(a);
    assert Mul(Det(a), s) == 1.0 && Mul(0.0, s) == 0.0;
    InverseSlots(a);
    AdjugateRight10(a[0], a[1], a[2], a[3], a[4], a[5], a[6], a[7], a[8], a[9], a[10], a[11], a[12], a[13], a[14], a[15]);
    Dot4Scale(
      a[1],
      a[5],
      a[9],
      a[13],
      Adjugate0(a[0], a[1], a[2], a[3], a[4], a[5], a[6], a[7], a[8], a[9], a[10], a[11], a[12], a[13], a[14], a[15]),
      Adjugate1(a[0], a[1], a[2], a[3], a[4], a[5], a[6], a[7], a[8], a[9], a[10], a[11], a[12], a[13], a[14], a[15]),
      Adjugate2(a[0], a[1], a[2], a[3], a[4], a[5], a[6], a[7], a[8], a[9], a[10], a[11], a[12], a[13], a[14], a[15]),
      Adjugate3(a[0], a[1], a[2], a[3], a[4], a[5], a[6], a[7], a[8], a[9], a[10], a[11], a[12], a[13], a[14], a[15]),
      s);
  }

  lemma InverseRight20(a: Matrix)
    requires Det(a) != 0.0
    ensures RowCol(a, Inverse(a), 2, 0) == 0.0
  {
    var s := 1.0 / Det(a);
    assert Mul(Det(a), s) == 1.0 && Mul(0.0, s) == 0.0;
    InverseSlots(a);
    AdjugateRight20(a[0], a[1], a[2], a[3], a[4], a[5], a[6], a[7], a[8], a[9], a[10], a[11], a[12], a[13], a[14], a[15]);
    Dot4Scale(
      a[2],
      a[6],
      a[10],
      a[14],
      Adjugate0(a[0], a[1], a[2], a[3], a[4], a[5], a[6], a[7], a[8], a[9], a[10], a[11], a[12], a[13], a[14], a[15]),
      Adjugate1(a[0], a[1], a[2], a[3], a[4], a[5], a[6], a[7], a[8], a[9], a[10], a[11], a[12], a[13], a[14], a[15]),
      Adjugate2(a[0], a[1], a[2], a[3], a[4], a[5], a[6], a[7], a[8], a[9], a[10], a[11], a[12], a[13], a[14], a[15]),
      Adjugate3(a[0], a[1], a[2], a[3], a[4], a[5], a[6], a[7], a[8], a[9], a[10], a[11], a[12], a[13], a[14], a[15]),
      s);
  }

  lemma InverseRight30(a: Matrix)
    requires Det(a) != 0.0
    ensures RowCol(a, Inverse(a), 3, 0) == 0.0
  {
    var s := 1.0 / Det(a);
    assert Mul(Det(a), s) == 1.0 && Mul(0.0, s) == 0.0;
    InverseSlots(a);
    AdjugateRight30(a[0], a[1], a[2], a[3], a[4], a[5], a[6], a[7], a[8], a[9], a[10], a[11], a[12], a[13], a[14], a[15]);
    Dot4Scale(
      a[3],
      a[7],
      a[11],
      a[15],
      Adjugate0(a[0], a[1], a[2], a[3], a[4], a[5], a[6], a[7], a[8], a[9], a[10], a[11], a[12], a[13], a[14], a[15]),
      Adjugate1(a[0], a[1], a[2], a[3], a[4], a[5], a[6], a[7], a[8], a[9], a[10], a[11], a[12], a[13], a[14], a[15]),
      Adjugate2(a[0], a[1], a[2], a[3], a[4], a[5], a[6], a[7], a[8], a[9], a[10], a[11], a[12], a[13], a[14], a[15]),
      Adjugate3(a[0], a[1], a[2], a[3], a[4], a[5], a[6], a[7], a[8], a[9], a[10], a[11], a[12], a[13], a[14], a[15]),
      s);
  }

  lemma InverseRight01(a: Matrix)
    requires Det(a) != 0.0
    ensures RowCol(a, Inverse(a), 0, 1) == 0.0
  {
    var s := 1.0 / Det(a);
    assert Mul(Det(a), s) == 1.0 && Mul(0.0, s) == 0.0;
    InverseSlots(a);
    AdjugateRight01(a[0], a[1], a[2], a[3], a[4], a[5], a[6], a[7], a[8], a[9], a[10], a[11], a[12], a[13], a[14], a[15]);
    Dot4Scale(
      a[0],
      a[4],
      a[8],
      a[12],
      Adjugate4(a[0], a[1], a[2], a[3], a[4], a[5], a[6], a[7], a[8], a[9], a[10], a[11], a[12], a[13], a[14], a[15]),
      Adjugate5(a[0], a[1], a[2], a[3], a[4], a[5], a[6], a[7], a[8], a[9], a[10], a[11], a[12], a[13], a[14], a[15]),
      Adjugate6(a[0], a[1], a[2], a[3], a[4], a[5], a[6], a[7], a[8], a[9], a[10], a[11], a[12], a[13], a[14], a[15]),
      Adjugate7(a[0], a[1], a[2], a[3], a[4], a[5], a[6], a[7], a[8], a[9], a[10], a[11], a[12], a[13], a[14], a[15]),
      s);
  }

  lemma InverseRight11(a: Matrix)
    requires Det(a) != 0.0
    ensures RowCol(a, Inverse(a), 1, 1) == 1.0
  {
    var s := 1.0 / Det(a);
    assert Mul(Det(a), s) == 1.0 && Mul(0.0, s) == 0.0;
    InverseSlots(a);
    AdjugateRight11(a[0], a[1], a[2], a[3], a[4], a[5], a[6], a[7], a[8], a[9], a[10], a[11], a[12], a[13], a[14], a[15]);
    Dot4Scale(
      a[1],
      a[5],
      a[9],
      a[13],
      Adjugate4(a[0], a[1], a[2], a[3], a[4], a[5], a[6], a[7], a[8], a[9], a[10], a[11], a[12], a[13], a[14], a[15]),
      Adjugate5(a[0], a[1], a[2], a[3], a[4], a[5], a[6], a[7], a[8], a[9], a[10], a[11], a[12], a[13], a[14], a[15]),
      Adjugate6(a[0], a[1], a[2], a[3], a[4], a[5], a[6], a[7], a[8], a[9], a[10], a[11], a[12], a[13], a[14], a[15]),
      Adjugate7(a[0], a[1], a[2], a[3], a[4], a[5], a[6], a[7], a[8], a[9], a[10], a[11], a[12], a[13], a[14], a[15]),
      s);
  }

  lemma InverseRight21(a: Matrix)
    requires Det(a) != 0.0
    ensures RowCol(a, Inverse(a), 2, 1) == 0.0
  {
    var s := 1.0 / Det(a);
    assert Mul(Det(a), s) == 1.0 && Mul(0.0, s) == 0.0;
    InverseSlots(a);
    AdjugateRight21(a[0], a[1], a[2], a[3], a[4], a[5], a[6], a[7], a[8], a[9], a[10], a[11], a[12], a[13], a[14], a[15]);
    Dot4Scale(
      a[2],
      a[6],
      a[10],
      a[14],
      Adjugate4(a[0], a[1], a[2], a[3], a[4], a[5], a[6], a[7], a[8], a[9], a[10], a[11], a[12], a[13], a[14], a[15]),
      Adjugate5(a[0], a[1], a[2], a[3], a[4], a[5], a[6], a[7], a[8], a[9], a[10], a[11], a[12], a[13], a[14], a[15]),
      Adjugate6(a[0], a[1], a[2], a[3], a[4], a[5], a[6], a[7], a[8], a[9], a[10], a[11], a[12], a[13], a[14], a[15]),
      Adjugate7(a[0], a[1], a[2], a[3], a[4], a[5], a[6], a[7], a[8], a[9], a[10], a[11], a[12], a[13], a[14], a[15]),
      s);
  }

  lemma InverseRight31(a: Matrix)
    requires Det(a) != 0.0
    ensures RowCol(a, Inverse(a), 3, 1) == 0.0
  {
    var s := 1.0 / Det(a);
    assert Mul(Det(a), s) == 1.0 && Mul(0.0, s) == 0.0;
    InverseSlots(a);
    AdjugateRight31(a[0], a[1], a[2], a[3], a[4], a[5], a[6], a[7], a[8], a[9], a[10], a[11], a[12], a[13], a[14], a[15]);
    Dot4Scale(
      a[3],
      a[7],
      a[11],
      a[15],
      Adjugate4(a[0], a[1], a[2], a[3], a[4], a[5], a[6], a[7], a[8], a[9], a[10], a[11], a[12], a[13], a[14], a[15]),
      Adjugate5(a[0], a[1], a[2], a[3], a[4], a[5], a[6], a[7], a[8], a[9], a[10], a[11], a[12], a[13], a[14], a[15]),
      Adjugate6(a[0], a[1], a[2], a[3], a[4], a[5], a[6], a[7], a[8], a[9], a[10], a[11], a[12], a[13], a[14], a[15]),
      Adjugate7(a[0], a[1], a[2], a[3], a[4], a[5], a[6], a[7], a[8], a[9], a[10], a[11], a[12], a[13], a[14], a[15]),
      s);
  }

  lemma InverseRight02(a: Matrix)
    requires Det(a) != 0.0
    ensures RowCol(a, Inverse(a), 0, 2) == 0.0
  {
    var s := 1.0 / Det(a);
    assert Mul(Det(a), s) == 1.0 && Mul(0.0, s) == 0.0;
    InverseSlots(a);
    AdjugateRight02(a[0], a[1], a[2], a[3], a[4], a[5], a[6], a[7], a[8], a[9], a[10], a[11], a[12], a[13], a[14], a[15]);
    Dot4Scale(
      a[0],
      a[4],
      a[8],
      a[12],
      Adjugate8(a[0], a[1], a[2], a[3], a[4], a[5], a[6], a[7], a[8], a[9], a[10], a[11], a[12], a[13], a[14], a[15]),
      Adjugate9(a[0], a[1], a[2], a[3], a[4], a[5], a[6], a[7], a[8], a[9], a[10], a[11], a[12], a[13], a[14], a[15]),
      Adjugate10(a[0], a[1], a[2], a[3], a[4], a[5], a[6], a[7], a[8], a[9], a[10], a[11], a[12], a[13], a[14], a[15]),
      Adjugate11(a[0], a[1], a[2], a[3], a[4], a[5], a[6], a[7], a[8], a[9], a[10], a[11], a[12], a[13], a[14], a[15]),
      s);
  }

  lemma InverseRight12(a: Matrix)
    requires Det(a) != 0.0
    ensures RowCol(a, Inverse(a), 1, 2) == 0.0
  {
    var s := 1.0 / Det(a);
    assert Mul(Det(a), s) == 1.0 && Mul(0.0, s) == 0.0;
    InverseSlots(a);
    AdjugateRight12(a[0], a[1], a[2], a[3], a[4], a[5], a[6], a[7], a[8], a[9], a[10], a[11], a[12], a[13], a[14], a[15]);
    Dot4Scale(
      a[1],
      a[5],
      a[9],
      a[13],
      Adjugate8(a[0], a[1], a[2], a[3], a[4], a[5], a[6], a[7], a[8], a[9], a[10], a[11], a[12], a[13], a[14], a[15]),
      Adjugate9(a[0], a[1], a[2], a[3], a[4], a[5], a[6], a[7], a[8], a[9], a[10], a[11], a[12], a[13], a[14], a[15]),
      Adjugate10(a[0], a[1], a[2], a[3], a[4], a[5], a[6], a[7], a[8], a[9], a[10], a[11], a[12], a[13], a[14], a[15]),
      Adjugate11(a[0], a[1], a[2], a[3], a[4], a[5], a[6], a[7], a[8], a[9], a[10], a[11], a[12], a[13], a[14], a[15]),
      s);
  }

  lemma InverseRight22(a: Matrix)
    requires Det(a) != 0.0
    ensures RowCol(a, Inverse(a), 2, 2) == 1.0
  {
    var s := 1.0 / Det(a);
    assert Mul(Det(a), s) == 1.0 && Mul(0.0, s) == 0.0;
    InverseSlots(a);
    AdjugateRight22(a[0], a[1], a[2], a[3], a[4], a[5], a[6], a[7], a[8], a[9], a[10], a[11], a[12], a[13], a[14], a[15]);
    Dot4Scale(
      a[2],
      a[6],
      a[10],
      a[14],
      Adjugate8(a[0], a[1], a[2], a[3], a[4], a[5], a[6], a[7], a[8], a[9], a[10], a[11], a[12], a[13], a[14], a[15]),
      Adjugate9(a[0], a[1], a[2], a[3], a[4], a[5], a[6], a[7], a[8], a[9], a[10], a[11], a[12], a[13], a[14], a[15]),
      Adjugate10(a[0], a[1], a[2], a[3], a[4], a[5], a[6], a[7], a[8], a[9], a[10], a[11], a[12], a[13], a[14], a[15]),
      Adjugate11(a[0], a[1], a[2], a[3], a[4], a[5], a[6], a[7], a[8], a[9], a[10], a[11], a[12], a[13], a[14], a[15]),
      s);
  }

  lemma InverseRight32(a: Matrix)
    requires Det(a) != 0.0
    ensures RowCol(a, Inverse(a), 3, 2) == 0.0
  {
    var s := 1.0 / Det(a);
    assert Mul(Det(a), s) == 1.0 && Mul(0.0, s) == 0.0;
    InverseSlots(a);
    AdjugateRight32(a[0], a[1], a[2], a[3], a[4], a[5], a[6], a[7], a[8], a[9], a[10], a[11], a[12], a[13], a[14], a[15]);
    Dot4Scale(
      a[3],
      a[7],
      a[11],
      a[15],
      Adjugate8(a[0], a[1], a[2], a[3], a[4], a[5], a[6], a[7], a[8], a[9], a[10], a[11], a[12], a[13], a[14], a[15]),
      Adjugate9(a[0], a[1], a[2], a[3], a[4], a[5], a[6], a[7], a[8], a[9], a[10], a[11], a[12], a[13], a[14], a[15]),
      Adjugate10(a[0], a[1], a[2], a[3], a[4], a[5], a[6], a[7], a[8], a[9], a[10], a[11], a[12], a[13], a[14], a[15]),
      Adjugate11(a[0], a[1], a[2], a[3], a[4], a[5], a[6], a[7], a[8], a[9], a[10], a[11], a[12], a[13], a[14], a[15]),
      s);
  }

  lemma InverseRight03(a: Matrix)
    requires Det(a) != 0.0
    ensures RowCol(a, Inverse(a), 0, 3) == 0.0
  {
    var s := 1.0 / Det(a);
    assert Mul(Det(a), s) == 1.0 && Mul(0.0, s) == 0.0;
    InverseSlots(a);
    AdjugateRight03(a[0], a[1], a[2], a[3], a[4], a[5], a[6], a[7], a[8], a[9], a[10], a[11], a[12], a[13], a[14], a[15]);
    Dot4Scale(
      a[0],
      a[4],
      a[8],
      a[12],
      Adjugate12(a[0], a[1], a[2], a[3], a[4], a[5], a[6], a[7], a[8], a[9], a[10], a[11], a[12], a[13], a[14], a[15]),
      Adjugate13(a[0], a[1], a[2], a[3], a[4], a[5], a[6], a[7], a[8], a[9], a[10], a[11], a[12], a[13], a[14], a[15]),
      Adjugate14(a[0], a[1], a[2], a[3], a[4], a[5], a[6], a[7], a[8], a[9], a[10], a[11], a[12], a[13], a[14], a[15]),
      Adjugate15(a[0], a[1], a[2], a[3], a[4], a[5], a[6], a[7], a[8], a[9], a[10], a[11], a[12], a[13], a[14], a[15]),
      s);
  }

  lemma InverseRight13(a: Matrix)
    requires Det(a) != 0.0
    ensures RowCol(a, Inverse(a), 1, 3) == 0.0
  {
    var s := 1.0 / Det(a);
    assert Mul(Det(a), s) == 1.0 && Mul(0.0, s) == 0.0;
    InverseSlots(a);
    AdjugateRight13(a[0], a[1], a[2], a[3], a[4], a[5], a[6], a[7], a[8], a[9], a[10], a[11], a[12], a[13], a[14], a[15]);
    Dot4Scale(
      a[1],
      a[5],
      a[9],
      a[13],
      Adjugate12(a[0], a[1], a[2], a[3], a[4], a[5], a[6], a[7], a[8], a[9], a[10], a[11], a[12], a[13], a[14], a[15]),
      Adjugate13(a[0], a[1], a[2], a[3], a[4], a[5], a[6], a[7], a[8], a[9], a[10], a[11], a[12], a[13], a[14], a[15]),
      Adjugate14(a[0], a[1], a[2], a[3], a[4], a[5], a[6], a[7], a[8], a[9], a[10], a[11], a[12], a[13], a[14], a[15]),
      Adjugate15(a[0], a[1], a[2], a[3], a[4], a[5], a[6], a[7], a[8], a[9], a[10], a[11], a[12], a[13], a[14], a[15]),
      s);
  }

  lemma InverseRight23(a: Matrix)
    requires Det(a) != 0.0
    ensures RowCol(a, Inverse(a), 2, 3) == 0.0
  {
    var s := 1.0 / Det(a);
    assert Mul(Det(a), s) == 1.0 && Mul(0.0, s) == 0.0;
    InverseSlots(a);
    AdjugateRight23(a[0], a[1], a[2], a[3], a[4], a[5], a[6], a[7], a[8], a[9], a[10], a[11], a[12], a[13], a[14], a[15]);
    Dot4Scale(
      a[2],
      a[6],
      a[10],
      a[14],
      Adjugate12(a[0], a[1], a[2], a[3], a[4], a[5], a[6], a[7], a[8], a[9], a[10], a[11], a[12], a[13], a[14], a[15]),
      Adjugate13(a[0], a[1], a[2], a[3], a[4], a[5], a[6], a[7], a[8], a[9], a[10], a[11], a[12], a[13], a[14], a[15]),
      Adjugate14(a[0], a[1], a[2], a[3], a[4], a[5], a[6], a[7], a[8], a[9], a[10], a[11], a[12], a[13], a[14], a[15]),
      Adjugate15(a[0], a[1], a[2], a[3], a[4], a[5], a[6], a[7], a[8], a[9], a[10], a[11], a[12], a[13], a[14], a[15]),
      s);
  }

  lemma InverseRight33(a: Matrix)
    requires Det(a) != 0.0
    ensures RowCol(a, Inverse(a), 3, 3) == 1.0
  {
    var s := 1.0 / Det(a);
    assert Mul(Det(a), s) == 1.0 && Mul(0.0, s) == 0.0;
    InverseSlots(a);
    AdjugateRight33(a[0], a[1], a[2], a[3], a[4], a[5], a[6], a[7], a[8], a[9], a[10], a[11], a[12], a[13], a[14], a[15]);
    Dot4Scale(
      a[3],
      a[7],
      a[11],
      a[15],
      Adjugate12(a[0], a[1], a[2], a[3], a[4], a[5], a[6], a[7], a[8], a[9], a[10], a[11], a[12], a[13], a[14], a[15]),
      Adjugate13(a[0], a[1], a[2], a[3], a[4], a[5], a[6], a[7], a[8], a[9], a[10], a[11], a[12], a[13], a[14], a[15]),
      Adjugate14(a[0], a[1], a[2], a[3], a[4], a[5], a[6], a[7], a[8], a[9], a[10], a[11], a[12], a[13], a[14], a[15]),
      Adjugate15(a[0], a[1], a[2], a[3], a[4], a[5], a[6], a[7], a[8], a[9], a[10], a[11], a[12], a[13], a[14], a[15]),
      s);
  }

  // Row r of the inverse times column c of a is 1 when r == c and 0 otherwise.

  lemma InverseLeft00(a: Matrix)
    requires Det(a) != 0.0
    ensures RowCol(Inverse(a), a, 0, 0) == 1.0
  {
    var s := 1.0 / Det(a);
    assert Mul(Det(a), s) == 1.0 && Mul(0.0, s) == 0.0;
    InverseSlots(a);
    AdjugateLeft00(a[0], a[1], a[2], a[3], a[4], a[5], a[6], a[7], a[8], a[9], a[10], a[11], a[12], a[13], a[14], a[15]);
    Dot4Scale(
      Adjugate0(a[0], a[1], a[2], a[3], a[4], a[5], a[6], a[7], a[8], a[9], a[10], a[11], a[12], a[13], a[14], a[15]),
      Adjugate4(a[0], a[1], a[2], a[3], a[4], a[5], a[6], a[7], a[8], a[9], a[10], a[11], a[12], a[13], a[14], a[15]),
      Adjugate8(a[0], a[1], a[2], a[3], a[4], a[5], a[6], a[7], a[8], a[9], a[10], a[11], a[12], a[13], a[14], a[15]),
      Adjugate12(a[0], a[1], a[2], a[3], a[4], a[5], a[6], a[7], a[8], a[9], a[10], a[11], a[12], a[13], a[14], a[15]),
      a[0],
      a[1],
      a[2],
      a[3],
      s);
  }

  lemma InverseLeft10(a: Matrix)
    requires Det(a) != 0.0
    ensures RowCol(Inverse(a), a, 1, 0) == 0.0
  {
    var s := 1.0 / Det(a);
    assert Mul(Det(a), s) == 1.0 && Mul(0.0, s) == 0.0;
    InverseSlots(a);
    AdjugateLeft10(a[0], a[1], a[2], a[3], a[4], a[5], a[6], a[7], a[8], a[9], a[10], a[11], a[12], a[13], a[14], a[15]);
    Dot4Scale(
      Adjugate1(a[0], a[1], a[2], a[3], a[4], a[5], a[6], a[7], a[8], a[9], a[10], a[11], a[12], a[13], a[14], a[15]),
      Adjugate5(a[0], a[1], a[2], a[3], a[4], a[5], a[6], a[7], a[8], a[9], a[10], a[11], a[12], a[13], a[14], a[15]),
      Adjugate9(a[0], a[1], a[2], a[3], a[4], a[5], a[6], a[7], a[8], a[9], a[10], a[11], a[12], a[13], a[14], a[15]),
      Adjugate13(a[0], a[1], a[2], a[3], a[4], a[5], a[6], a[7], a[8], a[9], a[10], a[11], a[12], a[13], a[14], a[15]),
      a[0],
      a[1],
      a[2],
      a[3],
      s);
  }

  lemma InverseLeft20(a: Matrix)
    requires Det(a) != 0.0
    ensures RowCol(Inverse(a), a, 2, 0) == 0.0
  {
    var s := 1.0 / Det(a);
    assert Mul(Det(a), s) == 1.0 && Mul(0.0, s) == 0.0;
    InverseSlots(a);
    AdjugateLeft20(a[0], a[1], a[2], a[3], a[4], a[5], a[6], a[7], a[8], a[9], a[10], a[11], a[12], a[13], a[14], a[15]);
    Dot4Scale(
      Adjugate2(a[0], a[1], a[2], a[3], a[4], a[5], a[6], a[7], a[8], a[9], a[10], a[11], a[12], a[13], a[14], a[15]),
      Adjugate6(a[0], a[1], a[2], a[3], a[4], a[5], a[6], a[7], a[8], a[9], a[10], a[11], a[12], a[13], a[14], a[15]),
      Adjugate10(a[0], a[1], a[2], a[3], a[4], a[5], a[6], a[7], a[8], a[9], a[10], a[11], a[12], a[13], a[14], a[15]),
      Adjugate14(a[0], a[1], a[2], a[3], a[4], a[5], a[6], a[7], a[8], a[9], a[10], a[11], a[12], a[13], a[14], a[15]),
      a[0],
      a[1],
      a[2],
      a[3],
      s);
  }

  lemma InverseLeft30(a: Matrix)
    requires Det(a) != 0.0
    ensures RowCol(Inverse(a), a, 3, 0) == 0.0
  {
    var s := 1.0 / Det(a);
    assert Mul(Det(a), s) == 1.0 && Mul(0.0, s) == 0.0;
    InverseSlots(a);
    AdjugateLeft30(a[0], a[1], a[2], a[3], a[4], a[5], a[6], a[7], a[8], a[9], a[10], a[11], a[12], a[13], a[14], a[15]);
    Dot4Scale(
      Adjugate3(a[0], a[1], a[2], a[3], a[4], a[5], a[6], a[7], a[8], a[9], a[10], a[11], a[12], a[13], a[14], a[15]),
      Adjugate7(a[0], a[1], a[2], a[3], a[4], a[5], a[6], a[7], a[8], a[9], a[10], a[11], a[12], a[13], a[14], a[15]),
      Adjugate11(a[0], a[1], a[2], a[3], a[4], a[5], a[6], a[7], a[8], a[9], a[10], a[11], a[12], a[13], a[14], a[15]),
      Adjugate15(a[0], a[1], a[2], a[3], a[4], a[5], a[6], a[7], a[8], a[9], a[10], a[11], a[12], a[13], a[14], a[15]),
      a[0],
      a[1],
      a[2],
      a[3],
      s);
  }

  lemma InverseLeft01(a: Matrix)
    requires Det(a) != 0.0
    ensures RowCol(Inverse(a), a, 0, 1) == 0.0
  {
    var s := 1.0 / Det(a);
    assert Mul(Det(a), s) == 1.0 && Mul(0.0, s) == 0.0;
    InverseSlots(a);
    AdjugateLeft01(a[0], a[1], a[2], a[3], a[4], a[5], a[6], a[7], a[8], a[9], a[10], a[11], a[12], a[13], a[14], a[15]);
    Dot4Scale(
      Adjugate0(a[0], a[1], a[2], a[3], a[4], a[5], a[6], a[7], a[8], a[9], a[10], a[11], a[12], a[13], a[14], a[15]),
      Adjugate4(a[0], a[1], a[2], a[3], a[4], a[5], a[6], a[7], a[8], a[9], a[10], a[11], a[12], a[13], a[14], a[15]),
      Adjugate8(a[0], a[1], a[2], a[3], a[4], a[5], a[6], a[7], a[8], a[9], a[10], a[11], a[12], a[13], a[14], a[15]),
      Adjugate12(a[0], a[1], a[2], a[3], a[4], a[5], a[6], a[7], a[8], a[9], a[10], a[11], a[12], a[13], a[14], a[15]),
      a[4],
      a[5],
      a[6],
      a[7],
      s);
  }

  lemma InverseLeft11(a: Matrix)
    requires Det(a) != 0.0
    ensures RowCol(Inverse(a), a, 1, 1) == 1.0
  {
    var s := 1.0 / Det(a);
    assert Mul(Det(a), s) == 1.0 && Mul(0.0, s) == 0.0;
    InverseSlots(a);
    AdjugateLeft11(a[0], a[1], a[2], a[3], a[4], a[5], a[6], a[7], a[8], a[9], a[10], a[11], a[12], a[13], a[14], a[15]);
    Dot4Scale(
      Adjugate1(a[0], a[1], a[2], a[3], a[4], a[5], a[6], a[7], a[8], a[9], a[10], a[11], a[12], a[13], a[14], a[15]),
      Adjugate5(a[0], a[1], a[2], a[3], a[4], a[5], a[6], a[7], a[8], a[9], a[10], a[11], a[12], a[13], a[14], a[15]),
      Adjugate9(a[0], a[1], a[2], a[3], a[4], a[5], a[6], a[7], a[8], a[9], a[10], a[11], a[12], a[13], a[14], a[15]),
      Adjugate13(a[0], a[1], a[2], a[3], a[4], a[5], a[6], a[7], a[8], a[9], a[10], a[11], a[12], a[13], a[14], a[15]),
      a[4],
      a[5],
      a[6],
      a[7],
      s);
  }

  lemma InverseLeft21(a: Matrix)
    requires Det(a) != 0.0
    ensures RowCol(Inverse(a), a, 2, 1) == 0.0
  {
    var s := 1.0 / Det(a);
    assert Mul(Det(a), s) == 1.0 && Mul(0.0, s) == 0.0;
    InverseSlots(a);
    AdjugateLeft21(a[0], a[1], a[2], a[3], a[4], a[5], a[6], a[7], a[8], a[9], a[10], a[11], a[12], a[13], a[14], a[15]);
    Dot4Scale(
      Adjugate2(a[0], a[1], a[2], a[3], a[4], a[5], a[6], a[7], a[8], a[9], a[10], a[11], a[12], a[13], a[14], a[15]),
      Adjugate6(a[0], a[1], a[2], a[3], a[4], a[5], a[6], a[7], a[8], a[9], a[10], a[11], a[12], a[13], a[14], a[15]),
      Adjugate10(a[0], a[1], a[2], a[3], a[4], a[5], a[6], a[7], a[8], a[9], a[10], a[11], a[12], a[13], a[14], a[15]),
      Adjugate14(a[0], a[1], a[2], a[3], a[4], a[5], a[6], a[7], a[8], a[9], a[10], a[11], a[12], a[13], a[14], a[15]),
      a[4],
      a[5],
      a[6],
      a[7],
      s);
  }

  lemma InverseLeft31(a: Matrix)
    requires Det(a) != 0.0
    ensures RowCol(Inverse(a), a, 3, 1) == 0.0
  {
    var s := 1.0 / Det(a);
    assert Mul(Det(a), s) == 1.0 && Mul(0.0, s) == 0.0;
    InverseSlots(a);
    AdjugateLeft31(a[0], a[1], a[2], a[3], a[4], a[5], a[6], a[7], a[8], a[9], a[10], a[11], a[12], a[13], a[14], a[15]);
    Dot4Scale(
      Adjugate3(a[0], a[1], a[2], a[3], a[4], a[5], a[6], a[7], a[8], a[9], a[10], a[11], a[12], a[13], a[14], a[15]),
      Adjugate7(a[0], a[1], a[2], a[3], a[4], a[5], a[6], a[7], a[8], a[9], a[10], a[11], a[12], a[13], a[14], a[15]),
      Adjugate11(a[0], a[1], a[2], a[3], a[4], a[5], a[6], a[7], a[8], a[9], a[10], a[11], a[12], a[13], a[14], a[15]),
      Adjugate15(a[0], a[1], a[2], a[3], a[4], a[5], a[6], a[7], a[8], a[9], a[10], a[11], a[12], a[13], a[14], a[15]),
      a[4],
      a[5],
      a[6],
      a[7],
      s);
  }

  lemma InverseLeft02(a: Matrix)
    requires Det(a) != 0.0
    ensures RowCol(Inverse(a), a, 0, 2) == 0.0
  {
    var s := 1.0 / Det(a);
    assert Mul(Det(a), s) == 1.0 && Mul(0.0, s) == 0.0;
    InverseSlots(a);
    AdjugateLeft02(a[0], a[1], a[2], a[3], a[4], a[5], a[6], a[7], a[8], a[9], a[10], a[11], a[12], a[13], a[14], a[15]);
    Dot4Scale(
      Adjugate0(a[0], a[1], a[2], a[3], a[4], a[5], a[6], a[7], a[8], a[9], a[10], a[11], a[12], a[13], a[14], a[15]),
      Adjugate4(a[0], a[1], a[2], a[3], a[4], a[5], a[6], a[7], a[8], a[9], a[10], a[11], a[12], a[13], a[14], a[15]),
      Adjugate8(a[0], a[1], a[2], a[3], a[4], a[5], a[6], a[7], a[8], a[9], a[10], a[11], a[12], a[13], a[14], a[15]),
      Adjugate12(a[0], a[1], a[2], a[3], a[4], a[5], a[6], a[7], a[8], a[9], a[10], a[11], a[12], a[13], a[14], a[15]),
      a[8],
      a[9],
      a[10],
      a[11],
      s);
  }

  lemma InverseLeft12(a: Matrix)
    requires Det(a) != 0.0
    ensures RowCol(Inverse(a), a, 1, 2) == 0.0
  {
    var s := 1.0 / Det(a);
    assert Mul(Det(a), s) == 1.0 && Mul(0.0, s) == 0.0;
    InverseSlots(a);
    AdjugateLeft12(a[0], a[1], a[2], a[3], a[4], a[5], a[6], a[7], a[8], a[9], a[10], a[11], a[12], a[13], a[14], a[15]);
    Dot4Scale(
      Adjugate1(a[0], a[1], a[2], a[3], a[4], a[5], a[6], a[7], a[8], a[9], a[10], a[11], a[12], a[13], a[14], a[15]),
      Adjugate5(a[0], a[1], a[2], a[3], a[4], a[5], a[6], a[7], a[8], a[9], a[10], a[11], a[12], a[13], a[14], a[15]),
      Adjugate9(a[0], a[1], a[2], a[3], a[4], a[5], a[6], a[7], a[8], a[9], a[10], a[11], a[12], a[13], a[14], a[15]),
      Adjugate13(a[0], a[1], a[2], a[3], a[4], a[5], a[6], a[7], a[8], a[9], a[10], a[11], a[12], a[13], a[14], a[15]),
      a[8],
      a[9],
      a[10],
      a[11],
      s);
  }

  lemma InverseLeft22(a: Matrix)
    requires Det(a) != 0.0
    ensures RowCol(Inverse(a), a, 2, 2) == 1.0
  {
    var s := 1.0 / Det(a);
    assert Mul(Det(a), s) == 1.0 && Mul(0.0, s) == 0.0;
    InverseSlots(a);
    AdjugateLeft22(a[0], a[1], a[2], a[3], a[4], a[5], a[6], a[7], a[8], a[9], a[10], a[11], a[12], a[13], a[14], a[15]);
    Dot4Scale(
      Adjugate2(a[0], a[1], a[2], a[3], a[4], a[5], a[6], a[7], a[8], a[9], a[10], a[11], a[12], a[13], a[14], a[15]),
      Adjugate6(a[0], a[1], a[2], a[3], a[4], a[5], a[6], a[7], a[8], a[9], a[10], a[11], a[12], a[13], a[14], a[15]),
      Adjugate10(a[0], a[1], a[2], a[3], a[4], a[5], a[6], a[7], a[8], a[9], a[10], a[11], a[12], a[13], a[14], a[15]),
      Adjugate14(a[0], a[1], a[2], a[3], a[4], a[5], a[6], a[7], a[8], a[9], a[10], a[11], a[12], a[13], a[14], a[15]),
      a[8],
      a[9],
      a[10],
      a[11],
      s);
  }

  lemma InverseLeft32(a: Matrix)
    requires Det(a) != 0.0
    ensures RowCol(Inverse(a), a, 3, 2) == 0.0
  {
    var s := 1.0 / Det(a);
    assert Mul(Det(a), s) == 1.0 && Mul(0.0, s) == 0.0;
    InverseSlots(a);
    AdjugateLeft32(a[0], a[1], a[2], a[3], a[4], a[5], a[6], a[7], a[8], a[9], a[10], a[11], a[12], a[13], a[14], a[15]);
    Dot4Scale(
      Adjugate3(a[0], a[1], a[2], a[3], a[4], a[5], a[6], a[7], a[8], a[9], a[10], a[11], a[12], a[13], a[14], a[15]),
      Adjugate7(a[0], a[1], a[2], a[3], a[4], a[5], a[6], a[7], a[8], a[9], a[10], a[11], a[12], a[13], a[14], a[15]),
      Adjugate11(a[0], a[1], a[2], a[3], a[4], a[5], a[6], a[7], a[8], a[9], a[10], a[11], a[12], a[13], a[14], a[15]),
      Adjugate15(a[0], a[1], a[2], a[3], a[4], a[5], a[6], a[7], a[8], a[9], a[10], a[11], a[12], a[13], a[14], a[15]),
      a[8],
      a[9],
      a[10],
      a[11],
      s);
  }

  lemma InverseLeft03(a: Matrix)
    requires Det(a) != 0.0
    ensures RowCol(Inverse(a), a, 0, 3) == 0.0
  {
    var s := 1.0 / Det(a);
    assert Mul(Det(a), s) == 1.0 && Mul(0.0, s) == 0.0;
    InverseSlots(a);
    AdjugateLeft03(a[0], a[1], a[2], a[3], a[4], a[5], a[6], a[7], a[8], a[9], a[10], a[11], a[12], a[13], a[14], a[15]);
    Dot4Scale(
      Adjugate0(a[0], a[1], a[2], a[3], a[4], a[5], a[6], a[7], a[8], a[9], a[10], a[11], a[12], a[13], a[14], a[15]),
      Adjugate4(a[0], a[1], a[2], a[3], a[4], a[5], a[6], a[7], a[8], a[9], a[10], a[11], a[12], a[13], a[14], a[15]),
      Adjugate8(a[0], a[1], a[2], a[3], a[4], a[5], a[6], a[7], a[8], a[9], a[10], a[11], a[12], a[13], a[14], a[15]),
      Adjugate12(a[0], a[1], a[2], a[3], a[4], a[5], a[6], a[7], a[8], a[9], a[10], a[11], a[12], a[13], a[14], a[15]),
      a[12],
      a[13],
      a[14],
      a[15],
      s);
  }

  lemma InverseLeft13(a: Matrix)
    requires Det(a) != 0.0
    ensures RowCol(Inverse(a), a, 1, 3) == 0.0
  {
    var s := 1.0 / Det(a);
    assert Mul(Det(a), s) == 1.0 && Mul(0.0, s) == 0.0;
    InverseSlots(a);
    AdjugateLeft13(a[0], a[1], a[2], a[3], a[4], a[5], a[6], a[7], a[8], a[9], a[10], a[11], a[12], a[13], a[14], a[15]);
    Dot4Scale(
      Adjugate1(a[0], a[1], a[2], a[3], a[4], a[5], a[6], a[7], a[8], a[9], a[10], a[11], a[12], a[13], a[14], a[15]),
      Adjugate5(a[0], a[1], a[2], a[3], a[4], a[5], a[6], a[7], a[8], a[9], a[10], a[11], a[12], a[13], a[14], a[15]),
      Adjugate9(a[0], a[1], a[2], a[3], a[4], a[5], a[6], a[7], a[8], a[9], a[10], a[11], a[12], a[13], a[14], a[15]),
      Adjugate13(a[0], a[1], a[2], a[3], a[4], a[5], a[6], a[7], a[8], a[9], a[10], a[11], a[12], a[13], a[14], a[15]),
      a[12],
      a[13],
      a[14],
      a[15],
      s);
  }

  lemma InverseLeft23(a: Matrix)
    requires Det(a) != 0.0
    ensures RowCol(Inverse(a), a, 2, 3) == 0.0
  {
    var s := 1.0 / Det(a);
    assert Mul(Det(a), s) == 1.0 && Mul(0.0, s) == 0.0;
    InverseSlots(a);
    AdjugateLeft23(a[0], a[1], a[2], a[3], a[4], a[5], a[6], a[7], a[8], a[9], a[10], a[11], a[12], a[13], a[14], a[15]);
    Dot4Scale(
      Adjugate2(a[0], a[1], a[2], a[3], a[4], a[5], a[6], a[7], a[8], a[9], a[10], a[11], a[12], a[13], a[14], a[15]),
      Adjugate6(a[0], a[1], a[2], a[3], a[4], a[5], a[6], a[7], a[8], a[9], a[10], a[11], a[12], a[13], a[14], a[15]),
      Adjugate10(a[0], a[1], a[2], a[3], a[4], a[5], a[6], a[7], a[8], a[9], a[10], a[11], a[12], a[13], a[14], a[15]),
      Adjugate14(a[0], a[1], a[2], a[3], a[4], a[5], a[6], a[7], a[8], a[9], a[10], a[11], a[12], a[13], a[14], a[15]),
      a[12],
      a[13],
      a[14],
      a[15],
      s);
  }

  lemma InverseLeft33(a: Matrix)
    requires Det(a) != 0.0
    ensures RowCol(Inverse(a), a, 3, 3) == 1.0
  {
    var s := 1.0 / Det(a);
    assert Mul(Det(a), s) == 1.0 && Mul(0.0, s) == 0.0;
    InverseSlots(a);
    AdjugateLeft33(a[0], a[1], a[2], a[3], a[4], a[5], a[6], a[7], a[8], a[9], a[10], a[11], a[12], a[13], a[14], a[15]);
    Dot4Scale(
      Adjugate3(a[0], a[1], a[2], a[3], a[4], a[5], a[6], a[7], a[8], a[9], a[10], a[11], a[12], a[13], a[14], a[15]),
      Adjugate7(a[0], a[1], a[2], a[3], a[4], a[5], a[6], a[7], a[8], a[9], a[10], a[11], a[12], a[13], a[14], a[15]),
      Adjugate11(a[0], a[1], a[2], a[3], a[4], a[5], a[6], a[7], a[8], a[9], a[10], a[11], a[12], a[13], a[14], a[15]),
      Adjugate15(a[0], a[1], a[2], a[3], a[4], a[5], a[6], a[7], a[8], a[9], a[10], a[11], a[12], a[13], a[14], a[15]),
      a[12],
      a[13],
      a[14],
      a[15],
      s);
  }

  /** An inverse on the right is the inverse invert() computes: the inverse is unique. */
  lemma InverseUnique(a: Matrix, m: Matrix)
    requires Det(a) != 0.0 && Multiply(a, m) == Identity()
    ensures m == Inverse(a)
  {
    InverseProduct(a);
    MultiplyAssociative(Inverse(a), a, m);
    MultiplyIdentity(m);
    MultiplyIdentity(Inverse(a));
  }

  /** A translation has determinant 1. */
  lemma TranslationDet(v: Vector3)
    ensures Det(Translation(v)) == 1.0
  {
    var t := Translation(v);
    assert t == [1.0, 0.0, 0.0, 0.0, 0.0, 1.0, 0.0, 0.0, 0.0, 0.0, 1.0, 0.0, v.x, v.y, v.z, 1.0];
    assert Det(t) == DetOf(1.0, 0.0, 0.0, 0.0, 0.0, 1.0, 0.0, 0.0, 0.0, 0.0, 1.0, 0.0, v.x, v.y, v.z, 1.0);
  }

  /** A translation is invertible and invert() turns it into the opposite translation. */
  lemma TranslationInverse(v: Vector3)
    ensures Det(Translation(v)) == 1.0
    ensures Inverse(Translation(v)) == Translation(Neg(v))
  {
    TranslationDet(v);
    TranslationCompose(v, Neg(v));
    assert Add(v, Neg(v)) == Zero();
    SlotsEqual(Translation(Zero()), Identity());
    InverseUnique(Translation(v), Translation(Neg(v)));
  }
}
