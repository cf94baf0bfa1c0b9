/**
 * The closed-form 4x4 inverse of `_inv4x4` (dtmm/linalg.py) as a value:
 * the kernel's cofactor matrix, its determinant, and the inverse (None
 * where the kernel produces NaN), with the inverse theorem.
 */
module Inverse4 {
  import opened Scalars
  import opened Matrix4
  import opened CofactorProofs

  /**
   * The cofactor (adjugate) matrix exactly as the kernel forms it: twelve
   * products of the lower-right entries for the first two rows, twelve of
   * the upper-left entries for the last two rows.
   */
  function Cofactors(m: Mat4): Mat4 {
    var t0 := Mul(m[2][2], m[3][3]);
    var t1 := Mul(m[3][2], m[2][3]);
    var t2 := Mul(m[1][2], m[3][3]);
    var t3 := Mul(m[3][2], m[1][3]);
    var t4 := Mul(m[1][2], m[2][3]);
    var t5 := Mul(m[2][2], m[1][3]);
    var t6 := Mul(m[0][2], m[3][3]);
    var t7 := Mul(m[3][2], m[0][3]);
    var t8 := Mul(m[0][2], m[2][3]);
    var t9 := Mul(m[2][2], m[0][3]);
    var t10 := Mul(m[0][2], m[1][3]);
    var t11 := Mul(m[1][2], m[0][3]);
    var c00 := Sub(Sub(Sub(Add(Add(Mul(t0, m[1][1]), Mul(t3, m[2][1])), Mul(t4, m[3][1])), Mul(t1, m[1][1])), Mul(t2, m[2][1])), Mul(t5, m[3][1]));
    var c01 := Sub(Sub(Sub(Add(Add(Mul(t1, m[0][1]), Mul(t6, m[2][1])), Mul(t9, m[3][1])), Mul(t0, m[0][1])), Mul(t7, m[2][1])), Mul(t8, m[3][1]));
    var c02 := Sub(Sub(Sub(Add(Add(Mul(t2, m[0][1]), Mul(t7, m[1][1])), Mul(t10, m[3][1])), Mul(t3, m[0][1])), Mul(t6, m[1][1])), Mul(t11, m[3][1]));
    var c03 := Sub(Sub(Sub(Add(Add(Mul(t5, m[0][1]), Mul(t8, m[1][1])), Mul(t11, m[2][1])), Mul(t4, m[0][1])), Mul(t9, m[1][1])), Mul(t10, m[2][1]));
    var c10 := Sub(Sub(Sub(Add(Add(Mul(t1, m[1][0]), Mul(t2, m[2][0])), Mul(t5, m[3][0])), Mul(t0, m[1][0])), Mul(t3, m[2][0])), Mul(t4, m[3][0]));
    var c11 := Sub(Sub(Sub(Add(Add(Mul(t0, m[0][0]), Mul(t7, m[2][0])), Mul(t8, m[3][0])), Mul(t1, m[0][0])), Mul(t6, m[2][0])), Mul(t9, m[3][0]));
    var c12 := Sub(Sub(Sub(Add(Add(Mul(t3, m[0][0]), Mul(t6, m[1][0])), Mul(t11, m[3][0])), Mul(t2, m[0][0])), Mul(t7, m[1][0])), Mul(t10, m[3][0]));
    var c13 := Sub(Sub(Sub(Add(Add(Mul(t4, m[0][0]), Mul(t9, m[1][0])), Mul(t10, m[2][0])), Mul(t5, m[0][0])), Mul(t8, m[1][0])), Mul(t11, m[2][0]));
    var u0 := Mul(m[2][0], m[3][1]);
    var u1 := Mul(m[3][0], m[2][1]);
    var u2 := Mul(m[1][0], m[3][1]);
    var u3 := Mul(m[3][0], m[1][1]);
    var u4 := Mul(m[1][0], m[2][1]);
    var u5 := Mul(m[2][0], m[1][1]);
    var u6 := Mul(m[0][0], m[3][1]);
    var u7 := Mul(m[3][0], m[0][1]);
    var u8 := Mul(m[0][0], m[2][1]);
    var u9 := Mul(m[2][0], m[0][1]);
    var u10 := Mul(m[0][0], m[1][1]);
    var u11 := Mul(m[1][0], m[0][1]);
    var c20 := Sub(Add(Add(Mul(u0, m[1][3]), Mul(u3, m[2][3])), Mul(u4, m[3][3])), Add(Add(Mul(u1, m[1][3]), Mul(u2, m[2][3])), Mul(u5, m[3][3])));
    var c21 := Sub(Add(Add(Mul(u1, m[0][3]), Mul(u6, m[2][3])), Mul(u9, m[3][3])), Add(Add(Mul(u0, m[0][3]), Mul(u7, m[2][3])), Mul(u8, m[3][3])));
    var c22 := Sub(Add(Add(Mul(u2, m[0][3]), Mul(u7, m[1][3])), Mul(u10, m[3][3])), Add(Add(Mul(u3, m[0][3]), Mul(u6, m[1][3])), Mul(u11, m[3][3])));
    var c23 := Sub(Add(Add(Mul(u5, m[0][3]), Mul(u8, m[1][3])), Mul(u11, m[2][3])), Add(Add(Mul(u4, m[0][3]), Mul(u9, m[1][3])), Mul(u10, m[2][3])));
    var c30 := Sub(Add(Add(Mul(u2, m[2][2]), Mul(u5, m[3][2])), Mul(u1, m[1][2])), Add(Add(Mul(u4, m[3][2]), Mul(u0, m[1][2])), Mul(u3, m[2][2])));
    var c31 := Sub(Add(Add(Mul(u8, m[3][2]), Mul(u0, m[0][2])), Mul(u7, m[2][2])), Add(Add(Mul(u6, m[2][2]), Mul(u9, m[3][2])), Mul(u1, m[0][2])));
    var c32 := Sub(Add(Add(Mul(u6, m[1][2]), Mul(u11, m[3][2])), Mul(u3, m[0][2])), Add(Add(Mul(u10, m[3][2]), Mul(u2, m[0][2])), Mul(u7, m[1][2])));
    var c33 := Sub(Add(Add(Mul(u10, m[2][2]), Mul(u4, m[0][2])), Mul(u9, m[1][2])), Add(Add(Mul(u8, m[1][2]), Mul(u11, m[2][2])), Mul(u5, m[0][2])));
    [[c00, c01, c02, c03], [c10, c11, c12, c13], [c20, c21, c22, c23], [c30, c31, c32, c33]]
  }

  /** The determinant as the kernel computes it: column 0 against row 0 of the cofactors. */
  function Det(m: Mat4): Complex {
    var c := Cofactors(m);
    Sum4(Mul(m[0][0], c[0][0]), Mul(m[1][0], c[0][1]), Mul(m[2][0], c[0][2]), Mul(m[3][0], c[0][3]))
  }

  /**
   * The kernel's result: None (all sixteen entries NaN) when the determinant
   * is exactly zero, otherwise every cofactor times 1/det.
   */
  function Inverse(m: Mat4): Option<Mat4> {
    var det := Det(m);
    if det == Zero then None else Some(ScaleMat(Cofactors(m), Inv(det)))
  }

  lemma DetIsDetOf(m: Mat4)
    ensures Det(m) == DetOf(m[0][0], m[0][1], m[0][2], m[0][3], m[1][0], m[1][1], m[1][2], m[1][3], m[2][0], m[2][1], m[2][2], m[2][3], m[3][0], m[3][1], m[3][2], m[3][3])
  {}

  /** M · cofactors(M) == det(M) · I. */
  lemma AdjugateRight(m: Mat4)
    ensures forall i, k | 0 <= i < 4 && 0 <= k < 4 ::
      MatMul(m, Cofactors(m))[i][k] == (if i == k then Det(m) else Zero)
  {
    DetIsDetOf(m);
    RightEntry00(m[0][0], m[0][1], m[0][2], m[0][3], m[1][0], m[1][1], m[1][2], m[1][3], m[2][0], m[2][1], m[2][2], m[2][3], m[3][0], m[3][1], m[3][2], m[3][3]);
    RightEntry01(m[0][0], m[0][1], m[0][2], m[0][3], m[1][0], m[1][1], m[1][2], m[1][3], m[2][0], m[2][1], m[2][2], m[2][3], m[3][0], m[3][1], m[3][2], m[3][3]);
    RightEntry02(m[0][0], m[0][1], m[0][2], m[0][3], m[1][0], m[1][1], m[1][2], m[1][3], m[2][0], m[2][1], m[2][2], m[2][3], m[3][0], m[3][1], m[3][2], m[3][3]);
    RightEntry03(m[0][0], m[0][1], m[0][2], m[0][3], m[1][0], m[1][1], m[1][2], m[1][3], m[2][0], m[2][1], m[2][2], m[2][3], m[3][0], m[3][1], m[3][2], m[3][3]);
    RightEntry10(m[0][0], m[0][1], m[0][2], m[0][3], m[1][0], m[1][1], m[1][2], m[1][3], m[2][0], m[2][1], m[2][2], m[2][3], m[3][0], m[3][1], m[3][2], m[3][3]);
    RightEntry11(m[0][0], m[0][1], m[0][2], m[0][3], m[1][0], m[1][1], m[1][2], m[1][3], m[2][0], m[2][1], m[2][2], m[2][3], m[3][0], m[3][1], m[3][2], m[3][3]);
    RightEntry12(m[0][0], m[0][1], m[0][2], m[0][3], m[1][0], m[1][1], m[1][2], m[1][3], m[2][0], m[2][1], m[2][2], m[2][3], m[3][0], m[3][1], m[3][2], m[3][3]);
    RightEntry13(m[0][0], m[0][1], m[0][2], m[0][3], m[1][0], m[1][1], m[1][2], m[1][3], m[2][0], m[2][1], m[2][2], m[2][3], m[3][0], m[3][1], m[3][2], m[3][3]);
    RightEntry20(m[0][0], m[0][1], m[0][2], m[0][3], m[1][0], m[1][1], m[1][2], m[1][3], m[2][0], m[2][1], m[2][2], m[2][3], m[3][0], m[3][1], m[3][2], m[3][3]);
    RightEntry21(m[0][0], m[0][1], m[0][2], m[0][3], m[1][0], m[1][1], m[1][2], m[1][3], m[2][0], m[2][1], m[2][2], m[2][3], m[3][0], m[3][1], m[3][2], m[3][3]);
    RightEntry22(m[0][0], m[0][1], m[0][2], m[0][3], m[1][0], m[1][1], m[1][2], m[1][3], m[2][0], m[2][1], m[2][2], m[2][3], m[3][0], m[3][1], m[3][2], m[3][3]);
    RightEntry23(m[0][0], m[0][1], m[0][2], m[0][3], m[1][0], m[1][1], m[1][2], m[1][3], m[2][0], m[2][1], m[2][2], m[2][3], m[3][0], m[3][1], m[3][2], m[3][3]);
    RightEntry30(m[0][0], m[0][1], m[0][2], m[0][3], m[1][0], m[1][1], m[1][2], m[1][3], m[2][0], m[2][1], m[2][2], m[2][3], m[3][0], m[3][1], m[3][2], m[3][3]);
    RightEntry31(m[0][0], m[0][1], m[0][2], m[0][3], m[1][0], m[1][1], m[1][2], m[1][3], m[2][0], m[2][1], m[2][2], m[2][3], m[3][0], m[3][1], m[3][2], m[3][3]);
    RightEntry32(m[0][0], m[0][1], m[0][2], m[0][3], m[1][0], m[1][1], m[1][2], m[1][3], m[2][0], m[2][1], m[2][2], m[2][3], m[3][0], m[3][1], m[3][2], m[3][3]);
    RightEntry33(m[0][0], m[0][1], m[0][2], m[0][3], m[1][0], m[1][1], m[1][2], m[1][3], m[2][0], m[2][1], m[2][2], m[2][3], m[3][0], m[3][1], m[3][2], m[3][3]);
  }

  /** cofactors(M) · M == det(M) · I. */
  lemma AdjugateLeft(m: Mat4)
    ensures forall i, k | 0 <= i < 4 && 0 <= k < 4 ::
      MatMul(Cofactors(m), m)[i][k] == (if i == k then Det(m) else Zero)
  {
    DetIsDetOf(m);
    LeftEntry00(m[0][0], m[0][1], m[0][2], m[0][3], m[1][0], m[1][1], m[1][2], m[1][3], m[2][0], m[2][1], m[2][2], m[2][3], m[3][0], m[3][1], m[3][2], m[3][3]);
    LeftEntry01(m[0][0], m[0][1], m[0][2], m[0][3], m[1][0], m[1][1], m[1][2], m[1][3], m[2][0], m[2][1], m[2][2], m[2][3], m[3][0], m[3][1], m[3][2], m[3][3]);
    LeftEntry02(m[0][0], m[0][1], m[0][2], m[0][3], m[1][0], m[1][1], m[1][2], m[1][3], m[2][0], m[2][1], m[2][2], m[2][3], m[3][0], m[3][1], m[3][2], m[3][3]);
    LeftEntry03(m[0][0], m[0][1], m[0][2], m[0][3], m[1][0], m[1][1], m[1][2], m[1][3], m[2][0], m[2][1], m[2][2], m[2][3], m[3][0], m[3][1], m[3][2], m[3][3]);
    LeftEntry10(m[0][0], m[0][1], m[0][2], m[0][3], m[1][0], m[1][1], m[1][2], m[1][3], m[2][0], m[2][1], m[2][2], m[2][3], m[3][0], m[3][1], m[3][2], m[3][3]);
    LeftEntry11(m[0][0], m[0][1], m[0][2], m[0][3], m[1][0], m[1][1], m[1][2], m[1][3], m[2][0], m[2][1], m[2][2], m[2][3], m[3][0], m[3][1], m[3][2], m[3][3]);
    LeftEntry12(m[0][0], m[0][1], m[0][2], m[0][3], m[1][0], m[1][1], m[1][2], m[1][3], m[2][0], m[2][1], m[2][2], m[2][3], m[3][0], m[3][1], m[3][2], m[3][3]);
    LeftEntry13(m[0][0], m[0][1], m[0][2], m[0][3], m[1][0], m[1][1], m[1][2], m[1][3], m[2][0], m[2][1], m[2][2], m[2][3], m[3][0], m[3][1], m[3][2], m[3][3]);
    LeftEntry20(m[0][0], m[0][1], m[0][2], m[0][3], m[1][0], m[1][1], m[1][2], m[1][3], m[2][0], m[2][1], m[2][2], m[2][3], m[3][0], m[3][1], m[3][2], m[3][3]);
    LeftEntry21(m[0][0], m[0][1], m[0][2], m[0][3], m[1][0], m[1][1], m[1][2], m[1][3], m[2][0], m[2][1], m[2][2], m[2][3], m[3][0], m[3][1], m[3][2], m[3][3]);
    LeftEntry22(m[0][0], m[0][1], m[0][2], m[0][3], m[1][0], m[1][1], m[1][2], m[1][3], m[2][0], m[2][1], m[2][2], m[2][3], m[3][0], m[3][1], m[3][2], m[3][3]);
    LeftEntry23(m[0][0], m[0][1], m[0][2], m[0][3], m[1][0], m[1][1], m[1][2], m[1][3], m[2][0], m[2][1], m[2][2], m[2][3], m[3][0], m[3][1], m[3][2], m[3][3]);
    LeftEntry30(m[0][0], m[0][1], m[0][2], m[0][3], m[1][0], m[1][1], m[1][2], m[1][3], m[2][0], m[2][1], m[2][2], m[2][3], m[3][0], m[3][1], m[3][2], m[3][3]);
    LeftEntry31(m[0][0], m[0][1], m[0][2], m[0][3], m[1][0], m[1][1], m[1][2], m[1][3], m[2][0], m[2][1], m[2][2], m[2][3], m[3][0], m[3][1], m[3][2], m[3][3]);
    LeftEntry32(m[0][0], m[0][1], m[0][2], m[0][3], m[1][0], m[1][1], m[1][2], m[1][3], m[2][0], m[2][1], m[2][2], m[2][3], m[3][0], m[3][1], m[3][2], m[3][3]);
    LeftEntry33(m[0][0], m[0][1], m[0][2], m[0][3], m[1][0], m[1][1], m[1][2], m[1][3], m[2][0], m[2][1], m[2][2], m[2][3], m[3][0], m[3][1], m[3][2], m[3][3]);
  }

  lemma RowColScaleRight(a: Mat4, b: Mat4, k: Complex, i: int, j: int)
    requires 0 <= i < 4 && 0 <= j < 4
    ensures RowCol(a, ScaleMat(b, k), i, j) == Mul(RowCol(a, b, i, j), k)
  {
    var x0, x1, x2, x3 := Mul(a[i][0], b[0][j]), Mul(a[i][1], b[1][j]), Mul(a[i][2], b[2][j]), Mul(a[i][3], b[3][j]);
    MulAssoc(a[i][0], b[0][j], k);
    MulAssoc(a[i][1], b[1][j], k);
    MulAssoc(a[i][2], b[2][j], k);
    MulAssoc(a[i][3], b[3][j], k);
    assert Mul(Sum4(x0, x1, x2, x3), k) == Sum4(Mul(x0, k), Mul(x1, k), Mul(x2, k), Mul(x3, k));
  }

  lemma RowColScaleLeft(a: Mat4, b: Mat4, k: Complex, i: int, j: int)
    requires 0 <= i < 4 && 0 <= j < 4
    ensures RowCol(ScaleMat(a, k), b, i, j) == Mul(RowCol(a, b, i, j), k)
  {
    var x0, x1, x2, x3 := Mul(a[i][0], b[0][j]), Mul(a[i][1], b[1][j]), Mul(a[i][2], b[2][j]), Mul(a[i][3], b[3][j]);
    forall l | 0 <= l < 4
      ensures Mul(Mul(a[i][l], k), b[l][j]) == Mul(Mul(a[i][l], b[l][j]), k)
    {
      MulAssoc(a[i][l], k, b[l][j]);
      MulComm(k, b[l][j]);
      MulAssoc(a[i][l], b[l][j], k);
    }
    assert Mul(Sum4(x0, x1, x2, x3), k) == Sum4(Mul(x0, k), Mul(x1, k), Mul(x2, k), Mul(x3, k));
  }

  /**
   * For a matrix whose determinant is not zero the kernel's result is a
   * two-sided inverse: M·inv == I and inv·M == I.
   */
  lemma InverseIsTwoSided(m: Mat4)
    requires Det(m) != Zero
    ensures Inverse(m).Some?
    ensures MatMul(m, Inverse(m).value) == Identity()
    ensures MatMul(Inverse(m).value, m) == Identity()
  {
    var det := Det(m);
    var k := Inv(det);
    var c := Cofactors(m);
    var inv := ScaleMat(c, k);
    AdjugateRight(m);
    AdjugateLeft(m);
    MulZero(k);
    var r := MatMul(m, inv);
    var l := MatMul(inv, m);
    forall i, j | 0 <= i < 4 && 0 <= j < 4
      ensures r[i][j] == Identity()[i][j] && l[i][j] == Identity()[i][j]
    {
      RowColScaleRight(m, c, k, i, j);
      RowColScaleLeft(c, m, k, i, j);
      assert MatMul(m, c)[i][j] == RowCol(m, c, i, j);
      assert MatMul(c, m)[i][j] == RowCol(c, m, i, j);
    }
    MatExt(r, Identity());
    MatExt(l, Identity());
  }

  /** The singular case: exactly when the determinant is zero there is no inverse. */
  lemma InverseNoneIffSingular(m: Mat4)
    ensures Inverse(m).None? <==> Det(m) == Zero
  {}
}
