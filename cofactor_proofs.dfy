/**
 * The adjugate identities for the cofactor matrix that the kernel
 * `_inv4x4` of dtmm/linalg.py computes: for every entry (i, k),
 *   (M·C)[i][k] == (if i == k then det else 0)   (RightEntryik)
 *   (C·M)[i][k] == (if i == k then det else 0)   (LeftEntryik)
 * where C is the kernel's cofactor matrix written out over the sixteen
 * entries m00..m33 of M, and det = m00·C00 + m10·C01 + m20·C02 + m30·C03.
 * Each proof distributes the products over the six-term cofactor sums,
 * brings every four-factor monomial into a sorted normal form `Quad`, and
 * leaves the remaining linear cancellation to the solver.
 */
module CofactorProofs {
  import opened Scalars

  /** A four-factor monomial in normal form. */
  function Quad(a: Complex, b: Complex, c: Complex, d: Complex): Complex { Mul(Mul(a, b), Mul(c, d)) }

  lemma MulQuadLeft(a: Complex, b: Complex, c: Complex, d: Complex)
    ensures Mul(a, Mul(Mul(b, c), d)) == Quad(a, b, c, d)
  {}

  lemma MulQuadRight(a: Complex, b: Complex, c: Complex, d: Complex)
    ensures Mul(Mul(Mul(b, c), d), a) == Quad(a, b, c, d)
  {}

  lemma QuadSwap01(a: Complex, b: Complex, c: Complex, d: Complex)
    ensures Quad(a, b, c, d) == Quad(b, a, c, d)
  {}

  lemma QuadSwap12(a: Complex, b: Complex, c: Complex, d: Complex)
    ensures Quad(a, b, c, d) == Quad(a, c, b, d)
  {}

  lemma QuadSwap23(a: Complex, b: Complex, c: Complex, d: Complex)
    ensures Quad(a, b, c, d) == Quad(a, b, d, c)
  {}

  /** Distribution over the first kernel sum shape, x1 + x2 + x3 - x4 - x5 - x6. */
  lemma DistALeft(a: Complex, x1: Complex, x2: Complex, x3: Complex, x4: Complex, x5: Complex, x6: Complex)
    ensures Mul(a, Sub(Sub(Sub(Add(Add(x1, x2), x3), x4), x5), x6))
         == Sub(Sub(Sub(Add(Add(Mul(a, x1), Mul(a, x2)), Mul(a, x3)), Mul(a, x4)), Mul(a, x5)), Mul(a, x6))
  {}

  lemma DistARight(a: Complex, x1: Complex, x2: Complex, x3: Complex, x4: Complex, x5: Complex, x6: Complex)
    ensures Mul(Sub(Sub(Sub(Add(Add(x1, x2), x3), x4), x5), x6), a)
         == Sub(Sub(Sub(Add(Add(Mul(x1, a), Mul(x2, a)), Mul(x3, a)), Mul(x4, a)), Mul(x5, a)), Mul(x6, a))
  {}

  /** Distribution over the second kernel sum shape, x1 + x2 + x3 - (x4 + x5 + x6). */
  lemma DistBLeft(a: Complex, x1: Complex, x2: Complex, x3: Complex, x4: Complex, x5: Complex, x6: Complex)
    ensures Mul(a, Sub(Add(Add(x1, x2), x3), Add(Add(x4, x5), x6)))
         == Sub(Sub(Sub(Add(Add(Mul(a, x1), Mul(a, x2)), Mul(a, x3)), Mul(a, x4)), Mul(a, x5)), Mul(a, x6))
  {}

  lemma DistBRight(a: Complex, x1: Complex, x2: Complex, x3: Complex, x4: Complex, x5: Complex, x6: Complex)
    ensures Mul(Sub(Add(Add(x1, x2), x3), Add(Add(x4, x5), x6)), a)
         == Sub(Sub(Sub(Add(Add(Mul(x1, a), Mul(x2, a)), Mul(x3, a)), Mul(x4, a)), Mul(x5, a)), Mul(x6, a))
  {}

  /** The determinant as the kernel forms it, over the sixteen entries. */
  function DetOf(m00: Complex, m01: Complex, m02: Complex, m03: Complex, m10: Complex, m11: Complex, m12: Complex, m13: Complex, m20: Complex, m21: Complex, m22: Complex, m23: Complex, m30: Complex, m31: Complex, m32: Complex, m33: Complex): Complex {
    Sum4(Mul(m00, Sub(Sub(Sub(Add(Add(Mul(Mul(m22, m33), m11), Mul(Mul(m32, m13), m21)), Mul(Mul(m12, m23), m31)), Mul(Mul(m32, m23), m11)), Mul(Mul(m12, m33), m21)), Mul(Mul(m22, m13), m31))), Mul(m10, Sub(Sub(Sub(Add(Add(Mul(Mul(m32, m23), m01), Mul(Mul(m02, m33), m21)), Mul(Mul(m22, m03), m31)), Mul(Mul(m22, m33), m01)), Mul(Mul(m32, m03), m21)), Mul(Mul(m02, m23), m31))), Mul(m20, Sub(Sub(Sub(Add(Add(Mul(Mul(m12, m33), m01), Mul(Mul(m32, m03), m11)), Mul(Mul(m02, m13), m31)), Mul(Mul(m32, m13), m01)), Mul(Mul(m02, m33), m11)), Mul(Mul(m12, m03), m31))), Mul(m30, Sub(Sub(Sub(Add(Add(Mul(Mul(m22, m13), m01), Mul(Mul(m02, m23), m11)), Mul(Mul(m12, m03), m21)), Mul(Mul(m12, m23), m01)), Mul(Mul(m22, m03), m11)), Mul(Mul(m02, m13), m21))))
  }

  lemma RightEntry00(m00: Complex, m01: Complex, m02: Complex, m03: Complex, m10: Complex, m11: Complex, m12: Complex, m13: Complex, m20: Complex, m21: Complex, m22: Complex, m23: Complex, m30: Complex, m31: Complex, m32: Complex, m33: Complex)
    ensures Sum4(Mul(m00, Sub(Sub(Sub(Add(Add(Mul(Mul(m22, m33), m11), Mul(Mul(m32, m13), m21)), Mul(Mul(m12, m23), m31)), Mul(Mul(m32, m23), m11)), Mul(Mul(m12, m33), m21)), Mul(Mul(m22, m13), m31))), Mul(m01, Sub(Sub(Sub(Add(Add(Mul(Mul(m32, m23), m10), Mul(Mul(m12, m33), m20)), Mul(Mul(m22, m13), m30)), Mul(Mul(m22, m33), m10)), Mul(Mul(m32, m13), m20)), Mul(Mul(m12, m23), m30))), Mul(m02, Sub(Add(Add(Mul(Mul(m20, m31), m13), Mul(Mul(m30, m11), m23)), Mul(Mul(m10, m21), m33)), Add(Add(Mul(Mul(m30, m21), m13), Mul(Mul(m10, m31), m23)), Mul(Mul(m20, m11), m33)))), Mul(m03, Sub(Add(Add(Mul(Mul(m10, m31), m22), Mul(Mul(m20, m11), m32)), Mul(Mul(m30, m21), m12)), Add(Add(Mul(Mul(m10, m21), m32), Mul(Mul(m20, m31), m12)), Mul(Mul(m30, m11), m22)))))
         == DetOf(m00, m01, m02, m03, m10, m11, m12, m13, m20, m21, m22, m23, m30, m31, m32, m33)
  {
    DistALeft(m00, Mul(Mul(m22, m33), m11), Mul(Mul(m32, m13), m21), Mul(Mul(m12, m23), m31), Mul(Mul(m32, m23), m11), Mul(Mul(m12, m33), m21), Mul(Mul(m22, m13), m31));
    MulQuadLeft(m00, m22, m33, m11); QuadSwap23(m00, m22, m33, m11); QuadSwap12(m00, m22, m11, m33);
    MulQuadLeft(m00, m32, m13, m21); QuadSwap12(m00, m32, m13, m21); QuadSwap23(m00, m13, m32, m21);
    MulQuadLeft(m00, m12, m23, m31);
    MulQuadLeft(m00, m32, m23, m11); QuadSwap12(m00, m32, m23, m11); QuadSwap23(m00, m23, m32, m11); QuadSwap12(m00, m23, m11, m32);
    MulQuadLeft(m00, m12, m33, m21); QuadSwap23(m00, m12, m33, m21);
    MulQuadLeft(m00, m22, m13, m31); QuadSwap12(m00, m22, m13, m31);
    DistALeft(m10, Mul(Mul(m32, m23), m01), Mul(Mul(m02, m33), m21), Mul(Mul(m22, m03), m31), Mul(Mul(m22, m33), m01), Mul(Mul(m32, m03), m21), Mul(Mul(m02, m23), m31));
    MulQuadLeft(m10, m32, m23, m01); QuadSwap12(m10, m32, m23, m01); QuadSwap23(m10, m23, m32, m01); QuadSwap12(m10, m23, m01, m32); QuadSwap01(m10, m01, m23, m32);
    MulQuadLeft(m10, m02, m33, m21); QuadSwap01(m10, m02, m33, m21); QuadSwap23(m02, m10, m33, m21);
    MulQuadLeft(m10, m22, m03, m31); QuadSwap12(m10, m22, m03, m31); QuadSwap01(m10, m03, m22, m31);
    MulQuadLeft(m10, m22, m33, m01); QuadSwap23(m10, m22, m33, m01); QuadSwap12(m10, m22, m01, m33); QuadSwap01(m10, m01, m22, m33);
    MulQuadLeft(m10, m32, m03, m21); QuadSwap12(m10, m32, m03, m21); QuadSwap23(m10, m03, m32, m21); QuadSwap01(m10, m03, m21, m32);
    MulQuadLeft(m10, m02, m23, m31); QuadSwap01(m10, m02, m23, m31);
    DistALeft(m20, Mul(Mul(m12, m33), m01), Mul(Mul(m32, m03), m11), Mul(Mul(m02, m13), m31), Mul(Mul(m32, m13), m01), Mul(Mul(m02, m33), m11), Mul(Mul(m12, m03), m31));
    MulQuadLeft(m20, m12, m33, m01); QuadSwap01(m20, m12, m33, m01); QuadSwap23(m12, m20, m33, m01); QuadSwap12(m12, m20, m01, m33); QuadSwap01(m12, m01, m20, m33);
    MulQuadLeft(m20, m32, m03, m11); QuadSwap12(m20, m32, m03, m11); QuadSwap23(m20, m03, m32, m11); QuadSwap01(m20, m03, m11, m32); QuadSwap12(m03, m20, m11, m32);
    MulQuadLeft(m20, m02, m13, m31); QuadSwap01(m20, m02, m13, m31); QuadSwap12(m02, m20, m13, m31);
    MulQuadLeft(m20, m32, m13, m01); QuadSwap12(m20, m32, m13, m01); QuadSwap23(m20, m13, m32, m01); QuadSwap01(m20, m13, m01, m32); QuadSwap12(m13, m20, m01, m32); QuadSwap01(m13, m01, m20, m32);
    MulQuadLeft(m20, m02, m33, m11); QuadSwap01(m20, m02, m33, m11); QuadSwap23(m02, m20, m33, m11); QuadSwap12(m02, m20, m11, m33);
    MulQuadLeft(m20, m12, m03, m31); QuadSwap01(m20, m12, m03, m31); QuadSwap12(m12, m20, m03, m31); QuadSwap01(m12, m03, m20, m31);
    DistALeft(m30, Mul(Mul(m22, m13), m01), Mul(Mul(m02, m23), m11), Mul(Mul(m12, m03), m21), Mul(Mul(m12, m23), m01), Mul(Mul(m22, m03), m11), Mul(Mul(m02, m13), m21));
    MulQuadLeft(m30, m22, m13, m01); QuadSwap01(m30, m22, m13, m01); QuadSwap12(m22, m30, m13, m01); QuadSwap23(m22, m13, m30, m01); QuadSwap01(m22, m13, m01, m30); QuadSwap12(m13, m22, m01, m30); QuadSwap01(m13, m01, m22, m30);
    MulQuadLeft(m30, m02, m23, m11); QuadSwap01(m30, m02, m23, m11); QuadSwap12(m02, m30, m23, m11); QuadSwap23(m02, m23, m30, m11); QuadSwap12(m02, m23, m11, m30);
    MulQuadLeft(m30, m12, m03, m21); QuadSwap01(m30, m12, m03, m21); QuadSwap12(m12, m30, m03, m21); QuadSwap23(m12, m03, m30, m21); QuadSwap01(m12, m03, m21, m30);
    MulQuadLeft(m30, m12, m23, m01); QuadSwap01(m30, m12, m23, m01); QuadSwap12(m12, m30, m23, m01); QuadSwap23(m12, m23, m30, m01); QuadSwap12(m12, m23, m01, m30); QuadSwap01(m12, m01, m23, m30);
    MulQuadLeft(m30, m22, m03, m11); QuadSwap01(m30, m22, m03, m11); QuadSwap12(m22, m30, m03, m11); QuadSwap23(m22, m03, m30, m11); QuadSwap01(m22, m03, m11, m30); QuadSwap12(m03, m22, m11, m30);
    MulQuadLeft(m30, m02, m13, m21); QuadSwap01(m30, m02, m13, m21); QuadSwap12(m02, m30, m13, m21); QuadSwap23(m02, m13, m30, m21);
    DistALeft(m00, Mul(Mul(m22, m33), m11), Mul(Mul(m32, m13), m21), Mul(Mul(m12, m23), m31), Mul(Mul(m32, m23), m11), Mul(Mul(m12, m33), m21), Mul(Mul(m22, m13), m31));
    MulQuadLeft(m00, m22, m33, m11); QuadSwap23(m00, m22, m33, m11); QuadSwap12(m00, m22, m11, m33);
    MulQuadLeft(m00, m32, m13, m21); QuadSwap12(m00, m32, m13, m21); QuadSwap23(m00, m13, m32, m21);
    MulQuadLeft(m00, m12, m23, m31);
    MulQuadLeft(m00, m32, m23, m11); QuadSwap12(m00, m32, m23, m11); QuadSwap23(m00, m23, m32, m11); QuadSwap12(m00, m23, m11, m32);
    MulQuadLeft(m00, m12, m33, m21); QuadSwap23(m00, m12, m33, m21);
    MulQuadLeft(m00, m22, m13, m31); QuadSwap12(m00, m22, m13, m31);
    assert Mul(m00, Sub(Sub(Sub(Add(Add(Mul(Mul(m22, m33), m11), Mul(Mul(m32, m13), m21)), Mul(Mul(m12, m23), m31)), Mul(Mul(m32, m23), m11)), Mul(Mul(m12, m33), m21)), Mul(Mul(m22, m13), m31))) == Sub(Sub(Sub(Add(Add(Quad(m00, m11, m22, m33), Quad(m00, m13, m21, m32)), Quad(m00, m12, m23, m31)), Quad(m00, m11, m23, m32)), Quad(m00, m12, m21, m33)), Quad(m00, m13, m22, m31));
    DistALeft(m01, Mul(Mul(m32, m23), m10), Mul(Mul(m12, m33), m20), Mul(Mul(m22, m13), m30), Mul(Mul(m22, m33), m10), Mul(Mul(m32, m13), m20), Mul(Mul(m12, m23), m30));
    MulQuadLeft(m01, m32, m23, m10); QuadSwap12(m01, m32, m23, m10); QuadSwap23(m01, m23, m32, m10); QuadSwap12(m01, m23, m10, m32);
    MulQuadLeft(m01, m12, m33, m20); QuadSwap23(m01, m12, m33, m20);
    MulQuadLeft(m01, m22, m13, m30); QuadSwap12(m01, m22, m13, m30);
    MulQuadLeft(m01, m22, m33, m10); QuadSwap23(m01, m22, m33, m10); QuadSwap12(m01, m22, m10, m33);
    MulQuadLeft(m01, m32, m13, m20); QuadSwap12(m01, m32, m13, m20); QuadSwap23(m01, m13, m32, m20);
    MulQuadLeft(m01, m12, m23, m30);
    assert Mul(m01, Sub(Sub(Sub(Add(Add(Mul(Mul(m32, m23), m10), Mul(Mul(m12, m33), m20)), Mul(Mul(m22, m13), m30)), Mul(Mul(m22, m33), m10)), Mul(Mul(m32, m13), m20)), Mul(Mul(m12, m23), m30))) == Sub(Sub(Sub(Add(Add(Quad(m01, m10, m23, m32), Quad(m01, m12, m20, m33)), Quad(m01, m13, m22, m30)), Quad(m01, m10, m22, m33)), Quad(m01, m13, m20, m32)), Quad(m01, m12, m23, m30));
    DistBLeft(m02, Mul(Mul(m20, m31), m13), Mul(Mul(m30, m11), m23), Mul(Mul(m10, m21), m33), Mul(Mul(m30, m21), m13), Mul(Mul(m10, m31), m23), Mul(Mul(m20, m11), m33));
    MulQuadLeft(m02, m20, m31, m13); QuadSwap23(m02, m20, m31, m13); QuadSwap12(m02, m20, m13, m31);
    MulQuadLeft(m02, m30, m11, m23); QuadSwap12(m02, m30, m11, m23); QuadSwap23(m02, m11, m30, m23);
    MulQuadLeft(m02, m10, m21, m33);
    MulQuadLeft(m02, m30, m21, m13); QuadSwap12(m02, m30, m21, m13); QuadSwap23(m02, m21, m30, m13); QuadSwap12(m02, m21, m13, m30);
    MulQuadLeft(m02, m10, m31, m23); QuadSwap23(m02, m10, m31, m23);
    MulQuadLeft(m02, m20, m11, m33); QuadSwap12(m02, m20, m11, m33);
    assert Mul(m02, Sub(Add(Add(Mul(Mul(m20, m31), m13), Mul(Mul(m30, m11), m23)), Mul(Mul(m10, m21), m33)), Add(Add(Mul(Mul(m30, m21), m13), Mul(Mul(m10, m31), m23)), Mul(Mul(m20, m11), m33)))) == Sub(Sub(Sub(Add(Add(Quad(m02, m13, m20, m31), Quad(m02, m11, m23, m30)), Quad(m02, m10, m21, m33)), Quad(m02, m13, m21, m30)), Quad(m02, m10, m23, m31)), Quad(m02, m11, m20, m33));
    DistBLeft(m03, Mul(Mul(m10, m31), m22), Mul(Mul(m20, m11), m32), Mul(Mul(m30, m21), m12), Mul(Mul(m10, m21), m32), Mul(Mul(m20, m31), m12), Mul(Mul(m30, m11), m22));
    MulQuadLeft(m03, m10, m31, m22); QuadSwap23(m03, m10, m31, m22);
    MulQuadLeft(m03, m20, m11, m32); QuadSwap12(m03, m20, m11, m32);
    MulQuadLeft(m03, m30, m21, m12); QuadSwap12(m03, m30, m21, m12); QuadSwap23(m03, m21, m30, m12); QuadSwap12(m03, m21, m12, m30);
    MulQuadLeft(m03, m10, m21, m32);
    MulQuadLeft(m03, m20, m31, m12); QuadSwap23(m03, m20, m31, m12); QuadSwap12(m03, m20, m12, m31);
    MulQuadLeft(m03, m30, m11, m22); QuadSwap12(m03, m30, m11, m22); QuadSwap23(m03, m11, m30, m22);
    assert Mul(m03, Sub(Add(Add(Mul(Mul(m10, m31), m22), Mul(Mul(m20, m11), m32)), Mul(Mul(m30, m21), m12)), Add(Add(Mul(Mul(m10, m21), m32), Mul(Mul(m20, m31), m12)), Mul(Mul(m30, m11), m22)))) == Sub(Sub(Sub(Add(Add(Quad(m03, m10, m22, m31), Quad(m03, m11, m20, m32)), Quad(m03, m12, m21, m30)), Quad(m03, m10, m21, m32)), Quad(m03, m12, m20, m31)), Quad(m03, m11, m22, m30));
  }

  lemma RightEntry01(m00: Complex, m01: Complex, m02: Complex, m03: Complex, m10: Complex, m11: Complex, m12: Complex, m13: Complex, m20: Complex, m21: Complex, m22: Complex, m23: Complex, m30: Complex, m31: Complex, m32: Complex, m33: Complex)
    ensures Sum4(Mul(m00, Sub(Sub(Sub(Add(Add(Mul(Mul(m32, m23), m01), Mul(Mul(m02, m33), m21)), Mul(Mul(m22, m03), m31)), Mul(Mul(m22, m33), m01)), Mul(Mul(m32, m03), m21)), Mul(Mul(m02, m23), m31))), Mul(m01, Sub(Sub(Sub(Add(Add(Mul(Mul(m22, m33), m00), Mul(Mul(m32, m03), m20)), Mul(Mul(m02, m23), m30)), Mul(Mul(m32, m23), m00)), Mul(Mul(m02, m33), m20)), Mul(Mul(m22, m03), m30))), Mul(m02, Sub(Add(Add(Mul(Mul(m30, m21), m03), Mul(Mul(m00, m31), m23)), Mul(Mul(m20, m01), m33)), Add(Add(Mul(Mul(m20, m31), m03), Mul(Mul(m30, m01), m23)), Mul(Mul(m00, m21), m33)))), Mul(m03, Sub(Add(Add(Mul(Mul(m00, m21), m32), Mul(Mul(m20, m31), m02)), Mul(Mul(m30, m01), m22)), Add(Add(Mul(Mul(m00, m31), m22), Mul(Mul(m20, m01), m32)), Mul(Mul(m30, m21), m02)))))
         == Zero
  {
    DistALeft(m00, Mul(Mul(m22, m33), m11), Mul(Mul(m32, m13), m21), Mul(Mul(m12, m23), m31), Mul(Mul(m32, m23), m11), Mul(Mul(m12, m33), m21), Mul(Mul(m22, m13), m31));
    MulQuadLeft(m00, m22, m33, m11); QuadSwap23(m00, m22, m33, m11); QuadSwap12(m00, m22, m11, m33);
    MulQuadLeft(m00, m32, m13, m21); QuadSwap12(m00, m32, m13, m21); QuadSwap23(m00, m13, m32, m21);
    MulQuadLeft(m00, m12, m23, m31);
    MulQuadLeft(m00, m32, m23, m11); QuadSwap12(m00, m32, m23, m11); QuadSwap23(m00, m23, m32, m11); QuadSwap12(m00, m23, m11, m32);
    MulQuadLeft(m00, m12, m33, m21); QuadSwap23(m00, m12, m33, m21);
    MulQuadLeft(m00, m22, m13, m31); QuadSwap12(m00, m22, m13, m31);
    DistALeft(m10, Mul(Mul(m32, m23), m01), Mul(Mul(m02, m33), m21), Mul(Mul(m22, m03), m31), Mul(Mul(m22, m33), m01), Mul(Mul(m32, m03), m21), Mul(Mul(m02, m23), m31));
    MulQuadLeft(m10, m32, m23, m01); QuadSwap12(m10, m32, m23, m01); QuadSwap23(m10, m23, m32, m01); QuadSwap12(m10, m23, m01, m32); QuadSwap01(m10, m01, m23, m32);
    MulQuadLeft(m10, m02, m33, m21); QuadSwap01(m10, m02, m33, m21); QuadSwap23(m02, m10, m33, m21);
    MulQuadLeft(m10, m22, m03, m31); QuadSwap12(m10, m22, m03, m31); QuadSwap01(m10, m03, m22, m31);
    MulQuadLeft(m10, m22, m33, m01); QuadSwap23(m10, m22, m33, m01); QuadSwap12(m10, m22, m01, m33); QuadSwap01(m10, m01, m22, m33);
    MulQuadLeft(m10, m32, m03, m21); QuadSwap12(m10, m32, m03, m21); QuadSwap23(m10, m03, m32, m21); QuadSwap01(m10, m03, m21, m32);
    MulQuadLeft(m10, m02, m23, m31); QuadSwap01(m10, m02, m23, m31);
    DistALeft(m20, Mul(Mul(m12, m33), m01), Mul(Mul(m32, m03), m11), Mul(Mul(m02, m13), m31), Mul(Mul(m32, m13), m01), Mul(Mul(m02, m33), m11), Mul(Mul(m12, m03), m31));
    MulQuadLeft(m20, m12, m33, m01); QuadSwap01(m20, m12, m33, m01); QuadSwap23(m12, m20, m33, m01); QuadSwap12(m12, m20, m01, m33); QuadSwap01(m12, m01, m20, m33);
    MulQuadLeft(m20, m32, m03, m11); QuadSwap12(m20, m32, m03, m11); QuadSwap23(m20, m03, m32, m11); QuadSwap01(m20, m03, m11, m32); QuadSwap12(m03, m20, m11, m32);
    MulQuadLeft(m20, m02, m13, m31); QuadSwap01(m20, m02, m13, m31); QuadSwap12(m02, m20, m13, m31);
    MulQuadLeft(m20, m32, m13, m01); QuadSwap12(m20, m32, m13, m01); QuadSwap23(m20, m13, m32, m01); QuadSwap01(m20, m13, m01, m32); QuadSwap12(m13, m20, m01, m32); QuadSwap01(m13, m01, m20, m32);
    MulQuadLeft(m20, m02, m33, m11); QuadSwap01(m20, m02, m33, m11); QuadSwap23(m02, m20, m33, m11); QuadSwap12(m02, m20, m11, m33);
    MulQuadLeft(m20, m12, m03, m31); QuadSwap01(m20, m12, m03, m31); QuadSwap12(m12, m20, m03, m31); QuadSwap01(m12, m03, m20, m31);
    DistALeft(m30, Mul(Mul(m22, m13), m01), Mul(Mul(m02, m23), m11), Mul(Mul(m12, m03), m21), Mul(Mul(m12, m23), m01), Mul(Mul(m22, m03), m11), Mul(Mul(m02, m13), m21));
    MulQuadLeft(m30, m22, m13, m01); QuadSwap01(m30, m22, m13, m01); QuadSwap12(m22, m30, m13, m01); QuadSwap23(m22, m13, m30, m01); QuadSwap01(m22, m13, m01, m30); QuadSwap12(m13, m22, m01, m30); QuadSwap01(m13, m01, m22, m30);
    MulQuadLeft(m30, m02, m23, m11); QuadSwap01(m30, m02, m23, m11); QuadSwap12(m02, m30, m23, m11); QuadSwap23(m02, m23, m30, m11); QuadSwap12(m02, m23, m11, m30);
    MulQuadLeft(m30, m12, m03, m21); QuadSwap01(m30, m12, m03, m21); QuadSwap12(m12, m30, m03, m21); QuadSwap23(m12, m03, m30, m21); QuadSwap01(m12, m03, m21, m30);
    MulQuadLeft(m30, m12, m23, m01); QuadSwap01(m30, m12, m23, m01); QuadSwap12(m12, m30, m23, m01); QuadSwap23(m12, m23, m30, m01); QuadSwap12(m12, m23, m01, m30); QuadSwap01(m12, m01, m23, m30);
    MulQuadLeft(m30, m22, m03, m11); QuadSwap01(m30, m22, m03, m11); QuadSwap12(m22, m30, m03, m11); QuadSwap23(m22, m03, m30, m11); QuadSwap01(m22, m03, m11, m30); QuadSwap12(m03, m22, m11, m30);
    MulQuadLeft(m30, m02, m13, m21); QuadSwap01(m30, m02, m13, m21); QuadSwap12(m02, m30, m13, m21); QuadSwap23(m02, m13, m30, m21);
    DistALeft(m00, Mul(Mul(m32, m23), m01), Mul(Mul(m02, m33), m21), Mul(Mul(m22, m03), m31), Mul(Mul(m22, m33), m01), Mul(Mul(m32, m03), m21), Mul(Mul(m02, m23), m31));
    MulQuadLeft(m00, m32, m23, m01); QuadSwap12(m00, m32, m23, m01); QuadSwap23(m00, m23, m32, m01); QuadSwap12(m00, m23, m01, m32);
    MulQuadLeft(m00, m02, m33, m21); QuadSwap23(m00, m02, m33, m21);
    MulQuadLeft(m00, m22, m03, m31); QuadSwap12(m00, m22, m03, m31);
    MulQuadLeft(m00, m22, m33, m01); QuadSwap23(m00, m22, m33, m01); QuadSwap12(m00, m22, m01, m33);
    MulQuadLeft(m00, m32, m03, m21); QuadSwap12(m00, m32, m03, m21); QuadSwap23(m00, m03, m32, m21);
    MulQuadLeft(m00, m02, m23, m31);
    assert Mul(m00, Sub(Sub(Sub(Add(Add(Mul(Mul(m32, m23), m01), Mul(Mul(m02, m33), m21)), Mul(Mul(m22, m03), m31)), Mul(Mul(m22, m33), m01)), Mul(Mul(m32, m03), m21)), Mul(Mul(m02, m23), m31))) == Sub(Sub(Sub(Add(Add(Quad(m00, m01, m23, m32), Quad(m00, m02, m21, m33)), Quad(m00, m03, m22, m31)), Quad(m00, m01, m22, m33)), Quad(m00, m03, m21, m32)), Quad(m00, m02, m23, m31));
    DistALeft(m01, Mul(Mul(m22, m33), m00), Mul(Mul(m32, m03), m20), Mul(Mul(m02, m23), m30), Mul(Mul(m32, m23), m00), Mul(Mul(m02, m33), m20), Mul(Mul(m22, m03), m30));
    MulQuadLeft(m01, m22, m33, m00); QuadSwap23(m01, m22, m33, m00); QuadSwap12(m01, m22, m00, m33); QuadSwap01(m01, m00, m22, m33);
    MulQuadLeft(m01, m32, m03, m20); QuadSwap12(m01, m32, m03, m20); QuadSwap23(m01, m03, m32, m20);
    MulQuadLeft(m01, m02, m23, m30);
    MulQuadLeft(m01, m32, m23, m00); QuadSwap12(m01, m32, m23, m00); QuadSwap23(m01, m23, m32, m00); QuadSwap12(m01, m23, m00, m32); QuadSwap01(m01, m00, m23, m32);
    MulQuadLeft(m01, m02, m33, m20); QuadSwap23(m01, m02, m33, m20);
    MulQuadLeft(m01, m22, m03, m30); QuadSwap12(m01, m22, m03, m30);
    assert Mul(m01, Sub(Sub(Sub(Add(Add(Mul(Mul(m22, m33), m00), Mul(Mul(m32, m03), m20)), Mul(Mul(m02, m23), m30)), Mul(Mul(m32, m23), m00)), Mul(Mul(m02, m33), m20)), Mul(Mul(m22, m03), m30))) == Sub(Sub(Sub(Add(Add(Quad(m00, m01, m22, m33), Quad(m01, m03, m20, m32)), Quad(m01, m02, m23, m30)), Quad(m00, m01, m23, m32)), Quad(m01, m02, m20, m33)), Quad(m01, m03, m22, m30));
    DistBLeft(m02, Mul(Mul(m30, m21), m03), Mul(Mul(m00, m31), m23), Mul(Mul(m20, m01), m33), Mul(Mul(m20, m31), m03), Mul(Mul(m30, m01), m23), Mul(Mul(m00, m21), m33));
    MulQuadLeft(m02, m30, m21, m03); QuadSwap12(m02, m30, m21, m03); QuadSwap23(m02, m21, m30, m03); QuadSwap12(m02, m21, m03, m30);
    MulQuadLeft(m02, m00, m31, m23); QuadSwap01(m02, m00, m31, m23); QuadSwap23(m00, m02, m31, m23);
    MulQuadLeft(m02, m20, m01, m33); QuadSwap12(m02, m20, m01, m33); QuadSwap01(m02, m01, m20, m33);
    MulQuadLeft(m02, m20, m31, m03); QuadSwap23(m02, m20, m31, m03); QuadSwap12(m02, m20, m03, m31);
    MulQuadLeft(m02, m30, m01, m23); QuadSwap12(m02, m30, m01, m23); QuadSwap23(m02, m01, m30, m23); QuadSwap01(m02, m01, m23, m30);
    MulQuadLeft(m02, m00, m21, m33); QuadSwap01(m02, m00, m21, m33);
    assert Mul(m02, Sub(Add(Add(Mul(Mul(m30, m21), m03), Mul(Mul(m00, m31), m23)), Mul(Mul(m20, m01), m33)), Add(Add(Mul(Mul(m20, m31), m03), Mul(Mul(m30, m01), m23)), Mul(Mul(m00, m21), m33)))) == Sub(Sub(Sub(Add(Add(Quad(m02, m03, m21, m30), Quad(m00, m02, m23, m31)), Quad(m01, m02, m20, m33)), Quad(m02, m03, m20, m31)), Quad(m01, m02, m23, m30)), Quad(m00, m02, m21, m33));
    DistBLeft(m03, Mul(Mul(m00, m21), m32), Mul(Mul(m20, m31), m02), Mul(Mul(m30, m01), m22), Mul(Mul(m00, m31), m22), Mul(Mul(m20, m01), m32), Mul(Mul(m30, m21), m02));
    MulQuadLeft(m03, m00, m21, m32); QuadSwap01(m03, m00, m21, m32);
    MulQuadLeft(m03, m20, m31, m02); QuadSwap23(m03, m20, m31, m02); QuadSwap12(m03, m20, m02, m31); QuadSwap01(m03, m02, m20, m31);
    MulQuadLeft(m03, m30, m01, m22); QuadSwap12(m03, m30, m01, m22); QuadSwap23(m03, m01, m30, m22); QuadSwap01(m03, m01, m22, m30);
    MulQuadLeft(m03, m00, m31, m22); QuadSwap01(m03, m00, m31, m22); QuadSwap23(m00, m03, m31, m22);
    MulQuadLeft(m03, m20, m01, m32); QuadSwap12(m03, m20, m01, m32); QuadSwap01(m03, m01, m20, m32);
    MulQuadLeft(m03, m30, m21, m02); QuadSwap12(m03, m30, m21, m02); QuadSwap23(m03, m21, m30, m02); QuadSwap12(m03, m21, m02, m30); QuadSwap01(m03, m02, m21, m30);
    assert Mul(m03, Sub(Add(Add(Mul(Mul(m00, m21), m32), Mul(Mul(m20, m31), m02)), Mul(Mul(m30, m01), m22)), Add(Add(Mul(Mul(m00, m31), m22), Mul(Mul(m20, m01), m32)), Mul(Mul(m30, m21), m02)))) == Sub(Sub(Sub(Add(Add(Quad(m00, m03, m21, m32), Quad(m02, m03, m20, m31)), Quad(m01, m03, m22, m30)), Quad(m00, m03, m22, m31)), Quad(m01, m03, m20, m32)), Quad(m02, m03, m21, m30));
  }

  lemma RightEntry02(m00: Complex, m01: Complex, m02: Complex, m03: Complex, m10: Complex, m11: Complex, m12: Complex, m13: Complex, m20: Complex, m21: Complex, m22: Complex, m23: Complex, m30: Complex, m31: Complex, m32: Complex, m33: Complex)
    ensures Sum4(Mul(m00, Sub(Sub(Sub(Add(Add(Mul(Mul(m12, m33), m01), Mul(Mul(m32, m03), m11)), Mul(Mul(m02, m13), m31)), Mul(Mul(m32, m13), m01)), Mul(Mul(m02, m33), m11)), Mul(Mul(m12, m03), m31))), Mul(m01, Sub(Sub(Sub(Add(Add(Mul(Mul(m32, m13), m00), Mul(Mul(m02, m33), m10)), Mul(Mul(m12, m03), m30)), Mul(Mul(m12, m33), m00)), Mul(Mul(m32, m03), m10)), Mul(Mul(m02, m13), m30))), Mul(m02, Sub(Add(Add(Mul(Mul(m10, m31), m03), Mul(Mul(m30, m01), m13)), Mul(Mul(m00, m11), m33)), Add(Add(Mul(Mul(m30, m11), m03), Mul(Mul(m00, m31), m13)), Mul(Mul(m10, m01), m33)))), Mul(m03, Sub(Add(Add(Mul(Mul(m00, m31), m12), Mul(Mul(m10, m01), m32)), Mul(Mul(m30, m11), m02)), Add(Add(Mul(Mul(m00, m11), m32), Mul(Mul(m10, m31), m02)), Mul(Mul(m30, m01), m12)))))
         == Zero
  {
    DistALeft(m00, Mul(Mul(m22, m33), m11), Mul(Mul(m32, m13), m21), Mul(Mul(m12, m23), m31), Mul(Mul(m32, m23), m11), Mul(Mul(m12, m33), m21), Mul(Mul(m22, m13), m31));
    MulQuadLeft(m00, m22, m33, m11); QuadSwap23(m00, m22, m33, m11); QuadSwap12(m00, m22, m11, m33);
    MulQuadLeft(m00, m32, m13, m21); QuadSwap12(m00, m32, m13, m21); QuadSwap23(m00, m13, m32, m21);
    MulQuadLeft(m00, m12, m23, m31);
    MulQuadLeft(m00, m32, m23, m11); QuadSwap12(m00, m32, m23, m11); QuadSwap23(m00, m23, m32, m11); QuadSwap12(m00, m23, m11, m32);
    MulQuadLeft(m00, m12, m33, m21); QuadSwap23(m00, m12, m33, m21);
    MulQuadLeft(m00, m22, m13, m31); QuadSwap12(m00, m22, m13, m31);
    DistALeft(m10, Mul(Mul(m32, m23), m01), Mul(Mul(m02, m33), m21), Mul(Mul(m22, m03), m31), Mul(Mul(m22, m33), m01), Mul(Mul(m32, m03), m21), Mul(Mul(m02, m23), m31));
    MulQuadLeft(m10, m32, m23, m01); QuadSwap12(m10, m32, m23, m01); QuadSwap23(m10, m23, m32, m01); QuadSwap12(m10, m23, m01, m32); QuadSwap01(m10, m01, m23, m32);
    MulQuadLeft(m10, m02, m33, m21); QuadSwap01(m10, m02, m33, m21); QuadSwap23(m02, m10, m33, m21);
    MulQuadLeft(m10, m22, m03, m31); QuadSwap12(m10, m22, m03, m31); QuadSwap01(m10, m03, m22, m31);
    MulQuadLeft(m10, m22, m33, m01); QuadSwap23(m10, m22, m33, m01); QuadSwap12(m10, m22, m01, m33); QuadSwap01(m10, m01, m22, m33);
    MulQuadLeft(m10, m32, m03, m21); QuadSwap12(m10, m32, m03, m21); QuadSwap23(m10, m03, m32, m21); QuadSwap01(m10, m03, m21, m32);
    MulQuadLeft(m10, m02, m23, m31); QuadSwap01(m10, m02, m23, m31);
    DistALeft(m20, Mul(Mul(m12, m33), m01), Mul(Mul(m32, m03), m11), Mul(Mul(m02, m13), m31), Mul(Mul(m32, m13), m01), Mul(Mul(m02, m33), m11), Mul(Mul(m12, m03), m31));
    MulQuadLeft(m20, m12, m33, m01); QuadSwap01(m20, m12, m33, m01); QuadSwap23(m12, m20, m33, m01); QuadSwap12(m12, m20, m01, m33); QuadSwap01(m12, m01, m20, m33);
    MulQuadLeft(m20, m32, m03, m11); QuadSwap12(m20, m32, m03, m11); QuadSwap23(m20, m03, m32, m11); QuadSwap01(m20, m03, m11, m32); QuadSwap12(m03, m20, m11, m32);
    MulQuadLeft(m20, m02, m13, m31); QuadSwap01(m20, m02, m13, m31); QuadSwap12(m02, m20, m13, m31);
    MulQuadLeft(m20, m32, m13, m01); QuadSwap12(m20, m32, m13, m01); QuadSwap23(m20, m13, m32, m01); QuadSwap01(m20, m13, m01, m32); QuadSwap12(m13, m20, m01, m32); QuadSwap01(m13, m01, m20, m32);
    MulQuadLeft(m20, m02, m33, m11); QuadSwap01(m20, m02, m33, m11); QuadSwap23(m02, m20, m33, m11); QuadSwap12(m02, m20, m11, m33);
    MulQuadLeft(m20, m12, m03, m31); QuadSwap01(m20, m12, m03, m31); QuadSwap12(m12, m20, m03, m31); QuadSwap01(m12, m03, m20, m31);
    DistALeft(m30, Mul(Mul(m22, m13), m01), Mul(Mul(m02, m23), m11), Mul(Mul(m12, m03), m21), Mul(Mul(m12, m23), m01), Mul(Mul(m22, m03), m11), Mul(Mul(m02, m13), m21));
    MulQuadLeft(m30, m22, m13, m01); QuadSwap01(m30, m22, m13, m01); QuadSwap12(m22, m30, m13, m01); QuadSwap23(m22, m13, m30, m01); QuadSwap01(m22, m13, m01, m30); QuadSwap12(m13, m22, m01, m30); QuadSwap01(m13, m01, m22, m30);
    MulQuadLeft(m30, m02, m23, m11); QuadSwap01(m30, m02, m23, m11); QuadSwap12(m02, m30, m23, m11); QuadSwap23(m02, m23, m30, m11); QuadSwap12(m02, m23, m11, m30);
    MulQuadLeft(m30, m12, m03, m21); QuadSwap01(m30, m12, m03, m21); QuadSwap12(m12, m30, m03, m21); QuadSwap23(m12, m03, m30, m21); QuadSwap01(m12, m03, m21, m30);
    MulQuadLeft(m30, m12, m23, m01); QuadSwap01(m30, m12, m23, m01); QuadSwap12(m12, m30, m23, m01); QuadSwap23(m12, m23, m30, m01); QuadSwap12(m12, m23, m01, m30); QuadSwap01(m12, m01, m23, m30);
    MulQuadLeft(m30, m22, m03, m11); QuadSwap01(m30, m22, m03, m11); QuadSwap12(m22, m30, m03, m11); QuadSwap23(m22, m03, m30, m11); QuadSwap01(m22, m03, m11, m30); QuadSwap12(m03, m22, m11, m30);
    MulQuadLeft(m30, m02, m13, m21); QuadSwap01(m30, m02, m13, m21); QuadSwap12(m02, m30, m13, m21); QuadSwap23(m02, m13, m30, m21);
    DistALeft(m00, Mul(Mul(m12, m33), m01), Mul(Mul(m32, m03), m11), Mul(Mul(m02, m13), m31), Mul(Mul(m32, m13), m01), Mul(Mul(m02, m33), m11), Mul(Mul(m12, m03), m31));
    MulQuadLeft(m00, m12, m33, m01); QuadSwap23(m00, m12, m33, m01); QuadSwap12(m00, m12, m01, m33);
    MulQuadLeft(m00, m32, m03, m11); QuadSwap12(m00, m32, m03, m11); QuadSwap23(m00, m03, m32, m11);
    MulQuadLeft(m00, m02, m13, m31);
    MulQuadLeft(m00, m32, m13, m01); QuadSwap12(m00, m32, m13, m01); QuadSwap23(m00, m13, m32, m01); QuadSwap12(m00, m13, m01, m32);
    MulQuadLeft(m00, m02, m33, m11); QuadSwap23(m00, m02, m33, m11);
    MulQuadLeft(m00, m12, m03, m31); QuadSwap12(m00, m12, m03, m31);
    assert Mul(m00, Sub(Sub(Sub(Add(Add(Mul(Mul(m12, m33), m01), Mul(Mul(m32, m03), m11)), Mul(Mul(m02, m13), m31)), Mul(Mul(m32, m13), m01)), Mul(Mul(m02, m33), m11)), Mul(Mul(m12, m03), m31))) == Sub(Sub(Sub(Add(Add(Quad(m00, m01, m12, m33), Quad(m00, m03, m11, m32)), Quad(m00, m02, m13, m31)), Quad(m00, m01, m13, m32)), Quad(m00, m02, m11, m33)), Quad(m00, m03, m12, m31));
    DistALeft(m01, Mul(Mul(m32, m13), m00), Mul(Mul(m02, m33), m10), Mul(Mul(m12, m03), m30), Mul(Mul(m12, m33), m00), Mul(Mul(m32, m03), m10), Mul(Mul(m02, m13), m30));
    MulQuadLeft(m01, m32, m13, m00); QuadSwap12(m01, m32, m13, m00); QuadSwap23(m01, m13, m32, m00); QuadSwap12(m01, m13, m00, m32); QuadSwap01(m01, m00, m13, m32);
    MulQuadLeft(m01, m02, m33, m10); QuadSwap23(m01, m02, m33, m10);
    MulQuadLeft(m01, m12, m03, m30); QuadSwap12(m01, m12, m03, m30);
    MulQuadLeft(m01, m12, m33, m00); QuadSwap23(m01, m12, m33, m00); QuadSwap12(m01, m12, m00, m33); QuadSwap01(m01, m00, m12, m33);
    MulQuadLeft(m01, m32, m03, m10); QuadSwap12(m01, m32, m03, m10); QuadSwap23(m01, m03, m32, m10);
    MulQuadLeft(m01, m02, m13, m30);
    assert Mul(m01, Sub(Sub(Sub(Add(Add(Mul(Mul(m32, m13), m00), Mul(Mul(m02, m33), m10)), Mul(Mul(m12, m03), m30)), Mul(Mul(m12, m33), m00)), Mul(Mul(m32, m03), m10)), Mul(Mul(m02, m13), m30))) == Sub(Sub(Sub(Add(Add(Quad(m00, m01, m13, m32), Quad(m01, m02, m10, m33)), Quad(m01, m03, m12, m30)), Quad(m00, m01, m12, m33)), Quad(m01, m03, m10, m32)), Quad(m01, m02, m13, m30));
    DistBLeft(m02, Mul(Mul(m10, m31), m03), Mul(Mul(m30, m01), m13), Mul(Mul(m00, m11), m33), Mul(Mul(m30, m11), m03), Mul(Mul(m00, m31), m13), Mul(Mul(m10, m01), m33));
    MulQuadLeft(m02, m10, m31, m03); QuadSwap23(m02, m10, m31, m03); QuadSwap12(m02, m10, m03, m31);
    MulQuadLeft(m02, m30, m01, m13); QuadSwap12(m02, m30, m01, m13); QuadSwap23(m02, m01, m30, m13); QuadSwap01(m02, m01, m13, m30);
    MulQuadLeft(m02, m00, m11, m33); QuadSwap01(m02, m00, m11, m33);
    MulQuadLeft(m02, m30, m11, m03); QuadSwap12(m02, m30, m11, m03); QuadSwap23(m02, m11, m30, m03); QuadSwap12(m02, m11, m03, m30);
    MulQuadLeft(m02, m00, m31, m13); QuadSwap01(m02, m00, m31, m13); QuadSwap23(m00, m02, m31, m13);
    MulQuadLeft(m02, m10, m01, m33); QuadSwap12(m02, m10, m01, m33); QuadSwap01(m02, m01, m10, m33);
    assert Mul(m02, Sub(Add(Add(Mul(Mul(m10, m31), m03), Mul(Mul(m30, m01), m13)), Mul(Mul(m00, m11), m33)), Add(Add(Mul(Mul(m30, m11), m03), Mul(Mul(m00, m31), m13)), Mul(Mul(m10, m01), m33)))) == Sub(Sub(Sub(Add(Add(Quad(m02, m03, m10, m31), Quad(m01, m02, m13, m30)), Quad(m00, m02, m11, m33)), Quad(m02, m03, m11, m30)), Quad(m00, m02, m13, m31)), Quad(m01, m02, m10, m33));
    DistBLeft(m03, Mul(Mul(m00, m31), m12), Mul(Mul(m10, m01), m32), Mul(Mul(m30, m11), m02), Mul(Mul(m00, m11), m32), Mul(Mul(m10, m31), m02), Mul(Mul(m30, m01), m12));
    MulQuadLeft(m03, m00, m31, m12); QuadSwap01(m03, m00, m31, m12); QuadSwap23(m00, m03, m31, m12);
    MulQuadLeft(m03, m10, m01, m32); QuadSwap12(m03, m10, m01, m32); QuadSwap01(m03, m01, m10, m32);
    MulQuadLeft(m03, m30, m11, m02); QuadSwap12(m03, m30, m11, m02); QuadSwap23(m03, m11, m30, m02); QuadSwap12(m03, m11, m02, m30); QuadSwap01(m03, m02, m11, m30);
    MulQuadLeft(m03, m00, m11, m32); QuadSwap01(m03, m00, m11, m32);
    MulQuadLeft(m03, m10, m31, m02); QuadSwap23(m03, m10, m31, m02); QuadSwap12(m03, m10, m02, m31); QuadSwap01(m03, m02, m10, m31);
    MulQuadLeft(m03, m30, m01, m12); QuadSwap12(m03, m30, m01, m12); QuadSwap23(m03, m01, m30, m12); QuadSwap01(m03, m01, m12, m30);
    assert Mul(m03, Sub(Add(Add(Mul(Mul(m00, m31), m12), Mul(Mul(m10, m01), m32)), Mul(Mul(m30, m11), m02)), Add(Add(Mul(Mul(m00, m11), m32), Mul(Mul(m10, m31), m02)), Mul(Mul(m30, m01), m12)))) == Sub(Sub(Sub(Add(Add(Quad(m00, m03, m12, m31), Quad(m01, m03, m10, m32)), Quad(m02, m03, m11, m30)), Quad(m00, m03, m11, m32)), Quad(m02, m03, m10, m31)), Quad(m01, m03, m12, m30));
  }

  lemma RightEntry03(m00: Complex, m01: Complex, m02: Complex, m03: Complex, m10: Complex, m11: Complex, m12: Complex, m13: Complex, m20: Complex, m21: Complex, m22: Complex, m23: Complex, m30: Complex, m31: Complex, m32: Complex, m33: Complex)
    ensures Sum4(Mul(m00, Sub(Sub(Sub(Add(Add(Mul(Mul(m22, m13), m01), Mul(Mul(m02, m23), m11)), Mul(Mul(m12, m03), m21)), Mul(Mul(m12, m23), m01)), Mul(Mul(m22, m03), m11)), Mul(Mul(m02, m13), m21))), Mul(m01, Sub(Sub(Sub(Add(Add(Mul(Mul(m12, m23), m00), Mul(Mul(m22, m03), m10)), Mul(Mul(m02, m13), m20)), Mul(Mul(m22, m13), m00)), Mul(Mul(m02, m23), m10)), Mul(Mul(m12, m03), m20))), Mul(m02, Sub(Add(Add(Mul(Mul(m20, m11), m03), Mul(Mul(m00, m21), m13)), Mul(Mul(m10, m01), m23)), Add(Add(Mul(Mul(m10, m21), m03), Mul(Mul(m20, m01), m13)), Mul(Mul(m00, m11), m23)))), Mul(m03, Sub(Add(Add(Mul(Mul(m00, m11), m22), Mul(Mul(m10, m21), m02)), Mul(Mul(m20, m01), m12)), Add(Add(Mul(Mul(m00, m21), m12), Mul(Mul(m10, m01), m22)), Mul(Mul(m20, m11), m02)))))
         == Zero
  {
    DistALeft(m00, Mul(Mul(m22, m33), m11), Mul(Mul(m32, m13), m21), Mul(Mul(m12, m23), m31), Mul(Mul(m32, m23), m11), Mul(Mul(m12, m33), m21), Mul(Mul(m22, m13), m31));
    MulQuadLeft(m00, m22, m33, m11); QuadSwap23(m00, m22, m33, m11); QuadSwap12(m00, m22, m11, m33);
    MulQuadLeft(m00, m32, m13, m21); QuadSwap12(m00, m32, m13, m21); QuadSwap23(m00, m13, m32, m21);
    MulQuadLeft(m00, m12, m23, m31);
    MulQuadLeft(m00, m32, m23, m11); QuadSwap12(m00, m32, m23, m11); QuadSwap23(m00, m23, m32, m11); QuadSwap12(m00, m23, m11, m32);
    MulQuadLeft(m00, m12, m33, m21); QuadSwap23(m00, m12, m33, m21);
    MulQuadLeft(m00, m22, m13, m31); QuadSwap12(m00, m22, m13, m31);
    DistALeft(m10, Mul(Mul(m32, m23), m01), Mul(Mul(m02, m33), m21), Mul(Mul(m22, m03), m31), Mul(Mul(m22, m33), m01), Mul(Mul(m32, m03), m21), Mul(Mul(m02, m23), m31));
    MulQuadLeft(m10, m32, m23, m01); QuadSwap12(m10, m32, m23, m01); QuadSwap23(m10, m23, m32, m01); QuadSwap12(m10, m23, m01, m32); QuadSwap01(m10, m01, m23, m32);
    MulQuadLeft(m10, m02, m33, m21); QuadSwap01(m10, m02, m33, m21); QuadSwap23(m02, m10, m33, m21);
    MulQuadLeft(m10, m22, m03, m31); QuadSwap12(m10, m22, m03, m31); QuadSwap01(m10, m03, m22, m31);
    MulQuadLeft(m10, m22, m33, m01); QuadSwap23(m10, m22, m33, m01); QuadSwap12(m10, m22, m01, m33); QuadSwap01(m10, m01, m22, m33);
    MulQuadLeft(m10, m32, m03, m21); QuadSwap12(m10, m32, m03, m21); QuadSwap23(m10, m03, m32, m21); QuadSwap01(m10, m03, m21, m32);
    MulQuadLeft(m10, m02, m23, m31); QuadSwap01(m10, m02, m23, m31);
    DistALeft(m20, Mul(Mul(m12, m33), m01), Mul(Mul(m32, m03), m11), Mul(Mul(m02, m13), m31), Mul(Mul(m32, m13), m01), Mul(Mul(m02, m33), m11), Mul(Mul(m12, m03), m31));
    MulQuadLeft(m20, m12, m33, m01); QuadSwap01(m20, m12, m33, m01); QuadSwap23(m12, m20, m33, m01); QuadSwap12(m12, m20, m01, m33); QuadSwap01(m12, m01, m20, m33);
    MulQuadLeft(m20, m32, m03, m11); QuadSwap12(m20, m32, m03, m11); QuadSwap23(m20, m03, m32, m11); QuadSwap01(m20, m03, m11, m32); QuadSwap12(m03, m20, m11, m32);
    MulQuadLeft(m20, m02, m13, m31); QuadSwap01(m20, m02, m13, m31); QuadSwap12(m02, m20, m13, m31);
    MulQuadLeft(m20, m32, m13, m01); QuadSwap12(m20, m32, m13, m01); QuadSwap23(m20, m13, m32, m01); QuadSwap01(m20, m13, m01, m32); QuadSwap12(m13, m20, m01, m32); QuadSwap01(m13, m01, m20, m32);
    MulQuadLeft(m20, m02, m33, m11); QuadSwap01(m20, m02, m33, m11); QuadSwap23(m02, m20, m33, m11); QuadSwap12(m02, m20, m11, m33);
    MulQuadLeft(m20, m12, m03, m31); QuadSwap01(m20, m12, m03, m31); QuadSwap12(m12, m20, m03, m31); QuadSwap01(m12, m03, m20, m31);
    DistALeft(m30, Mul(Mul(m22, m13), m01), Mul(Mul(m02, m23), m11), Mul(Mul(m12, m03), m21), Mul(Mul(m12, m23), m01), Mul(Mul(m22, m03), m11), Mul(Mul(m02, m13), m21));
    MulQuadLeft(m30, m22, m13, m01); QuadSwap01(m30, m22, m13, m01); QuadSwap12(m22, m30, m13, m01); QuadSwap23(m22, m13, m30, m01); QuadSwap01(m22, m13, m01, m30); QuadSwap12(m13, m22, m01, m30); QuadSwap01(m13, m01, m22, m30);
    MulQuadLeft(m30, m02, m23, m11); QuadSwap01(m30, m02, m23, m11); QuadSwap12(m02, m30, m23, m11); QuadSwap23(m02, m23, m30, m11); QuadSwap12(m02, m23, m11, m30);
    MulQuadLeft(m30, m12, m03, m21); QuadSwap01(m30, m12, m03, m21); QuadSwap12(m12, m30, m03, m21); QuadSwap23(m12, m03, m30, m21); QuadSwap01(m12, m03, m21, m30);
    MulQuadLeft(m30, m12, m23, m01); QuadSwap01(m30, m12, m23, m01); QuadSwap12(m12, m30, m23, m01); QuadSwap23(m12, m23, m30, m01); QuadSwap12(m12, m23, m01, m30); QuadSwap01(m12, m01, m23, m30);
    MulQuadLeft(m30, m22, m03, m11); QuadSwap01(m30, m22, m03, m11); QuadSwap12(m22, m30, m03, m11); QuadSwap23(m22, m03, m30, m11); QuadSwap01(m22, m03, m11, m30); QuadSwap12(m03, m22, m11, m30);
    MulQuadLeft(m30, m02, m13, m21); QuadSwap01(m30, m02, m13, m21); QuadSwap12(m02, m30, m13, m21); QuadSwap23(m02, m13, m30, m21);
    DistALeft(m00, Mul(Mul(m22, m13), m01), Mul(Mul(m02, m23), m11), Mul(Mul(m12, m03), m21), Mul(Mul(m12, m23), m01), Mul(Mul(m22, m03), m11), Mul(Mul(m02, m13), m21));
    MulQuadLeft(m00, m22, m13, m01); QuadSwap12(m00, m22, m13, m01); QuadSwap23(m00, m13, m22, m01); QuadSwap12(m00, m13, m01, m22);
    MulQuadLeft(m00, m02, m23, m11); QuadSwap23(m00, m02, m23, m11);
    MulQuadLeft(m00, m12, m03, m21); QuadSwap12(m00, m12, m03, m21);
    MulQuadLeft(m00, m12, m23, m01); QuadSwap23(m00, m12, m23, m01); QuadSwap12(m00, m12, m01, m23);
    MulQuadLeft(m00, m22, m03, m11); QuadSwap12(m00, m22, m03, m11); QuadSwap23(m00, m03, m22, m11);
    MulQuadLeft(m00, m02, m13, m21);
    assert Mul(m00, Sub(Sub(Sub(Add(Add(Mul(Mul(m22, m13), m01), Mul(Mul(m02, m23), m11)), Mul(Mul(m12, m03), m21)), Mul(Mul(m12, m23), m01)), Mul(Mul(m22, m03), m11)), Mul(Mul(m02, m13), m21))) == Sub(Sub(Sub(Add(Add(Quad(m00, m01, m13, m22), Quad(m00, m02, m11, m23)), Quad(m00, m03, m12, m21)), Quad(m00, m01, m12, m23)), Quad(m00, m03, m11, m22)), Quad(m00, m02, m13, m21));
    DistALeft(m01, Mul(Mul(m12, m23), m00), Mul(Mul(m22, m03), m10), Mul(Mul(m02, m13), m20), Mul(Mul(m22, m13), m00), Mul(Mul(m02, m23), m10), Mul(Mul(m12, m03), m20));
    MulQuadLeft(m01, m12, m23, m00); QuadSwap23(m01, m12, m23, m00); QuadSwap12(m01, m12, m00, m23); QuadSwap01(m01, m00, m12, m23);
    MulQuadLeft(m01, m22, m03, m10); QuadSwap12(m01, m22, m03, m10); QuadSwap23(m01, m03, m22, m10);
    MulQuadLeft(m01, m02, m13, m20);
    MulQuadLeft(m01, m22, m13, m00); QuadSwap12(m01, m22, m13, m00); QuadSwap23(m01, m13, m22, m00); QuadSwap12(m01, m13, m00, m22); QuadSwap01(m01, m00, m13, m22);
    MulQuadLeft(m01, m02, m23, m10); QuadSwap23(m01, m02, m23, m10);
    MulQuadLeft(m01, m12, m03, m20); QuadSwap12(m01, m12, m03, m20);
    assert Mul(m01, Sub(Sub(Sub(Add(Add(Mul(Mul(m12, m23), m00), Mul(Mul(m22, m03), m10)), Mul(Mul(m02, m13), m20)), Mul(Mul(m22, m13), m00)), Mul(Mul(m02, m23), m10)), Mul(Mul(m12, m03), m20))) == Sub(Sub(Sub(Add(Add(Quad(m00, m01, m12, m23), Quad(m01, m03, m10, m22)), Quad(m01, m02, m13, m20)), Quad(m00, m01, m13, m22)), Quad(m01, m02, m10, m23)), Quad(m01, m03, m12, m20));
    DistBLeft(m02, Mul(Mul(m20, m11), m03), Mul(Mul(m00, m21), m13), Mul(Mul(m10, m01), m23), Mul(Mul(m10, m21), m03), Mul(Mul(m20, m01), m13), Mul(Mul(m00, m11), m23));
    MulQuadLeft(m02, m20, m11, m03); QuadSwap12(m02, m20, m11, m03); QuadSwap23(m02, m11, m20, m03); QuadSwap12(m02, m11, m03, m20);
    MulQuadLeft(m02, m00, m21, m13); QuadSwap01(m02, m00, m21, m13); QuadSwap23(m00, m02, m21, m13);
    MulQuadLeft(m02, m10, m01, m23); QuadSwap12(m02, m10, m01, m23); QuadSwap01(m02, m01, m10, m23);
    MulQuadLeft(m02, m10, m21, m03); QuadSwap23(m02, m10, m21, m03); QuadSwap12(m02, m10, m03, m21);
    MulQuadLeft(m02, m20, m01, m13); QuadSwap12(m02, m20, m01, m13); QuadSwap23(m02, m01, m20, m13); QuadSwap01(m02, m01, m13, m20);
    MulQuadLeft(m02, m00, m11, m23); QuadSwap01(m02, m00, m11, m23);
    assert Mul(m02, Sub(Add(Add(Mul(Mul(m20, m11), m03), Mul(Mul(m00, m21), m13)), Mul(Mul(m10, m01), m23)), Add(Add(Mul(Mul(m10, m21), m03), Mul(Mul(m20, m01), m13)), Mul(Mul(m00, m11), m23)))) == Sub(Sub(Sub(Add(Add(Quad(m02, m03, m11, m20), Quad(m00, m02, m13, m21)), Quad(m01, m02, m10, m23)), Quad(m02, m03, m10, m21)), Quad(m01, m02, m13, m20)), Quad(m00, m02, m11, m23));
    DistBLeft(m03, Mul(Mul(m00, m11), m22), Mul(Mul(m10, m21), m02), Mul(Mul(m20, m01), m12), Mul(Mul(m00, m21), m12), Mul(Mul(m10, m01), m22), Mul(Mul(m20, m11), m02));
    MulQuadLeft(m03, m00, m11, m22); QuadSwap01(m03, m00, m11, m22);
    MulQuadLeft(m03, m10, m21, m02); QuadSwap23(m03, m10, m21, m02); QuadSwap12(m03, m10, m02, m21); QuadSwap01(m03, m02, m10, m21);
    MulQuadLeft(m03, m20, m01, m12); QuadSwap12(m03, m20, m01, m12); QuadSwap23(m03, m01, m20, m12); QuadSwap01(m03, m01, m12, m20);
    MulQuadLeft(m03, m00, m21, m12); QuadSwap01(m03, m00, m21, m12); QuadSwap23(m00, m03, m21, m12);
    MulQuadLeft(m03, m10, m01, m22); QuadSwap12(m03, m10, m01, m22); QuadSwap01(m03, m01, m10, m22);
    MulQuadLeft(m03, m20, m11, m02); QuadSwap12(m03, m20, m11, m02); QuadSwap23(m03, m11, m20, m02); QuadSwap12(m03, m11, m02, m20); QuadSwap01(m03, m02, m11, m20);
    assert Mul(m03, Sub(Add(Add(Mul(Mul(m00, m11), m22), Mul(Mul(m10, m21), m02)), Mul(Mul(m20, m01), m12)), Add(Add(Mul(Mul(m00, m21), m12), Mul(Mul(m10, m01), m22)), Mul(Mul(m20, m11), m02)))) == Sub(Sub(Sub(Add(Add(Quad(m00, m03, m11, m22), Quad(m02, m03, m10, m21)), Quad(m01, m03, m12, m20)), Quad(m00, m03, m12, m21)), Quad(m01, m03, m10, m22)), Quad(m02, m03, m11, m20));
  }

  lemma RightEntry10(m00: Complex, m01: Complex, m02: Complex, m03: Complex, m10: Complex, m11: Complex, m12: Complex, m13: Complex, m20: Complex, m21: Complex, m22: Complex, m23: Complex, m30: Complex, m31: Complex, m32: Complex, m33: Complex)
    ensures Sum4(Mul(m10, Sub(Sub(Sub(Add(Add(Mul(Mul(m22, m33), m11), Mul(Mul(m32, m13), m21)), Mul(Mul(m12, m23), m31)), Mul(Mul(m32, m23), m11)), Mul(Mul(m12, m33), m21)), Mul(Mul(m22, m13), m31))), Mul(m11, Sub(Sub(Sub(Add(Add(Mul(Mul(m32, m23), m10), Mul(Mul(m12, m33), m20)), Mul(Mul(m22, m13), m30)), Mul(Mul(m22, m33), m10)), Mul(Mul(m32, m13), m20)), Mul(Mul(m12, m23), m30))), Mul(m12, Sub(Add(Add(Mul(Mul(m20, m31), m13), Mul(Mul(m30, m11), m23)), Mul(Mul(m10, m21), m33)), Add(Add(Mul(Mul(m30, m21), m13), Mul(Mul(m10, m31), m23)), Mul(Mul(m20, m11), m33)))), Mul(m13, Sub(Add(Add(Mul(Mul(m10, m31), m22), Mul(Mul(m20, m11), m32)), Mul(Mul(m30, m21), m12)), Add(Add(Mul(Mul(m10, m21), m32), Mul(Mul(m20, m31), m12)), Mul(Mul(m30, m11), m22)))))
         == Zero
  {
    DistALeft(m00, Mul(Mul(m22, m33), m11), Mul(Mul(m32, m13), m21), Mul(Mul(m12, m23), m31), Mul(Mul(m32, m23), m11), Mul(Mul(m12, m33), m21), Mul(Mul(m22, m13), m31));
    MulQuadLeft(m00, m22, m33, m11); QuadSwap23(m00, m22, m33, m11); QuadSwap12(m00, m22, m11, m33);
    MulQuadLeft(m00, m32, m13, m21); QuadSwap12(m00, m32, m13, m21); QuadSwap23(m00, m13, m32, m21);
    MulQuadLeft(m00, m12, m23, m31);
    MulQuadLeft(m00, m32, m23, m11); QuadSwap12(m00, m32, m23, m11); QuadSwap23(m00, m23, m32, m11); QuadSwap12(m00, m23, m11, m32);
    MulQuadLeft(m00, m12, m33, m21); QuadSwap23(m00, m12, m33, m21);
    MulQuadLeft(m00, m22, m13, m31); QuadSwap12(m00, m22, m13, m31);
    DistALeft(m10, Mul(Mul(m32, m23), m01), Mul(Mul(m02, m33), m21), Mul(Mul(m22, m03), m31), Mul(Mul(m22, m33), m01), Mul(Mul(m32, m03), m21), Mul(Mul(m02, m23), m31));
    MulQuadLeft(m10, m32, m23, m01); QuadSwap12(m10, m32, m23, m01); QuadSwap23(m10, m23, m32, m01); QuadSwap12(m10, m23, m01, m32); QuadSwap01(m10, m01, m23, m32);
    MulQuadLeft(m10, m02, m33, m21); QuadSwap01(m10, m02, m33, m21); QuadSwap23(m02, m10, m33, m21);
    MulQuadLeft(m10, m22, m03, m31); QuadSwap12(m10, m22, m03, m31); QuadSwap01(m10, m03, m22, m31);
    MulQuadLeft(m10, m22, m33, m01); QuadSwap23(m10, m22, m33, m01); QuadSwap12(m10, m22, m01, m33); QuadSwap01(m10, m01, m22, m33);
    MulQuadLeft(m10, m32, m03, m21); QuadSwap12(m10, m32, m03, m21); QuadSwap23(m10, m03, m32, m21); QuadSwap01(m10, m03, m21, m32);
    MulQuadLeft(m10, m02, m23, m31); QuadSwap01(m10, m02, m23, m31);
    DistALeft(m20, Mul(Mul(m12, m33), m01), Mul(Mul(m32, m03), m11), Mul(Mul(m02, m13), m31), Mul(Mul(m32, m13), m01), Mul(Mul(m02, m33), m11), Mul(Mul(m12, m03), m31));
    MulQuadLeft(m20, m12, m33, m01); QuadSwap01(m20, m12, m33, m01); QuadSwap23(m12, m20, m33, m01); QuadSwap12(m12, m20, m01, m33); QuadSwap01(m12, m01, m20, m33);
    MulQuadLeft(m20, m32, m03, m11); QuadSwap12(m20, m32, m03, m11); QuadSwap23(m20, m03, m32, m11); QuadSwap01(m20, m03, m11, m32); QuadSwap12(m03, m20, m11, m32);
    MulQuadLeft(m20, m02, m13, m31); QuadSwap01(m20, m02, m13, m31); QuadSwap12(m02, m20, m13, m31);
    MulQuadLeft(m20, m32, m13, m01); QuadSwap12(m20, m32, m13, m01); QuadSwap23(m20, m13, m32, m01); QuadSwap01(m20, m13, m01, m32); QuadSwap12(m13, m20, m01, m32); QuadSwap01(m13, m01, m20, m32);
    MulQuadLeft(m20, m02, m33, m11); QuadSwap01(m20, m02, m33, m11); QuadSwap23(m02, m20, m33, m11); QuadSwap12(m02, m20, m11, m33);
    MulQuadLeft(m20, m12, m03, m31); QuadSwap01(m20, m12, m03, m31); QuadSwap12(m12, m20, m03, m31); QuadSwap01(m12, m03, m20, m31);
    DistALeft(m30, Mul(Mul(m22, m13), m01), Mul(Mul(m02, m23), m11), Mul(Mul(m12, m03), m21), Mul(Mul(m12, m23), m01), Mul(Mul(m22, m03), m11), Mul(Mul(m02, m13), m21));
    MulQuadLeft(m30, m22, m13, m01); QuadSwap01(m30, m22, m13, m01); QuadSwap12(m22, m30, m13, m01); QuadSwap23(m22, m13, m30, m01); QuadSwap01(m22, m13, m01, m30); QuadSwap12(m13, m22, m01, m30); QuadSwap01(m13, m01, m22, m30);
    MulQuadLeft(m30, m02, m23, m11); QuadSwap01(m30, m02, m23, m11); QuadSwap12(m02, m30, m23, m11); QuadSwap23(m02, m23, m30, m11); QuadSwap12(m02, m23, m11, m30);
    MulQuadLeft(m30, m12, m03, m21); QuadSwap01(m30, m12, m03, m21); QuadSwap12(m12, m30, m03, m21); QuadSwap23(m12, m03, m30, m21); QuadSwap01(m12, m03, m21, m30);
    MulQuadLeft(m30, m12, m23, m01); QuadSwap01(m30, m12, m23, m01); QuadSwap12(m12, m30, m23, m01); QuadSwap23(m12, m23, m30, m01); QuadSwap12(m12, m23, m01, m30); QuadSwap01(m12, m01, m23, m30);
    MulQuadLeft(m30, m22, m03, m11); QuadSwap01(m30, m22, m03, m11); QuadSwap12(m22, m30, m03, m11); QuadSwap23(m22, m03, m30, m11); QuadSwap01(m22, m03, m11, m30); QuadSwap12(m03, m22, m11, m30);
    MulQuadLeft(m30, m02, m13, m21); QuadSwap01(m30, m02, m13, m21); QuadSwap12(m02, m30, m13, m21); QuadSwap23(m02, m13, m30, m21);
    DistALeft(m10, Mul(Mul(m22, m33), m11), Mul(Mul(m32, m13), m21), Mul(Mul(m12, m23), m31), Mul(Mul(m32, m23), m11), Mul(Mul(m12, m33), m21), Mul(Mul(m22, m13), m31));
    MulQuadLeft(m10, m22, m33, m11); QuadSwap23(m10, m22, m33, m11); QuadSwap12(m10, m22, m11, m33);
    MulQuadLeft(m10, m32, m13, m21); QuadSwap12(m10, m32, m13, m21); QuadSwap23(m10, m13, m32, m21);
    MulQuadLeft(m10, m12, m23, m31);
    MulQuadLeft(m10, m32, m23, m11); QuadSwap12(m10, m32, m23, m11); QuadSwap23(m10, m23, m32, m11); QuadSwap12(m10, m23, m11, m32);
    MulQuadLeft(m10, m12, m33, m21); QuadSwap23(m10, m12, m33, m21);
    MulQuadLeft(m10, m22, m13, m31); QuadSwap12(m10, m22, m13, m31);
    assert Mul(m10, Sub(Sub(Sub(Add(Add(Mul(Mul(m22, m33), m11), Mul(Mul(m32, m13), m21)), Mul(Mul(m12, m23), m31)), Mul(Mul(m32, m23), m11)), Mul(Mul(m12, m33), m21)), Mul(Mul(m22, m13), m31))) == Sub(Sub(Sub(Add(Add(Quad(m10, m11, m22, m33), Quad(m10, m13, m21, m32)), Quad(m10, m12, m23, m31)), Quad(m10, m11, m23, m32)), Quad(m10, m12, m21, m33)), Quad(m10, m13, m22, m31));
    DistALeft(m11, Mul(Mul(m32, m23), m10), Mul(Mul(m12, m33), m20), Mul(Mul(m22, m13), m30), Mul(Mul(m22, m33), m10), Mul(Mul(m32, m13), m20), Mul(Mul(m12, m23), m30));
    MulQuadLeft(m11, m32, m23, m10); QuadSwap12(m11, m32, m23, m10); QuadSwap23(m11, m23, m32, m10); QuadSwap12(m11, m23, m10, m32); QuadSwap01(m11, m10, m23, m32);
    MulQuadLeft(m11, m12, m33, m20); QuadSwap23(m11, m12, m33, m20);
    MulQuadLeft(m11, m22, m13, m30); QuadSwap12(m11, m22, m13, m30);
    MulQuadLeft(m11, m22, m33, m10); QuadSwap23(m11, m22, m33, m10); QuadSwap12(m11, m22, m10, m33); QuadSwap01(m11, m10, m22, m33);
    MulQuadLeft(m11, m32, m13, m20); QuadSwap12(m11, m32, m13, m20); QuadSwap23(m11, m13, m32, m20);
    MulQuadLeft(m11, m12, m23, m30);
    assert Mul(m11, Sub(Sub(Sub(Add(Add(Mul(Mul(m32, m23), m10), Mul(Mul(m12, m33), m20)), Mul(Mul(m22, m13), m30)), Mul(Mul(m22, m33), m10)), Mul(Mul(m32, m13), m20)), Mul(Mul(m12, m23), m30))) == Sub(Sub(Sub(Add(Add(Quad(m10, m11, m23, m32), Quad(m11, m12, m20, m33)), Quad(m11, m13, m22, m30)), Quad(m10, m11, m22, m33)), Quad(m11, m13, m20, m32)), Quad(m11, m12, m23, m30));
    DistBLeft(m12, Mul(Mul(m20, m31), m13), Mul(Mul(m30, m11), m23), Mul(Mul(m10, m21), m33), Mul(Mul(m30, m21), m13), Mul(Mul(m10, m31), m23), Mul(Mul(m20, m11), m33));
    MulQuadLeft(m12, m20, m31, m13); QuadSwap23(m12, m20, m31, m13); QuadSwap12(m12, m20, m13, m31);
    MulQuadLeft(m12, m30, m11, m23); QuadSwap12(m12, m30, m11, m23); QuadSwap23(m12, m11, m30, m23); QuadSwap01(m12, m11, m23, m30);
    MulQuadLeft(m12, m10, m21, m33); QuadSwap01(m12, m10, m21, m33);
    MulQuadLeft(m12, m30, m21, m13); QuadSwap12(m12, m30, m21, m13); QuadSwap23(m12, m21, m30, m13); QuadSwap12(m12, m21, m13, m30);
    MulQuadLeft(m12, m10, m31, m23); QuadSwap01(m12, m10, m31, m23); QuadSwap23(m10, m12, m31, m23);
    MulQuadLeft(m12, m20, m11, m33); QuadSwap12(m12, m20, m11, m33); QuadSwap01(m12, m11, m20, m33);
    assert Mul(m12, Sub(Add(Add(Mul(Mul(m20, m31), m13), Mul(Mul(m30, m11), m23)), Mul(Mul(m10, m21), m33)), Add(Add(Mul(Mul(m30, m21), m13), Mul(Mul(m10, m31), m23)), Mul(Mul(m20, m11), m33)))) == Sub(Sub(Sub(Add(Add(Quad(m12, m13, m20, m31), Quad(m11, m12, m23, m30)), Quad(m10, m12, m21, m33)), Quad(m12, m13, m21, m30)), Quad(m10, m12, m23, m31)), Quad(m11, m12, m20, m33));
    DistBLeft(m13, Mul(Mul(m10, m31), m22), Mul(Mul(m20, m11), m32), Mul(Mul(m30, m21), m12), Mul(Mul(m10, m21), m32), Mul(Mul(m20, m31), m12), Mul(Mul(m30, m11), m22));
    MulQuadLeft(m13, m10, m31, m22); QuadSwap01(m13, m10, m31, m22); QuadSwap23(m10, m13, m31, m22);
    MulQuadLeft(m13, m20, m11, m32); QuadSwap12(m13, m20, m11, m32); QuadSwap01(m13, m11, m20, m32);
    MulQuadLeft(m13, m30, m21, m12); QuadSwap12(m13, m30, m21, m12); QuadSwap23(m13, m21, m30, m12); QuadSwap12(m13, m21, m12, m30); QuadSwap01(m13, m12, m21, m30);
    MulQuadLeft(m13, m10, m21, m32); QuadSwap01(m13, m10, m21, m32);
    MulQuadLeft(m13, m20, m31, m12); QuadSwap23(m13, m20, m31, m12); QuadSwap12(m13, m20, m12, m31); QuadSwap01(m13, m12, m20, m31);
    MulQuadLeft(m13, m30, m11, m22); QuadSwap12(m13, m30, m11, m22); QuadSwap23(m13, m11, m30, m22); QuadSwap01(m13, m11, m22, m30);
    assert Mul(m13, Sub(Add(Add(Mul(Mul(m10, m31), m22), Mul(Mul(m20, m11), m32)), Mul(Mul(m30, m21), m12)), Add(Add(Mul(Mul(m10, m21), m32), Mul(Mul(m20, m31), m12)), Mul(Mul(m30, m11), m22)))) == Sub(Sub(Sub(Add(Add(Quad(m10, m13, m22, m31), Quad(m11, m13, m20, m32)), Quad(m12, m13, m21, m30)), Quad(m10, m13, m21, m32)), Quad(m12, m13, m20, m31)), Quad(m11, m13, m22, m30));
  }

  lemma RightEntry11(m00: Complex, m01: Complex, m02: Complex, m03: Complex, m10: Complex, m11: Complex, m12: Complex, m13: Complex, m20: Complex, m21: Complex, m22: Complex, m23: Complex, m30: Complex, m31: Complex, m32: Complex, m33: Complex)
    ensures Sum4(Mul(m10, Sub(Sub(Sub(Add(Add(Mul(Mul(m32, m23), m01), Mul(Mul(m02, m33), m21)), Mul(Mul(m22, m03), m31)), Mul(Mul(m22, m33), m01)), Mul(Mul(m32, m03), m21)), Mul(Mul(m02, m23), m31))), Mul(m11, Sub(Sub(Sub(Add(Add(Mul(Mul(m22, m33), m00), Mul(Mul(m32, m03), m20)), Mul(Mul(m02, m23), m30)), Mul(Mul(m32, m23), m00)), Mul(Mul(m02, m33), m20)), Mul(Mul(m22, m03), m30))), Mul(m12, Sub(Add(Add(Mul(Mul(m30, m21), m03), Mul(Mul(m00, m31), m23)), Mul(Mul(m20, m01), m33)), Add(Add(Mul(Mul(m20, m31), m03), Mul(Mul(m30, m01), m23)), Mul(Mul(m00, m21), m33)))), Mul(m13, Sub(Add(Add(Mul(Mul(m00, m21), m32), Mul(Mul(m20, m31), m02)), Mul(Mul(m30, m01), m22)), Add(Add(Mul(Mul(m00, m31), m22), Mul(Mul(m20, m01), m32)), Mul(Mul(m30, m21), m02)))))
         == DetOf(m00, m01, m02, m03, m10, m11, m12, m13, m20, m21, m22, m23, m30, m31, m32, m33)
  {
    DistALeft(m00, Mul(Mul(m22, m33), m11), Mul(Mul(m32, m13), m21), Mul(Mul(m12, m23), m31), Mul(Mul(m32, m23), m11), Mul(Mul(m12, m33), m21), Mul(Mul(m22, m13), m31));
    MulQuadLeft(m00, m22, m33, m11); QuadSwap23(m00, m22, m33, m11); QuadSwap12(m00, m22, m11, m33);
    MulQuadLeft(m00, m32, m13, m21); QuadSwap12(m00, m32, m13, m21); QuadSwap23(m00, m13, m32, m21);
    MulQuadLeft(m00, m12, m23, m31);
    MulQuadLeft(m00, m32, m23, m11); QuadSwap12(m00, m32, m23, m11); QuadSwap23(m00, m23, m32, m11); QuadSwap12(m00, m23, m11, m32);
    MulQuadLeft(m00, m12, m33, m21); QuadSwap23(m00, m12, m33, m21);
    MulQuadLeft(m00, m22, m13, m31); QuadSwap12(m00, m22, m13, m31);
    DistALeft(m10, Mul(Mul(m32, m23), m01), Mul(Mul(m02, m33), m21), Mul(Mul(m22, m03), m31), Mul(Mul(m22, m33), m01), Mul(Mul(m32, m03), m21), Mul(Mul(m02, m23), m31));
    MulQuadLeft(m10, m32, m23, m01); QuadSwap12(m10, m32, m23, m01); QuadSwap23(m10, m23, m32, m01); QuadSwap12(m10, m23, m01, m32); QuadSwap01(m10, m01, m23, m32);
    MulQuadLeft(m10, m02, m33, m21); QuadSwap01(m10, m02, m33, m21); QuadSwap23(m02, m10, m33, m21);
    MulQuadLeft(m10, m22, m03, m31); QuadSwap12(m10, m22, m03, m31); QuadSwap01(m10, m03, m22, m31);
    MulQuadLeft(m10, m22, m33, m01); QuadSwap23(m10, m22, m33, m01); QuadSwap12(m10, m22, m01, m33); QuadSwap01(m10, m01, m22, m33);
    MulQuadLeft(m10, m32, m03, m21); QuadSwap12(m10, m32, m03, m21); QuadSwap23(m10, m03, m32, m21); QuadSwap01(m10, m03, m21, m32);
    MulQuadLeft(m10, m02, m23, m31); QuadSwap01(m10, m02, m23, m31);
    DistALeft(m20, Mul(Mul(m12, m33), m01), Mul(Mul(m32, m03), m11), Mul(Mul(m02, m13), m31), Mul(Mul(m32, m13), m01), Mul(Mul(m02, m33), m11), Mul(Mul(m12, m03), m31));
    MulQuadLeft(m20, m12, m33, m01); QuadSwap01(m20, m12, m33, m01); QuadSwap23(m12, m20, m33, m01); QuadSwap12(m12, m20, m01, m33); QuadSwap01(m12, m01, m20, m33);
    MulQuadLeft(m20, m32, m03, m11); QuadSwap12(m20, m32, m03, m11); QuadSwap23(m20, m03, m32, m11); QuadSwap01(m20, m03, m11, m32); QuadSwap12(m03, m20, m11, m32);
    MulQuadLeft(m20, m02, m13, m31); QuadSwap01(m20, m02, m13, m31); QuadSwap12(m02, m20, m13, m31);
    MulQuadLeft(m20, m32, m13, m01); QuadSwap12(m20, m32, m13, m01); QuadSwap23(m20, m13, m32, m01); QuadSwap01(m20, m13, m01, m32); QuadSwap12(m13, m20, m01, m32); QuadSwap01(m13, m01, m20, m32);
    MulQuadLeft(m20, m02, m33, m11); QuadSwap01(m20, m02, m33, m11); QuadSwap23(m02, m20, m33, m11); QuadSwap12(m02, m20, m11, m33);
    MulQuadLeft(m20, m12, m03, m31); QuadSwap01(m20, m12, m03, m31); QuadSwap12(m12, m20, m03, m31); QuadSwap01(m12, m03, m20, m31);
    DistALeft(m30, Mul(Mul(m22, m13), m01), Mul(Mul(m02, m23), m11), Mul(Mul(m12, m03), m21), Mul(Mul(m12, m23), m01), Mul(Mul(m22, m03), m11), Mul(Mul(m02, m13), m21));
    MulQuadLeft(m30, m22, m13, m01); QuadSwap01(m30, m22, m13, m01); QuadSwap12(m22, m30, m13, m01); QuadSwap23(m22, m13, m30, m01); QuadSwap01(m22, m13, m01, m30); QuadSwap12(m13, m22, m01, m30); QuadSwap01(m13, m01, m22, m30);
    MulQuadLeft(m30, m02, m23, m11); QuadSwap01(m30, m02, m23, m11); QuadSwap12(m02, m30, m23, m11); QuadSwap23(m02, m23, m30, m11); QuadSwap12(m02, m23, m11, m30);
    MulQuadLeft(m30, m12, m03, m21); QuadSwap01(m30, m12, m03, m21); QuadSwap12(m12, m30, m03, m21); QuadSwap23(m12, m03, m30, m21); QuadSwap01(m12, m03, m21, m30);
    MulQuadLeft(m30, m12, m23, m01); QuadSwap01(m30, m12, m23, m01); QuadSwap12(m12, m30, m23, m01); QuadSwap23(m12, m23, m30, m01); QuadSwap12(m12, m23, m01, m30); QuadSwap01(m12, m01, m23, m30);
    MulQuadLeft(m30, m22, m03, m11); QuadSwap01(m30, m22, m03, m11); QuadSwap12(m22, m30, m03, m11); QuadSwap23(m22, m03, m30, m11); QuadSwap01(m22, m03, m11, m30); QuadSwap12(m03, m22, m11, m30);
    MulQuadLeft(m30, m02, m13, m21); QuadSwap01(m30, m02, m13, m21); QuadSwap12(m02, m30, m13, m21); QuadSwap23(m02, m13, m30, m21);
    DistALeft(m10, Mul(Mul(m32, m23), m01), Mul(Mul(m02, m33), m21), Mul(Mul(m22, m03), m31), Mul(Mul(m22, m33), m01), Mul(Mul(m32, m03), m21), Mul(Mul(m02, m23), m31));
    MulQuadLeft(m10, m32, m23, m01); QuadSwap12(m10, m32, m23, m01); QuadSwap23(m10, m23, m32, m01); QuadSwap12(m10, m23, m01, m32); QuadSwap01(m10, m01, m23, m32);
    MulQuadLeft(m10, m02, m33, m21); QuadSwap01(m10, m02, m33, m21); QuadSwap23(m02, m10, m33, m21);
    MulQuadLeft(m10, m22, m03, m31); QuadSwap12(m10, m22, m03, m31); QuadSwap01(m10, m03, m22, m31);
    MulQuadLeft(m10, m22, m33, m01); QuadSwap23(m10, m22, m33, m01); QuadSwap12(m10, m22, m01, m33); QuadSwap01(m10, m01, m22, m33);
    MulQuadLeft(m10, m32, m03, m21); QuadSwap12(m10, m32, m03, m21); QuadSwap23(m10, m03, m32, m21); QuadSwap01(m10, m03, m21, m32);
    MulQuadLeft(m10, m02, m23, m31); QuadSwap01(m10, m02, m23, m31);
    assert Mul(m10, Sub(Sub(Sub(Add(Add(Mul(Mul(m32, m23), m01), Mul(Mul(m02, m33), m21)), Mul(Mul(m22, m03), m31)), Mul(Mul(m22, m33), m01)), Mul(Mul(m32, m03), m21)), Mul(Mul(m02, m23), m31))) == Sub(Sub(Sub(Add(Add(Quad(m01, m10, m23, m32), Quad(m02, m10, m21, m33)), Quad(m03, m10, m22, m31)), Quad(m01, m10, m22, m33)), Quad(m03, m10, m21, m32)), Quad(m02, m10, m23, m31));
    DistALeft(m11, Mul(Mul(m22, m33), m00), Mul(Mul(m32, m03), m20), Mul(Mul(m02, m23), m30), Mul(Mul(m32, m23), m00), Mul(Mul(m02, m33), m20), Mul(Mul(m22, m03), m30));
    MulQuadLeft(m11, m22, m33, m00); QuadSwap23(m11, m22, m33, m00); QuadSwap12(m11, m22, m00, m33); QuadSwap01(m11, m00, m22, m33);
    MulQuadLeft(m11, m32, m03, m20); QuadSwap12(m11, m32, m03, m20); QuadSwap23(m11, m03, m32, m20); QuadSwap01(m11, m03, m20, m32);
    MulQuadLeft(m11, m02, m23, m30); QuadSwap01(m11, m02, m23, m30);
    MulQuadLeft(m11, m32, m23, m00); QuadSwap12(m11, m32, m23, m00); QuadSwap23(m11, m23, m32, m00); QuadSwap12(m11, m23, m00, m32); QuadSwap01(m11, m00, m23, m32);
    MulQuadLeft(m11, m02, m33, m20); QuadSwap01(m11, m02, m33, m20); QuadSwap23(m02, m11, m33, m20);
    MulQuadLeft(m11, m22, m03, m30); QuadSwap12(m11, m22, m03, m30); QuadSwap01(m11, m03, m22, m30);
    assert Mul(m11, Sub(Sub(Sub(Add(Add(Mul(Mul(m22, m33), m00), Mul(Mul(m32, m03), m20)), Mul(Mul(m02, m23), m30)), Mul(Mul(m32, m23), m00)), Mul(Mul(m02, m33), m20)), Mul(Mul(m22, m03), m30))) == Sub(Sub(Sub(Add(Add(Quad(m00, m11, m22, m33), Quad(m03, m11, m20, m32)), Quad(m02, m11, m23, m30)), Quad(m00, m11, m23, m32)), Quad(m02, m11, m20, m33)), Quad(m03, m11, m22, m30));
    DistBLeft(m12, Mul(Mul(m30, m21), m03), Mul(Mul(m00, m31), m23), Mul(Mul(m20, m01), m33), Mul(Mul(m20, m31), m03), Mul(Mul(m30, m01), m23), Mul(Mul(m00, m21), m33));
    MulQuadLeft(m12, m30, m21, m03); QuadSwap12(m12, m30, m21, m03); QuadSwap23(m12, m21, m30, m03); QuadSwap12(m12, m21, m03, m30); QuadSwap01(m12, m03, m21, m30);
    MulQuadLeft(m12, m00, m31, m23); QuadSwap01(m12, m00, m31, m23); QuadSwap23(m00, m12, m31, m23);
    MulQuadLeft(m12, m20, m01, m33); QuadSwap12(m12, m20, m01, m33); QuadSwap01(m12, m01, m20, m33);
    MulQuadLeft(m12, m20, m31, m03); QuadSwap23(m12, m20, m31, m03); QuadSwap12(m12, m20, m03, m31); QuadSwap01(m12, m03, m20, m31);
    MulQuadLeft(m12, m30, m01, m23); QuadSwap12(m12, m30, m01, m23); QuadSwap23(m12, m01, m30, m23); QuadSwap01(m12, m01, m23, m30);
    MulQuadLeft(m12, m00, m21, m33); QuadSwap01(m12, m00, m21, m33);
    assert Mul(m12, Sub(Add(Add(Mul(Mul(m30, m21), m03), Mul(Mul(m00, m31), m23)), Mul(Mul(m20, m01), m33)), Add(Add(Mul(Mul(m20, m31), m03), Mul(Mul(m30, m01), m23)), Mul(Mul(m00, m21), m33)))) == Sub(Sub(Sub(Add(Add(Quad(m03, m12, m21, m30), Quad(m00, m12, m23, m31)), Quad(m01, m12, m20, m33)), Quad(m03, m12, m20, m31)), Quad(m01, m12, m23, m30)), Quad(m00, m12, m21, m33));
    DistBLeft(m13, Mul(Mul(m00, m21), m32), Mul(Mul(m20, m31), m02), Mul(Mul(m30, m01), m22), Mul(Mul(m00, m31), m22), Mul(Mul(m20, m01), m32), Mul(Mul(m30, m21), m02));
    MulQuadLeft(m13, m00, m21, m32); QuadSwap01(m13, m00, m21, m32);
    MulQuadLeft(m13, m20, m31, m02); QuadSwap23(m13, m20, m31, m02); QuadSwap12(m13, m20, m02, m31); QuadSwap01(m13, m02, m20, m31);
    MulQuadLeft(m13, m30, m01, m22); QuadSwap12(m13, m30, m01, m22); QuadSwap23(m13, m01, m30, m22); QuadSwap01(m13, m01, m22, m30);
    MulQuadLeft(m13, m00, m31, m22); QuadSwap01(m13, m00, m31, m22); QuadSwap23(m00, m13, m31, m22);
    MulQuadLeft(m13, m20, m01, m32); QuadSwap12(m13, m20, m01, m32); QuadSwap01(m13, m01, m20, m32);
    MulQuadLeft(m13, m30, m21, m02); QuadSwap12(m13, m30, m21, m02); QuadSwap23(m13, m21, m30, m02); QuadSwap12(m13, m21, m02, m30); QuadSwap01(m13, m02, m21, m30);
    assert Mul(m13, Sub(Add(Add(Mul(Mul(m00, m21), m32), Mul(Mul(m20, m31), m02)), Mul(Mul(m30, m01), m22)), Add(Add(Mul(Mul(m00, m31), m22), Mul(Mul(m20, m01), m32)), Mul(Mul(m30, m21), m02)))) == Sub(Sub(Sub(Add(Add(Quad(m00, m13, m21, m32), Quad(m02, m13, m20, m31)), Quad(m01, m13, m22, m30)), Quad(m00, m13, m22, m31)), Quad(m01, m13, m20, m32)), Quad(m02, m13, m21, m30));
  }

  lemma RightEntry12(m00: Complex, m01: Complex, m02: Complex, m03: Complex, m10: Complex, m11: Complex, m12: Complex, m13: Complex, m20: Complex, m21: Complex, m22: Complex, m23: Complex, m30: Complex, m31: Complex, m32: Complex, m33: Complex)
    ensures Sum4(Mul(m10, Sub(Sub(Sub(Add(Add(Mul(Mul(m12, m33), m01), Mul(Mul(m32, m03), m11)), Mul(Mul(m02, m13), m31)), Mul(Mul(m32, m13), m01)), Mul(Mul(m02, m33), m11)), Mul(Mul(m12, m03), m31))), Mul(m11, Sub(Sub(Sub(Add(Add(Mul(Mul(m32, m13), m00), Mul(Mul(m02, m33), m10)), Mul(Mul(m12, m03), m30)), Mul(Mul(m12, m33), m00)), Mul(Mul(m32, m03), m10)), Mul(Mul(m02, m13), m30))), Mul(m12, Sub(Add(Add(Mul(Mul(m10, m31), m03), Mul(Mul(m30, m01), m13)), Mul(Mul(m00, m11), m33)), Add(Add(Mul(Mul(m30, m11), m03), Mul(Mul(m00, m31), m13)), Mul(Mul(m10, m01), m33)))), Mul(m13, Sub(Add(Add(Mul(Mul(m00, m31), m12), Mul(Mul(m10, m01), m32)), Mul(Mul(m30, m11), m02)), Add(Add(Mul(Mul(m00, m11), m32), Mul(Mul(m10, m31), m02)), Mul(Mul(m30, m01), m12)))))
         == Zero
  {
    DistALeft(m00, Mul(Mul(m22, m33), m11), Mul(Mul(m32, m13), m21), Mul(Mul(m12, m23), m31), Mul(Mul(m32, m23), m11), Mul(Mul(m12, m33), m21), Mul(Mul(m22, m13), m31));
    MulQuadLeft(m00, m22, m33, m11); QuadSwap23(m00, m22, m33, m11); QuadSwap12(m00, m22, m11, m33);
    MulQuadLeft(m00, m32, m13, m21); QuadSwap12(m00, m32, m13, m21); QuadSwap23(m00, m13, m32, m21);
    MulQuadLeft(m00, m12, m23, m31);
    MulQuadLeft(m00, m32, m23, m11); QuadSwap12(m00, m32, m23, m11); QuadSwap23(m00, m23, m32, m11); QuadSwap12(m00, m23, m11, m32);
    MulQuadLeft(m00, m12, m33, m21); QuadSwap23(m00, m12, m33, m21);
    MulQuadLeft(m00, m22, m13, m31); QuadSwap12(m00, m22, m13, m31);
    DistALeft(m10, Mul(Mul(m32, m23), m01), Mul(Mul(m02, m33), m21), Mul(Mul(m22, m03), m31), Mul(Mul(m22, m33), m01), Mul(Mul(m32, m03), m21), Mul(Mul(m02, m23), m31));
    MulQuadLeft(m10, m32, m23, m01); QuadSwap12(m10, m32, m23, m01); QuadSwap23(m10, m23, m32, m01); QuadSwap12(m10, m23, m01, m32); QuadSwap01(m10, m01, m23, m32);
    MulQuadLeft(m10, m02, m33, m21); QuadSwap01(m10, m02, m33, m21); QuadSwap23(m02, m10, m33, m21);
    MulQuadLeft(m10, m22, m03, m31); QuadSwap12(m10, m22, m03, m31); QuadSwap01(m10, m03, m22, m31);
    MulQuadLeft(m10, m22, m33, m01); QuadSwap23(m10, m22, m33, m01); QuadSwap12(m10, m22, m01, m33); QuadSwap01(m10, m01, m22, m33);
    MulQuadLeft(m10, m32, m03, m21); QuadSwap12(m10, m32, m03, m21); QuadSwap23(m10, m03, m32, m21); QuadSwap01(m10, m03, m21, m32);
    MulQuadLeft(m10, m02, m23, m31); QuadSwap01(m10, m02, m23, m31);
    DistALeft(m20, Mul(Mul(m12, m33), m01), Mul(Mul(m32, m03), m11), Mul(Mul(m02, m13), m31), Mul(Mul(m32, m13), m01), Mul(Mul(m02, m33), m11), Mul(Mul(m12, m03), m31));
    MulQuadLeft(m20, m12, m33, m01); QuadSwap01(m20, m12, m33, m01); QuadSwap23(m12, m20, m33, m01); QuadSwap12(m12, m20, m01, m33); QuadSwap01(m12, m01, m20, m33);
    MulQuadLeft(m20, m32, m03, m11); QuadSwap12(m20, m32, m03, m11); QuadSwap23(m20, m03, m32, m11); QuadSwap01(m20, m03, m11, m32); QuadSwap12(m03, m20, m11, m32);
    MulQuadLeft(m20, m02, m13, m31); QuadSwap01(m20, m02, m13, m31); QuadSwap12(m02, m20, m13, m31);
    MulQuadLeft(m20, m32, m13, m01); QuadSwap12(m20, m32, m13, m01); QuadSwap23(m20, m13, m32, m01); QuadSwap01(m20, m13, m01, m32); QuadSwap12(m13, m20, m01, m32); QuadSwap01(m13, m01, m20, m32);
    MulQuadLeft(m20, m02, m33, m11); QuadSwap01(m20, m02, m33, m11); QuadSwap23(m02, m20, m33, m11); QuadSwap12(m02, m20, m11, m33);
    MulQuadLeft(m20, m12, m03, m31); QuadSwap01(m20, m12, m03, m31); QuadSwap12(m12, m20, m03, m31); QuadSwap01(m12, m03, m20, m31);
    DistALeft(m30, Mul(Mul(m22, m13), m01), Mul(Mul(m02, m23), m11), Mul(Mul(m12, m03), m21), Mul(Mul(m12, m23), m01), Mul(Mul(m22, m03), m11), Mul(Mul(m02, m13), m21));
    MulQuadLeft(m30, m22, m13, m01); QuadSwap01(m30, m22, m13, m01); QuadSwap12(m22, m30, m13, m01); QuadSwap23(m22, m13, m30, m01); QuadSwap01(m22, m13, m01, m30); QuadSwap12(m13, m22, m01, m30); QuadSwap01(m13, m01, m22, m30);
    MulQuadLeft(m30, m02, m23, m11); QuadSwap01(m30, m02, m23, m11); QuadSwap12(m02, m30, m23, m11); QuadSwap23(m02, m23, m30, m11); QuadSwap12(m02, m23, m11, m30);
    MulQuadLeft(m30, m12, m03, m21); QuadSwap01(m30, m12, m03, m21); QuadSwap12(m12, m30, m03, m21); QuadSwap23(m12, m03, m30, m21); QuadSwap01(m12, m03, m21, m30);
    MulQuadLeft(m30, m12, m23, m01); QuadSwap01(m30, m12, m23, m01); QuadSwap12(m12, m30, m23, m01); QuadSwap23(m12, m23, m30, m01); QuadSwap12(m12, m23, m01, m30); QuadSwap01(m12, m01, m23, m30);
    MulQuadLeft(m30, m22, m03, m11); QuadSwap01(m30, m22, m03, m11); QuadSwap12(m22, m30, m03, m11); QuadSwap23(m22, m03, m30, m11); QuadSwap01(m22, m03, m11, m30); QuadSwap12(m03, m22, m11, m30);
    MulQuadLeft(m30, m02, m13, m21); QuadSwap01(m30, m02, m13, m21); QuadSwap12(m02, m30, m13, m21); QuadSwap23(m02, m13, m30, m21);
    DistALeft(m10, Mul(Mul(m12, m33), m01), Mul(Mul(m32, m03), m11), Mul(Mul(m02, m13), m31), Mul(Mul(m32, m13), m01), Mul(Mul(m02, m33), m11), Mul(Mul(m12, m03), m31));
    MulQuadLeft(m10, m12, m33, m01); QuadSwap23(m10, m12, m33, m01); QuadSwap12(m10, m12, m01, m33); QuadSwap01(m10, m01, m12, m33);
    MulQuadLeft(m10, m32, m03, m11); QuadSwap12(m10, m32, m03, m11); QuadSwap23(m10, m03, m32, m11); QuadSwap01(m10, m03, m11, m32);
    MulQuadLeft(m10, m02, m13, m31); QuadSwap01(m10, m02, m13, m31);
    MulQuadLeft(m10, m32, m13, m01); QuadSwap12(m10, m32, m13, m01); QuadSwap23(m10, m13, m32, m01); QuadSwap12(m10, m13, m01, m32); QuadSwap01(m10, m01, m13, m32);
    MulQuadLeft(m10, m02, m33, m11); QuadSwap01(m10, m02, m33, m11); QuadSwap23(m02, m10, m33, m11);
    MulQuadLeft(m10, m12, m03, m31); QuadSwap12(m10, m12, m03, m31); QuadSwap01(m10, m03, m12, m31);
    assert Mul(m10, Sub(Sub(Sub(Add(Add(Mul(Mul(m12, m33), m01), Mul(Mul(m32, m03), m11)), Mul(Mul(m02, m13), m31)), Mul(Mul(m32, m13), m01)), Mul(Mul(m02, m33), m11)), Mul(Mul(m12, m03), m31))) == Sub(Sub(Sub(Add(Add(Quad(m01, m10, m12, m33), Quad(m03, m10, m11, m32)), Quad(m02, m10, m13, m31)), Quad(m01, m10, m13, m32)), Quad(m02, m10, m11, m33)), Quad(m03, m10, m12, m31));
    DistALeft(m11, Mul(Mul(m32, m13), m00), Mul(Mul(m02, m33), m10), Mul(Mul(m12, m03), m30), Mul(Mul(m12, m33), m00), Mul(Mul(m32, m03), m10), Mul(Mul(m02, m13), m30));
    MulQuadLeft(m11, m32, m13, m00); QuadSwap12(m11, m32, m13, m00); QuadSwap23(m11, m13, m32, m00); QuadSwap12(m11, m13, m00, m32); QuadSwap01(m11, m00, m13, m32);
    MulQuadLeft(m11, m02, m33, m10); QuadSwap01(m11, m02, m33, m10); QuadSwap23(m02, m11, m33, m10); QuadSwap12(m02, m11, m10, m33);
    MulQuadLeft(m11, m12, m03, m30); QuadSwap12(m11, m12, m03, m30); QuadSwap01(m11, m03, m12, m30);
    MulQuadLeft(m11, m12, m33, m00); QuadSwap23(m11, m12, m33, m00); QuadSwap12(m11, m12, m00, m33); QuadSwap01(m11, m00, m12, m33);
    MulQuadLeft(m11, m32, m03, m10); QuadSwap12(m11, m32, m03, m10); QuadSwap23(m11, m03, m32, m10); QuadSwap01(m11, m03, m10, m32); QuadSwap12(m03, m11, m10, m32);
    MulQuadLeft(m11, m02, m13, m30); QuadSwap01(m11, m02, m13, m30);
    assert Mul(m11, Sub(Sub(Sub(Add(Add(Mul(Mul(m32, m13), m00), Mul(Mul(m02, m33), m10)), Mul(Mul(m12, m03), m30)), Mul(Mul(m12, m33), m00)), Mul(Mul(m32, m03), m10)), Mul(Mul(m02, m13), m30))) == Sub(Sub(Sub(Add(Add(Quad(m00, m11, m13, m32), Quad(m02, m10, m11, m33)), Quad(m03, m11, m12, m30)), Quad(m00, m11, m12, m33)), Quad(m03, m10, m11, m32)), Quad(m02, m11, m13, m30));
    DistBLeft(m12, Mul(Mul(m10, m31), m03), Mul(Mul(m30, m01), m13), Mul(Mul(m00, m11), m33), Mul(Mul(m30, m11), m03), Mul(Mul(m00, m31), m13), Mul(Mul(m10, m01), m33));
    MulQuadLeft(m12, m10, m31, m03); QuadSwap01(m12, m10, m31, m03); QuadSwap23(m10, m12, m31, m03); QuadSwap12(m10, m12, m03, m31); QuadSwap01(m10, m03, m12, m31);
    MulQuadLeft(m12, m30, m01, m13); QuadSwap12(m12, m30, m01, m13); QuadSwap23(m12, m01, m30, m13); QuadSwap01(m12, m01, m13, m30);
    MulQuadLeft(m12, m00, m11, m33); QuadSwap01(m12, m00, m11, m33); QuadSwap12(m00, m12, m11, m33);
    MulQuadLeft(m12, m30, m11, m03); QuadSwap12(m12, m30, m11, m03); QuadSwap23(m12, m11, m30, m03); QuadSwap01(m12, m11, m03, m30); QuadSwap12(m11, m12, m03, m30); QuadSwap01(m11, m03, m12, m30);
    MulQuadLeft(m12, m00, m31, m13); QuadSwap01(m12, m00, m31, m13); QuadSwap23(m00, m12, m31, m13);
    MulQuadLeft(m12, m10, m01, m33); QuadSwap01(m12, m10, m01, m33); QuadSwap12(m10, m12, m01, m33); QuadSwap01(m10, m01, m12, m33);
    assert Mul(m12, Sub(Add(Add(Mul(Mul(m10, m31), m03), Mul(Mul(m30, m01), m13)), Mul(Mul(m00, m11), m33)), Add(Add(Mul(Mul(m30, m11), m03), Mul(Mul(m00, m31), m13)), Mul(Mul(m10, m01), m33)))) == Sub(Sub(Sub(Add(Add(Quad(m03, m10, m12, m31), Quad(m01, m12, m13, m30)), Quad(m00, m11, m12, m33)), Quad(m03, m11, m12, m30)), Quad(m00, m12, m13, m31)), Quad(m01, m10, m12, m33));
    DistBLeft(m13, Mul(Mul(m00, m31), m12), Mul(Mul(m10, m01), m32), Mul(Mul(m30, m11), m02), Mul(Mul(m00, m11), m32), Mul(Mul(m10, m31), m02), Mul(Mul(m30, m01), m12));
    MulQuadLeft(m13, m00, m31, m12); QuadSwap01(m13, m00, m31, m12); QuadSwap23(m00, m13, m31, m12); QuadSwap12(m00, m13, m12, m31);
    MulQuadLeft(m13, m10, m01, m32); QuadSwap01(m13, m10, m01, m32); QuadSwap12(m10, m13, m01, m32); QuadSwap01(m10, m01, m13, m32);
    MulQuadLeft(m13, m30, m11, m02); QuadSwap12(m13, m30, m11, m02); QuadSwap23(m13, m11, m30, m02); QuadSwap01(m13, m11, m02, m30); QuadSwap12(m11, m13, m02, m30); QuadSwap01(m11, m02, m13, m30);
    MulQuadLeft(m13, m00, m11, m32); QuadSwap01(m13, m00, m11, m32); QuadSwap12(m00, m13, m11, m32);
    MulQuadLeft(m13, m10, m31, m02); QuadSwap01(m13, m10, m31, m02); QuadSwap23(m10, m13, m31, m02); QuadSwap12(m10, m13, m02, m31); QuadSwap01(m10, m02, m13, m31);
    MulQuadLeft(m13, m30, m01, m12); QuadSwap12(m13, m30, m01, m12); QuadSwap23(m13, m01, m30, m12); QuadSwap01(m13, m01, m12, m30); QuadSwap12(m01, m13, m12, m30);
    assert Mul(m13, Sub(Add(Add(Mul(Mul(m00, m31), m12), Mul(Mul(m10, m01), m32)), Mul(Mul(m30, m11), m02)), Add(Add(Mul(Mul(m00, m11), m32), Mul(Mul(m10, m31), m02)), Mul(Mul(m30, m01), m12)))) == Sub(Sub(Sub(Add(Add(Quad(m00, m12, m13, m31), Quad(m01, m10, m13, m32)), Quad(m02, m11, m13, m30)), Quad(m00, m11, m13, m32)), Quad(m02, m10, m13, m31)), Quad(m01, m12, m13, m30));
  }

  lemma RightEntry13(m00: Complex, m01: Complex, m02: Complex, m03: Complex, m10: Complex, m11: Complex, m12: Complex, m13: Complex, m20: Complex, m21: Complex, m22: Complex, m23: Complex, m30: Complex, m31: Complex, m32: Complex, m33: Complex)
    ensures Sum4(Mul(m10, Sub(Sub(Sub(Add(Add(Mul(Mul(m22, m13), m01), Mul(Mul(m02, m23), m11)), Mul(Mul(m12, m03), m21)), Mul(Mul(m12, m23), m01)), Mul(Mul(m22, m03), m11)), Mul(Mul(m02, m13), m21))), Mul(m11, Sub(Sub(Sub(Add(Add(Mul(Mul(m12, m23), m00), Mul(Mul(m22, m03), m10)), Mul(Mul(m02, m13), m20)), Mul(Mul(m22, m13), m00)), Mul(Mul(m02, m23), m10)), Mul(Mul(m12, m03), m20))), Mul(m12, Sub(Add(Add(Mul(Mul(m20, m11), m03), Mul(Mul(m00, m21), m13)), Mul(Mul(m10, m01), m23)), Add(Add(Mul(Mul(m10, m21), m03), Mul(Mul(m20, m01), m13)), Mul(Mul(m00, m11), m23)))), Mul(m13, Sub(Add(Add(Mul(Mul(m00, m11), m22), Mul(Mul(m10, m21), m02)), Mul(Mul(m20, m01), m12)), Add(Add(Mul(Mul(m00, m21), m12), Mul(Mul(m10, m01), m22)), Mul(Mul(m20, m11), m02)))))
         == Zero
  {
    DistALeft(m00, Mul(Mul(m22, m33), m11), Mul(Mul(m32, m13), m21), Mul(Mul(m12, m23), m31), Mul(Mul(m32, m23), m11), Mul(Mul(m12, m33), m21), Mul(Mul(m22, m13), m31));
    MulQuadLeft(m00, m22, m33, m11); QuadSwap23(m00, m22, m33, m11); QuadSwap12(m00, m22, m11, m33);
    MulQuadLeft(m00, m32, m13, m21); QuadSwap12(m00, m32, m13, m21); QuadSwap23(m00, m13, m32, m21);
    MulQuadLeft(m00, m12, m23, m31);
    MulQuadLeft(m00, m32, m23, m11); QuadSwap12(m00, m32, m23, m11); QuadSwap23(m00, m23, m32, m11); QuadSwap12(m00, m23, m11, m32);
    MulQuadLeft(m00, m12, m33, m21); QuadSwap23(m00, m12, m33, m21);
    MulQuadLeft(m00, m22, m13, m31); QuadSwap12(m00, m22, m13, m31);
    DistALeft(m10, Mul(Mul(m32, m23), m01), Mul(Mul(m02, m33), m21), Mul(Mul(m22, m03), m31), Mul(Mul(m22, m33), m01), Mul(Mul(m32, m03), m21), Mul(Mul(m02, m23), m31));
    MulQuadLeft(m10, m32, m23, m01); QuadSwap12(m10, m32, m23, m01); QuadSwap23(m10, m23, m32, m01); QuadSwap12(m10, m23, m01, m32); QuadSwap01(m10, m01, m23, m32);
    MulQuadLeft(m10, m02, m33, m21); QuadSwap01(m10, m02, m33, m21); QuadSwap23(m02, m10, m33, m21);
    MulQuadLeft(m10, m22, m03, m31); QuadSwap12(m10, m22, m03, m31); QuadSwap01(m10, m03, m22, m31);
    MulQuadLeft(m10, m22, m33, m01); QuadSwap23(m10, m22, m33, m01); QuadSwap12(m10, m22, m01, m33); QuadSwap01(m10, m01, m22, m33);
    MulQuadLeft(m10, m32, m03, m21); QuadSwap12(m10, m32, m03, m21); QuadSwap23(m10, m03, m32, m21); QuadSwap01(m10, m03, m21, m32);
    MulQuadLeft(m10, m02, m23, m31); QuadSwap01(m10, m02, m23, m31);
    DistALeft(m20, Mul(Mul(m12, m33), m01), Mul(Mul(m32, m03), m11), Mul(Mul(m02, m13), m31), Mul(Mul(m32, m13), m01), Mul(Mul(m02, m33), m11), Mul(Mul(m12, m03), m31));
    MulQuadLeft(m20, m12, m33, m01); QuadSwap01(m20, m12, m33, m01); QuadSwap23(m12, m20, m33, m01); QuadSwap12(m12, m20, m01, m33); QuadSwap01(m12, m01, m20, m33);
    MulQuadLeft(m20, m32, m03, m11); QuadSwap12(m20, m32, m03, m11); QuadSwap23(m20, m03, m32, m11); QuadSwap01(m20, m03, m11, m32); QuadSwap12(m03, m20, m11, m32);
    MulQuadLeft(m20, m02, m13, m31); QuadSwap01(m20, m02, m13, m31); QuadSwap12(m02, m20, m13, m31);
    MulQuadLeft(m20, m32, m13, m01); QuadSwap12(m20, m32, m13, m01); QuadSwap23(m20, m13, m32, m01); QuadSwap01(m20, m13, m01, m32); QuadSwap12(m13, m20, m01, m32); QuadSwap01(m13, m01, m20, m32);
    MulQuadLeft(m20, m02, m33, m11); QuadSwap01(m20, m02, m33, m11); QuadSwap23(m02, m20, m33, m11); QuadSwap12(m02, m20, m11, m33);
    MulQuadLeft(m20, m12, m03, m31); QuadSwap01(m20, m12, m03, m31); QuadSwap12(m12, m20, m03, m31); QuadSwap01(m12, m03, m20, m31);
    DistALeft(m30, Mul(Mul(m22, m13), m01), Mul(Mul(m02, m23), m11), Mul(Mul(m12, m03), m21), Mul(Mul(m12, m23), m01), Mul(Mul(m22, m03), m11), Mul(Mul(m02, m13), m21));
    MulQuadLeft(m30, m22, m13, m01); QuadSwap01(m30, m22, m13, m01); QuadSwap12(m22, m30, m13, m01); QuadSwap23(m22, m13, m30, m01); QuadSwap01(m22, m13, m01, m30); QuadSwap12(m13, m22, m01, m30); QuadSwap01(m13, m01, m22, m30);
    MulQuadLeft(m30, m02, m23, m11); QuadSwap01(m30, m02, m23, m11); QuadSwap12(m02, m30, m23, m11); QuadSwap23(m02, m23, m30, m11); QuadSwap12(m02, m23, m11, m30);
    MulQuadLeft(m30, m12, m03, m21); QuadSwap01(m30, m12, m03, m21); QuadSwap12(m12, m30, m03, m21); QuadSwap23(m12, m03, m30, m21); QuadSwap01(m12, m03, m21, m30);
    MulQuadLeft(m30, m12, m23, m01); QuadSwap01(m30, m12, m23, m01); QuadSwap12(m12, m30, m23, m01); QuadSwap23(m12, m23, m30, m01); QuadSwap12(m12, m23, m01, m30); QuadSwap01(m12, m01, m23, m30);
    MulQuadLeft(m30, m22, m03, m11); QuadSwap01(m30, m22, m03, m11); QuadSwap12(m22, m30, m03, m11); QuadSwap23(m22, m03, m30, m11); QuadSwap01(m22, m03, m11, m30); QuadSwap12(m03, m22, m11, m30);
    MulQuadLeft(m30, m02, m13, m21); QuadSwap01(m30, m02, m13, m21); QuadSwap12(m02, m30, m13, m21); QuadSwap23(m02, m13, m30, m21);
    DistALeft(m10, Mul(Mul(m22, m13), m01), Mul(Mul(m02, m23), m11), Mul(Mul(m12, m03), m21), Mul(Mul(m12, m23), m01), Mul(Mul(m22, m03), m11), Mul(Mul(m02, m13), m21));
    MulQuadLeft(m10, m22, m13, m01); QuadSwap12(m10, m22, m13, m01); QuadSwap23(m10, m13, m22, m01); QuadSwap12(m10, m13, m01, m22); QuadSwap01(m10, m01, m13, m22);
    MulQuadLeft(m10, m02, m23, m11); QuadSwap01(m10, m02, m23, m11); QuadSwap23(m02, m10, m23, m11);
    MulQuadLeft(m10, m12, m03, m21); QuadSwap12(m10, m12, m03, m21); QuadSwap01(m10, m03, m12, m21);
    MulQuadLeft(m10, m12, m23, m01); QuadSwap23(m10, m12, m23, m01); QuadSwap12(m10, m12, m01, m23); QuadSwap01(m10, m01, m12, m23);
    MulQuadLeft(m10, m22, m03, m11); QuadSwap12(m10, m22, m03, m11); QuadSwap23(m10, m03, m22, m11); QuadSwap01(m10, m03, m11, m22);
    MulQuadLeft(m10, m02, m13, m21); QuadSwap01(m10, m02, m13, m21);
    assert Mul(m10, Sub(Sub(Sub(Add(Add(Mul(Mul(m22, m13), m01), Mul(Mul(m02, m23), m11)), Mul(Mul(m12, m03), m21)), Mul(Mul(m12, m23), m01)), Mul(Mul(m22, m03), m11)), Mul(Mul(m02, m13), m21))) == Sub(Sub(Sub(Add(Add(Quad(m01, m10, m13, m22), Quad(m02, m10, m11, m23)), Quad(m03, m10, m12, m21)), Quad(m01, m10, m12, m23)), Quad(m03, m10, m11, m22)), Quad(m02, m10, m13, m21));
    DistALeft(m11, Mul(Mul(m12, m23), m00), Mul(Mul(m22, m03), m10), Mul(Mul(m02, m13), m20), Mul(Mul(m22, m13), m00), Mul(Mul(m02, m23), m10), Mul(Mul(m12, m03), m20));
    MulQuadLeft(m11, m12, m23, m00); QuadSwap23(m11, m12, m23, m00); QuadSwap12(m11, m12, m00, m23); QuadSwap01(m11, m00, m12, m23);
    MulQuadLeft(m11, m22, m03, m10); QuadSwap12(m11, m22, m03, m10); QuadSwap23(m11, m03, m22, m10); QuadSwap01(m11, m03, m10, m22); QuadSwap12(m03, m11, m10, m22);
    MulQuadLeft(m11, m02, m13, m20); QuadSwap01(m11, m02, m13, m20);
    MulQuadLeft(m11, m22, m13, m00); QuadSwap12(m11, m22, m13, m00); QuadSwap23(m11, m13, m22, m00); QuadSwap12(m11, m13, m00, m22); QuadSwap01(m11, m00, m13, m22);
    MulQuadLeft(m11, m02, m23, m10); QuadSwap01(m11, m02, m23, m10); QuadSwap23(m02, m11, m23, m10); QuadSwap12(m02, m11, m10, m23);
    MulQuadLeft(m11, m12, m03, m20); QuadSwap12(m11, m12, m03, m20); QuadSwap01(m11, m03, m12, m20);
    assert Mul(m11, Sub(Sub(Sub(Add(Add(Mul(Mul(m12, m23), m00), Mul(Mul(m22, m03), m10)), Mul(Mul(m02, m13), m20)), Mul(Mul(m22, m13), m00)), Mul(Mul(m02, m23), m10)), Mul(Mul(m12, m03), m20))) == Sub(Sub(Sub(Add(Add(Quad(m00, m11, m12, m23), Quad(m03, m10, m11, m22)), Quad(m02, m11, m13, m20)), Quad(m00, m11, m13, m22)), Quad(m02, m10, m11, m23)), Quad(m03, m11, m12, m20));
    DistBLeft(m12, Mul(Mul(m20, m11), m03), Mul(Mul(m00, m21), m13), Mul(Mul(m10, m01), m23), Mul(Mul(m10, m21), m03), Mul(Mul(m20, m01), m13), Mul(Mul(m00, m11), m23));
    MulQuadLeft(m12, m20, m11, m03); QuadSwap12(m12, m20, m11, m03); QuadSwap23(m12, m11, m20, m03); QuadSwap01(m12, m11, m03, m20); QuadSwap12(m11, m12, m03, m20); QuadSwap01(m11, m03, m12, m20);
    MulQuadLeft(m12, m00, m21, m13); QuadSwap01(m12, m00, m21, m13); QuadSwap23(m00, m12, m21, m13);
    MulQuadLeft(m12, m10, m01, m23); QuadSwap01(m12, m10, m01, m23); QuadSwap12(m10, m12, m01, m23); QuadSwap01(m10, m01, m12, m23);
    MulQuadLeft(m12, m10, m21, m03); QuadSwap01(m12, m10, m21, m03); QuadSwap23(m10, m12, m21, m03); QuadSwap12(m10, m12, m03, m21); QuadSwap01(m10, m03, m12, m21);
    MulQuadLeft(m12, m20, m01, m13); QuadSwap12(m12, m20, m01, m13); QuadSwap23(m12, m01, m20, m13); QuadSwap01(m12, m01, m13, m20);
    MulQuadLeft(m12, m00, m11, m23); QuadSwap01(m12, m00, m11, m23); QuadSwap12(m00, m12, m11, m23);
    assert Mul(m12, Sub(Add(Add(Mul(Mul(m20, m11), m03), Mul(Mul(m00, m21), m13)), Mul(Mul(m10, m01), m23)), Add(Add(Mul(Mul(m10, m21), m03), Mul(Mul(m20, m01), m13)), Mul(Mul(m00, m11), m23)))) == Sub(Sub(Sub(Add(Add(Quad(m03, m11, m12, m20), Quad(m00, m12, m13, m21)), Quad(m01, m10, m12, m23)), Quad(m03, m10, m12, m21)), Quad(m01, m12, m13, m20)), Quad(m00, m11, m12, m23));
    DistBLeft(m13, Mul(Mul(m00, m11), m22), Mul(Mul(m10, m21), m02), Mul(Mul(m20, m01), m12), Mul(Mul(m00, m21), m12), Mul(Mul(m10, m01), m22), Mul(Mul(m20, m11), m02));
    MulQuadLeft(m13, m00, m11, m22); QuadSwap01(m13, m00, m11, m22); QuadSwap12(m00, m13, m11, m22);
    MulQuadLeft(m13, m10, m21, m02); QuadSwap01(m13, m10, m21, m02); QuadSwap23(m10, m13, m21, m02); QuadSwap12(m10, m13, m02, m21); QuadSwap01(m10, m02, m13, m21);
    MulQuadLeft(m13, m20, m01, m12); QuadSwap12(m13, m20, m01, m12); QuadSwap23(m13, m01, m20, m12); QuadSwap01(m13, m01, m12, m20); QuadSwap12(m01, m13, m12, m20);
    MulQuadLeft(m13, m00, m21, m12); QuadSwap01(m13, m00, m21, m12); QuadSwap23(m00, m13, m21, m12); QuadSwap12(m00, m13, m12, m21);
    MulQuadLeft(m13, m10, m01, m22); QuadSwap01(m13, m10, m01, m22); QuadSwap12(m10, m13, m01, m22); QuadSwap01(m10, m01, m13, m22);
    MulQuadLeft(m13, m20, m11, m02); QuadSwap12(m13, m20, m11, m02); QuadSwap23(m13, m11, m20, m02); QuadSwap01(m13, m11, m02, m20); QuadSwap12(m11, m13, m02, m20); QuadSwap01(m11, m02, m13, m20);
    assert Mul(m13, Sub(Add(Add(Mul(Mul(m00, m11), m22), Mul(Mul(m10, m21), m02)), Mul(Mul(m20, m01), m12)), Add(Add(Mul(Mul(m00, m21), m12), Mul(Mul(m10, m01), m22)), Mul(Mul(m20, m11), m02)))) == Sub(Sub(Sub(Add(Add(Quad(m00, m11, m13, m22), Quad(m02, m10, m13, m21)), Quad(m01, m12, m13, m20)), Quad(m00, m12, m13, m21)), Quad(m01, m10, m13, m22)), Quad(m02, m11, m13, m20));
  }

  lemma RightEntry20(m00: Complex, m01: Complex, m02: Complex, m03: Complex, m10: Complex, m11: Complex, m12: Complex, m13: Complex, m20: Complex, m21: Complex, m22: Complex, m23: Complex, m30: Complex, m31: Complex, m32: Complex, m33: Complex)
    ensures Sum4(Mul(m20, Sub(Sub(Sub(Add(Add(Mul(Mul(m22, m33), m11), Mul(Mul(m32, m13), m21)), Mul(Mul(m12, m23), m31)), Mul(Mul(m32, m23), m11)), Mul(Mul(m12, m33), m21)), Mul(Mul(m22, m13), m31))), Mul(m21, Sub(Sub(Sub(Add(Add(Mul(Mul(m32, m23), m10), Mul(Mul(m12, m33), m20)), Mul(Mul(m22, m13), m30)), Mul(Mul(m22, m33), m10)), Mul(Mul(m32, m13), m20)), Mul(Mul(m12, m23), m30))), Mul(m22, Sub(Add(Add(Mul(Mul(m20, m31), m13), Mul(Mul(m30, m11), m23)), Mul(Mul(m10, m21), m33)), Add(Add(Mul(Mul(m30, m21), m13), Mul(Mul(m10, m31), m23)), Mul(Mul(m20, m11), m33)))), Mul(m23, Sub(Add(Add(Mul(Mul(m10, m31), m22), Mul(Mul(m20, m11), m32)), Mul(Mul(m30, m21), m12)), Add(Add(Mul(Mul(m10, m21), m32), Mul(Mul(m20, m31), m12)), Mul(Mul(m30, m11), m22)))))
         == Zero
  {
    DistALeft(m00, Mul(Mul(m22, m33), m11), Mul(Mul(m32, m13), m21), Mul(Mul(m12, m23), m31), Mul(Mul(m32, m23), m11), Mul(Mul(m12, m33), m21), Mul(Mul(m22, m13), m31));
    MulQuadLeft(m00, m22, m33, m11); QuadSwap23(m00, m22, m33, m11); QuadSwap12(m00, m22, m11, m33);
    MulQuadLeft(m00, m32, m13, m21); QuadSwap12(m00, m32, m13, m21); QuadSwap23(m00, m13, m32, m21);
    MulQuadLeft(m00, m12, m23, m31);
    MulQuadLeft(m00, m32, m23, m11); QuadSwap12(m00, m32, m23, m11); QuadSwap23(m00, m23, m32, m11); QuadSwap12(m00, m23, m11, m32);
    MulQuadLeft(m00, m12, m33, m21); QuadSwap23(m00, m12, m33, m21);
    MulQuadLeft(m00, m22, m13, m31); QuadSwap12(m00, m22, m13, m31);
    DistALeft(m10, Mul(Mul(m32, m23), m01), Mul(Mul(m02, m33), m21), Mul(Mul(m22, m03), m31), Mul(Mul(m22, m33), m01), Mul(Mul(m32, m03), m21), Mul(Mul(m02, m23), m31));
    MulQuadLeft(m10, m32, m23, m01); QuadSwap12(m10, m32, m23, m01); QuadSwap23(m10, m23, m32, m01); QuadSwap12(m10, m23, m01, m32); QuadSwap01(m10, m01, m23, m32);
    MulQuadLeft(m10, m02, m33, m21); QuadSwap01(m10, m02, m33, m21); QuadSwap23(m02, m10, m33, m21);
    MulQuadLeft(m10, m22, m03, m31); QuadSwap12(m10, m22, m03, m31); QuadSwap01(m10, m03, m22, m31);
    MulQuadLeft(m10, m22, m33, m01); QuadSwap23(m10, m22, m33, m01); QuadSwap12(m10, m22, m01, m33); QuadSwap01(m10, m01, m22, m33);
    MulQuadLeft(m10, m32, m03, m21); QuadSwap12(m10, m32, m03, m21); QuadSwap23(m10, m03, m32, m21); QuadSwap01(m10, m03, m21, m32);
    MulQuadLeft(m10, m02, m23, m31); QuadSwap01(m10, m02, m23, m31);
    DistALeft(m20, Mul(Mul(m12, m33), m01), Mul(Mul(m32, m03), m11), Mul(Mul(m02, m13), m31), Mul(Mul(m32, m13), m01), Mul(Mul(m02, m33), m11), Mul(Mul(m12, m03), m31));
    MulQuadLeft(m20, m12, m33, m01); QuadSwap01(m20, m12, m33, m01); QuadSwap23(m12, m20, m33, m01); QuadSwap12(m12, m20, m01, m33); QuadSwap01(m12, m01, m20, m33);
    MulQuadLeft(m20, m32, m03, m11); QuadSwap12(m20, m32, m03, m11); QuadSwap23(m20, m03, m32, m11); QuadSwap01(m20, m03, m11, m32); QuadSwap12(m03, m20, m11, m32);
    MulQuadLeft(m20, m02, m13, m31); QuadSwap01(m20, m02, m13, m31); QuadSwap12(m02, m20, m13, m31);
    MulQuadLeft(m20, m32, m13, m01); QuadSwap12(m20, m32, m13, m01); QuadSwap23(m20, m13, m32, m01); QuadSwap01(m20, m13, m01, m32); QuadSwap12(m13, m20, m01, m32); QuadSwap01(m13, m01, m20, m32);
    MulQuadLeft(m20, m02, m33, m11); QuadSwap01(m20, m02, m33, m11); QuadSwap23(m02, m20, m33, m11); QuadSwap12(m02, m20, m11, m33);
    MulQuadLeft(m20, m12, m03, m31); QuadSwap01(m20, m12, m03, m31); QuadSwap12(m12, m20, m03, m31); QuadSwap01(m12, m03, m20, m31);
    DistALeft(m30, Mul(Mul(m22, m13), m01), Mul(Mul(m02, m23), m11), Mul(Mul(m12, m03), m21), Mul(Mul(m12, m23), m01), Mul(Mul(m22, m03), m11), Mul(Mul(m02, m13), m21));
    MulQuadLeft(m30, m22, m13, m01); QuadSwap01(m30, m22, m13, m01); QuadSwap12(m22, m30, m13, m01); QuadSwap23(m22, m13, m30, m01); QuadSwap01(m22, m13, m01, m30); QuadSwap12(m13, m22, m01, m30); QuadSwap01(m13, m01, m22, m30);
    MulQuadLeft(m30, m02, m23, m11); QuadSwap01(m30, m02, m23, m11); QuadSwap12(m02, m30, m23, m11); QuadSwap23(m02, m23, m30, m11); QuadSwap12(m02, m23, m11, m30);
    MulQuadLeft(m30, m12, m03, m21); QuadSwap01(m30, m12, m03, m21); QuadSwap12(m12, m30, m03, m21); QuadSwap23(m12, m03, m30, m21); QuadSwap01(m12, m03, m21, m30);
    MulQuadLeft(m30, m12, m23, m01); QuadSwap01(m30, m12, m23, m01); QuadSwap12(m12, m30, m23, m01); QuadSwap23(m12, m23, m30, m01); QuadSwap12(m12, m23, m01, m30); QuadSwap01(m12, m01, m23, m30);
    MulQuadLeft(m30, m22, m03, m11); QuadSwap01(m30, m22, m03, m11); QuadSwap12(m22, m30, m03, m11); QuadSwap23(m22, m03, m30, m11); QuadSwap01(m22, m03, m11, m30); QuadSwap12(m03, m22, m11, m30);
    MulQuadLeft(m30, m02, m13, m21); QuadSwap01(m30, m02, m13, m21); QuadSwap12(m02, m30, m13, m21); QuadSwap23(m02, m13, m30, m21);
    DistALeft(m20, Mul(Mul(m22, m33), m11), Mul(Mul(m32, m13), m21), Mul(Mul(m12, m23), m31), Mul(Mul(m32, m23), m11), Mul(Mul(m12, m33), m21), Mul(Mul(m22, m13), m31));
    MulQuadLeft(m20, m22, m33, m11); QuadSwap23(m20, m22, m33, m11); QuadSwap12(m20, m22, m11, m33); QuadSwap01(m20, m11, m22, m33);
    MulQuadLeft(m20, m32, m13, m21); QuadSwap12(m20, m32, m13, m21); QuadSwap23(m20, m13, m32, m21); QuadSwap01(m20, m13, m21, m32);
    MulQuadLeft(m20, m12, m23, m31); QuadSwap01(m20, m12, m23, m31);
    MulQuadLeft(m20, m32, m23, m11); QuadSwap12(m20, m32, m23, m11); QuadSwap23(m20, m23, m32, m11); QuadSwap12(m20, m23, m11, m32); QuadSwap01(m20, m11, m23, m32);
    MulQuadLeft(m20, m12, m33, m21); QuadSwap01(m20, m12, m33, m21); QuadSwap23(m12, m20, m33, m21);
    MulQuadLeft(m20, m22, m13, m31); QuadSwap12(m20, m22, m13, m31); QuadSwap01(m20, m13, m22, m31);
    assert Mul(m20, Sub(Sub(Sub(Add(Add(Mul(Mul(m22, m33), m11), Mul(Mul(m32, m13), m21)), Mul(Mul(m12, m23), m31)), Mul(Mul(m32, m23), m11)), Mul(Mul(m12, m33), m21)), Mul(Mul(m22, m13), m31))) == Sub(Sub(Sub(Add(Add(Quad(m11, m20, m22, m33), Quad(m13, m20, m21, m32)), Quad(m12, m20, m23, m31)), Quad(m11, m20, m23, m32)), Quad(m12, m20, m21, m33)), Quad(m13, m20, m22, m31));
    DistALeft(m21, Mul(Mul(m32, m23), m10), Mul(Mul(m12, m33), m20), Mul(Mul(m22, m13), m30), Mul(Mul(m22, m33), m10), Mul(Mul(m32, m13), m20), Mul(Mul(m12, m23), m30));
    MulQuadLeft(m21, m32, m23, m10); QuadSwap12(m21, m32, m23, m10); QuadSwap23(m21, m23, m32, m10); QuadSwap12(m21, m23, m10, m32); QuadSwap01(m21, m10, m23, m32);
    MulQuadLeft(m21, m12, m33, m20); QuadSwap01(m21, m12, m33, m20); QuadSwap23(m12, m21, m33, m20); QuadSwap12(m12, m21, m20, m33);
    MulQuadLeft(m21, m22, m13, m30); QuadSwap12(m21, m22, m13, m30); QuadSwap01(m21, m13, m22, m30);
    MulQuadLeft(m21, m22, m33, m10); QuadSwap23(m21, m22, m33, m10); QuadSwap12(m21, m22, m10, m33); QuadSwap01(m21, m10, m22, m33);
    MulQuadLeft(m21, m32, m13, m20); QuadSwap12(m21, m32, m13, m20); QuadSwap23(m21, m13, m32, m20); QuadSwap01(m21, m13, m20, m32); QuadSwap12(m13, m21, m20, m32);
    MulQuadLeft(m21, m12, m23, m30); QuadSwap01(m21, m12, m23, m30);
    assert Mul(m21, Sub(Sub(Sub(Add(Add(Mul(Mul(m32, m23), m10), Mul(Mul(m12, m33), m20)), Mul(Mul(m22, m13), m30)), Mul(Mul(m22, m33), m10)), Mul(Mul(m32, m13), m20)), Mul(Mul(m12, m23), m30))) == Sub(Sub(Sub(Add(Add(Quad(m10, m21, m23, m32), Quad(m12, m20, m21, m33)), Quad(m13, m21, m22, m30)), Quad(m10, m21, m22, m33)), Quad(m13, m20, m21, m32)), Quad(m12, m21, m23, m30));
    DistBLeft(m22, Mul(Mul(m20, m31), m13), Mul(Mul(m30, m11), m23), Mul(Mul(m10, m21), m33), Mul(Mul(m30, m21), m13), Mul(Mul(m10, m31), m23), Mul(Mul(m20, m11), m33));
    MulQuadLeft(m22, m20, m31, m13); QuadSwap01(m22, m20, m31, m13); QuadSwap23(m20, m22, m31, m13); QuadSwap12(m20, m22, m13, m31); QuadSwap01(m20, m13, m22, m31);
    MulQuadLeft(m22, m30, m11, m23); QuadSwap12(m22, m30, m11, m23); QuadSwap23(m22, m11, m30, m23); QuadSwap01(m22, m11, m23, m30);
    MulQuadLeft(m22, m10, m21, m33); QuadSwap01(m22, m10, m21, m33); QuadSwap12(m10, m22, m21, m33);
    MulQuadLeft(m22, m30, m21, m13); QuadSwap12(m22, m30, m21, m13); QuadSwap23(m22, m21, m30, m13); QuadSwap01(m22, m21, m13, m30); QuadSwap12(m21, m22, m13, m30); QuadSwap01(m21, m13, m22, m30);
    MulQuadLeft(m22, m10, m31, m23); QuadSwap01(m22, m10, m31, m23); QuadSwap23(m10, m22, m31, m23);
    MulQuadLeft(m22, m20, m11, m33); QuadSwap01(m22, m20, m11, m33); QuadSwap12(m20, m22, m11, m33); QuadSwap01(m20, m11, m22, m33);
    assert Mul(m22, Sub(Add(Add(Mul(Mul(m20, m31), m13), Mul(Mul(m30, m11), m23)), Mul(Mul(m10, m21), m33)), Add(Add(Mul(Mul(m30, m21), m13), Mul(Mul(m10, m31), m23)), Mul(Mul(m20, m11), m33)))) == Sub(Sub(Sub(Add(Add(Quad(m13, m20, m22, m31), Quad(m11, m22, m23, m30)), Quad(m10, m21, m22, m33)), Quad(m13, m21, m22, m30)), Quad(m10, m22, m23, m31)), Quad(m11, m20, m22, m33));
    DistBLeft(m23, Mul(Mul(m10, m31), m22), Mul(Mul(m20, m11), m32), Mul(Mul(m30, m21), m12), Mul(Mul(m10, m21), m32), Mul(Mul(m20, m31), m12), Mul(Mul(m30, m11), m22));
    MulQuadLeft(m23, m10, m31, m22); QuadSwap01(m23, m10, m31, m22); QuadSwap23(m10, m23, m31, m22); QuadSwap12(m10, m23, m22, m31);
    MulQuadLeft(m23, m20, m11, m32); QuadSwap01(m23, m20, m11, m32); QuadSwap12(m20, m23, m11, m32); QuadSwap01(m20, m11, m23, m32);
    MulQuadLeft(m23, m30, m21, m12); QuadSwap12(m23, m30, m21, m12); QuadSwap23(m23, m21, m30, m12); QuadSwap01(m23, m21, m12, m30); QuadSwap12(m21, m23, m12, m30); QuadSwap01(m21, m12, m23, m30);
    MulQuadLeft(m23, m10, m21, m32); QuadSwap01(m23, m10, m21, m32); QuadSwap12(m10, m23, m21, m32);
    MulQuadLeft(m23, m20, m31, m12); QuadSwap01(m23, m20, m31, m12); QuadSwap23(m20, m23, m31, m12); QuadSwap12(m20, m23, m12, m31); QuadSwap01(m20, m12, m23, m31);
    MulQuadLeft(m23, m30, m11, m22); QuadSwap12(m23, m30, m11, m22); QuadSwap23(m23, m11, m30, m22); QuadSwap01(m23, m11, m22, m30); QuadSwap12(m11, m23, m22, m30);
    assert Mul(m23, Sub(Add(Add(Mul(Mul(m10, m31), m22), Mul(Mul(m20, m11), m32)), Mul(Mul(m30, m21), m12)), Add(Add(Mul(Mul(m10, m21), m32), Mul(Mul(m20, m31), m12)), Mul(Mul(m30, m11), m22)))) == Sub(Sub(Sub(Add(Add(Quad(m10, m22, m23, m31), Quad(m11, m20, m23, m32)), Quad(m12, m21, m23, m30)), Quad(m10, m21, m23, m32)), Quad(m12, m20, m23, m31)), Quad(m11, m22, m23, m30));
  }

  lemma RightEntry21(m00: Complex, m01: Complex, m02: Complex, m03: Complex, m10: Complex, m11: Complex, m12: Complex, m13: Complex, m20: Complex, m21: Complex, m22: Complex, m23: Complex, m30: Complex, m31: Complex, m32: Complex, m33: Complex)
    ensures Sum4(Mul(m20, Sub(Sub(Sub(Add(Add(Mul(Mul(m32, m23), m01), Mul(Mul(m02, m33), m21)), Mul(Mul(m22, m03), m31)), Mul(Mul(m22, m33), m01)), Mul(Mul(m32, m03), m21)), Mul(Mul(m02, m23), m31))), Mul(m21, Sub(Sub(Sub(Add(Add(Mul(Mul(m22, m33), m00), Mul(Mul(m32, m03), m20)), Mul(Mul(m02, m23), m30)), Mul(Mul(m32, m23), m00)), Mul(Mul(m02, m33), m20)), Mul(Mul(m22, m03), m30))), Mul(m22, Sub(Add(Add(Mul(Mul(m30, m21), m03), Mul(Mul(m00, m31), m23)), Mul(Mul(m20, m01), m33)), Add(Add(Mul(Mul(m20, m31), m03), Mul(Mul(m30, m01), m23)), Mul(Mul(m00, m21), m33)))), Mul(m23, Sub(Add(Add(Mul(Mul(m00, m21), m32), Mul(Mul(m20, m31), m02)), Mul(Mul(m30, m01), m22)), Add(Add(Mul(Mul(m00, m31), m22), Mul(Mul(m20, m01), m32)), Mul(Mul(m30, m21), m02)))))
         == Zero
  {
    DistALeft(m00, Mul(Mul(m22, m33), m11), Mul(Mul(m32, m13), m21), Mul(Mul(m12, m23), m31), Mul(Mul(m32, m23), m11), Mul(Mul(m12, m33), m21), Mul(Mul(m22, m13), m31));
    MulQuadLeft(m00, m22, m33, m11); QuadSwap23(m00, m22, m33, m11); QuadSwap12(m00, m22, m11, m33);
    MulQuadLeft(m00, m32, m13, m21); QuadSwap12(m00, m32, m13, m21); QuadSwap23(m00, m13, m32, m21);
    MulQuadLeft(m00, m12, m23, m31);
    MulQuadLeft(m00, m32, m23, m11); QuadSwap12(m00, m32, m23, m11); QuadSwap23(m00, m23, m32, m11); QuadSwap12(m00, m23, m11, m32);
    MulQuadLeft(m00, m12, m33, m21); QuadSwap23(m00, m12, m33, m21);
    MulQuadLeft(m00, m22, m13, m31); QuadSwap12(m00, m22, m13, m31);
    DistALeft(m10, Mul(Mul(m32, m23), m01), Mul(Mul(m02, m33), m21), Mul(Mul(m22, m03), m31), Mul(Mul(m22, m33), m01), Mul(Mul(m32, m03), m21), Mul(Mul(m02, m23), m31));
    MulQuadLeft(m10, m32, m23, m01); QuadSwap12(m10, m32, m23, m01); QuadSwap23(m10, m23, m32, m01); QuadSwap12(m10, m23, m01, m32); QuadSwap01(m10, m01, m23, m32);
    MulQuadLeft(m10, m02, m33, m21); QuadSwap01(m10, m02, m33, m21); QuadSwap23(m02, m10, m33, m21);
    MulQuadLeft(m10, m22, m03, m31); QuadSwap12(m10, m22, m03, m31); QuadSwap01(m10, m03, m22, m31);
    MulQuadLeft(m10, m22, m33, m01); QuadSwap23(m10, m22, m33, m01); QuadSwap12(m10, m22, m01, m33); QuadSwap01(m10, m01, m22, m33);
    MulQuadLeft(m10, m32, m03, m21); QuadSwap12(m10, m32, m03, m21); QuadSwap23(m10, m03, m32, m21); QuadSwap01(m10, m03, m21, m32);
    MulQuadLeft(m10, m02, m23, m31); QuadSwap01(m10, m02, m23, m31);
    DistALeft(m20, Mul(Mul(m12, m33), m01), Mul(Mul(m32, m03), m11), Mul(Mul(m02, m13), m31), Mul(Mul(m32, m13), m01), Mul(Mul(m02, m33), m11), Mul(Mul(m12, m03), m31));
    MulQuadLeft(m20, m12, m33, m01); QuadSwap01(m20, m12, m33, m01); QuadSwap23(m12, m20, m33, m01); QuadSwap12(m12, m20, m01, m33); QuadSwap01(m12, m01, m20, m33);
    MulQuadLeft(m20, m32, m03, m11); QuadSwap12(m20, m32, m03, m11); QuadSwap23(m20, m03, m32, m11); QuadSwap01(m20, m03, m11, m32); QuadSwap12(m03, m20, m11, m32);
    MulQuadLeft(m20, m02, m13, m31); QuadSwap01(m20, m02, m13, m31); QuadSwap12(m02, m20, m13, m31);
    MulQuadLeft(m20, m32, m13, m01); QuadSwap12(m20, m32, m13, m01); QuadSwap23(m20, m13, m32, m01); QuadSwap01(m20, m13, m01, m32); QuadSwap12(m13, m20, m01, m32); QuadSwap01(m13, m01, m20, m32);
    MulQuadLeft(m20, m02, m33, m11); QuadSwap01(m20, m02, m33, m11); QuadSwap23(m02, m20, m33, m11); QuadSwap12(m02, m20, m11, m33);
    MulQuadLeft(m20, m12, m03, m31); QuadSwap01(m20, m12, m03, m31); QuadSwap12(m12, m20, m03, m31); QuadSwap01(m12, m03, m20, m31);
    DistALeft(m30, Mul(Mul(m22, m13), m01), Mul(Mul(m02, m23), m11), Mul(Mul(m12, m03), m21), Mul(Mul(m12, m23), m01), Mul(Mul(m22, m03), m11), Mul(Mul(m02, m13), m21));
    MulQuadLeft(m30, m22, m13, m01); QuadSwap01(m30, m22, m13, m01); QuadSwap12(m22, m30, m13, m01); QuadSwap23(m22, m13, m30, m01); QuadSwap01(m22, m13, m01, m30); QuadSwap12(m13, m22, m01, m30); QuadSwap01(m13, m01, m22, m30);
    MulQuadLeft(m30, m02, m23, m11); QuadSwap01(m30, m02, m23, m11); QuadSwap12(m02, m30, m23, m11); QuadSwap23(m02, m23, m30, m11); QuadSwap12(m02, m23, m11, m30);
    MulQuadLeft(m30, m12, m03, m21); QuadSwap01(m30, m12, m03, m21); QuadSwap12(m12, m30, m03, m21); QuadSwap23(m12, m03, m30, m21); QuadSwap01(m12, m03, m21, m30);
    MulQuadLeft(m30, m12, m23, m01); QuadSwap01(m30, m12, m23, m01); QuadSwap12(m12, m30, m23, m01); QuadSwap23(m12, m23, m30, m01); QuadSwap12(m12, m23, m01, m30); QuadSwap01(m12, m01, m23, m30);
    MulQuadLeft(m30, m22, m03, m11); QuadSwap01(m30, m22, m03, m11); QuadSwap12(m22, m30, m03, m11); QuadSwap23(m22, m03, m30, m11); QuadSwap01(m22, m03, m11, m30); QuadSwap12(m03, m22, m11, m30);
    MulQuadLeft(m30, m02, m13, m21); QuadSwap01(m30, m02, m13, m21); QuadSwap12(m02, m30, m13, m21); QuadSwap23(m02, m13, m30, m21);
    DistALeft(m20, Mul(Mul(m32, m23), m01), Mul(Mul(m02, m33), m21), Mul(Mul(m22, m03), m31), Mul(Mul(m22, m33), m01), Mul(Mul(m32, m03), m21), Mul(Mul(m02, m23), m31));
    MulQuadLeft(m20, m32, m23, m01); QuadSwap12(m20, m32, m23, m01); QuadSwap23(m20, m23, m32, m01); QuadSwap12(m20, m23, m01, m32); QuadSwap01(m20, m01, m23, m32);
    MulQuadLeft(m20, m02, m33, m21); QuadSwap01(m20, m02, m33, m21); QuadSwap23(m02, m20, m33, m21);
    MulQuadLeft(m20, m22, m03, m31); QuadSwap12(m20, m22, m03, m31); QuadSwap01(m20, m03, m22, m31);
    MulQuadLeft(m20, m22, m33, m01); QuadSwap23(m20, m22, m33, m01); QuadSwap12(m20, m22, m01, m33); QuadSwap01(m20, m01, m22, m33);
    MulQuadLeft(m20, m32, m03, m21); QuadSwap12(m20, m32, m03, m21); QuadSwap23(m20, m03, m32, m21); QuadSwap01(m20, m03, m21, m32);
    MulQuadLeft(m20, m02, m23, m31); QuadSwap01(m20, m02, m23, m31);
    assert Mul(m20, Sub(Sub(Sub(Add(Add(Mul(Mul(m32, m23), m01), Mul(Mul(m02, m33), m21)), Mul(Mul(m22, m03), m31)), Mul(Mul(m22, m33), m01)), Mul(Mul(m32, m03), m21)), Mul(Mul(m02, m23), m31))) == Sub(Sub(Sub(Add(Add(Quad(m01, m20, m23, m32), Quad(m02, m20, m21, m33)), Quad(m03, m20, m22, m31)), Quad(m01, m20, m22, m33)), Quad(m03, m20, m21, m32)), Quad(m02, m20, m23, m31));
    DistALeft(m21, Mul(Mul(m22, m33), m00), Mul(Mul(m32, m03), m20), Mul(Mul(m02, m23), m30), Mul(Mul(m32, m23), m00), Mul(Mul(m02, m33), m20), Mul(Mul(m22, m03), m30));
    MulQuadLeft(m21, m22, m33, m00); QuadSwap23(m21, m22, m33, m00); QuadSwap12(m21, m22, m00, m33); QuadSwap01(m21, m00, m22, m33);
    MulQuadLeft(m21, m32, m03, m20); QuadSwap12(m21, m32, m03, m20); QuadSwap23(m21, m03, m32, m20); QuadSwap01(m21, m03, m20, m32); QuadSwap12(m03, m21, m20, m32);
    MulQuadLeft(m21, m02, m23, m30); QuadSwap01(m21, m02, m23, m30);
    MulQuadLeft(m21, m32, m23, m00); QuadSwap12(m21, m32, m23, m00); QuadSwap23(m21, m23, m32, m00); QuadSwap12(m21, m23, m00, m32); QuadSwap01(m21, m00, m23, m32);
    MulQuadLeft(m21, m02, m33, m20); QuadSwap01(m21, m02, m33, m20); QuadSwap23(m02, m21, m33, m20); QuadSwap12(m02, m21, m20, m33);
    MulQuadLeft(m21, m22, m03, m30); QuadSwap12(m21, m22, m03, m30); QuadSwap01(m21, m03, m22, m30);
    assert Mul(m21, Sub(Sub(Sub(Add(Add(Mul(Mul(m22, m33), m00), Mul(Mul(m32, m03), m20)), Mul(Mul(m02, m23), m30)), Mul(Mul(m32, m23), m00)), Mul(Mul(m02, m33), m20)), Mul(Mul(m22, m03), m30))) == Sub(Sub(Sub(Add(Add(Quad(m00, m21, m22, m33), Quad(m03, m20, m21, m32)), Quad(m02, m21, m23, m30)), Quad(m00, m21, m23, m32)), Quad(m02, m20, m21, m33)), Quad(m03, m21, m22, m30));
    DistBLeft(m22, Mul(Mul(m30, m21), m03), Mul(Mul(m00, m31), m23), Mul(Mul(m20, m01), m33), Mul(Mul(m20, m31), m03), Mul(Mul(m30, m01), m23), Mul(Mul(m00, m21), m33));
    MulQuadLeft(m22, m30, m21, m03); QuadSwap12(m22, m30, m21, m03); QuadSwap23(m22, m21, m30, m03); QuadSwap01(m22, m21, m03, m30); QuadSwap12(m21, m22, m03, m30); QuadSwap01(m21, m03, m22, m30);
    MulQuadLeft(m22, m00, m31, m23); QuadSwap01(m22, m00, m31, m23); QuadSwap23(m00, m22, m31, m23);
    MulQuadLeft(m22, m20, m01, m33); QuadSwap01(m22, m20, m01, m33); QuadSwap12(m20, m22, m01, m33); QuadSwap01(m20, m01, m22, m33);
    MulQuadLeft(m22, m20, m31, m03); QuadSwap01(m22, m20, m31, m03); QuadSwap23(m20, m22, m31, m03); QuadSwap12(m20, m22, m03, m31); QuadSwap01(m20, m03, m22, m31);
    MulQuadLeft(m22, m30, m01, m23); QuadSwap12(m22, m30, m01, m23); QuadSwap23(m22, m01, m30, m23); QuadSwap01(m22, m01, m23, m30);
    MulQuadLeft(m22, m00, m21, m33); QuadSwap01(m22, m00, m21, m33); QuadSwap12(m00, m22, m21, m33);
    assert Mul(m22, Sub(Add(Add(Mul(Mul(m30, m21), m03), Mul(Mul(m00, m31), m23)), Mul(Mul(m20, m01), m33)), Add(Add(Mul(Mul(m20, m31), m03), Mul(Mul(m30, m01), m23)), Mul(Mul(m00, m21), m33)))) == Sub(Sub(Sub(Add(Add(Quad(m03, m21, m22, m30), Quad(m00, m22, m23, m31)), Quad(m01, m20, m22, m33)), Quad(m03, m20, m22, m31)), Quad(m01, m22, m23, m30)), Quad(m00, m21, m22, m33));
    DistBLeft(m23, Mul(Mul(m00, m21), m32), Mul(Mul(m20, m31), m02), Mul(Mul(m30, m01), m22), Mul(Mul(m00, m31), m22), Mul(Mul(m20, m01), m32), Mul(Mul(m30, m21), m02));
    MulQuadLeft(m23, m00, m21, m32); QuadSwap01(m23, m00, m21, m32); QuadSwap12(m00, m23, m21, m32);
    MulQuadLeft(m23, m20, m31, m02); QuadSwap01(m23, m20, m31, m02); QuadSwap23(m20, m23, m31, m02); QuadSwap12(m20, m23, m02, m31); QuadSwap01(m20, m02, m23, m31);
    MulQuadLeft(m23, m30, m01, m22); QuadSwap12(m23, m30, m01, m22); QuadSwap23(m23, m01, m30, m22); QuadSwap01(m23, m01, m22, m30); QuadSwap12(m01, m23, m22, m30);
    MulQuadLeft(m23, m00, m31, m22); QuadSwap01(m23, m00, m31, m22); QuadSwap23(m00, m23, m31, m22); QuadSwap12(m00, m23, m22, m31);
    MulQuadLeft(m23, m20, m01, m32); QuadSwap01(m23, m20, m01, m32); QuadSwap12(m20, m23, m01, m32); QuadSwap01(m20, m01, m23, m32);
    MulQuadLeft(m23, m30, m21, m02); QuadSwap12(m23, m30, m21, m02); QuadSwap23(m23, m21, m30, m02); QuadSwap01(m23, m21, m02, m30); QuadSwap12(m21, m23, m02, m30); QuadSwap01(m21, m02, m23, m30);
    assert Mul(m23, Sub(Add(Add(Mul(Mul(m00, m21), m32), Mul(Mul(m20, m31), m02)), Mul(Mul(m30, m01), m22)), Add(Add(Mul(Mul(m00, m31), m22), Mul(Mul(m20, m01), m32)), Mul(Mul(m30, m21), m02)))) == Sub(Sub(Sub(Add(Add(Quad(m00, m21, m23, m32), Quad(m02, m20, m23, m31)), Quad(m01, m22, m23, m30)), Quad(m00, m22, m23, m31)), Quad(m01, m20, m23, m32)), Quad(m02, m21, m23, m30));
  }

  lemma RightEntry22(m00: Complex, m01: Complex, m02: Complex, m03: Complex, m10: Complex, m11: Complex, m12: Complex, m13: Complex, m20: Complex, m21: Complex, m22: Complex, m23: Complex, m30: Complex, m31: Complex, m32: Complex, m33: Complex)
    ensures Sum4(Mul(m20, Sub(Sub(Sub(Add(Add(Mul(Mul(m12, m33), m01), Mul(Mul(m32, m03), m11)), Mul(Mul(m02, m13), m31)), Mul(Mul(m32, m13), m01)), Mul(Mul(m02, m33), m11)), Mul(Mul(m12, m03), m31))), Mul(m21, Sub(Sub(Sub(Add(Add(Mul(Mul(m32, m13), m00), Mul(Mul(m02, m33), m10)), Mul(Mul(m12, m03), m30)), Mul(Mul(m12, m33), m00)), Mul(Mul(m32, m03), m10)), Mul(Mul(m02, m13), m30))), Mul(m22, Sub(Add(Add(Mul(Mul(m10, m31), m03), Mul(Mul(m30, m01), m13)), Mul(Mul(m00, m11), m33)), Add(Add(Mul(Mul(m30, m11), m03), Mul(Mul(m00, m31), m13)), Mul(Mul(m10, m01), m33)))), Mul(m23, Sub(Add(Add(Mul(Mul(m00, m31), m12), Mul(Mul(m10, m01), m32)), Mul(Mul(m30, m11), m02)), Add(Add(Mul(Mul(m00, m11), m32), Mul(Mul(m10, m31), m02)), Mul(Mul(m30, m01), m12)))))
         == DetOf(m00, m01, m02, m03, m10, m11, m12, m13, m20, m21, m22, m23, m30, m31, m32, m33)
  {
    DistALeft(m00, Mul(Mul(m22, m33), m11), Mul(Mul(m32, m13), m21), Mul(Mul(m12, m23), m31), Mul(Mul(m32, m23), m11), Mul(Mul(m12, m33), m21), Mul(Mul(m22, m13), m31));
    MulQuadLeft(m00, m22, m33, m11); QuadSwap23(m00, m22, m33, m11); QuadSwap12(m00, m22, m11, m33);
    MulQuadLeft(m00, m32, m13, m21); QuadSwap12(m00, m32, m13, m21); QuadSwap23(m00, m13, m32, m21);
    MulQuadLeft(m00, m12, m23, m31);
    MulQuadLeft(m00, m32, m23, m11); QuadSwap12(m00, m32, m23, m11); QuadSwap23(m00, m23, m32, m11); QuadSwap12(m00, m23, m11, m32);
    MulQuadLeft(m00, m12, m33, m21); QuadSwap23(m00, m12, m33, m21);
    MulQuadLeft(m00, m22, m13, m31); QuadSwap12(m00, m22, m13, m31);
    DistALeft(m10, Mul(Mul(m32, m23), m01), Mul(Mul(m02, m33), m21), Mul(Mul(m22, m03), m31), Mul(Mul(m22, m33), m01), Mul(Mul(m32, m03), m21), Mul(Mul(m02, m23), m31));
    MulQuadLeft(m10, m32, m23, m01); QuadSwap12(m10, m32, m23, m01); QuadSwap23(m10, m23, m32, m01); QuadSwap12(m10, m23, m01, m32); QuadSwap01(m10, m01, m23, m32);
    MulQuadLeft(m10, m02, m33, m21); QuadSwap01(m10, m02, m33, m21); QuadSwap23(m02, m10, m33, m21);
    MulQuadLeft(m10, m22, m03, m31); QuadSwap12(m10, m22, m03, m31); QuadSwap01(m10, m03, m22, m31);
    MulQuadLeft(m10, m22, m33, m01); QuadSwap23(m10, m22, m33, m01); QuadSwap12(m10, m22, m01, m33); QuadSwap01(m10, m01, m22, m33);
    MulQuadLeft(m10, m32, m03, m21); QuadSwap12(m10, m32, m03, m21); QuadSwap23(m10, m03, m32, m21); QuadSwap01(m10, m03, m21, m32);
    MulQuadLeft(m10, m02, m23, m31); QuadSwap01(m10, m02, m23, m31);
    DistALeft(m20, Mul(Mul(m12, m33), m01), Mul(Mul(m32, m03), m11), Mul(Mul(m02, m13), m31), Mul(Mul(m32, m13), m01), Mul(Mul(m02, m33), m11), Mul(Mul(m12, m03), m31));
    MulQuadLeft(m20, m12, m33, m01); QuadSwap01(m20, m12, m33, m01); QuadSwap23(m12, m20, m33, m01); QuadSwap12(m12, m20, m01, m33); QuadSwap01(m12, m01, m20, m33);
    MulQuadLeft(m20, m32, m03, m11); QuadSwap12(m20, m32, m03, m11); QuadSwap23(m20, m03, m32, m11); QuadSwap01(m20, m03, m11, m32); QuadSwap12(m03, m20, m11, m32);
    MulQuadLeft(m20, m02, m13, m31); QuadSwap01(m20, m02, m13, m31); QuadSwap12(m02, m20, m13, m31);
    MulQuadLeft(m20, m32, m13, m01); QuadSwap12(m20, m32, m13, m01); QuadSwap23(m20, m13, m32, m01); QuadSwap01(m20, m13, m01, m32); QuadSwap12(m13, m20, m01, m32); QuadSwap01(m13, m01, m20, m32);
    MulQuadLeft(m20, m02, m33, m11); QuadSwap01(m20, m02, m33, m11); QuadSwap23(m02, m20, m33, m11); QuadSwap12(m02, m20, m11, m33);
    MulQuadLeft(m20, m12, m03, m31); QuadSwap01(m20, m12, m03, m31); QuadSwap12(m12, m20, m03, m31); QuadSwap01(m12, m03, m20, m31);
    DistALeft(m30, Mul(Mul(m22, m13), m01), Mul(Mul(m02, m23), m11), Mul(Mul(m12, m03), m21), Mul(Mul(m12, m23), m01), Mul(Mul(m22, m03), m11), Mul(Mul(m02, m13), m21));
    MulQuadLeft(m30, m22, m13, m01); QuadSwap01(m30, m22, m13, m01); QuadSwap12(m22, m30, m13, m01); QuadSwap23(m22, m13, m30, m01); QuadSwap01(m22, m13, m01, m30); QuadSwap12(m13, m22, m01, m30); QuadSwap01(m13, m01, m22, m30);
    MulQuadLeft(m30, m02, m23, m11); QuadSwap01(m30, m02, m23, m11); QuadSwap12(m02, m30, m23, m11); QuadSwap23(m02, m23, m30, m11); QuadSwap12(m02, m23, m11, m30);
    MulQuadLeft(m30, m12, m03, m21); QuadSwap01(m30, m12, m03, m21); QuadSwap12(m12, m30, m03, m21); QuadSwap23(m12, m03, m30, m21); QuadSwap01(m12, m03, m21, m30);
    MulQuadLeft(m30, m12, m23, m01); QuadSwap01(m30, m12, m23, m01); QuadSwap12(m12, m30, m23, m01); QuadSwap23(m12, m23, m30, m01); QuadSwap12(m12, m23, m01, m30); QuadSwap01(m12, m01, m23, m30);
    MulQuadLeft(m30, m22, m03, m11); QuadSwap01(m30, m22, m03, m11); QuadSwap12(m22, m30, m03, m11); QuadSwap23(m22, m03, m30, m11); QuadSwap01(m22, m03, m11, m30); QuadSwap12(m03, m22, m11, m30);
    MulQuadLeft(m30, m02, m13, m21); QuadSwap01(m30, m02, m13, m21); QuadSwap12(m02, m30, m13, m21); QuadSwap23(m02, m13, m30, m21);
    DistALeft(m20, Mul(Mul(m12, m33), m01), Mul(Mul(m32, m03), m11), Mul(Mul(m02, m13), m31), Mul(Mul(m32, m13), m01), Mul(Mul(m02, m33), m11), Mul(Mul(m12, m03), m31));
    MulQuadLeft(m20, m12, m33, m01); QuadSwap01(m20, m12, m33, m01); QuadSwap23(m12, m20, m33, m01); QuadSwap12(m12, m20, m01, m33); QuadSwap01(m12, m01, m20, m33);
    MulQuadLeft(m20, m32, m03, m11); QuadSwap12(m20, m32, m03, m11); QuadSwap23(m20, m03, m32, m11); QuadSwap01(m20, m03, m11, m32); QuadSwap12(m03, m20, m11, m32);
    MulQuadLeft(m20, m02, m13, m31); QuadSwap01(m20, m02, m13, m31); QuadSwap12(m02, m20, m13, m31);
    MulQuadLeft(m20, m32, m13, m01); QuadSwap12(m20, m32, m13, m01); QuadSwap23(m20, m13, m32, m01); QuadSwap01(m20, m13, m01, m32); QuadSwap12(m13, m20, m01, m32); QuadSwap01(m13, m01, m20, m32);
    MulQuadLeft(m20, m02, m33, m11); QuadSwap01(m20, m02, m33, m11); QuadSwap23(m02, m20, m33, m11); QuadSwap12(m02, m20, m11, m33);
    MulQuadLeft(m20, m12, m03, m31); QuadSwap01(m20, m12, m03, m31); QuadSwap12(m12, m20, m03, m31); QuadSwap01(m12, m03, m20, m31);
    assert Mul(m20, Sub(Sub(Sub(Add(Add(Mul(Mul(m12, m33), m01), Mul(Mul(m32, m03), m11)), Mul(Mul(m02, m13), m31)), Mul(Mul(m32, m13), m01)), Mul(Mul(m02, m33), m11)), Mul(Mul(m12, m03), m31))) == Sub(Sub(Sub(Add(Add(Quad(m01, m12, m20, m33), Quad(m03, m11, m20, m32)), Quad(m02, m13, m20, m31)), Quad(m01, m13, m20, m32)), Quad(m02, m11, m20, m33)), Quad(m03, m12, m20, m31));
    DistALeft(m21, Mul(Mul(m32, m13), m00), Mul(Mul(m02, m33), m10), Mul(Mul(m12, m03), m30), Mul(Mul(m12, m33), m00), Mul(Mul(m32, m03), m10), Mul(Mul(m02, m13), m30));
    MulQuadLeft(m21, m32, m13, m00); QuadSwap12(m21, m32, m13, m00); QuadSwap23(m21, m13, m32, m00); QuadSwap01(m21, m13, m00, m32); QuadSwap12(m13, m21, m00, m32); QuadSwap01(m13, m00, m21, m32);
    MulQuadLeft(m21, m02, m33, m10); QuadSwap01(m21, m02, m33, m10); QuadSwap23(m02, m21, m33, m10); QuadSwap12(m02, m21, m10, m33);
    MulQuadLeft(m21, m12, m03, m30); QuadSwap01(m21, m12, m03, m30); QuadSwap12(m12, m21, m03, m30); QuadSwap01(m12, m03, m21, m30);
    MulQuadLeft(m21, m12, m33, m00); QuadSwap01(m21, m12, m33, m00); QuadSwap23(m12, m21, m33, m00); QuadSwap12(m12, m21, m00, m33); QuadSwap01(m12, m00, m21, m33);
    MulQuadLeft(m21, m32, m03, m10); QuadSwap12(m21, m32, m03, m10); QuadSwap23(m21, m03, m32, m10); QuadSwap01(m21, m03, m10, m32); QuadSwap12(m03, m21, m10, m32);
    MulQuadLeft(m21, m02, m13, m30); QuadSwap01(m21, m02, m13, m30); QuadSwap12(m02, m21, m13, m30);
    assert Mul(m21, Sub(Sub(Sub(Add(Add(Mul(Mul(m32, m13), m00), Mul(Mul(m02, m33), m10)), Mul(Mul(m12, m03), m30)), Mul(Mul(m12, m33), m00)), Mul(Mul(m32, m03), m10)), Mul(Mul(m02, m13), m30))) == Sub(Sub(Sub(Add(Add(Quad(m00, m13, m21, m32), Quad(m02, m10, m21, m33)), Quad(m03, m12, m21, m30)), Quad(m00, m12, m21, m33)), Quad(m03, m10, m21, m32)), Quad(m02, m13, m21, m30));
    DistBLeft(m22, Mul(Mul(m10, m31), m03), Mul(Mul(m30, m01), m13), Mul(Mul(m00, m11), m33), Mul(Mul(m30, m11), m03), Mul(Mul(m00, m31), m13), Mul(Mul(m10, m01), m33));
    MulQuadLeft(m22, m10, m31, m03); QuadSwap01(m22, m10, m31, m03); QuadSwap23(m10, m22, m31, m03); QuadSwap12(m10, m22, m03, m31); QuadSwap01(m10, m03, m22, m31);
    MulQuadLeft(m22, m30, m01, m13); QuadSwap12(m22, m30, m01, m13); QuadSwap23(m22, m01, m30, m13); QuadSwap01(m22, m01, m13, m30); QuadSwap12(m01, m22, m13, m30);
    MulQuadLeft(m22, m00, m11, m33); QuadSwap01(m22, m00, m11, m33); QuadSwap12(m00, m22, m11, m33);
    MulQuadLeft(m22, m30, m11, m03); QuadSwap12(m22, m30, m11, m03); QuadSwap23(m22, m11, m30, m03); QuadSwap01(m22, m11, m03, m30); QuadSwap12(m11, m22, m03, m30); QuadSwap01(m11, m03, m22, m30);
    MulQuadLeft(m22, m00, m31, m13); QuadSwap01(m22, m00, m31, m13); QuadSwap23(m00, m22, m31, m13); QuadSwap12(m00, m22, m13, m31);
    MulQuadLeft(m22, m10, m01, m33); QuadSwap01(m22, m10, m01, m33); QuadSwap12(m10, m22, m01, m33); QuadSwap01(m10, m01, m22, m33);
    assert Mul(m22, Sub(Add(Add(Mul(Mul(m10, m31), m03), Mul(Mul(m30, m01), m13)), Mul(Mul(m00, m11), m33)), Add(Add(Mul(Mul(m30, m11), m03), Mul(Mul(m00, m31), m13)), Mul(Mul(m10, m01), m33)))) == Sub(Sub(Sub(Add(Add(Quad(m03, m10, m22, m31), Quad(m01, m13, m22, m30)), Quad(m00, m11, m22, m33)), Quad(m03, m11, m22, m30)), Quad(m00, m13, m22, m31)), Quad(m01, m10, m22, m33));
    DistBLeft(m23, Mul(Mul(m00, m31), m12), Mul(Mul(m10, m01), m32), Mul(Mul(m30, m11), m02), Mul(Mul(m00, m11), m32), Mul(Mul(m10, m31), m02), Mul(Mul(m30, m01), m12));
    MulQuadLeft(m23, m00, m31, m12); QuadSwap01(m23, m00, m31, m12); QuadSwap23(m00, m23, m31, m12); QuadSwap12(m00, m23, m12, m31);
    MulQuadLeft(m23, m10, m01, m32); QuadSwap01(m23, m10, m01, m32); QuadSwap12(m10, m23, m01, m32); QuadSwap01(m10, m01, m23, m32);
    MulQuadLeft(m23, m30, m11, m02); QuadSwap12(m23, m30, m11, m02); QuadSwap23(m23, m11, m30, m02); QuadSwap01(m23, m11, m02, m30); QuadSwap12(m11, m23, m02, m30); QuadSwap01(m11, m02, m23, m30);
    MulQuadLeft(m23, m00, m11, m32); QuadSwap01(m23, m00, m11, m32); QuadSwap12(m00, m23, m11, m32);
    MulQuadLeft(m23, m10, m31, m02); QuadSwap01(m23, m10, m31, m02); QuadSwap23(m10, m23, m31, m02); QuadSwap12(m10, m23, m02, m31); QuadSwap01(m10, m02, m23, m31);
    MulQuadLeft(m23, m30, m01, m12); QuadSwap12(m23, m30, m01, m12); QuadSwap23(m23, m01, m30, m12); QuadSwap01(m23, m01, m12, m30); QuadSwap12(m01, m23, m12, m30);
    assert Mul(m23, Sub(Add(Add(Mul(Mul(m00, m31), m12), Mul(Mul(m10, m01), m32)), Mul(Mul(m30, m11), m02)), Add(Add(Mul(Mul(m00, m11), m32), Mul(Mul(m10, m31), m02)), Mul(Mul(m30, m01), m12)))) == Sub(Sub(Sub(Add(Add(Quad(m00, m12, m23, m31), Quad(m01, m10, m23, m32)), Quad(m02, m11, m23, m30)), Quad(m00, m11, m23, m32)), Quad(m02, m10, m23, m31)), Quad(m01, m12, m23, m30));
  }

  lemma RightEntry23(m00: Complex, m01: Complex, m02: Complex, m03: Complex, m10: Complex, m11: Complex, m12: Complex, m13: Complex, m20: Complex, m21: Complex, m22: Complex, m23: Complex, m30: Complex, m31: Complex, m32: Complex, m33: Complex)
    ensures Sum4(Mul(m20, Sub(Sub(Sub(Add(Add(Mul(Mul(m22, m13), m01), Mul(Mul(m02, m23), m11)), Mul(Mul(m12, m03), m21)), Mul(Mul(m12, m23), m01)), Mul(Mul(m22, m03), m11)), Mul(Mul(m02, m13), m21))), Mul(m21, Sub(Sub(Sub(Add(Add(Mul(Mul(m12, m23), m00), Mul(Mul(m22, m03), m10)), Mul(Mul(m02, m13), m20)), Mul(Mul(m22, m13), m00)), Mul(Mul(m02, m23), m10)), Mul(Mul(m12, m03), m20))), Mul(m22, Sub(Add(Add(Mul(Mul(m20, m11), m03), Mul(Mul(m00, m21), m13)), Mul(Mul(m10, m01), m23)), Add(Add(Mul(Mul(m10, m21), m03), Mul(Mul(m20, m01), m13)), Mul(Mul(m00, m11), m23)))), Mul(m23, Sub(Add(Add(Mul(Mul(m00, m11), m22), Mul(Mul(m10, m21), m02)), Mul(Mul(m20, m01), m12)), Add(Add(Mul(Mul(m00, m21), m12), Mul(Mul(m10, m01), m22)), Mul(Mul(m20, m11), m02)))))
         == Zero
  {
    DistALeft(m00, Mul(Mul(m22, m33), m11), Mul(Mul(m32, m13), m21), Mul(Mul(m12, m23), m31), Mul(Mul(m32, m23), m11), Mul(Mul(m12, m33), m21), Mul(Mul(m22, m13), m31));
    MulQuadLeft(m00, m22, m33, m11); QuadSwap23(m00, m22, m33, m11); QuadSwap12(m00, m22, m11, m33);
    MulQuadLeft(m00, m32, m13, m21); QuadSwap12(m00, m32, m13, m21); QuadSwap23(m00, m13, m32, m21);
    MulQuadLeft(m00, m12, m23, m31);
    MulQuadLeft(m00, m32, m23, m11); QuadSwap12(m00, m32, m23, m11); QuadSwap23(m00, m23, m32, m11); QuadSwap12(m00, m23, m11, m32);
    MulQuadLeft(m00, m12, m33, m21); QuadSwap23(m00, m12, m33, m21);
    MulQuadLeft(m00, m22, m13, m31); QuadSwap12(m00, m22, m13, m31);
    DistALeft(m10, Mul(Mul(m32, m23), m01), Mul(Mul(m02, m33), m21), Mul(Mul(m22, m03), m31), Mul(Mul(m22, m33), m01), Mul(Mul(m32, m03), m21), Mul(Mul(m02, m23), m31));
    MulQuadLeft(m10, m32, m23, m01); QuadSwap12(m10, m32, m23, m01); QuadSwap23(m10, m23, m32, m01); QuadSwap12(m10, m23, m01, m32); QuadSwap01(m10, m01, m23, m32);
    MulQuadLeft(m10, m02, m33, m21); QuadSwap01(m10, m02, m33, m21); QuadSwap23(m02, m10, m33, m21);
    MulQuadLeft(m10, m22, m03, m31); QuadSwap12(m10, m22, m03, m31); QuadSwap01(m10, m03, m22, m31);
    MulQuadLeft(m10, m22, m33, m01); QuadSwap23(m10, m22, m33, m01); QuadSwap12(m10, m22, m01, m33); QuadSwap01(m10, m01, m22, m33);
    MulQuadLeft(m10, m32, m03, m21); QuadSwap12(m10, m32, m03, m21); QuadSwap23(m10, m03, m32, m21); QuadSwap01(m10, m03, m21, m32);
    MulQuadLeft(m10, m02, m23, m31); QuadSwap01(m10, m02, m23, m31);
    DistALeft(m20, Mul(Mul(m12, m33), m01), Mul(Mul(m32, m03), m11), Mul(Mul(m02, m13), m31), Mul(Mul(m32, m13), m01), Mul(Mul(m02, m33), m11), Mul(Mul(m12, m03), m31));
    MulQuadLeft(m20, m12, m33, m01); QuadSwap01(m20, m12, m33, m01); QuadSwap23(m12, m20, m33, m01); QuadSwap12(m12, m20, m01, m33); QuadSwap01(m12, m01, m20, m33);
    MulQuadLeft(m20, m32, m03, m11); QuadSwap12(m20, m32, m03, m11); QuadSwap23(m20, m03, m32, m11); QuadSwap01(m20, m03, m11, m32); QuadSwap12(m03, m20, m11, m32);
    MulQuadLeft(m20, m02, m13, m31); QuadSwap01(m20, m02, m13, m31); QuadSwap12(m02, m20, m13, m31);
    MulQuadLeft(m20, m32, m13, m01); QuadSwap12(m20, m32, m13, m01); QuadSwap23(m20, m13, m32, m01); QuadSwap01(m20, m13, m01, m32); QuadSwap12(m13, m20, m01, m32); QuadSwap01(m13, m01, m20, m32);
    MulQuadLeft(m20, m02, m33, m11); QuadSwap01(m20, m02, m33, m11); QuadSwap23(m02, m20, m33, m11); QuadSwap12(m02, m20, m11, m33);
    MulQuadLeft(m20, m12, m03, m31); QuadSwap01(m20, m12, m03, m31); QuadSwap12(m12, m20, m03, m31); QuadSwap01(m12, m03, m20, m31);
    DistALeft(m30, Mul(Mul(m22, m13), m01), Mul(Mul(m02, m23), m11), Mul(Mul(m12, m03), m21), Mul(Mul(m12, m23), m01), Mul(Mul(m22, m03), m11), Mul(Mul(m02, m13), m21));
    MulQuadLeft(m30, m22, m13, m01); QuadSwap01(m30, m22, m13, m01); QuadSwap12(m22, m30, m13, m01); QuadSwap23(m22, m13, m30, m01); QuadSwap01(m22, m13, m01, m30); QuadSwap12(m13, m22, m01, m30); QuadSwap01(m13, m01, m22, m30);
    MulQuadLeft(m30, m02, m23, m11); QuadSwap01(m30, m02, m23, m11); QuadSwap12(m02, m30, m23, m11); QuadSwap23(m02, m23, m30, m11); QuadSwap12(m02, m23, m11, m30);
    MulQuadLeft(m30, m12, m03, m21); QuadSwap01(m30, m12, m03, m21); QuadSwap12(m12, m30, m03, m21); QuadSwap23(m12, m03, m30, m21); QuadSwap01(m12, m03, m21, m30);
    MulQuadLeft(m30, m12, m23, m01); QuadSwap01(m30, m12, m23, m01); QuadSwap12(m12, m30, m23, m01); QuadSwap23(m12, m23, m30, m01); QuadSwap12(m12, m23, m01, m30); QuadSwap01(m12, m01, m23, m30);
    MulQuadLeft(m30, m22, m03, m11); QuadSwap01(m30, m22, m03, m11); QuadSwap12(m22, m30, m03, m11); QuadSwap23(m22, m03, m30, m11); QuadSwap01(m22, m03, m11, m30); QuadSwap12(m03, m22, m11, m30);
    MulQuadLeft(m30, m02, m13, m21); QuadSwap01(m30, m02, m13, m21); QuadSwap12(m02, m30, m13, m21); QuadSwap23(m02, m13, m30, m21);
    DistALeft(m20, Mul(Mul(m22, m13), m01), Mul(Mul(m02, m23), m11), Mul(Mul(m12, m03), m21), Mul(Mul(m12, m23), m01), Mul(Mul(m22, m03), m11), Mul(Mul(m02, m13), m21));
    MulQuadLeft(m20, m22, m13, m01); QuadSwap12(m20, m22, m13, m01); QuadSwap23(m20, m13, m22, m01); QuadSwap01(m20, m13, m01, m22); QuadSwap12(m13, m20, m01, m22); QuadSwap01(m13, m01, m20, m22);
    MulQuadLeft(m20, m02, m23, m11); QuadSwap01(m20, m02, m23, m11); QuadSwap23(m02, m20, m23, m11); QuadSwap12(m02, m20, m11, m23);
    MulQuadLeft(m20, m12, m03, m21); QuadSwap01(m20, m12, m03, m21); QuadSwap12(m12, m20, m03, m21); QuadSwap01(m12, m03, m20, m21);
    MulQuadLeft(m20, m12, m23, m01); QuadSwap01(m20, m12, m23, m01); QuadSwap23(m12, m20, m23, m01); QuadSwap12(m12, m20, m01, m23); QuadSwap01(m12, m01, m20, m23);
    MulQuadLeft(m20, m22, m03, m11); QuadSwap12(m20, m22, m03, m11); QuadSwap23(m20, m03, m22, m11); QuadSwap01(m20, m03, m11, m22); QuadSwap12(m03, m20, m11, m22);
    MulQuadLeft(m20, m02, m13, m21); QuadSwap01(m20, m02, m13, m21); QuadSwap12(m02, m20, m13, m21);
    assert Mul(m20, Sub(Sub(Sub(Add(Add(Mul(Mul(m22, m13), m01), Mul(Mul(m02, m23), m11)), Mul(Mul(m12, m03), m21)), Mul(Mul(m12, m23), m01)), Mul(Mul(m22, m03), m11)), Mul(Mul(m02, m13), m21))) == Sub(Sub(Sub(Add(Add(Quad(m01, m13, m20, m22), Quad(m02, m11, m20, m23)), Quad(m03, m12, m20, m21)), Quad(m01, m12, m20, m23)), Quad(m03, m11, m20, m22)), Quad(m02, m13, m20, m21));
    DistALeft(m21, Mul(Mul(m12, m23), m00), Mul(Mul(m22, m03), m10), Mul(Mul(m02, m13), m20), Mul(Mul(m22, m13), m00), Mul(Mul(m02, m23), m10), Mul(Mul(m12, m03), m20));
    MulQuadLeft(m21, m12, m23, m00); QuadSwap01(m21, m12, m23, m00); QuadSwap23(m12, m21, m23, m00); QuadSwap12(m12, m21, m00, m23); QuadSwap01(m12, m00, m21, m23);
    MulQuadLeft(m21, m22, m03, m10); QuadSwap12(m21, m22, m03, m10); QuadSwap23(m21, m03, m22, m10); QuadSwap01(m21, m03, m10, m22); QuadSwap12(m03, m21, m10, m22);
    MulQuadLeft(m21, m02, m13, m20); QuadSwap01(m21, m02, m13, m20); QuadSwap12(m02, m21, m13, m20); QuadSwap23(m02, m13, m21, m20);
    MulQuadLeft(m21, m22, m13, m00); QuadSwap12(m21, m22, m13, m00); QuadSwap23(m21, m13, m22, m00); QuadSwap01(m21, m13, m00, m22); QuadSwap12(m13, m21, m00, m22); QuadSwap01(m13, m00, m21, m22);
    MulQuadLeft(m21, m02, m23, m10); QuadSwap01(m21, m02, m23, m10); QuadSwap23(m02, m21, m23, m10); QuadSwap12(m02, m21, m10, m23);
    MulQuadLeft(m21, m12, m03, m20); QuadSwap01(m21, m12, m03, m20); QuadSwap12(m12, m21, m03, m20); QuadSwap23(m12, m03, m21, m20); QuadSwap01(m12, m03, m20, m21);
    assert Mul(m21, Sub(Sub(Sub(Add(Add(Mul(Mul(m12, m23), m00), Mul(Mul(m22, m03), m10)), Mul(Mul(m02, m13), m20)), Mul(Mul(m22, m13), m00)), Mul(Mul(m02, m23), m10)), Mul(Mul(m12, m03), m20))) == Sub(Sub(Sub(Add(Add(Quad(m00, m12, m21, m23), Quad(m03, m10, m21, m22)), Quad(m02, m13, m20, m21)), Quad(m00, m13, m21, m22)), Quad(m02, m10, m21, m23)), Quad(m03, m12, m20, m21));
    DistBLeft(m22, Mul(Mul(m20, m11), m03), Mul(Mul(m00, m21), m13), Mul(Mul(m10, m01), m23), Mul(Mul(m10, m21), m03), Mul(Mul(m20, m01), m13), Mul(Mul(m00, m11), m23));
    MulQuadLeft(m22, m20, m11, m03); QuadSwap01(m22, m20, m11, m03); QuadSwap12(m20, m22, m11, m03); QuadSwap23(m20, m11, m22, m03); QuadSwap01(m20, m11, m03, m22); QuadSwap12(m11, m20, m03, m22); QuadSwap01(m11, m03, m20, m22);
    MulQuadLeft(m22, m00, m21, m13); QuadSwap01(m22, m00, m21, m13); QuadSwap12(m00, m22, m21, m13); QuadSwap23(m00, m21, m22, m13); QuadSwap12(m00, m21, m13, m22);
    MulQuadLeft(m22, m10, m01, m23); QuadSwap01(m22, m10, m01, m23); QuadSwap12(m10, m22, m01, m23); QuadSwap01(m10, m01, m22, m23);
    MulQuadLeft(m22, m10, m21, m03); QuadSwap01(m22, m10, m21, m03); QuadSwap12(m10, m22, m21, m03); QuadSwap23(m10, m21, m22, m03); QuadSwap12(m10, m21, m03, m22); QuadSwap01(m10, m03, m21, m22);
    MulQuadLeft(m22, m20, m01, m13); QuadSwap01(m22, m20, m01, m13); QuadSwap12(m20, m22, m01, m13); QuadSwap23(m20, m01, m22, m13); QuadSwap01(m20, m01, m13, m22); QuadSwap12(m01, m20, m13, m22);
    MulQuadLeft(m22, m00, m11, m23); QuadSwap01(m22, m00, m11, m23); QuadSwap12(m00, m22, m11, m23);
    assert Mul(m22, Sub(Add(Add(Mul(Mul(m20, m11), m03), Mul(Mul(m00, m21), m13)), Mul(Mul(m10, m01), m23)), Add(Add(Mul(Mul(m10, m21), m03), Mul(Mul(m20, m01), m13)), Mul(Mul(m00, m11), m23)))) == Sub(Sub(Sub(Add(Add(Quad(m03, m11, m20, m22), Quad(m00, m13, m21, m22)), Quad(m01, m10, m22, m23)), Quad(m03, m10, m21, m22)), Quad(m01, m13, m20, m22)), Quad(m00, m11, m22, m23));
    DistBLeft(m23, Mul(Mul(m00, m11), m22), Mul(Mul(m10, m21), m02), Mul(Mul(m20, m01), m12), Mul(Mul(m00, m21), m12), Mul(Mul(m10, m01), m22), Mul(Mul(m20, m11), m02));
    MulQuadLeft(m23, m00, m11, m22); QuadSwap01(m23, m00, m11, m22); QuadSwap12(m00, m23, m11, m22); QuadSwap23(m00, m11, m23, m22);
    MulQuadLeft(m23, m10, m21, m02); QuadSwap01(m23, m10, m21, m02); QuadSwap12(m10, m23, m21, m02); QuadSwap23(m10, m21, m23, m02); QuadSwap12(m10, m21, m02, m23); QuadSwap01(m10, m02, m21, m23);
    MulQuadLeft(m23, m20, m01, m12); QuadSwap01(m23, m20, m01, m12); QuadSwap12(m20, m23, m01, m12); QuadSwap23(m20, m01, m23, m12); QuadSwap01(m20, m01, m12, m23); QuadSwap12(m01, m20, m12, m23);
    MulQuadLeft(m23, m00, m21, m12); QuadSwap01(m23, m00, m21, m12); QuadSwap12(m00, m23, m21, m12); QuadSwap23(m00, m21, m23, m12); QuadSwap12(m00, m21, m12, m23);
    MulQuadLeft(m23, m10, m01, m22); QuadSwap01(m23, m10, m01, m22); QuadSwap12(m10, m23, m01, m22); QuadSwap23(m10, m01, m23, m22); QuadSwap01(m10, m01, m22, m23);
    MulQuadLeft(m23, m20, m11, m02); QuadSwap01(m23, m20, m11, m02); QuadSwap12(m20, m23, m11, m02); QuadSwap23(m20, m11, m23, m02); QuadSwap01(m20, m11, m02, m23); QuadSwap12(m11, m20, m02, m23); QuadSwap01(m11, m02, m20, m23);
    assert Mul(m23, Sub(Add(Add(Mul(Mul(m00, m11), m22), Mul(Mul(m10, m21), m02)), Mul(Mul(m20, m01), m12)), Add(Add(Mul(Mul(m00, m21), m12), Mul(Mul(m10, m01), m22)), Mul(Mul(m20, m11), m02)))) == Sub(Sub(Sub(Add(Add(Quad(m00, m11, m22, m23), Quad(m02, m10, m21, m23)), Quad(m01, m12, m20, m23)), Quad(m00, m12, m21, m23)), Quad(m01, m10, m22, m23)), Quad(m02, m11, m20, m23));
  }

  lemma RightEntry30(m00: Complex, m01: Complex, m02: Complex, m03: Complex, m10: Complex, m11: Complex, m12: Complex, m13: Complex, m20: Complex, m21: Complex, m22: Complex, m23: Complex, m30: Complex, m31: Complex, m32: Complex, m33: Complex)
    ensures Sum4(Mul(m30, Sub(Sub(Sub(Add(Add(Mul(Mul(m22, m33), m11), Mul(Mul(m32, m13), m21)), Mul(Mul(m12, m23), m31)), Mul(Mul(m32, m23), m11)), Mul(Mul(m12, m33), m21)), Mul(Mul(m22, m13), m31))), Mul(m31, Sub(Sub(Sub(Add(Add(Mul(Mul(m32, m23), m10), Mul(Mul(m12, m33), m20)), Mul(Mul(m22, m13), m30)), Mul(Mul(m22, m33), m10)), Mul(Mul(m32, m13), m20)), Mul(Mul(m12, m23), m30))), Mul(m32, Sub(Add(Add(Mul(Mul(m20, m31), m13), Mul(Mul(m30, m11), m23)), Mul(Mul(m10, m21), m33)), Add(Add(Mul(Mul(m30, m21), m13), Mul(Mul(m10, m31), m23)), Mul(Mul(m20, m11), m33)))), Mul(m33, Sub(Add(Add(Mul(Mul(m10, m31), m22), Mul(Mul(m20, m11), m32)), Mul(Mul(m30, m21), m12)), Add(Add(Mul(Mul(m10, m21), m32), Mul(Mul(m20, m31), m12)), Mul(Mul(m30, m11), m22)))))
         == Zero
  {
    DistALeft(m00, Mul(Mul(m22, m33), m11), Mul(Mul(m32, m13), m21), Mul(Mul(m12, m23), m31), Mul(Mul(m32, m23), m11), Mul(Mul(m12, m33), m21), Mul(Mul(m22, m13), m31));
    MulQuadLeft(m00, m22, m33, m11); QuadSwap23(m00, m22, m33, m11); QuadSwap12(m00, m22, m11, m33);
    MulQuadLeft(m00, m32, m13, m21); QuadSwap12(m00, m32, m13, m21); QuadSwap23(m00, m13, m32, m21);
    MulQuadLeft(m00, m12, m23, m31);
    MulQuadLeft(m00, m32, m23, m11); QuadSwap12(m00, m32, m23, m11); QuadSwap23(m00, m23, m32, m11); QuadSwap12(m00, m23, m11, m32);
    MulQuadLeft(m00, m12, m33, m21); QuadSwap23(m00, m12, m33, m21);
    MulQuadLeft(m00, m22, m13, m31); QuadSwap12(m00, m22, m13, m31);
    DistALeft(m10, Mul(Mul(m32, m23), m01), Mul(Mul(m02, m33), m21), Mul(Mul(m22, m03), m31), Mul(Mul(m22, m33), m01), Mul(Mul(m32, m03), m21), Mul(Mul(m02, m23), m31));
    MulQuadLeft(m10, m32, m23, m01); QuadSwap12(m10, m32, m23, m01); QuadSwap23(m10, m23, m32, m01); QuadSwap12(m10, m23, m01, m32); QuadSwap01(m10, m01, m23, m32);
    MulQuadLeft(m10, m02, m33, m21); QuadSwap01(m10, m02, m33, m21); QuadSwap23(m02, m10, m33, m21);
    MulQuadLeft(m10, m22, m03, m31); QuadSwap12(m10, m22, m03, m31); QuadSwap01(m10, m03, m22, m31);
    MulQuadLeft(m10, m22, m33, m01); QuadSwap23(m10, m22, m33, m01); QuadSwap12(m10, m22, m01, m33); QuadSwap01(m10, m01, m22, m33);
    MulQuadLeft(m10, m32, m03, m21); QuadSwap12(m10, m32, m03, m21); QuadSwap23(m10, m03, m32, m21); QuadSwap01(m10, m03, m21, m32);
    MulQuadLeft(m10, m02, m23, m31); QuadSwap01(m10, m02, m23, m31);
    DistALeft(m20, Mul(Mul(m12, m33), m01), Mul(Mul(m32, m03), m11), Mul(Mul(m02, m13), m31), Mul(Mul(m32, m13), m01), Mul(Mul(m02, m33), m11), Mul(Mul(m12, m03), m31));
    MulQuadLeft(m20, m12, m33, m01); QuadSwap01(m20, m12, m33, m01); QuadSwap23(m12, m20, m33, m01); QuadSwap12(m12, m20, m01, m33); QuadSwap01(m12, m01, m20, m33);
    MulQuadLeft(m20, m32, m03, m11); QuadSwap12(m20, m32, m03, m11); QuadSwap23(m20, m03, m32, m11); QuadSwap01(m20, m03, m11, m32); QuadSwap12(m03, m20, m11, m32);
    MulQuadLeft(m20, m02, m13, m31); QuadSwap01(m20, m02, m13, m31); QuadSwap12(m02, m20, m13, m31);
    MulQuadLeft(m20, m32, m13, m01); QuadSwap12(m20, m32, m13, m01); QuadSwap23(m20, m13, m32, m01); QuadSwap01(m20, m13, m01, m32); QuadSwap12(m13, m20, m01, m32); QuadSwap01(m13, m01, m20, m32);
    MulQuadLeft(m20, m02, m33, m11); QuadSwap01(m20, m02, m33, m11); QuadSwap23(m02, m20, m33, m11); QuadSwap12(m02, m20, m11, m33);
    MulQuadLeft(m20, m12, m03, m31); QuadSwap01(m20, m12, m03, m31); QuadSwap12(m12, m20, m03, m31); QuadSwap01(m12, m03, m20, m31);
    DistALeft(m30, Mul(Mul(m22, m13), m01), Mul(Mul(m02, m23), m11), Mul(Mul(m12, m03), m21), Mul(Mul(m12, m23), m01), Mul(Mul(m22, m03), m11), Mul(Mul(m02, m13), m21));
    MulQuadLeft(m30, m22, m13, m01); QuadSwap01(m30, m22, m13, m01); QuadSwap12(m22, m30, m13, m01); QuadSwap23(m22, m13, m30, m01); QuadSwap01(m22, m13, m01, m30); QuadSwap12(m13, m22, m01, m30); QuadSwap01(m13, m01, m22, m30);
    MulQuadLeft(m30, m02, m23, m11); QuadSwap01(m30, m02, m23, m11); QuadSwap12(m02, m30, m23, m11); QuadSwap23(m02, m23, m30, m11); QuadSwap12(m02, m23, m11, m30);
    MulQuadLeft(m30, m12, m03, m21); QuadSwap01(m30, m12, m03, m21); QuadSwap12(m12, m30, m03, m21); QuadSwap23(m12, m03, m30, m21); QuadSwap01(m12, m03, m21, m30);
    MulQuadLeft(m30, m12, m23, m01); QuadSwap01(m30, m12, m23, m01); QuadSwap12(m12, m30, m23, m01); QuadSwap23(m12, m23, m30, m01); QuadSwap12(m12, m23, m01, m30); QuadSwap01(m12, m01, m23, m30);
    MulQuadLeft(m30, m22, m03, m11); QuadSwap01(m30, m22, m03, m11); QuadSwap12(m22, m30, m03, m11); QuadSwap23(m22, m03, m30, m11); QuadSwap01(m22, m03, m11, m30); QuadSwap12(m03, m22, m11, m30);
    MulQuadLeft(m30, m02, m13, m21); QuadSwap01(m30, m02, m13, m21); QuadSwap12(m02, m30, m13, m21); QuadSwap23(m02, m13, m30, m21);
    DistALeft(m30, Mul(Mul(m22, m33), m11), Mul(Mul(m32, m13), m21), Mul(Mul(m12, m23), m31), Mul(Mul(m32, m23), m11), Mul(Mul(m12, m33), m21), Mul(Mul(m22, m13), m31));
    MulQuadLeft(m30, m22, m33, m11); QuadSwap01(m30, m22, m33, m11); QuadSwap23(m22, m30, m33, m11); QuadSwap12(m22, m30, m11, m33); QuadSwap01(m22, m11, m30, m33);
    MulQuadLeft(m30, m32, m13, m21); QuadSwap12(m30, m32, m13, m21); QuadSwap23(m30, m13, m32, m21); QuadSwap01(m30, m13, m21, m32); QuadSwap12(m13, m30, m21, m32);
    MulQuadLeft(m30, m12, m23, m31); QuadSwap01(m30, m12, m23, m31); QuadSwap12(m12, m30, m23, m31);
    MulQuadLeft(m30, m32, m23, m11); QuadSwap12(m30, m32, m23, m11); QuadSwap23(m30, m23, m32, m11); QuadSwap01(m30, m23, m11, m32); QuadSwap12(m23, m30, m11, m32); QuadSwap01(m23, m11, m30, m32);
    MulQuadLeft(m30, m12, m33, m21); QuadSwap01(m30, m12, m33, m21); QuadSwap23(m12, m30, m33, m21); QuadSwap12(m12, m30, m21, m33);
    MulQuadLeft(m30, m22, m13, m31); QuadSwap01(m30, m22, m13, m31); QuadSwap12(m22, m30, m13, m31); QuadSwap01(m22, m13, m30, m31);
    assert Mul(m30, Sub(Sub(Sub(Add(Add(Mul(Mul(m22, m33), m11), Mul(Mul(m32, m13), m21)), Mul(Mul(m12, m23), m31)), Mul(Mul(m32, m23), m11)), Mul(Mul(m12, m33), m21)), Mul(Mul(m22, m13), m31))) == Sub(Sub(Sub(Add(Add(Quad(m11, m22, m30, m33), Quad(m13, m21, m30, m32)), Quad(m12, m23, m30, m31)), Quad(m11, m23, m30, m32)), Quad(m12, m21, m30, m33)), Quad(m13, m22, m30, m31));
    DistALeft(m31, Mul(Mul(m32, m23), m10), Mul(Mul(m12, m33), m20), Mul(Mul(m22, m13), m30), Mul(Mul(m22, m33), m10), Mul(Mul(m32, m13), m20), Mul(Mul(m12, m23), m30));
    MulQuadLeft(m31, m32, m23, m10); QuadSwap12(m31, m32, m23, m10); QuadSwap23(m31, m23, m32, m10); QuadSwap01(m31, m23, m10, m32); QuadSwap12(m23, m31, m10, m32); QuadSwap01(m23, m10, m31, m32);
    MulQuadLeft(m31, m12, m33, m20); QuadSwap01(m31, m12, m33, m20); QuadSwap23(m12, m31, m33, m20); QuadSwap12(m12, m31, m20, m33);
    MulQuadLeft(m31, m22, m13, m30); QuadSwap01(m31, m22, m13, m30); QuadSwap12(m22, m31, m13, m30); QuadSwap23(m22, m13, m31, m30); QuadSwap01(m22, m13, m30, m31);
    MulQuadLeft(m31, m22, m33, m10); QuadSwap01(m31, m22, m33, m10); QuadSwap23(m22, m31, m33, m10); QuadSwap12(m22, m31, m10, m33); QuadSwap01(m22, m10, m31, m33);
    MulQuadLeft(m31, m32, m13, m20); QuadSwap12(m31, m32, m13, m20); QuadSwap23(m31, m13, m32, m20); QuadSwap01(m31, m13, m20, m32); QuadSwap12(m13, m31, m20, m32);
    MulQuadLeft(m31, m12, m23, m30); QuadSwap01(m31, m12, m23, m30); QuadSwap12(m12, m31, m23, m30); QuadSwap23(m12, m23, m31, m30);
    assert Mul(m31, Sub(Sub(Sub(Add(Add(Mul(Mul(m32, m23), m10), Mul(Mul(m12, m33), m20)), Mul(Mul(m22, m13), m30)), Mul(Mul(m22, m33), m10)), Mul(Mul(m32, m13), m20)), Mul(Mul(m12, m23), m30))) == Sub(Sub(Sub(Add(Add(Quad(m10, m23, m31, m32), Quad(m12, m20, m31, m33)), Quad(m13, m22, m30, m31)), Quad(m10, m22, m31, m33)), Quad(m13, m20, m31, m32)), Quad(m12, m23, m30, m31));
    DistBLeft(m32, Mul(Mul(m20, m31), m13), Mul(Mul(m30, m11), m23), Mul(Mul(m10, m21), m33), Mul(Mul(m30, m21), m13), Mul(Mul(m10, m31), m23), Mul(Mul(m20, m11), m33));
    MulQuadLeft(m32, m20, m31, m13); QuadSwap01(m32, m20, m31, m13); QuadSwap12(m20, m32, m31, m13); QuadSwap23(m20, m31, m32, m13); QuadSwap12(m20, m31, m13, m32); QuadSwap01(m20, m13, m31, m32);
    MulQuadLeft(m32, m30, m11, m23); QuadSwap01(m32, m30, m11, m23); QuadSwap12(m30, m32, m11, m23); QuadSwap23(m30, m11, m32, m23); QuadSwap01(m30, m11, m23, m32); QuadSwap12(m11, m30, m23, m32);
    MulQuadLeft(m32, m10, m21, m33); QuadSwap01(m32, m10, m21, m33); QuadSwap12(m10, m32, m21, m33);
    MulQuadLeft(m32, m30, m21, m13); QuadSwap01(m32, m30, m21, m13); QuadSwap12(m30, m32, m21, m13); QuadSwap23(m30, m21, m32, m13); QuadSwap01(m30, m21, m13, m32); QuadSwap12(m21, m30, m13, m32); QuadSwap01(m21, m13, m30, m32);
    MulQuadLeft(m32, m10, m31, m23); QuadSwap01(m32, m10, m31, m23); QuadSwap12(m10, m32, m31, m23); QuadSwap23(m10, m31, m32, m23); QuadSwap12(m10, m31, m23, m32);
    MulQuadLeft(m32, m20, m11, m33); QuadSwap01(m32, m20, m11, m33); QuadSwap12(m20, m32, m11, m33); QuadSwap01(m20, m11, m32, m33);
    assert Mul(m32, Sub(Add(Add(Mul(Mul(m20, m31), m13), Mul(Mul(m30, m11), m23)), Mul(Mul(m10, m21), m33)), Add(Add(Mul(Mul(m30, m21), m13), Mul(Mul(m10, m31), m23)), Mul(Mul(m20, m11), m33)))) == Sub(Sub(Sub(Add(Add(Quad(m13, m20, m31, m32), Quad(m11, m23, m30, m32)), Quad(m10, m21, m32, m33)), Quad(m13, m21, m30, m32)), Quad(m10, m23, m31, m32)), Quad(m11, m20, m32, m33));
    DistBLeft(m33, Mul(Mul(m10, m31), m22), Mul(Mul(m20, m11), m32), Mul(Mul(m30, m21), m12), Mul(Mul(m10, m21), m32), Mul(Mul(m20, m31), m12), Mul(Mul(m30, m11), m22));
    MulQuadLeft(m33, m10, m31, m22); QuadSwap01(m33, m10, m31, m22); QuadSwap12(m10, m33, m31, m22); QuadSwap23(m10, m31, m33, m22); QuadSwap12(m10, m31, m22, m33);
    MulQuadLeft(m33, m20, m11, m32); QuadSwap01(m33, m20, m11, m32); QuadSwap12(m20, m33, m11, m32); QuadSwap23(m20, m11, m33, m32); QuadSwap01(m20, m11, m32, m33);
    MulQuadLeft(m33, m30, m21, m12); QuadSwap01(m33, m30, m21, m12); QuadSwap12(m30, m33, m21, m12); QuadSwap23(m30, m21, m33, m12); QuadSwap01(m30, m21, m12, m33); QuadSwap12(m21, m30, m12, m33); QuadSwap01(m21, m12, m30, m33);
    MulQuadLeft(m33, m10, m21, m32); QuadSwap01(m33, m10, m21, m32); QuadSwap12(m10, m33, m21, m32); QuadSwap23(m10, m21, m33, m32);
    MulQuadLeft(m33, m20, m31, m12); QuadSwap01(m33, m20, m31, m12); QuadSwap12(m20, m33, m31, m12); QuadSwap23(m20, m31, m33, m12); QuadSwap12(m20, m31, m12, m33); QuadSwap01(m20, m12, m31, m33);
    MulQuadLeft(m33, m30, m11, m22); QuadSwap01(m33, m30, m11, m22); QuadSwap12(m30, m33, m11, m22); QuadSwap23(m30, m11, m33, m22); QuadSwap01(m30, m11, m22, m33); QuadSwap12(m11, m30, m22, m33);
    assert Mul(m33, Sub(Add(Add(Mul(Mul(m10, m31), m22), Mul(Mul(m20, m11), m32)), Mul(Mul(m30, m21), m12)), Add(Add(Mul(Mul(m10, m21), m32), Mul(Mul(m20, m31), m12)), Mul(Mul(m30, m11), m22)))) == Sub(Sub(Sub(Add(Add(Quad(m10, m22, m31, m33), Quad(m11, m20, m32, m33)), Quad(m12, m21, m30, m33)), Quad(m10, m21, m32, m33)), Quad(m12, m20, m31, m33)), Quad(m11, m22, m30, m33));
  }

  lemma RightEntry31(m00: Complex, m01: Complex, m02: Complex, m03: Complex, m10: Complex, m11: Complex, m12: Complex, m13: Complex, m20: Complex, m21: Complex, m22: Complex, m23: Complex, m30: Complex, m31: Complex, m32: Complex, m33: Complex)
    ensures Sum4(Mul(m30, Sub(Sub(Sub(Add(Add(Mul(Mul(m32, m23), m01), Mul(Mul(m02, m33), m21)), Mul(Mul(m22, m03), m31)), Mul(Mul(m22, m33), m01)), Mul(Mul(m32, m03), m21)), Mul(Mul(m02, m23), m31))), Mul(m31, Sub(Sub(Sub(Add(Add(Mul(Mul(m22, m33), m00), Mul(Mul(m32, m03), m20)), Mul(Mul(m02, m23), m30)), Mul(Mul(m32, m23), m00)), Mul(Mul(m02, m33), m20)), Mul(Mul(m22, m03), m30))), Mul(m32, Sub(Add(Add(Mul(Mul(m30, m21), m03), Mul(Mul(m00, m31), m23)), Mul(Mul(m20, m01), m33)), Add(Add(Mul(Mul(m20, m31), m03), Mul(Mul(m30, m01), m23)), Mul(Mul(m00, m21), m33)))), Mul(m33, Sub(Add(Add(Mul(Mul(m00, m21), m32), Mul(Mul(m20, m31), m02)), Mul(Mul(m30, m01), m22)), Add(Add(Mul(Mul(m00, m31), m22), Mul(Mul(m20, m01), m32)), Mul(Mul(m30, m21), m02)))))
         == Zero
  {
    DistALeft(m00, Mul(Mul(m22, m33), m11), Mul(Mul(m32, m13), m21), Mul(Mul(m12, m23), m31), Mul(Mul(m32, m23), m11), Mul(Mul(m12, m33), m21), Mul(Mul(m22, m13), m31));
    MulQuadLeft(m00, m22, m33, m11); QuadSwap23(m00, m22, m33, m11); QuadSwap12(m00, m22, m11, m33);
    MulQuadLeft(m00, m32, m13, m21); QuadSwap12(m00, m32, m13, m21); QuadSwap23(m00, m13, m32, m21);
    MulQuadLeft(m00, m12, m23, m31);
    MulQuadLeft(m00, m32, m23, m11); QuadSwap12(m00, m32, m23, m11); QuadSwap23(m00, m23, m32, m11); QuadSwap12(m00, m23, m11, m32);
    MulQuadLeft(m00, m12, m33, m21); QuadSwap23(m00, m12, m33, m21);
    MulQuadLeft(m00, m22, m13, m31); QuadSwap12(m00, m22, m13, m31);
    DistALeft(m10, Mul(Mul(m32, m23), m01), Mul(Mul(m02, m33), m21), Mul(Mul(m22, m03), m31), Mul(Mul(m22, m33), m01), Mul(Mul(m32, m03), m21), Mul(Mul(m02, m23), m31));
    MulQuadLeft(m10, m32, m23, m01); QuadSwap12(m10, m32, m23, m01); QuadSwap23(m10, m23, m32, m01); QuadSwap12(m10, m23, m01, m32); QuadSwap01(m10, m01, m23, m32);
    MulQuadLeft(m10, m02, m33, m21); QuadSwap01(m10, m02, m33, m21); QuadSwap23(m02, m10, m33, m21);
    MulQuadLeft(m10, m22, m03, m31); QuadSwap12(m10, m22, m03, m31); QuadSwap01(m10, m03, m22, m31);
    MulQuadLeft(m10, m22, m33, m01); QuadSwap23(m10, m22, m33, m01); QuadSwap12(m10, m22, m01, m33); QuadSwap01(m10, m01, m22, m33);
    MulQuadLeft(m10, m32, m03, m21); QuadSwap12(m10, m32, m03, m21); QuadSwap23(m10, m03, m32, m21); QuadSwap01(m10, m03, m21, m32);
    MulQuadLeft(m10, m02, m23, m31); QuadSwap01(m10, m02, m23, m31);
    DistALeft(m20, Mul(Mul(m12, m33), m01), Mul(Mul(m32, m03), m11), Mul(Mul(m02, m13), m31), Mul(Mul(m32, m13), m01), Mul(Mul(m02, m33), m11), Mul(Mul(m12, m03), m31));
    MulQuadLeft(m20, m12, m33, m01); QuadSwap01(m20, m12, m33, m01); QuadSwap23(m12, m20, m33, m01); QuadSwap12(m12, m20, m01, m33); QuadSwap01(m12, m01, m20, m33);
    MulQuadLeft(m20, m32, m03, m11); QuadSwap12(m20, m32, m03, m11); QuadSwap23(m20, m03, m32, m11); QuadSwap01(m20, m03, m11, m32); QuadSwap12(m03, m20, m11, m32);
    MulQuadLeft(m20, m02, m13, m31); QuadSwap01(m20, m02, m13, m31); QuadSwap12(m02, m20, m13, m31);
    MulQuadLeft(m20, m32, m13, m01); QuadSwap12(m20, m32, m13, m01); QuadSwap23(m20, m13, m32, m01); QuadSwap01(m20, m13, m01, m32); QuadSwap12(m13, m20, m01, m32); QuadSwap01(m13, m01, m20, m32);
    MulQuadLeft(m20, m02, m33, m11); QuadSwap01(m20, m02, m33, m11); QuadSwap23(m02, m20, m33, m11); QuadSwap12(m02, m20, m11, m33);
    MulQuadLeft(m20, m12, m03, m31); QuadSwap01(m20, m12, m03, m31); QuadSwap12(m12, m20, m03, m31); QuadSwap01(m12, m03, m20, m31);
    DistALeft(m30, Mul(Mul(m22, m13), m01), Mul(Mul(m02, m23), m11), Mul(Mul(m12, m03), m21), Mul(Mul(m12, m23), m01), Mul(Mul(m22, m03), m11), Mul(Mul(m02, m13), m21));
    MulQuadLeft(m30, m22, m13, m01); QuadSwap01(m30, m22, m13, m01); QuadSwap12(m22, m30, m13, m01); QuadSwap23(m22, m13, m30, m01); QuadSwap01(m22, m13, m01, m30); QuadSwap12(m13, m22, m01, m30); QuadSwap01(m13, m01, m22, m30);
    MulQuadLeft(m30, m02, m23, m11); QuadSwap01(m30, m02, m23, m11); QuadSwap12(m02, m30, m23, m11); QuadSwap23(m02, m23, m30, m11); QuadSwap12(m02, m23, m11, m30);
    MulQuadLeft(m30, m12, m03, m21); QuadSwap01(m30, m12, m03, m21); QuadSwap12(m12, m30, m03, m21); QuadSwap23(m12, m03, m30, m21); QuadSwap01(m12, m03, m21, m30);
    MulQuadLeft(m30, m12, m23, m01); QuadSwap01(m30, m12, m23, m01); QuadSwap12(m12, m30, m23, m01); QuadSwap23(m12, m23, m30, m01); QuadSwap12(m12, m23, m01, m30); QuadSwap01(m12, m01, m23, m30);
    MulQuadLeft(m30, m22, m03, m11); QuadSwap01(m30, m22, m03, m11); QuadSwap12(m22, m30, m03, m11); QuadSwap23(m22, m03, m30, m11); QuadSwap01(m22, m03, m11, m30); QuadSwap12(m03, m22, m11, m30);
    MulQuadLeft(m30, m02, m13, m21); QuadSwap01(m30, m02, m13, m21); QuadSwap12(m02, m30, m13, m21); QuadSwap23(m02, m13, m30, m21);
    DistALeft(m30, Mul(Mul(m32, m23), m01), Mul(Mul(m02, m33), m21), Mul(Mul(m22, m03), m31), Mul(Mul(m22, m33), m01), Mul(Mul(m32, m03), m21), Mul(Mul(m02, m23), m31));
    MulQuadLeft(m30, m32, m23, m01); QuadSwap12(m30, m32, m23, m01); QuadSwap23(m30, m23, m32, m01); QuadSwap01(m30, m23, m01, m32); QuadSwap12(m23, m30, m01, m32); QuadSwap01(m23, m01, m30, m32);
    MulQuadLeft(m30, m02, m33, m21); QuadSwap01(m30, m02, m33, m21); QuadSwap23(m02, m30, m33, m21); QuadSwap12(m02, m30, m21, m33);
    MulQuadLeft(m30, m22, m03, m31); QuadSwap01(m30, m22, m03, m31); QuadSwap12(m22, m30, m03, m31); QuadSwap01(m22, m03, m30, m31);
    MulQuadLeft(m30, m22, m33, m01); QuadSwap01(m30, m22, m33, m01); QuadSwap23(m22, m30, m33, m01); QuadSwap12(m22, m30, m01, m33); QuadSwap01(m22, m01, m30, m33);
    MulQuadLeft(m30, m32, m03, m21); QuadSwap12(m30, m32, m03, m21); QuadSwap23(m30, m03, m32, m21); QuadSwap01(m30, m03, m21, m32); QuadSwap12(m03, m30, m21, m32);
    MulQuadLeft(m30, m02, m23, m31); QuadSwap01(m30, m02, m23, m31); QuadSwap12(m02, m30, m23, m31);
    assert Mul(m30, Sub(Sub(Sub(Add(Add(Mul(Mul(m32, m23), m01), Mul(Mul(m02, m33), m21)), Mul(Mul(m22, m03), m31)), Mul(Mul(m22, m33), m01)), Mul(Mul(m32, m03), m21)), Mul(Mul(m02, m23), m31))) == Sub(Sub(Sub(Add(Add(Quad(m01, m23, m30, m32), Quad(m02, m21, m30, m33)), Quad(m03, m22, m30, m31)), Quad(m01, m22, m30, m33)), Quad(m03, m21, m30, m32)), Quad(m02, m23, m30, m31));
    DistALeft(m31, Mul(Mul(m22, m33), m00), Mul(Mul(m32, m03), m20), Mul(Mul(m02, m23), m30), Mul(Mul(m32, m23), m00), Mul(Mul(m02, m33), m20), Mul(Mul(m22, m03), m30));
    MulQuadLeft(m31, m22, m33, m00); QuadSwap01(m31, m22, m33, m00); QuadSwap23(m22, m31, m33, m00); QuadSwap12(m22, m31, m00, m33); QuadSwap01(m22, m00, m31, m33);
    MulQuadLeft(m31, m32, m03, m20); QuadSwap12(m31, m32, m03, m20); QuadSwap23(m31, m03, m32, m20); QuadSwap01(m31, m03, m20, m32); QuadSwap12(m03, m31, m20, m32);
    MulQuadLeft(m31, m02, m23, m30); QuadSwap01(m31, m02, m23, m30); QuadSwap12(m02, m31, m23, m30); QuadSwap23(m02, m23, m31, m30);
    MulQuadLeft(m31, m32, m23, m00); QuadSwap12(m31, m32, m23, m00); QuadSwap23(m31, m23, m32, m00); QuadSwap01(m31, m23, m00, m32); QuadSwap12(m23, m31, m00, m32); QuadSwap01(m23, m00, m31, m32);
    MulQuadLeft(m31, m02, m33, m20); QuadSwap01(m31, m02, m33, m20); QuadSwap23(m02, m31, m33, m20); QuadSwap12(m02, m31, m20, m33);
    MulQuadLeft(m31, m22, m03, m30); QuadSwap01(m31, m22, m03, m30); QuadSwap12(m22, m31, m03, m30); QuadSwap23(m22, m03, m31, m30); QuadSwap01(m22, m03, m30, m31);
    assert Mul(m31, Sub(Sub(Sub(Add(Add(Mul(Mul(m22, m33), m00), Mul(Mul(m32, m03), m20)), Mul(Mul(m02, m23), m30)), Mul(Mul(m32, m23), m00)), Mul(Mul(m02, m33), m20)), Mul(Mul(m22, m03), m30))) == Sub(Sub(Sub(Add(Add(Quad(m00, m22, m31, m33), Quad(m03, m20, m31, m32)), Quad(m02, m23, m30, m31)), Quad(m00, m23, m31, m32)), Quad(m02, m20, m31, m33)), Quad(m03, m22, m30, m31));
    DistBLeft(m32, Mul(Mul(m30, m21), m03), Mul(Mul(m00, m31), m23), Mul(Mul(m20, m01), m33), Mul(Mul(m20, m31), m03), Mul(Mul(m30, m01), m23), Mul(Mul(m00, m21), m33));
    MulQuadLeft(m32, m30, m21, m03); QuadSwap01(m32, m30, m21, m03); QuadSwap12(m30, m32, m21, m03); QuadSwap23(m30, m21, m32, m03); QuadSwap01(m30, m21, m03, m32); QuadSwap12(m21, m30, m03, m32); QuadSwap01(m21, m03, m30, m32);
    MulQuadLeft(m32, m00, m31, m23); QuadSwap01(m32, m00, m31, m23); QuadSwap12(m00, m32, m31, m23); QuadSwap23(m00, m31, m32, m23); QuadSwap12(m00, m31, m23, m32);
    MulQuadLeft(m32, m20, m01, m33); QuadSwap01(m32, m20, m01, m33); QuadSwap12(m20, m32, m01, m33); QuadSwap01(m20, m01, m32, m33);
    MulQuadLeft(m32, m20, m31, m03); QuadSwap01(m32, m20, m31, m03); QuadSwap12(m20, m32, m31, m03); QuadSwap23(m20, m31, m32, m03); QuadSwap12(m20, m31, m03, m32); QuadSwap01(m20, m03, m31, m32);
    MulQuadLeft(m32, m30, m01, m23); QuadSwap01(m32, m30, m01, m23); QuadSwap12(m30, m32, m01, m23); QuadSwap23(m30, m01, m32, m23); QuadSwap01(m30, m01, m23, m32); QuadSwap12(m01, m30, m23, m32);
    MulQuadLeft(m32, m00, m21, m33); QuadSwap01(m32, m00, m21, m33); QuadSwap12(m00, m32, m21, m33);
    assert Mul(m32, Sub(Add(Add(Mul(Mul(m30, m21), m03), Mul(Mul(m00, m31), m23)), Mul(Mul(m20, m01), m33)), Add(Add(Mul(Mul(m20, m31), m03), Mul(Mul(m30, m01), m23)), Mul(Mul(m00, m21), m33)))) == Sub(Sub(Sub(Add(Add(Quad(m03, m21, m30, m32), Quad(m00, m23, m31, m32)), Quad(m01, m20, m32, m33)), Quad(m03, m20, m31, m32)), Quad(m01, m23, m30, m32)), Quad(m00, m21, m32, m33));
    DistBLeft(m33, Mul(Mul(m00, m21), m32), Mul(Mul(m20, m31), m02), Mul(Mul(m30, m01), m22), Mul(Mul(m00, m31), m22), Mul(Mul(m20, m01), m32), Mul(Mul(m30, m21), m02));
    MulQuadLeft(m33, m00, m21, m32); QuadSwap01(m33, m00, m21, m32); QuadSwap12(m00, m33, m21, m32); QuadSwap23(m00, m21, m33, m32);
    MulQuadLeft(m33, m20, m31, m02); QuadSwap01(m33, m20, m31, m02); QuadSwap12(m20, m33, m31, m02); QuadSwap23(m20, m31, m33, m02); QuadSwap12(m20, m31, m02, m33); QuadSwap01(m20, m02, m31, m33);
    MulQuadLeft(m33, m30, m01, m22); QuadSwap01(m33, m30, m01, m22); QuadSwap12(m30, m33, m01, m22); QuadSwap23(m30, m01, m33, m22); QuadSwap01(m30, m01, m22, m33); QuadSwap12(m01, m30, m22, m33);
    MulQuadLeft(m33, m00, m31, m22); QuadSwap01(m33, m00, m31, m22); QuadSwap12(m00, m33, m31, m22); QuadSwap23(m00, m31, m33, m22); QuadSwap12(m00, m31, m22, m33);
    MulQuadLeft(m33, m20, m01, m32); QuadSwap01(m33, m20, m01, m32); QuadSwap12(m20, m33, m01, m32); QuadSwap23(m20, m01, m33, m32); QuadSwap01(m20, m01, m32, m33);
    MulQuadLeft(m33, m30, m21, m02); QuadSwap01(m33, m30, m21, m02); QuadSwap12(m30, m33, m21, m02); QuadSwap23(m30, m21, m33, m02); QuadSwap01(m30, m21, m02, m33); QuadSwap12(m21, m30, m02, m33); QuadSwap01(m21, m02, m30, m33);
    assert Mul(m33, Sub(Add(Add(Mul(Mul(m00, m21), m32), Mul(Mul(m20, m31), m02)), Mul(Mul(m30, m01), m22)), Add(Add(Mul(Mul(m00, m31), m22), Mul(Mul(m20, m01), m32)), Mul(Mul(m30, m21), m02)))) == Sub(Sub(Sub(Add(Add(Quad(m00, m21, m32, m33), Quad(m02, m20, m31, m33)), Quad(m01, m22, m30, m33)), Quad(m00, m22, m31, m33)), Quad(m01, m20, m32, m33)), Quad(m02, m21, m30, m33));
  }

  lemma RightEntry32(m00: Complex, m01: Complex, m02: Complex, m03: Complex, m10: Complex, m11: Complex, m12: Complex, m13: Complex, m20: Complex, m21: Complex, m22: Complex, m23: Complex, m30: Complex, m31: Complex, m32: Complex, m33: Complex)
    ensures Sum4(Mul(m30, Sub(Sub(Sub(Add(Add(Mul(Mul(m12, m33), m01), Mul(Mul(m32, m03), m11)), Mul(Mul(m02, m13), m31)), Mul(Mul(m32, m13), m01)), Mul(Mul(m02, m33), m11)), Mul(Mul(m12, m03), m31))), Mul(m31, Sub(Sub(Sub(Add(Add(Mul(Mul(m32, m13), m00), Mul(Mul(m02, m33), m10)), Mul(Mul(m12, m03), m30)), Mul(Mul(m12, m33), m00)), Mul(Mul(m32, m03), m10)), Mul(Mul(m02, m13), m30))), Mul(m32, Sub(Add(Add(Mul(Mul(m10, m31), m03), Mul(Mul(m30, m01), m13)), Mul(Mul(m00, m11), m33)), Add(Add(Mul(Mul(m30, m11), m03), Mul(Mul(m00, m31), m13)), Mul(Mul(m10, m01), m33)))), Mul(m33, Sub(Add(Add(Mul(Mul(m00, m31), m12), Mul(Mul(m10, m01), m32)), Mul(Mul(m30, m11), m02)), Add(Add(Mul(Mul(m00, m11), m32), Mul(Mul(m10, m31), m02)), Mul(Mul(m30, m01), m12)))))
         == Zero
  {
    DistALeft(m00, Mul(Mul(m22, m33), m11), Mul(Mul(m32, m13), m21), Mul(Mul(m12, m23), m31), Mul(Mul(m32, m23), m11), Mul(Mul(m12, m33), m21), Mul(Mul(m22, m13), m31));
    MulQuadLeft(m00, m22, m33, m11); QuadSwap23(m00, m22, m33, m11); QuadSwap12(m00, m22, m11, m33);
    MulQuadLeft(m00, m32, m13, m21); QuadSwap12(m00, m32, m13, m21); QuadSwap23(m00, m13, m32, m21);
    MulQuadLeft(m00, m12, m23, m31);
    MulQuadLeft(m00, m32, m23, m11); QuadSwap12(m00, m32, m23, m11); QuadSwap23(m00, m23, m32, m11); QuadSwap12(m00, m23, m11, m32);
    MulQuadLeft(m00, m12, m33, m21); QuadSwap23(m00, m12, m33, m21);
    MulQuadLeft(m00, m22, m13, m31); QuadSwap12(m00, m22, m13, m31);
    DistALeft(m10, Mul(Mul(m32, m23), m01), Mul(Mul(m02, m33), m21), Mul(Mul(m22, m03), m31), Mul(Mul(m22, m33), m01), Mul(Mul(m32, m03), m21), Mul(Mul(m02, m23), m31));
    MulQuadLeft(m10, m32, m23, m01); QuadSwap12(m10, m32, m23, m01); QuadSwap23(m10, m23, m32, m01); QuadSwap12(m10, m23, m01, m32); QuadSwap01(m10, m01, m23, m32);
    MulQuadLeft(m10, m02, m33, m21); QuadSwap01(m10, m02, m33, m21); QuadSwap23(m02, m10, m33, m21);
    MulQuadLeft(m10, m22, m03, m31); QuadSwap12(m10, m22, m03, m31); QuadSwap01(m10, m03, m22, m31);
    MulQuadLeft(m10, m22, m33, m01); QuadSwap23(m10, m22, m33, m01); QuadSwap12(m10, m22, m01, m33); QuadSwap01(m10, m01, m22, m33);
    MulQuadLeft(m10, m32, m03, m21); QuadSwap12(m10, m32, m03, m21); QuadSwap23(m10, m03, m32, m21); QuadSwap01(m10, m03, m21, m32);
    MulQuadLeft(m10, m02, m23, m31); QuadSwap01(m10, m02, m23, m31);
    DistALeft(m20, Mul(Mul(m12, m33), m01), Mul(Mul(m32, m03), m11), Mul(Mul(m02, m13), m31), Mul(Mul(m32, m13), m01), Mul(Mul(m02, m33), m11), Mul(Mul(m12, m03), m31));
    MulQuadLeft(m20, m12, m33, m01); QuadSwap01(m20, m12, m33, m01); QuadSwap23(m12, m20, m33, m01); QuadSwap12(m12, m20, m01, m33); QuadSwap01(m12, m01, m20, m33);
    MulQuadLeft(m20, m32, m03, m11); QuadSwap12(m20, m32, m03, m11); QuadSwap23(m20, m03, m32, m11); QuadSwap01(m20, m03, m11, m32); QuadSwap12(m03, m20, m11, m32);
    MulQuadLeft(m20, m02, m13, m31); QuadSwap01(m20, m02, m13, m31); QuadSwap12(m02, m20, m13, m31);
    MulQuadLeft(m20, m32, m13, m01); QuadSwap12(m20, m32, m13, m01); QuadSwap23(m20, m13, m32, m01); QuadSwap01(m20, m13, m01, m32); QuadSwap12(m13, m20, m01, m32); QuadSwap01(m13, m01, m20, m32);
    MulQuadLeft(m20, m02, m33, m11); QuadSwap01(m20, m02, m33, m11); QuadSwap23(m02, m20, m33, m11); QuadSwap12(m02, m20, m11, m33);
    MulQuadLeft(m20, m12, m03, m31); QuadSwap01(m20, m12, m03, m31); QuadSwap12(m12, m20, m03, m31); QuadSwap01(m12, m03, m20, m31);
    DistALeft(m30, Mul(Mul(m22, m13), m01), Mul(Mul(m02, m23), m11), Mul(Mul(m12, m03), m21), Mul(Mul(m12, m23), m01), Mul(Mul(m22, m03), m11), Mul(Mul(m02, m13), m21));
    MulQuadLeft(m30, m22, m13, m01); QuadSwap01(m30, m22, m13, m01); QuadSwap12(m22, m30, m13, m01); QuadSwap23(m22, m13, m30, m01); QuadSwap01(m22, m13, m01, m30); QuadSwap12(m13, m22, m01, m30); QuadSwap01(m13, m01, m22, m30);
    MulQuadLeft(m30, m02, m23, m11); QuadSwap01(m30, m02, m23, m11); QuadSwap12(m02, m30, m23, m11); QuadSwap23(m02, m23, m30, m11); QuadSwap12(m02, m23, m11, m30);
    MulQuadLeft(m30, m12, m03, m21); QuadSwap01(m30, m12, m03, m21); QuadSwap12(m12, m30, m03, m21); QuadSwap23(m12, m03, m30, m21); QuadSwap01(m12, m03, m21, m30);
    MulQuadLeft(m30, m12, m23, m01); QuadSwap01(m30, m12, m23, m01); QuadSwap12(m12, m30, m23, m01); QuadSwap23(m12, m23, m30, m01); QuadSwap12(m12, m23, m01, m30); QuadSwap01(m12, m01, m23, m30);
    MulQuadLeft(m30, m22, m03, m11); QuadSwap01(m30, m22, m03, m11); QuadSwap12(m22, m30, m03, m11); QuadSwap23(m22, m03, m30, m11); QuadSwap01(m22, m03, m11, m30); QuadSwap12(m03, m22, m11, m30);
    MulQuadLeft(m30, m02, m13, m21); QuadSwap01(m30, m02, m13, m21); QuadSwap12(m02, m30, m13, m21); QuadSwap23(m02, m13, m30, m21);
    DistALeft(m30, Mul(Mul(m12, m33), m01), Mul(Mul(m32, m03), m11), Mul(Mul(m02, m13), m31), Mul(Mul(m32, m13), m01), Mul(Mul(m02, m33), m11), Mul(Mul(m12, m03), m31));
    MulQuadLeft(m30, m12, m33, m01); QuadSwap01(m30, m12, m33, m01); QuadSwap23(m12, m30, m33, m01); QuadSwap12(m12, m30, m01, m33); QuadSwap01(m12, m01, m30, m33);
    MulQuadLeft(m30, m32, m03, m11); QuadSwap12(m30, m32, m03, m11); QuadSwap23(m30, m03, m32, m11); QuadSwap01(m30, m03, m11, m32); QuadSwap12(m03, m30, m11, m32);
    MulQuadLeft(m30, m02, m13, m31); QuadSwap01(m30, m02, m13, m31); QuadSwap12(m02, m30, m13, m31);
    MulQuadLeft(m30, m32, m13, m01); QuadSwap12(m30, m32, m13, m01); QuadSwap23(m30, m13, m32, m01); QuadSwap01(m30, m13, m01, m32); QuadSwap12(m13, m30, m01, m32); QuadSwap01(m13, m01, m30, m32);
    MulQuadLeft(m30, m02, m33, m11); QuadSwap01(m30, m02, m33, m11); QuadSwap23(m02, m30, m33, m11); QuadSwap12(m02, m30, m11, m33);
    MulQuadLeft(m30, m12, m03, m31); QuadSwap01(m30, m12, m03, m31); QuadSwap12(m12, m30, m03, m31); QuadSwap01(m12, m03, m30, m31);
    assert Mul(m30, Sub(Sub(Sub(Add(Add(Mul(Mul(m12, m33), m01), Mul(Mul(m32, m03), m11)), Mul(Mul(m02, m13), m31)), Mul(Mul(m32, m13), m01)), Mul(Mul(m02, m33), m11)), Mul(Mul(m12, m03), m31))) == Sub(Sub(Sub(Add(Add(Quad(m01, m12, m30, m33), Quad(m03, m11, m30, m32)), Quad(m02, m13, m30, m31)), Quad(m01, m13, m30, m32)), Quad(m02, m11, m30, m33)), Quad(m03, m12, m30, m31));
    DistALeft(m31, Mul(Mul(m32, m13), m00), Mul(Mul(m02, m33), m10), Mul(Mul(m12, m03), m30), Mul(Mul(m12, m33), m00), Mul(Mul(m32, m03), m10), Mul(Mul(m02, m13), m30));
    MulQuadLeft(m31, m32, m13, m00); QuadSwap12(m31, m32, m13, m00); QuadSwap23(m31, m13, m32, m00); QuadSwap01(m31, m13, m00, m32); QuadSwap12(m13, m31, m00, m32); QuadSwap01(m13, m00, m31, m32);
    MulQuadLeft(m31, m02, m33, m10); QuadSwap01(m31, m02, m33, m10); QuadSwap23(m02, m31, m33, m10); QuadSwap12(m02, m31, m10, m33);
    MulQuadLeft(m31, m12, m03, m30); QuadSwap01(m31, m12, m03, m30); QuadSwap12(m12, m31, m03, m30); QuadSwap23(m12, m03, m31, m30); QuadSwap01(m12, m03, m30, m31);
    MulQuadLeft(m31, m12, m33, m00); QuadSwap01(m31, m12, m33, m00); QuadSwap23(m12, m31, m33, m00); QuadSwap12(m12, m31, m00, m33); QuadSwap01(m12, m00, m31, m33);
    MulQuadLeft(m31, m32, m03, m10); QuadSwap12(m31, m32, m03, m10); QuadSwap23(m31, m03, m32, m10); QuadSwap01(m31, m03, m10, m32); QuadSwap12(m03, m31, m10, m32);
    MulQuadLeft(m31, m02, m13, m30); QuadSwap01(m31, m02, m13, m30); QuadSwap12(m02, m31, m13, m30); QuadSwap23(m02, m13, m31, m30);
    assert Mul(m31, Sub(Sub(Sub(Add(Add(Mul(Mul(m32, m13), m00), Mul(Mul(m02, m33), m10)), Mul(Mul(m12, m03), m30)), Mul(Mul(m12, m33), m00)), Mul(Mul(m32, m03), m10)), Mul(Mul(m02, m13), m30))) == Sub(Sub(Sub(Add(Add(Quad(m00, m13, m31, m32), Quad(m02, m10, m31, m33)), Quad(m03, m12, m30, m31)), Quad(m00, m12, m31, m33)), Quad(m03, m10, m31, m32)), Quad(m02, m13, m30, m31));
    DistBLeft(m32, Mul(Mul(m10, m31), m03), Mul(Mul(m30, m01), m13), Mul(Mul(m00, m11), m33), Mul(Mul(m30, m11), m03), Mul(Mul(m00, m31), m13), Mul(Mul(m10, m01), m33));
    MulQuadLeft(m32, m10, m31, m03); QuadSwap01(m32, m10, m31, m03); QuadSwap12(m10, m32, m31, m03); QuadSwap23(m10, m31, m32, m03); QuadSwap12(m10, m31, m03, m32); QuadSwap01(m10, m03, m31, m32);
    MulQuadLeft(m32, m30, m01, m13); QuadSwap01(m32, m30, m01, m13); QuadSwap12(m30, m32, m01, m13); QuadSwap23(m30, m01, m32, m13); QuadSwap01(m30, m01, m13, m32); QuadSwap12(m01, m30, m13, m32);
    MulQuadLeft(m32, m00, m11, m33); QuadSwap01(m32, m00, m11, m33); QuadSwap12(m00, m32, m11, m33);
    MulQuadLeft(m32, m30, m11, m03); QuadSwap01(m32, m30, m11, m03); QuadSwap12(m30, m32, m11, m03); QuadSwap23(m30, m11, m32, m03); QuadSwap01(m30, m11, m03, m32); QuadSwap12(m11, m30, m03, m32); QuadSwap01(m11, m03, m30, m32);
    MulQuadLeft(m32, m00, m31, m13); QuadSwap01(m32, m00, m31, m13); QuadSwap12(m00, m32, m31, m13); QuadSwap23(m00, m31, m32, m13); QuadSwap12(m00, m31, m13, m32);
    MulQuadLeft(m32, m10, m01, m33); QuadSwap01(m32, m10, m01, m33); QuadSwap12(m10, m32, m01, m33); QuadSwap01(m10, m01, m32, m33);
    assert Mul(m32, Sub(Add(Add(Mul(Mul(m10, m31), m03), Mul(Mul(m30, m01), m13)), Mul(Mul(m00, m11), m33)), Add(Add(Mul(Mul(m30, m11), m03), Mul(Mul(m00, m31), m13)), Mul(Mul(m10, m01), m33)))) == Sub(Sub(Sub(Add(Add(Quad(m03, m10, m31, m32), Quad(m01, m13, m30, m32)), Quad(m00, m11, m32, m33)), Quad(m03, m11, m30, m32)), Quad(m00, m13, m31, m32)), Quad(m01, m10, m32, m33));
    DistBLeft(m33, Mul(Mul(m00, m31), m12), Mul(Mul(m10, m01), m32), Mul(Mul(m30, m11), m02), Mul(Mul(m00, m11), m32), Mul(Mul(m10, m31), m02), Mul(Mul(m30, m01), m12));
    MulQuadLeft(m33, m00, m31, m12); QuadSwap01(m33, m00, m31, m12); QuadSwap12(m00, m33, m31, m12); QuadSwap23(m00, m31, m33, m12); QuadSwap12(m00, m31, m12, m33);
    MulQuadLeft(m33, m10, m01, m32); QuadSwap01(m33, m10, m01, m32); QuadSwap12(m10, m33, m01, m32); QuadSwap23(m10, m01, m33, m32); QuadSwap01(m10, m01, m32, m33);
    MulQuadLeft(m33, m30, m11, m02); QuadSwap01(m33, m30, m11, m02); QuadSwap12(m30, m33, m11, m02); QuadSwap23(m30, m11, m33, m02); QuadSwap01(m30, m11, m02, m33); QuadSwap12(m11, m30, m02, m33); QuadSwap01(m11, m02, m30, m33);
    MulQuadLeft(m33, m00, m11, m32); QuadSwap01(m33, m00, m11, m32); QuadSwap12(m00, m33, m11, m32); QuadSwap23(m00, m11, m33, m32);
    MulQuadLeft(m33, m10, m31, m02); QuadSwap01(m33, m10, m31, m02); QuadSwap12(m10, m33, m31, m02); QuadSwap23(m10, m31, m33, m02); QuadSwap12(m10, m31, m02, m33); QuadSwap01(m10, m02, m31, m33);
    MulQuadLeft(m33, m30, m01, m12); QuadSwap01(m33, m30, m01, m12); QuadSwap12(m30, m33, m01, m12); QuadSwap23(m30, m01, m33, m12); QuadSwap01(m30, m01, m12, m33); QuadSwap12(m01, m30, m12, m33);
    assert Mul(m33, Sub(Add(Add(Mul(Mul(m00, m31), m12), Mul(Mul(m10, m01), m32)), Mul(Mul(m30, m11), m02)), Add(Add(Mul(Mul(m00, m11), m32), Mul(Mul(m10, m31), m02)), Mul(Mul(m30, m01), m12)))) == Sub(Sub(Sub(Add(Add(Quad(m00, m12, m31, m33), Quad(m01, m10, m32, m33)), Quad(m02, m11, m30, m33)), Quad(m00, m11, m32, m33)), Quad(m02, m10, m31, m33)), Quad(m01, m12, m30, m33));
  }

  lemma RightEntry33(m00: Complex, m01: Complex, m02: Complex, m03: Complex, m10: Complex, m11: Complex, m12: Complex, m13: Complex, m20: Complex, m21: Complex, m22: Complex, m23: Complex, m30: Complex, m31: Complex, m32: Complex, m33: Complex)
    ensures Sum4(Mul(m30, Sub(Sub(Sub(Add(Add(Mul(Mul(m22, m13), m01), Mul(Mul(m02, m23), m11)), Mul(Mul(m12, m03), m21)), Mul(Mul(m12, m23), m01)), Mul(Mul(m22, m03), m11)), Mul(Mul(m02, m13), m21))), Mul(m31, Sub(Sub(Sub(Add(Add(Mul(Mul(m12, m23), m00), Mul(Mul(m22, m03), m10)), Mul(Mul(m02, m13), m20)), Mul(Mul(m22, m13), m00)), Mul(Mul(m02, m23), m10)), Mul(Mul(m12, m03), m20))), Mul(m32, Sub(Add(Add(Mul(Mul(m20, m11), m03), Mul(Mul(m00, m21), m13)), Mul(Mul(m10, m01), m23)), Add(Add(Mul(Mul(m10, m21), m03), Mul(Mul(m20, m01), m13)), Mul(Mul(m00, m11), m23)))), Mul(m33, Sub(Add(Add(Mul(Mul(m00, m11), m22), Mul(Mul(m10, m21), m02)), Mul(Mul(m20, m01), m12)), Add(Add(Mul(Mul(m00, m21), m12), Mul(Mul(m10, m01), m22)), Mul(Mul(m20, m11), m02)))))
         == DetOf(m00, m01, m02, m03, m10, m11, m12, m13, m20, m21, m22, m23, m30, m31, m32, m33)
  {
    DistALeft(m00, Mul(Mul(m22, m33), m11), Mul(Mul(m32, m13), m21), Mul(Mul(m12, m23), m31), Mul(Mul(m32, m23), m11), Mul(Mul(m12, m33), m21), Mul(Mul(m22, m13), m31));
    MulQuadLeft(m00, m22, m33, m11); QuadSwap23(m00, m22, m33, m11); QuadSwap12(m00, m22, m11, m33);
    MulQuadLeft(m00, m32, m13, m21); QuadSwap12(m00, m32, m13, m21); QuadSwap23(m00, m13, m32, m21);
    MulQuadLeft(m00, m12, m23, m31);
    MulQuadLeft(m00, m32, m23, m11); QuadSwap12(m00, m32, m23, m11); QuadSwap23(m00, m23, m32, m11); QuadSwap12(m00, m23, m11, m32);
    MulQuadLeft(m00, m12, m33, m21); QuadSwap23(m00, m12, m33, m21);
    MulQuadLeft(m00, m22, m13, m31); QuadSwap12(m00, m22, m13, m31);
    DistALeft(m10, Mul(Mul(m32, m23), m01), Mul(Mul(m02, m33), m21), Mul(Mul(m22, m03), m31), Mul(Mul(m22, m33), m01), Mul(Mul(m32, m03), m21), Mul(Mul(m02, m23), m31));
    MulQuadLeft(m10, m32, m23, m01); QuadSwap12(m10, m32, m23, m01); QuadSwap23(m10, m23, m32, m01); QuadSwap12(m10, m23, m01, m32); QuadSwap01(m10, m01, m23, m32);
    MulQuadLeft(m10, m02, m33, m21); QuadSwap01(m10, m02, m33, m21); QuadSwap23(m02, m10, m33, m21);
    MulQuadLeft(m10, m22, m03, m31); QuadSwap12(m10, m22, m03, m31); QuadSwap01(m10, m03, m22, m31);
    MulQuadLeft(m10, m22, m33, m01); QuadSwap23(m10, m22, m33, m01); QuadSwap12(m10, m22, m01, m33); QuadSwap01(m10, m01, m22, m33);
    MulQuadLeft(m10, m32, m03, m21); QuadSwap12(m10, m32, m03, m21); QuadSwap23(m10, m03, m32, m21); QuadSwap01(m10, m03, m21, m32);
    MulQuadLeft(m10, m02, m23, m31); QuadSwap01(m10, m02, m23, m31);
    DistALeft(m20, Mul(Mul(m12, m33), m01), Mul(Mul(m32, m03), m11), Mul(Mul(m02, m13), m31), Mul(Mul(m32, m13), m01), Mul(Mul(m02, m33), m11), Mul(Mul(m12, m03), m31));
    MulQuadLeft(m20, m12, m33, m01); QuadSwap01(m20, m12, m33, m01); QuadSwap23(m12, m20, m33, m01); QuadSwap12(m12, m20, m01, m33); QuadSwap01(m12, m01, m20, m33);
    MulQuadLeft(m20, m32, m03, m11); QuadSwap12(m20, m32, m03, m11); QuadSwap23(m20, m03, m32, m11); QuadSwap01(m20, m03, m11, m32); QuadSwap12(m03, m20, m11, m32);
    MulQuadLeft(m20, m02, m13, m31); QuadSwap01(m20, m02, m13, m31); QuadSwap12(m02, m20, m13, m31);
    MulQuadLeft(m20, m32, m13, m01); QuadSwap12(m20, m32, m13, m01); QuadSwap23(m20, m13, m32, m01); QuadSwap01(m20, m13, m01, m32); QuadSwap12(m13, m20, m01, m32); QuadSwap01(m13, m01, m20, m32);
    MulQuadLeft(m20, m02, m33, m11); QuadSwap01(m20, m02, m33, m11); QuadSwap23(m02, m20, m33, m11); QuadSwap12(m02, m20, m11, m33);
    MulQuadLeft(m20, m12, m03, m31); QuadSwap01(m20, m12, m03, m31); QuadSwap12(m12, m20, m03, m31); QuadSwap01(m12, m03, m20, m31);
    DistALeft(m30, Mul(Mul(m22, m13), m01), Mul(Mul(m02, m23), m11), Mul(Mul(m12, m03), m21), Mul(Mul(m12, m23), m01), Mul(Mul(m22, m03), m11), Mul(Mul(m02, m13), m21));
    MulQuadLeft(m30, m22, m13, m01); QuadSwap01(m30, m22, m13, m01); QuadSwap12(m22, m30, m13, m01); QuadSwap23(m22, m13, m30, m01); QuadSwap01(m22, m13, m01, m30); QuadSwap12(m13, m22, m01, m30); QuadSwap01(m13, m01, m22, m30);
    MulQuadLeft(m30, m02, m23, m11); QuadSwap01(m30, m02, m23, m11); QuadSwap12(m02, m30, m23, m11); QuadSwap23(m02, m23, m30, m11); QuadSwap12(m02, m23, m11, m30);
    MulQuadLeft(m30, m12, m03, m21); QuadSwap01(m30, m12, m03, m21); QuadSwap12(m12, m30, m03, m21); QuadSwap23(m12, m03, m30, m21); QuadSwap01(m12, m03, m21, m30);
    MulQuadLeft(m30, m12, m23, m01); QuadSwap01(m30, m12, m23, m01); QuadSwap12(m12, m30, m23, m01); QuadSwap23(m12, m23, m30, m01); QuadSwap12(m12, m23, m01, m30); QuadSwap01(m12, m01, m23, m30);
    MulQuadLeft(m30, m22, m03, m11); QuadSwap01(m30, m22, m03, m11); QuadSwap12(m22, m30, m03, m11); QuadSwap23(m22, m03, m30, m11); QuadSwap01(m22, m03, m11, m30); QuadSwap12(m03, m22, m11, m30);
    MulQuadLeft(m30, m02, m13, m21); QuadSwap01(m30, m02, m13, m21); QuadSwap12(m02, m30, m13, m21); QuadSwap23(m02, m13, m30, m21);
    DistALeft(m30, Mul(Mul(m22, m13), m01), Mul(Mul(m02, m23), m11), Mul(Mul(m12, m03), m21), Mul(Mul(m12, m23), m01), Mul(Mul(m22, m03), m11), Mul(Mul(m02, m13), m21));
    MulQuadLeft(m30, m22, m13, m01); QuadSwap01(m30, m22, m13, m01); QuadSwap12(m22, m30, m13, m01); QuadSwap23(m22, m13, m30, m01); QuadSwap01(m22, m13, m01, m30); QuadSwap12(m13, m22, m01, m30); QuadSwap01(m13, m01, m22, m30);
    MulQuadLeft(m30, m02, m23, m11); QuadSwap01(m30, m02, m23, m11); QuadSwap12(m02, m30, m23, m11); QuadSwap23(m02, m23, m30, m11); QuadSwap12(m02, m23, m11, m30);
    MulQuadLeft(m30, m12, m03, m21); QuadSwap01(m30, m12, m03, m21); QuadSwap12(m12, m30, m03, m21); QuadSwap23(m12, m03, m30, m21); QuadSwap01(m12, m03, m21, m30);
    MulQuadLeft(m30, m12, m23, m01); QuadSwap01(m30, m12, m23, m01); QuadSwap12(m12, m30, m23, m01); QuadSwap23(m12, m23, m30, m01); QuadSwap12(m12, m23, m01, m30); QuadSwap01(m12, m01, m23, m30);
    MulQuadLeft(m30, m22, m03, m11); QuadSwap01(m30, m22, m03, m11); QuadSwap12(m22, m30, m03, m11); QuadSwap23(m22, m03, m30, m11); QuadSwap01(m22, m03, m11, m30); QuadSwap12(m03, m22, m11, m30);
    MulQuadLeft(m30, m02, m13, m21); QuadSwap01(m30, m02, m13, m21); QuadSwap12(m02, m30, m13, m21); QuadSwap23(m02, m13, m30, m21);
    assert Mul(m30, Sub(Sub(Sub(Add(Add(Mul(Mul(m22, m13), m01), Mul(Mul(m02, m23), m11)), Mul(Mul(m12, m03), m21)), Mul(Mul(m12, m23), m01)), Mul(Mul(m22, m03), m11)), Mul(Mul(m02, m13), m21))) == Sub(Sub(Sub(Add(Add(Quad(m01, m13, m22, m30), Quad(m02, m11, m23, m30)), Quad(m03, m12, m21, m30)), Quad(m01, m12, m23, m30)), Quad(m03, m11, m22, m30)), Quad(m02, m13, m21, m30));
    DistALeft(m31, Mul(Mul(m12, m23), m00), Mul(Mul(m22, m03), m10), Mul(Mul(m02, m13), m20), Mul(Mul(m22, m13), m00), Mul(Mul(m02, m23), m10), Mul(Mul(m12, m03), m20));
    MulQuadLeft(m31, m12, m23, m00); QuadSwap01(m31, m12, m23, m00); QuadSwap12(m12, m31, m23, m00); QuadSwap23(m12, m23, m31, m00); QuadSwap12(m12, m23, m00, m31); QuadSwap01(m12, m00, m23, m31);
    MulQuadLeft(m31, m22, m03, m10); QuadSwap01(m31, m22, m03, m10); QuadSwap12(m22, m31, m03, m10); QuadSwap23(m22, m03, m31, m10); QuadSwap01(m22, m03, m10, m31); QuadSwap12(m03, m22, m10, m31);
    MulQuadLeft(m31, m02, m13, m20); QuadSwap01(m31, m02, m13, m20); QuadSwap12(m02, m31, m13, m20); QuadSwap23(m02, m13, m31, m20);
    MulQuadLeft(m31, m22, m13, m00); QuadSwap01(m31, m22, m13, m00); QuadSwap12(m22, m31, m13, m00); QuadSwap23(m22, m13, m31, m00); QuadSwap01(m22, m13, m00, m31); QuadSwap12(m13, m22, m00, m31); QuadSwap01(m13, m00, m22, m31);
    MulQuadLeft(m31, m02, m23, m10); QuadSwap01(m31, m02, m23, m10); QuadSwap12(m02, m31, m23, m10); QuadSwap23(m02, m23, m31, m10); QuadSwap12(m02, m23, m10, m31);
    MulQuadLeft(m31, m12, m03, m20); QuadSwap01(m31, m12, m03, m20); QuadSwap12(m12, m31, m03, m20); QuadSwap23(m12, m03, m31, m20); QuadSwap01(m12, m03, m20, m31);
    assert Mul(m31, Sub(Sub(Sub(Add(Add(Mul(Mul(m12, m23), m00), Mul(Mul(m22, m03), m10)), Mul(Mul(m02, m13), m20)), Mul(Mul(m22, m13), m00)), Mul(Mul(m02, m23), m10)), Mul(Mul(m12, m03), m20))) == Sub(Sub(Sub(Add(Add(Quad(m00, m12, m23, m31), Quad(m03, m10, m22, m31)), Quad(m02, m13, m20, m31)), Quad(m00, m13, m22, m31)), Quad(m02, m10, m23, m31)), Quad(m03, m12, m20, m31));
    DistBLeft(m32, Mul(Mul(m20, m11), m03), Mul(Mul(m00, m21), m13), Mul(Mul(m10, m01), m23), Mul(Mul(m10, m21), m03), Mul(Mul(m20, m01), m13), Mul(Mul(m00, m11), m23));
    MulQuadLeft(m32, m20, m11, m03); QuadSwap01(m32, m20, m11, m03); QuadSwap12(m20, m32, m11, m03); QuadSwap23(m20, m11, m32, m03); QuadSwap01(m20, m11, m03, m32); QuadSwap12(m11, m20, m03, m32); QuadSwap01(m11, m03, m20, m32);
    MulQuadLeft(m32, m00, m21, m13); QuadSwap01(m32, m00, m21, m13); QuadSwap12(m00, m32, m21, m13); QuadSwap23(m00, m21, m32, m13); QuadSwap12(m00, m21, m13, m32);
    MulQuadLeft(m32, m10, m01, m23); QuadSwap01(m32, m10, m01, m23); QuadSwap12(m10, m32, m01, m23); QuadSwap23(m10, m01, m32, m23); QuadSwap01(m10, m01, m23, m32);
    MulQuadLeft(m32, m10, m21, m03); QuadSwap01(m32, m10, m21, m03); QuadSwap12(m10, m32, m21, m03); QuadSwap23(m10, m21, m32, m03); QuadSwap12(m10, m21, m03, m32); QuadSwap01(m10, m03, m21, m32);
    MulQuadLeft(m32, m20, m01, m13); QuadSwap01(m32, m20, m01, m13); QuadSwap12(m20, m32, m01, m13); QuadSwap23(m20, m01, m32, m13); QuadSwap01(m20, m01, m13, m32); QuadSwap12(m01, m20, m13, m32);
    MulQuadLeft(m32, m00, m11, m23); QuadSwap01(m32, m00, m11, m23); QuadSwap12(m00, m32, m11, m23); QuadSwap23(m00, m11, m32, m23);
    assert Mul(m32, Sub(Add(Add(Mul(Mul(m20, m11), m03), Mul(Mul(m00, m21), m13)), Mul(Mul(m10, m01), m23)), Add(Add(Mul(Mul(m10, m21), m03), Mul(Mul(m20, m01), m13)), Mul(Mul(m00, m11), m23)))) == Sub(Sub(Sub(Add(Add(Quad(m03, m11, m20, m32), Quad(m00, m13, m21, m32)), Quad(m01, m10, m23, m32)), Quad(m03, m10, m21, m32)), Quad(m01, m13, m20, m32)), Quad(m00, m11, m23, m32));
    DistBLeft(m33, Mul(Mul(m00, m11), m22), Mul(Mul(m10, m21), m02), Mul(Mul(m20, m01), m12), Mul(Mul(m00, m21), m12), Mul(Mul(m10, m01), m22), Mul(Mul(m20, m11), m02));
    MulQuadLeft(m33, m00, m11, m22); QuadSwap01(m33, m00, m11, m22); QuadSwap12(m00, m33, m11, m22); QuadSwap23(m00, m11, m33, m22);
    MulQuadLeft(m33, m10, m21, m02); QuadSwap01(m33, m10, m21, m02); QuadSwap12(m10, m33, m21, m02); QuadSwap23(m10, m21, m33, m02); QuadSwap12(m10, m21, m02, m33); QuadSwap01(m10, m02, m21, m33);
    MulQuadLeft(m33, m20, m01, m12); QuadSwap01(m33, m20, m01, m12); QuadSwap12(m20, m33, m01, m12); QuadSwap23(m20, m01, m33, m12); QuadSwap01(m20, m01, m12, m33); QuadSwap12(m01, m20, m12, m33);
    MulQuadLeft(m33, m00, m21, m12); QuadSwap01(m33, m00, m21, m12); QuadSwap12(m00, m33, m21, m12); QuadSwap23(m00, m21, m33, m12); QuadSwap12(m00, m21, m12, m33);
    MulQuadLeft(m33, m10, m01, m22); QuadSwap01(m33, m10, m01, m22); QuadSwap12(m10, m33, m01, m22); QuadSwap23(m10, m01, m33, m22); QuadSwap01(m10, m01, m22, m33);
    MulQuadLeft(m33, m20, m11, m02); QuadSwap01(m33, m20, m11, m02); QuadSwap12(m20, m33, m11, m02); QuadSwap23(m20, m11, m33, m02); QuadSwap01(m20, m11, m02, m33); QuadSwap12(m11, m20, m02, m33); QuadSwap01(m11, m02, m20, m33);
    assert Mul(m33, Sub(Add(Add(Mul(Mul(m00, m11), m22), Mul(Mul(m10, m21), m02)), Mul(Mul(m20, m01), m12)), Add(Add(Mul(Mul(m00, m21), m12), Mul(Mul(m10, m01), m22)), Mul(Mul(m20, m11), m02)))) == Sub(Sub(Sub(Add(Add(Quad(m00, m11, m22, m33), Quad(m02, m10, m21, m33)), Quad(m01, m12, m20, m33)), Quad(m00, m12, m21, m33)), Quad(m01, m10, m22, m33)), Quad(m02, m11, m20, m33));
  }

  lemma LeftEntry00(m00: Complex, m01: Complex, m02: Complex, m03: Complex, m10: Complex, m11: Complex, m12: Complex, m13: Complex, m20: Complex, m21: Complex, m22: Complex, m23: Complex, m30: Complex, m31: Complex, m32: Complex, m33: Complex)
    ensures Sum4(Mul(Sub(Sub(Sub(Add(Add(Mul(Mul(m22, m33), m11), Mul(Mul(m32, m13), m21)), Mul(Mul(m12, m23), m31)), Mul(Mul(m32, m23), m11)), Mul(Mul(m12, m33), m21)), Mul(Mul(m22, m13), m31)), m00), Mul(Sub(Sub(Sub(Add(Add(Mul(Mul(m32, m23), m01), Mul(Mul(m02, m33), m21)), Mul(Mul(m22, m03), m31)), Mul(Mul(m22, m33), m01)), Mul(Mul(m32, m03), m21)), Mul(Mul(m02, m23), m31)), m10), Mul(Sub(Sub(Sub(Add(Add(Mul(Mul(m12, m33), m01), Mul(Mul(m32, m03), m11)), Mul(Mul(m02, m13), m31)), Mul(Mul(m32, m13), m01)), Mul(Mul(m02, m33), m11)), Mul(Mul(m12, m03), m31)), m20), Mul(Sub(Sub(Sub(Add(Add(Mul(Mul(m22, m13), m01), Mul(Mul(m02, m23), m11)), Mul(Mul(m12, m03), m21)), Mul(Mul(m12, m23), m01)), Mul(Mul(m22, m03), m11)), Mul(Mul(m02, m13), m21)), m30))
         == DetOf(m00, m01, m02, m03, m10, m11, m12, m13, m20, m21, m22, m23, m30, m31, m32, m33)
  {
    DistALeft(m00, Mul(Mul(m22, m33), m11), Mul(Mul(m32, m13), m21), Mul(Mul(m12, m23), m31), Mul(Mul(m32, m23), m11), Mul(Mul(m12, m33), m21), Mul(Mul(m22, m13), m31));
    MulQuadLeft(m00, m22, m33, m11); QuadSwap23(m00, m22, m33, m11); QuadSwap12(m00, m22, m11, m33);
    MulQuadLeft(m00, m32, m13, m21); QuadSwap12(m00, m32, m13, m21); QuadSwap23(m00, m13, m32, m21);
    MulQuadLeft(m00, m12, m23, m31);
    MulQuadLeft(m00, m32, m23, m11); QuadSwap12(m00, m32, m23, m11); QuadSwap23(m00, m23, m32, m11); QuadSwap12(m00, m23, m11, m32);
    MulQuadLeft(m00, m12, m33, m21); QuadSwap23(m00, m12, m33, m21);
    MulQuadLeft(m00, m22, m13, m31); QuadSwap12(m00, m22, m13, m31);
    DistALeft(m10, Mul(Mul(m32, m23), m01), Mul(Mul(m02, m33), m21), Mul(Mul(m22, m03), m31), Mul(Mul(m22, m33), m01), Mul(Mul(m32, m03), m21), Mul(Mul(m02, m23), m31));
    MulQuadLeft(m10, m32, m23, m01); QuadSwap12(m10, m32, m23, m01); QuadSwap23(m10, m23, m32, m01); QuadSwap12(m10, m23, m01, m32); QuadSwap01(m10, m01, m23, m32);
    MulQuadLeft(m10, m02, m33, m21); QuadSwap01(m10, m02, m33, m21); QuadSwap23(m02, m10, m33, m21);
    MulQuadLeft(m10, m22, m03, m31); QuadSwap12(m10, m22, m03, m31); QuadSwap01(m10, m03, m22, m31);
    MulQuadLeft(m10, m22, m33, m01); QuadSwap23(m10, m22, m33, m01); QuadSwap12(m10, m22, m01, m33); QuadSwap01(m10, m01, m22, m33);
    MulQuadLeft(m10, m32, m03, m21); QuadSwap12(m10, m32, m03, m21); QuadSwap23(m10, m03, m32, m21); QuadSwap01(m10, m03, m21, m32);
    MulQuadLeft(m10, m02, m23, m31); QuadSwap01(m10, m02, m23, m31);
    DistALeft(m20, Mul(Mul(m12, m33), m01), Mul(Mul(m32, m03), m11), Mul(Mul(m02, m13), m31), Mul(Mul(m32, m13), m01), Mul(Mul(m02, m33), m11), Mul(Mul(m12, m03), m31));
    MulQuadLeft(m20, m12, m33, m01); QuadSwap01(m20, m12, m33, m01); QuadSwap23(m12, m20, m33, m01); QuadSwap12(m12, m20, m01, m33); QuadSwap01(m12, m01, m20, m33);
    MulQuadLeft(m20, m32, m03, m11); QuadSwap12(m20, m32, m03, m11); QuadSwap23(m20, m03, m32, m11); QuadSwap01(m20, m03, m11, m32); QuadSwap12(m03, m20, m11, m32);
    MulQuadLeft(m20, m02, m13, m31); QuadSwap01(m20, m02, m13, m31); QuadSwap12(m02, m20, m13, m31);
    MulQuadLeft(m20, m32, m13, m01); QuadSwap12(m20, m32, m13, m01); QuadSwap23(m20, m13, m32, m01); QuadSwap01(m20, m13, m01, m32); QuadSwap12(m13, m20, m01, m32); QuadSwap01(m13, m01, m20, m32);
    MulQuadLeft(m20, m02, m33, m11); QuadSwap01(m20, m02, m33, m11); QuadSwap23(m02, m20, m33, m11); QuadSwap12(m02, m20, m11, m33);
    MulQuadLeft(m20, m12, m03, m31); QuadSwap01(m20, m12, m03, m31); QuadSwap12(m12, m20, m03, m31); QuadSwap01(m12, m03, m20, m31);
    DistALeft(m30, Mul(Mul(m22, m13), m01), Mul(Mul(m02, m23), m11), Mul(Mul(m12, m03), m21), Mul(Mul(m12, m23), m01), Mul(Mul(m22, m03), m11), Mul(Mul(m02, m13), m21));
    MulQuadLeft(m30, m22, m13, m01); QuadSwap01(m30, m22, m13, m01); QuadSwap12(m22, m30, m13, m01); QuadSwap23(m22, m13, m30, m01); QuadSwap01(m22, m13, m01, m30); QuadSwap12(m13, m22, m01, m30); QuadSwap01(m13, m01, m22, m30);
    MulQuadLeft(m30, m02, m23, m11); QuadSwap01(m30, m02, m23, m11); QuadSwap12(m02, m30, m23, m11); QuadSwap23(m02, m23, m30, m11); QuadSwap12(m02, m23, m11, m30);
    MulQuadLeft(m30, m12, m03, m21); QuadSwap01(m30, m12, m03, m21); QuadSwap12(m12, m30, m03, m21); QuadSwap23(m12, m03, m30, m21); QuadSwap01(m12, m03, m21, m30);
    MulQuadLeft(m30, m12, m23, m01); QuadSwap01(m30, m12, m23, m01); QuadSwap12(m12, m30, m23, m01); QuadSwap23(m12, m23, m30, m01); QuadSwap12(m12, m23, m01, m30); QuadSwap01(m12, m01, m23, m30);
    MulQuadLeft(m30, m22, m03, m11); QuadSwap01(m30, m22, m03, m11); QuadSwap12(m22, m30, m03, m11); QuadSwap23(m22, m03, m30, m11); QuadSwap01(m22, m03, m11, m30); QuadSwap12(m03, m22, m11, m30);
    MulQuadLeft(m30, m02, m13, m21); QuadSwap01(m30, m02, m13, m21); QuadSwap12(m02, m30, m13, m21); QuadSwap23(m02, m13, m30, m21);
    DistARight(m00, Mul(Mul(m22, m33), m11), Mul(Mul(m32, m13), m21), Mul(Mul(m12, m23), m31), Mul(Mul(m32, m23), m11), Mul(Mul(m12, m33), m21), Mul(Mul(m22, m13), m31));
    MulQuadRight(m00, m22, m33, m11); QuadSwap23(m00, m22, m33, m11); QuadSwap12(m00, m22, m11, m33);
    MulQuadRight(m00, m32, m13, m21); QuadSwap12(m00, m32, m13, m21); QuadSwap23(m00, m13, m32, m21);
    MulQuadRight(m00, m12, m23, m31);
    MulQuadRight(m00, m32, m23, m11); QuadSwap12(m00, m32, m23, m11); QuadSwap23(m00, m23, m32, m11); QuadSwap12(m00, m23, m11, m32);
    MulQuadRight(m00, m12, m33, m21); QuadSwap23(m00, m12, m33, m21);
    MulQuadRight(m00, m22, m13, m31); QuadSwap12(m00, m22, m13, m31);
    assert Mul(Sub(Sub(Sub(Add(Add(Mul(Mul(m22, m33), m11), Mul(Mul(m32, m13), m21)), Mul(Mul(m12, m23), m31)), Mul(Mul(m32, m23), m11)), Mul(Mul(m12, m33), m21)), Mul(Mul(m22, m13), m31)), m00) == Sub(Sub(Sub(Add(Add(Quad(m00, m11, m22, m33), Quad(m00, m13, m21, m32)), Quad(m00, m12, m23, m31)), Quad(m00, m11, m23, m32)), Quad(m00, m12, m21, m33)), Quad(m00, m13, m22, m31));
    DistARight(m10, Mul(Mul(m32, m23), m01), Mul(Mul(m02, m33), m21), Mul(Mul(m22, m03), m31), Mul(Mul(m22, m33), m01), Mul(Mul(m32, m03), m21), Mul(Mul(m02, m23), m31));
    MulQuadRight(m10, m32, m23, m01); QuadSwap12(m10, m32, m23, m01); QuadSwap23(m10, m23, m32, m01); QuadSwap12(m10, m23, m01, m32); QuadSwap01(m10, m01, m23, m32);
    MulQuadRight(m10, m02, m33, m21); QuadSwap01(m10, m02, m33, m21); QuadSwap23(m02, m10, m33, m21);
    MulQuadRight(m10, m22, m03, m31); QuadSwap12(m10, m22, m03, m31); QuadSwap01(m10, m03, m22, m31);
    MulQuadRight(m10, m22, m33, m01); QuadSwap23(m10, m22, m33, m01); QuadSwap12(m10, m22, m01, m33); QuadSwap01(m10, m01, m22, m33);
    MulQuadRight(m10, m32, m03, m21); QuadSwap12(m10, m32, m03, m21); QuadSwap23(m10, m03, m32, m21); QuadSwap01(m10, m03, m21, m32);
    MulQuadRight(m10, m02, m23, m31); QuadSwap01(m10, m02, m23, m31);
    assert Mul(Sub(Sub(Sub(Add(Add(Mul(Mul(m32, m23), m01), Mul(Mul(m02, m33), m21)), Mul(Mul(m22, m03), m31)), Mul(Mul(m22, m33), m01)), Mul(Mul(m32, m03), m21)), Mul(Mul(m02, m23), m31)), m10) == Sub(Sub(Sub(Add(Add(Quad(m01, m10, m23, m32), Quad(m02, m10, m21, m33)), Quad(m03, m10, m22, m31)), Quad(m01, m10, m22, m33)), Quad(m03, m10, m21, m32)), Quad(m02, m10, m23, m31));
    DistARight(m20, Mul(Mul(m12, m33), m01), Mul(Mul(m32, m03), m11), Mul(Mul(m02, m13), m31), Mul(Mul(m32, m13), m01), Mul(Mul(m02, m33), m11), Mul(Mul(m12, m03), m31));
    MulQuadRight(m20, m12, m33, m01); QuadSwap01(m20, m12, m33, m01); QuadSwap23(m12, m20, m33, m01); QuadSwap12(m12, m20, m01, m33); QuadSwap01(m12, m01, m20, m33);
    MulQuadRight(m20, m32, m03, m11); QuadSwap12(m20, m32, m03, m11); QuadSwap23(m20, m03, m32, m11); QuadSwap01(m20, m03, m11, m32); QuadSwap12(m03, m20, m11, m32);
    MulQuadRight(m20, m02, m13, m31); QuadSwap01(m20, m02, m13, m31); QuadSwap12(m02, m20, m13, m31);
    MulQuadRight(m20, m32, m13, m01); QuadSwap12(m20, m32, m13, m01); QuadSwap23(m20, m13, m32, m01); QuadSwap01(m20, m13, m01, m32); QuadSwap12(m13, m20, m01, m32); QuadSwap01(m13, m01, m20, m32);
    MulQuadRight(m20, m02, m33, m11); QuadSwap01(m20, m02, m33, m11); QuadSwap23(m02, m20, m33, m11); QuadSwap12(m02, m20, m11, m33);
    MulQuadRight(m20, m12, m03, m31); QuadSwap01(m20, m12, m03, m31); QuadSwap12(m12, m20, m03, m31); QuadSwap01(m12, m03, m20, m31);
    assert Mul(Sub(Sub(Sub(Add(Add(Mul(Mul(m12, m33), m01), Mul(Mul(m32, m03), m11)), Mul(Mul(m02, m13), m31)), Mul(Mul(m32, m13), m01)), Mul(Mul(m02, m33), m11)), Mul(Mul(m12, m03), m31)), m20) == Sub(Sub(Sub(Add(Add(Quad(m01, m12, m20, m33), Quad(m03, m11, m20, m32)), Quad(m02, m13, m20, m31)), Quad(m01, m13, m20, m32)), Quad(m02, m11, m20, m33)), Quad(m03, m12, m20, m31));
    DistARight(m30, Mul(Mul(m22, m13), m01), Mul(Mul(m02, m23), m11), Mul(Mul(m12, m03), m21), Mul(Mul(m12, m23), m01), Mul(Mul(m22, m03), m11), Mul(Mul(m02, m13), m21));
    MulQuadRight(m30, m22, m13, m01); QuadSwap01(m30, m22, m13, m01); QuadSwap12(m22, m30, m13, m01); QuadSwap23(m22, m13, m30, m01); QuadSwap01(m22, m13, m01, m30); QuadSwap12(m13, m22, m01, m30); QuadSwap01(m13, m01, m22, m30);
    MulQuadRight(m30, m02, m23, m11); QuadSwap01(m30, m02, m23, m11); QuadSwap12(m02, m30, m23, m11); QuadSwap23(m02, m23, m30, m11); QuadSwap12(m02, m23, m11, m30);
    MulQuadRight(m30, m12, m03, m21); QuadSwap01(m30, m12, m03, m21); QuadSwap12(m12, m30, m03, m21); QuadSwap23(m12, m03, m30, m21); QuadSwap01(m12, m03, m21, m30);
    MulQuadRight(m30, m12, m23, m01); QuadSwap01(m30, m12, m23, m01); QuadSwap12(m12, m30, m23, m01); QuadSwap23(m12, m23, m30, m01); QuadSwap12(m12, m23, m01, m30); QuadSwap01(m12, m01, m23, m30);
    MulQuadRight(m30, m22, m03, m11); QuadSwap01(m30, m22, m03, m11); QuadSwap12(m22, m30, m03, m11); QuadSwap23(m22, m03, m30, m11); QuadSwap01(m22, m03, m11, m30); QuadSwap12(m03, m22, m11, m30);
    MulQuadRight(m30, m02, m13, m21); QuadSwap01(m30, m02, m13, m21); QuadSwap12(m02, m30, m13, m21); QuadSwap23(m02, m13, m30, m21);
    assert Mul(Sub(Sub(Sub(Add(Add(Mul(Mul(m22, m13), m01), Mul(Mul(m02, m23), m11)), Mul(Mul(m12, m03), m21)), Mul(Mul(m12, m23), m01)), Mul(Mul(m22, m03), m11)), Mul(Mul(m02, m13), m21)), m30) == Sub(Sub(Sub(Add(Add(Quad(m01, m13, m22, m30), Quad(m02, m11, m23, m30)), Quad(m03, m12, m21, m30)), Quad(m01, m12, m23, m30)), Quad(m03, m11, m22, m30)), Quad(m02, m13, m21, m30));
  }

  lemma LeftEntry01(m00: Complex, m01: Complex, m02: Complex, m03: Complex, m10: Complex, m11: Complex, m12: Complex, m13: Complex, m20: Complex, m21: Complex, m22: Complex, m23: Complex, m30: Complex, m31: Complex, m32: Complex, m33: Complex)
    ensures Sum4(Mul(Sub(Sub(Sub(Add(Add(Mul(Mul(m22, m33), m11), Mul(Mul(m32, m13), m21)), Mul(Mul(m12, m23), m31)), Mul(Mul(m32, m23), m11)), Mul(Mul(m12, m33), m21)), Mul(Mul(m22, m13), m31)), m01), Mul(Sub(Sub(Sub(Add(Add(Mul(Mul(m32, m23), m01), Mul(Mul(m02, m33), m21)), Mul(Mul(m22, m03), m31)), Mul(Mul(m22, m33), m01)), Mul(Mul(m32, m03), m21)), Mul(Mul(m02, m23), m31)), m11), Mul(Sub(Sub(Sub(Add(Add(Mul(Mul(m12, m33), m01), Mul(Mul(m32, m03), m11)), Mul(Mul(m02, m13), m31)), Mul(Mul(m32, m13), m01)), Mul(Mul(m02, m33), m11)), Mul(Mul(m12, m03), m31)), m21), Mul(Sub(Sub(Sub(Add(Add(Mul(Mul(m22, m13), m01), Mul(Mul(m02, m23), m11)), Mul(Mul(m12, m03), m21)), Mul(Mul(m12, m23), m01)), Mul(Mul(m22, m03), m11)), Mul(Mul(m02, m13), m21)), m31))
         == Zero
  {
    DistALeft(m00, Mul(Mul(m22, m33), m11), Mul(Mul(m32, m13), m21), Mul(Mul(m12, m23), m31), Mul(Mul(m32, m23), m11), Mul(Mul(m12, m33), m21), Mul(Mul(m22, m13), m31));
    MulQuadLeft(m00, m22, m33, m11); QuadSwap23(m00, m22, m33, m11); QuadSwap12(m00, m22, m11, m33);
    MulQuadLeft(m00, m32, m13, m21); QuadSwap12(m00, m32, m13, m21); QuadSwap23(m00, m13, m32, m21);
    MulQuadLeft(m00, m12, m23, m31);
    MulQuadLeft(m00, m32, m23, m11); QuadSwap12(m00, m32, m23, m11); QuadSwap23(m00, m23, m32, m11); QuadSwap12(m00, m23, m11, m32);
    MulQuadLeft(m00, m12, m33, m21); QuadSwap23(m00, m12, m33, m21);
    MulQuadLeft(m00, m22, m13, m31); QuadSwap12(m00, m22, m13, m31);
    DistALeft(m10, Mul(Mul(m32, m23), m01), Mul(Mul(m02, m33), m21), Mul(Mul(m22, m03), m31), Mul(Mul(m22, m33), m01), Mul(Mul(m32, m03), m21), Mul(Mul(m02, m23), m31));
    MulQuadLeft(m10, m32, m23, m01); QuadSwap12(m10, m32, m23, m01); QuadSwap23(m10, m23, m32, m01); QuadSwap12(m10, m23, m01, m32); QuadSwap01(m10, m01, m23, m32);
    MulQuadLeft(m10, m02, m33, m21); QuadSwap01(m10, m02, m33, m21); QuadSwap23(m02, m10, m33, m21);
    MulQuadLeft(m10, m22, m03, m31); QuadSwap12(m10, m22, m03, m31); QuadSwap01(m10, m03, m22, m31);
    MulQuadLeft(m10, m22, m33, m01); QuadSwap23(m10, m22, m33, m01); QuadSwap12(m10, m22, m01, m33); QuadSwap01(m10, m01, m22, m33);
    MulQuadLeft(m10, m32, m03, m21); QuadSwap12(m10, m32, m03, m21); QuadSwap23(m10, m03, m32, m21); QuadSwap01(m10, m03, m21, m32);
    MulQuadLeft(m10, m02, m23, m31); QuadSwap01(m10, m02, m23, m31);
    DistALeft(m20, Mul(Mul(m12, m33), m01), Mul(Mul(m32, m03), m11), Mul(Mul(m02, m13), m31), Mul(Mul(m32, m13), m01), Mul(Mul(m02, m33), m11), Mul(Mul(m12, m03), m31));
    MulQuadLeft(m20, m12, m33, m01); QuadSwap01(m20, m12, m33, m01); QuadSwap23(m12, m20, m33, m01); QuadSwap12(m12, m20, m01, m33); QuadSwap01(m12, m01, m20, m33);
    MulQuadLeft(m20, m32, m03, m11); QuadSwap12(m20, m32, m03, m11); QuadSwap23(m20, m03, m32, m11); QuadSwap01(m20, m03, m11, m32); QuadSwap12(m03, m20, m11, m32);
    MulQuadLeft(m20, m02, m13, m31); QuadSwap01(m20, m02, m13, m31); QuadSwap12(m02, m20, m13, m31);
    MulQuadLeft(m20, m32, m13, m01); QuadSwap12(m20, m32, m13, m01); QuadSwap23(m20, m13, m32, m01); QuadSwap01(m20, m13, m01, m32); QuadSwap12(m13, m20, m01, m32); QuadSwap01(m13, m01, m20, m32);
    MulQuadLeft(m20, m02, m33, m11); QuadSwap01(m20, m02, m33, m11); QuadSwap23(m02, m20, m33, m11); QuadSwap12(m02, m20, m11, m33);
    MulQuadLeft(m20, m12, m03, m31); QuadSwap01(m20, m12, m03, m31); QuadSwap12(m12, m20, m03, m31); QuadSwap01(m12, m03, m20, m31);
    DistALeft(m30, Mul(Mul(m22, m13), m01), Mul(Mul(m02, m23), m11), Mul(Mul(m12, m03), m21), Mul(Mul(m12, m23), m01), Mul(Mul(m22, m03), m11), Mul(Mul(m02, m13), m21));
    MulQuadLeft(m30, m22, m13, m01); QuadSwap01(m30, m22, m13, m01); QuadSwap12(m22, m30, m13, m01); QuadSwap23(m22, m13, m30, m01); QuadSwap01(m22, m13, m01, m30); QuadSwap12(m13, m22, m01, m30); QuadSwap01(m13, m01, m22, m30);
    MulQuadLeft(m30, m02, m23, m11); QuadSwap01(m30, m02, m23, m11); QuadSwap12(m02, m30, m23, m11); QuadSwap23(m02, m23, m30, m11); QuadSwap12(m02, m23, m11, m30);
    MulQuadLeft(m30, m12, m03, m21); QuadSwap01(m30, m12, m03, m21); QuadSwap12(m12, m30, m03, m21); QuadSwap23(m12, m03, m30, m21); QuadSwap01(m12, m03, m21, m30);
    MulQuadLeft(m30, m12, m23, m01); QuadSwap01(m30, m12, m23, m01); QuadSwap12(m12, m30, m23, m01); QuadSwap23(m12, m23, m30, m01); QuadSwap12(m12, m23, m01, m30); QuadSwap01(m12, m01, m23, m30);
    MulQuadLeft(m30, m22, m03, m11); QuadSwap01(m30, m22, m03, m11); QuadSwap12(m22, m30, m03, m11); QuadSwap23(m22, m03, m30, m11); QuadSwap01(m22, m03, m11, m30); QuadSwap12(m03, m22, m11, m30);
    MulQuadLeft(m30, m02, m13, m21); QuadSwap01(m30, m02, m13, m21); QuadSwap12(m02, m30, m13, m21); QuadSwap23(m02, m13, m30, m21);
    DistARight(m01, Mul(Mul(m22, m33), m11), Mul(Mul(m32, m13), m21), Mul(Mul(m12, m23), m31), Mul(Mul(m32, m23), m11), Mul(Mul(m12, m33), m21), Mul(Mul(m22, m13), m31));
    MulQuadRight(m01, m22, m33, m11); QuadSwap23(m01, m22, m33, m11); QuadSwap12(m01, m22, m11, m33);
    MulQuadRight(m01, m32, m13, m21); QuadSwap12(m01, m32, m13, m21); QuadSwap23(m01, m13, m32, m21);
    MulQuadRight(m01, m12, m23, m31);
    MulQuadRight(m01, m32, m23, m11); QuadSwap12(m01, m32, m23, m11); QuadSwap23(m01, m23, m32, m11); QuadSwap12(m01, m23, m11, m32);
    MulQuadRight(m01, m12, m33, m21); QuadSwap23(m01, m12, m33, m21);
    MulQuadRight(m01, m22, m13, m31); QuadSwap12(m01, m22, m13, m31);
    assert Mul(Sub(Sub(Sub(Add(Add(Mul(Mul(m22, m33), m11), Mul(Mul(m32, m13), m21)), Mul(Mul(m12, m23), m31)), Mul(Mul(m32, m23), m11)), Mul(Mul(m12, m33), m21)), Mul(Mul(m22, m13), m31)), m01) == Sub(Sub(Sub(Add(Add(Quad(m01, m11, m22, m33), Quad(m01, m13, m21, m32)), Quad(m01, m12, m23, m31)), Quad(m01, m11, m23, m32)), Quad(m01, m12, m21, m33)), Quad(m01, m13, m22, m31));
    DistARight(m11, Mul(Mul(m32, m23), m01), Mul(Mul(m02, m33), m21), Mul(Mul(m22, m03), m31), Mul(Mul(m22, m33), m01), Mul(Mul(m32, m03), m21), Mul(Mul(m02, m23), m31));
    MulQuadRight(m11, m32, m23, m01); QuadSwap12(m11, m32, m23, m01); QuadSwap23(m11, m23, m32, m01); QuadSwap12(m11, m23, m01, m32); QuadSwap01(m11, m01, m23, m32);
    MulQuadRight(m11, m02, m33, m21); QuadSwap01(m11, m02, m33, m21); QuadSwap23(m02, m11, m33, m21);
    MulQuadRight(m11, m22, m03, m31); QuadSwap12(m11, m22, m03, m31); QuadSwap01(m11, m03, m22, m31);
    MulQuadRight(m11, m22, m33, m01); QuadSwap23(m11, m22, m33, m01); QuadSwap12(m11, m22, m01, m33); QuadSwap01(m11, m01, m22, m33);
    MulQuadRight(m11, m32, m03, m21); QuadSwap12(m11, m32, m03, m21); QuadSwap23(m11, m03, m32, m21); QuadSwap01(m11, m03, m21, m32);
    MulQuadRight(m11, m02, m23, m31); QuadSwap01(m11, m02, m23, m31);
    assert Mul(Sub(Sub(Sub(Add(Add(Mul(Mul(m32, m23), m01), Mul(Mul(m02, m33), m21)), Mul(Mul(m22, m03), m31)), Mul(Mul(m22, m33), m01)), Mul(Mul(m32, m03), m21)), Mul(Mul(m02, m23), m31)), m11) == Sub(Sub(Sub(Add(Add(Quad(m01, m11, m23, m32), Quad(m02, m11, m21, m33)), Quad(m03, m11, m22, m31)), Quad(m01, m11, m22, m33)), Quad(m03, m11, m21, m32)), Quad(m02, m11, m23, m31));
    DistARight(m21, Mul(Mul(m12, m33), m01), Mul(Mul(m32, m03), m11), Mul(Mul(m02, m13), m31), Mul(Mul(m32, m13), m01), Mul(Mul(m02, m33), m11), Mul(Mul(m12, m03), m31));
    MulQuadRight(m21, m12, m33, m01); QuadSwap01(m21, m12, m33, m01); QuadSwap23(m12, m21, m33, m01); QuadSwap12(m12, m21, m01, m33); QuadSwap01(m12, m01, m21, m33);
    MulQuadRight(m21, m32, m03, m11); QuadSwap12(m21, m32, m03, m11); QuadSwap23(m21, m03, m32, m11); QuadSwap01(m21, m03, m11, m32); QuadSwap12(m03, m21, m11, m32);
    MulQuadRight(m21, m02, m13, m31); QuadSwap01(m21, m02, m13, m31); QuadSwap12(m02, m21, m13, m31);
    MulQuadRight(m21, m32, m13, m01); QuadSwap12(m21, m32, m13, m01); QuadSwap23(m21, m13, m32, m01); QuadSwap01(m21, m13, m01, m32); QuadSwap12(m13, m21, m01, m32); QuadSwap01(m13, m01, m21, m32);
    MulQuadRight(m21, m02, m33, m11); QuadSwap01(m21, m02, m33, m11); QuadSwap23(m02, m21, m33, m11); QuadSwap12(m02, m21, m11, m33);
    MulQuadRight(m21, m12, m03, m31); QuadSwap01(m21, m12, m03, m31); QuadSwap12(m12, m21, m03, m31); QuadSwap01(m12, m03, m21, m31);
    assert Mul(Sub(Sub(Sub(Add(Add(Mul(Mul(m12, m33), m01), Mul(Mul(m32, m03), m11)), Mul(Mul(m02, m13), m31)), Mul(Mul(m32, m13), m01)), Mul(Mul(m02, m33), m11)), Mul(Mul(m12, m03), m31)), m21) == Sub(Sub(Sub(Add(Add(Quad(m01, m12, m21, m33), Quad(m03, m11, m21, m32)), Quad(m02, m13, m21, m31)), Quad(m01, m13, m21, m32)), Quad(m02, m11, m21, m33)), Quad(m03, m12, m21, m31));
    DistARight(m31, Mul(Mul(m22, m13), m01), Mul(Mul(m02, m23), m11), Mul(Mul(m12, m03), m21), Mul(Mul(m12, m23), m01), Mul(Mul(m22, m03), m11), Mul(Mul(m02, m13), m21));
    MulQuadRight(m31, m22, m13, m01); QuadSwap01(m31, m22, m13, m01); QuadSwap12(m22, m31, m13, m01); QuadSwap23(m22, m13, m31, m01); QuadSwap01(m22, m13, m01, m31); QuadSwap12(m13, m22, m01, m31); QuadSwap01(m13, m01, m22, m31);
    MulQuadRight(m31, m02, m23, m11); QuadSwap01(m31, m02, m23, m11); QuadSwap12(m02, m31, m23, m11); QuadSwap23(m02, m23, m31, m11); QuadSwap12(m02, m23, m11, m31);
    MulQuadRight(m31, m12, m03, m21); QuadSwap01(m31, m12, m03, m21); QuadSwap12(m12, m31, m03, m21); QuadSwap23(m12, m03, m31, m21); QuadSwap01(m12, m03, m21, m31);
    MulQuadRight(m31, m12, m23, m01); QuadSwap01(m31, m12, m23, m01); QuadSwap12(m12, m31, m23, m01); QuadSwap23(m12, m23, m31, m01); QuadSwap12(m12, m23, m01, m31); QuadSwap01(m12, m01, m23, m31);
    MulQuadRight(m31, m22, m03, m11); QuadSwap01(m31, m22, m03, m11); QuadSwap12(m22, m31, m03, m11); QuadSwap23(m22, m03, m31, m11); QuadSwap01(m22, m03, m11, m31); QuadSwap12(m03, m22, m11, m31);
    MulQuadRight(m31, m02, m13, m21); QuadSwap01(m31, m02, m13, m21); QuadSwap12(m02, m31, m13, m21); QuadSwap23(m02, m13, m31, m21);
    assert Mul(Sub(Sub(Sub(Add(Add(Mul(Mul(m22, m13), m01), Mul(Mul(m02, m23), m11)), Mul(Mul(m12, m03), m21)), Mul(Mul(m12, m23), m01)), Mul(Mul(m22, m03), m11)), Mul(Mul(m02, m13), m21)), m31) == Sub(Sub(Sub(Add(Add(Quad(m01, m13, m22, m31), Quad(m02, m11, m23, m31)), Quad(m03, m12, m21, m31)), Quad(m01, m12, m23, m31)), Quad(m03, m11, m22, m31)), Quad(m02, m13, m21, m31));
  }

  lemma LeftEntry02(m00: Complex, m01: Complex, m02: Complex, m03: Complex, m10: Complex, m11: Complex, m12: Complex, m13: Complex, m20: Complex, m21: Complex, m22: Complex, m23: Complex, m30: Complex, m31: Complex, m32: Complex, m33: Complex)
    ensures Sum4(Mul(Sub(Sub(Sub(Add(Add(Mul(Mul(m22, m33), m11), Mul(Mul(m32, m13), m21)), Mul(Mul(m12, m23), m31)), Mul(Mul(m32, m23), m11)), Mul(Mul(m12, m33), m21)), Mul(Mul(m22, m13), m31)), m02), Mul(Sub(Sub(Sub(Add(Add(Mul(Mul(m32, m23), m01), Mul(Mul(m02, m33), m21)), Mul(Mul(m22, m03), m31)), Mul(Mul(m22, m33), m01)), Mul(Mul(m32, m03), m21)), Mul(Mul(m02, m23), m31)), m12), Mul(Sub(Sub(Sub(Add(Add(Mul(Mul(m12, m33), m01), Mul(Mul(m32, m03), m11)), Mul(Mul(m02, m13), m31)), Mul(Mul(m32, m13), m01)), Mul(Mul(m02, m33), m11)), Mul(Mul(m12, m03), m31)), m22), Mul(Sub(Sub(Sub(Add(Add(Mul(Mul(m22, m13), m01), Mul(Mul(m02, m23), m11)), Mul(Mul(m12, m03), m21)), Mul(Mul(m12, m23), m01)), Mul(Mul(m22, m03), m11)), Mul(Mul(m02, m13), m21)), m32))
         == Zero
  {
    DistALeft(m00, Mul(Mul(m22, m33), m11), Mul(Mul(m32, m13), m21), Mul(Mul(m12, m23), m31), Mul(Mul(m32, m23), m11), Mul(Mul(m12, m33), m21), Mul(Mul(m22, m13), m31));
    MulQuadLeft(m00, m22, m33, m11); QuadSwap23(m00, m22, m33, m11); QuadSwap12(m00, m22, m11, m33);
    MulQuadLeft(m00, m32, m13, m21); QuadSwap12(m00, m32, m13, m21); QuadSwap23(m00, m13, m32, m21);
    MulQuadLeft(m00, m12, m23, m31);
    MulQuadLeft(m00, m32, m23, m11); QuadSwap12(m00, m32, m23, m11); QuadSwap23(m00, m23, m32, m11); QuadSwap12(m00, m23, m11, m32);
    MulQuadLeft(m00, m12, m33, m21); QuadSwap23(m00, m12, m33, m21);
    MulQuadLeft(m00, m22, m13, m31); QuadSwap12(m00, m22, m13, m31);
    DistALeft(m10, Mul(Mul(m32, m23), m01), Mul(Mul(m02, m33), m21), Mul(Mul(m22, m03), m31), Mul(Mul(m22, m33), m01), Mul(Mul(m32, m03), m21), Mul(Mul(m02, m23), m31));
    MulQuadLeft(m10, m32, m23, m01); QuadSwap12(m10, m32, m23, m01); QuadSwap23(m10, m23, m32, m01); QuadSwap12(m10, m23, m01, m32); QuadSwap01(m10, m01, m23, m32);
    MulQuadLeft(m10, m02, m33, m21); QuadSwap01(m10, m02, m33, m21); QuadSwap23(m02, m10, m33, m21);
    MulQuadLeft(m10, m22, m03, m31); QuadSwap12(m10, m22, m03, m31); QuadSwap01(m10, m03, m22, m31);
    MulQuadLeft(m10, m22, m33, m01); QuadSwap23(m10, m22, m33, m01); QuadSwap12(m10, m22, m01, m33); QuadSwap01(m10, m01, m22, m33);
    MulQuadLeft(m10, m32, m03, m21); QuadSwap12(m10, m32, m03, m21); QuadSwap23(m10, m03, m32, m21); QuadSwap01(m10, m03, m21, m32);
    MulQuadLeft(m10, m02, m23, m31); QuadSwap01(m10, m02, m23, m31);
    DistALeft(m20, Mul(Mul(m12, m33), m01), Mul(Mul(m32, m03), m11), Mul(Mul(m02, m13), m31), Mul(Mul(m32, m13), m01), Mul(Mul(m02, m33), m11), Mul(Mul(m12, m03), m31));
    MulQuadLeft(m20, m12, m33, m01); QuadSwap01(m20, m12, m33, m01); QuadSwap23(m12, m20, m33, m01); QuadSwap12(m12, m20, m01, m33); QuadSwap01(m12, m01, m20, m33);
    MulQuadLeft(m20, m32, m03, m11); QuadSwap12(m20, m32, m03, m11); QuadSwap23(m20, m03, m32, m11); QuadSwap01(m20, m03, m11, m32); QuadSwap12(m03, m20, m11, m32);
    MulQuadLeft(m20, m02, m13, m31); QuadSwap01(m20, m02, m13, m31); QuadSwap12(m02, m20, m13, m31);
    MulQuadLeft(m20, m32, m13, m01); QuadSwap12(m20, m32, m13, m01); QuadSwap23(m20, m13, m32, m01); QuadSwap01(m20, m13, m01, m32); QuadSwap12(m13, m20, m01, m32); QuadSwap01(m13, m01, m20, m32);
    MulQuadLeft(m20, m02, m33, m11); QuadSwap01(m20, m02, m33, m11); QuadSwap23(m02, m20, m33, m11); QuadSwap12(m02, m20, m11, m33);
    MulQuadLeft(m20, m12, m03, m31); QuadSwap01(m20, m12, m03, m31); QuadSwap12(m12, m20, m03, m31); QuadSwap01(m12, m03, m20, m31);
    DistALeft(m30, Mul(Mul(m22, m13), m01), Mul(Mul(m02, m23), m11), Mul(Mul(m12, m03), m21), Mul(Mul(m12, m23), m01), Mul(Mul(m22, m03), m11), Mul(Mul(m02, m13), m21));
    MulQuadLeft(m30, m22, m13, m01); QuadSwap01(m30, m22, m13, m01); QuadSwap12(m22, m30, m13, m01); QuadSwap23(m22, m13, m30, m01); QuadSwap01(m22, m13, m01, m30); QuadSwap12(m13, m22, m01, m30); QuadSwap01(m13, m01, m22, m30);
    MulQuadLeft(m30, m02, m23, m11); QuadSwap01(m30, m02, m23, m11); QuadSwap12(m02, m30, m23, m11); QuadSwap23(m02, m23, m30, m11); QuadSwap12(m02, m23, m11, m30);
    MulQuadLeft(m30, m12, m03, m21); QuadSwap01(m30, m12, m03, m21); QuadSwap12(m12, m30, m03, m21); QuadSwap23(m12, m03, m30, m21); QuadSwap01(m12, m03, m21, m30);
    MulQuadLeft(m30, m12, m23, m01); QuadSwap01(m30, m12, m23, m01); QuadSwap12(m12, m30, m23, m01); QuadSwap23(m12, m23, m30, m01); QuadSwap12(m12, m23, m01, m30); QuadSwap01(m12, m01, m23, m30);
    MulQuadLeft(m30, m22, m03, m11); QuadSwap01(m30, m22, m03, m11); QuadSwap12(m22, m30, m03, m11); QuadSwap23(m22, m03, m30, m11); QuadSwap01(m22, m03, m11, m30); QuadSwap12(m03, m22, m11, m30);
    MulQuadLeft(m30, m02, m13, m21); QuadSwap01(m30, m02, m13, m21); QuadSwap12(m02, m30, m13, m21); QuadSwap23(m02, m13, m30, m21);
    DistARight(m02, Mul(Mul(m22, m33), m11), Mul(Mul(m32, m13), m21), Mul(Mul(m12, m23), m31), Mul(Mul(m32, m23), m11), Mul(Mul(m12, m33), m21), Mul(Mul(m22, m13), m31));
    MulQuadRight(m02, m22, m33, m11); QuadSwap23(m02, m22, m33, m11); QuadSwap12(m02, m22, m11, m33);
    MulQuadRight(m02, m32, m13, m21); QuadSwap12(m02, m32, m13, m21); QuadSwap23(m02, m13, m32, m21);
    MulQuadRight(m02, m12, m23, m31);
    MulQuadRight(m02, m32, m23, m11); QuadSwap12(m02, m32, m23, m11); QuadSwap23(m02, m23, m32, m11); QuadSwap12(m02, m23, m11, m32);
    MulQuadRight(m02, m12, m33, m21); QuadSwap23(m02, m12, m33, m21);
    MulQuadRight(m02, m22, m13, m31); QuadSwap12(m02, m22, m13, m31);
    assert Mul(Sub(Sub(Sub(Add(Add(Mul(Mul(m22, m33), m11), Mul(Mul(m32, m13), m21)), Mul(Mul(m12, m23), m31)), Mul(Mul(m32, m23), m11)), Mul(Mul(m12, m33), m21)), Mul(Mul(m22, m13), m31)), m02) == Sub(Sub(Sub(Add(Add(Quad(m02, m11, m22, m33), Quad(m02, m13, m21, m32)), Quad(m02, m12, m23, m31)), Quad(m02, m11, m23, m32)), Quad(m02, m12, m21, m33)), Quad(m02, m13, m22, m31));
    DistARight(m12, Mul(Mul(m32, m23), m01), Mul(Mul(m02, m33), m21), Mul(Mul(m22, m03), m31), Mul(Mul(m22, m33), m01), Mul(Mul(m32, m03), m21), Mul(Mul(m02, m23), m31));
    MulQuadRight(m12, m32, m23, m01); QuadSwap12(m12, m32, m23, m01); QuadSwap23(m12, m23, m32, m01); QuadSwap12(m12, m23, m01, m32); QuadSwap01(m12, m01, m23, m32);
    MulQuadRight(m12, m02, m33, m21); QuadSwap01(m12, m02, m33, m21); QuadSwap23(m02, m12, m33, m21);
    MulQuadRight(m12, m22, m03, m31); QuadSwap12(m12, m22, m03, m31); QuadSwap01(m12, m03, m22, m31);
    MulQuadRight(m12, m22, m33, m01); QuadSwap23(m12, m22, m33, m01); QuadSwap12(m12, m22, m01, m33); QuadSwap01(m12, m01, m22, m33);
    MulQuadRight(m12, m32, m03, m21); QuadSwap12(m12, m32, m03, m21); QuadSwap23(m12, m03, m32, m21); QuadSwap01(m12, m03, m21, m32);
    MulQuadRight(m12, m02, m23, m31); QuadSwap01(m12, m02, m23, m31);
    assert Mul(Sub(Sub(Sub(Add(Add(Mul(Mul(m32, m23), m01), Mul(Mul(m02, m33), m21)), Mul(Mul(m22, m03), m31)), Mul(Mul(m22, m33), m01)), Mul(Mul(m32, m03), m21)), Mul(Mul(m02, m23), m31)), m12) == Sub(Sub(Sub(Add(Add(Quad(m01, m12, m23, m32), Quad(m02, m12, m21, m33)), Quad(m03, m12, m22, m31)), Quad(m01, m12, m22, m33)), Quad(m03, m12, m21, m32)), Quad(m02, m12, m23, m31));
    DistARight(m22, Mul(Mul(m12, m33), m01), Mul(Mul(m32, m03), m11), Mul(Mul(m02, m13), m31), Mul(Mul(m32, m13), m01), Mul(Mul(m02, m33), m11), Mul(Mul(m12, m03), m31));
    MulQuadRight(m22, m12, m33, m01); QuadSwap01(m22, m12, m33, m01); QuadSwap23(m12, m22, m33, m01); QuadSwap12(m12, m22, m01, m33); QuadSwap01(m12, m01, m22, m33);
    MulQuadRight(m22, m32, m03, m11); QuadSwap12(m22, m32, m03, m11); QuadSwap23(m22, m03, m32, m11); QuadSwap01(m22, m03, m11, m32); QuadSwap12(m03, m22, m11, m32);
    MulQuadRight(m22, m02, m13, m31); QuadSwap01(m22, m02, m13, m31); QuadSwap12(m02, m22, m13, m31);
    MulQuadRight(m22, m32, m13, m01); QuadSwap12(m22, m32, m13, m01); QuadSwap23(m22, m13, m32, m01); QuadSwap01(m22, m13, m01, m32); QuadSwap12(m13, m22, m01, m32); QuadSwap01(m13, m01, m22, m32);
    MulQuadRight(m22, m02, m33, m11); QuadSwap01(m22, m02, m33, m11); QuadSwap23(m02, m22, m33, m11); QuadSwap12(m02, m22, m11, m33);
    MulQuadRight(m22, m12, m03, m31); QuadSwap01(m22, m12, m03, m31); QuadSwap12(m12, m22, m03, m31); QuadSwap01(m12, m03, m22, m31);
    assert Mul(Sub(Sub(Sub(Add(Add(Mul(Mul(m12, m33), m01), Mul(Mul(m32, m03), m11)), Mul(Mul(m02, m13), m31)), Mul(Mul(m32, m13), m01)), Mul(Mul(m02, m33), m11)), Mul(Mul(m12, m03), m31)), m22) == Sub(Sub(Sub(Add(Add(Quad(m01, m12, m22, m33), Quad(m03, m11, m22, m32)), Quad(m02, m13, m22, m31)), Quad(m01, m13, m22, m32)), Quad(m02, m11, m22, m33)), Quad(m03, m12, m22, m31));
    DistARight(m32, Mul(Mul(m22, m13), m01), Mul(Mul(m02, m23), m11), Mul(Mul(m12, m03), m21), Mul(Mul(m12, m23), m01), Mul(Mul(m22, m03), m11), Mul(Mul(m02, m13), m21));
    MulQuadRight(m32, m22, m13, m01); QuadSwap01(m32, m22, m13, m01); QuadSwap12(m22, m32, m13, m01); QuadSwap23(m22, m13, m32, m01); QuadSwap01(m22, m13, m01, m32); QuadSwap12(m13, m22, m01, m32); QuadSwap01(m13, m01, m22, m32);
    MulQuadRight(m32, m02, m23, m11); QuadSwap01(m32, m02, m23, m11); QuadSwap12(m02, m32, m23, m11); QuadSwap23(m02, m23, m32, m11); QuadSwap12(m02, m23, m11, m32);
    MulQuadRight(m32, m12, m03, m21); QuadSwap01(m32, m12, m03, m21); QuadSwap12(m12, m32, m03, m21); QuadSwap23(m12, m03, m32, m21); QuadSwap01(m12, m03, m21, m32);
    MulQuadRight(m32, m12, m23, m01); QuadSwap01(m32, m12, m23, m01); QuadSwap12(m12, m32, m23, m01); QuadSwap23(m12, m23, m32, m01); QuadSwap12(m12, m23, m01, m32); QuadSwap01(m12, m01, m23, m32);
    MulQuadRight(m32, m22, m03, m11); QuadSwap01(m32, m22, m03, m11); QuadSwap12(m22, m32, m03, m11); QuadSwap23(m22, m03, m32, m11); QuadSwap01(m22, m03, m11, m32); QuadSwap12(m03, m22, m11, m32);
    MulQuadRight(m32, m02, m13, m21); QuadSwap01(m32, m02, m13, m21); QuadSwap12(m02, m32, m13, m21); QuadSwap23(m02, m13, m32, m21);
    assert Mul(Sub(Sub(Sub(Add(Add(Mul(Mul(m22, m13), m01), Mul(Mul(m02, m23), m11)), Mul(Mul(m12, m03), m21)), Mul(Mul(m12, m23), m01)), Mul(Mul(m22, m03), m11)), Mul(Mul(m02, m13), m21)), m32) == Sub(Sub(Sub(Add(Add(Quad(m01, m13, m22, m32), Quad(m02, m11, m23, m32)), Quad(m03, m12, m21, m32)), Quad(m01, m12, m23, m32)), Quad(m03, m11, m22, m32)), Quad(m02, m13, m21, m32));
  }

  lemma LeftEntry03(m00: Complex, m01: Complex, m02: Complex, m03: Complex, m10: Complex, m11: Complex, m12: Complex, m13: Complex, m20: Complex, m21: Complex, m22: Complex, m23: Complex, m30: Complex, m31: Complex, m32: Complex, m33: Complex)
    ensures Sum4(Mul(Sub(Sub(Sub(Add(Add(Mul(Mul(m22, m33), m11), Mul(Mul(m32, m13), m21)), Mul(Mul(m12, m23), m31)), Mul(Mul(m32, m23), m11)), Mul(Mul(m12, m33), m21)), Mul(Mul(m22, m13), m31)), m03), Mul(Sub(Sub(Sub(Add(Add(Mul(Mul(m32, m23), m01), Mul(Mul(m02, m33), m21)), Mul(Mul(m22, m03), m31)), Mul(Mul(m22, m33), m01)), Mul(Mul(m32, m03), m21)), Mul(Mul(m02, m23), m31)), m13), Mul(Sub(Sub(Sub(Add(Add(Mul(Mul(m12, m33), m01), Mul(Mul(m32, m03), m11)), Mul(Mul(m02, m13), m31)), Mul(Mul(m32, m13), m01)), Mul(Mul(m02, m33), m11)), Mul(Mul(m12, m03), m31)), m23), Mul(Sub(Sub(Sub(Add(Add(Mul(Mul(m22, m13), m01), Mul(Mul(m02, m23), m11)), Mul(Mul(m12, m03), m21)), Mul(Mul(m12, m23), m01)), Mul(Mul(m22, m03), m11)), Mul(Mul(m02, m13), m21)), m33))
         == Zero
  {
    DistALeft(m00, Mul(Mul(m22, m33), m11), Mul(Mul(m32, m13), m21), Mul(Mul(m12, m23), m31), Mul(Mul(m32, m23), m11), Mul(Mul(m12, m33), m21), Mul(Mul(m22, m13), m31));
    MulQuadLeft(m00, m22, m33, m11); QuadSwap23(m00, m22, m33, m11); QuadSwap12(m00, m22, m11, m33);
    MulQuadLeft(m00, m32, m13, m21); QuadSwap12(m00, m32, m13, m21); QuadSwap23(m00, m13, m32, m21);
    MulQuadLeft(m00, m12, m23, m31);
    MulQuadLeft(m00, m32, m23, m11); QuadSwap12(m00, m32, m23, m11); QuadSwap23(m00, m23, m32, m11); QuadSwap12(m00, m23, m11, m32);
    MulQuadLeft(m00, m12, m33, m21); QuadSwap23(m00, m12, m33, m21);
    MulQuadLeft(m00, m22, m13, m31); QuadSwap12(m00, m22, m13, m31);
    DistALeft(m10, Mul(Mul(m32, m23), m01), Mul(Mul(m02, m33), m21), Mul(Mul(m22, m03), m31), Mul(Mul(m22, m33), m01), Mul(Mul(m32, m03), m21), Mul(Mul(m02, m23), m31));
    MulQuadLeft(m10, m32, m23, m01); QuadSwap12(m10, m32, m23, m01); QuadSwap23(m10, m23, m32, m01); QuadSwap12(m10, m23, m01, m32); QuadSwap01(m10, m01, m23, m32);
    MulQuadLeft(m10, m02, m33, m21); QuadSwap01(m10, m02, m33, m21); QuadSwap23(m02, m10, m33, m21);
    MulQuadLeft(m10, m22, m03, m31); QuadSwap12(m10, m22, m03, m31); QuadSwap01(m10, m03, m22, m31);
    MulQuadLeft(m10, m22, m33, m01); QuadSwap23(m10, m22, m33, m01); QuadSwap12(m10, m22, m01, m33); QuadSwap01(m10, m01, m22, m33);
    MulQuadLeft(m10, m32, m03, m21); QuadSwap12(m10, m32, m03, m21); QuadSwap23(m10, m03, m32, m21); QuadSwap01(m10, m03, m21, m32);
    MulQuadLeft(m10, m02, m23, m31); QuadSwap01(m10, m02, m23, m31);
    DistALeft(m20, Mul(Mul(m12, m33), m01), Mul(Mul(m32, m03), m11), Mul(Mul(m02, m13), m31), Mul(Mul(m32, m13), m01), Mul(Mul(m02, m33), m11), Mul(Mul(m12, m03), m31));
    MulQuadLeft(m20, m12, m33, m01); QuadSwap01(m20, m12, m33, m01); QuadSwap23(m12, m20, m33, m01); QuadSwap12(m12, m20, m01, m33); QuadSwap01(m12, m01, m20, m33);
    MulQuadLeft(m20, m32, m03, m11); QuadSwap12(m20, m32, m03, m11); QuadSwap23(m20, m03, m32, m11); QuadSwap01(m20, m03, m11, m32); QuadSwap12(m03, m20, m11, m32);
    MulQuadLeft(m20, m02, m13, m31); QuadSwap01(m20, m02, m13, m31); QuadSwap12(m02, m20, m13, m31);
    MulQuadLeft(m20, m32, m13, m01); QuadSwap12(m20, m32, m13, m01); QuadSwap23(m20, m13, m32, m01); QuadSwap01(m20, m13, m01, m32); QuadSwap12(m13, m20, m01, m32); QuadSwap01(m13, m01, m20, m32);
    MulQuadLeft(m20, m02, m33, m11); QuadSwap01(m20, m02, m33, m11); QuadSwap23(m02, m20, m33, m11); QuadSwap12(m02, m20, m11, m33);
    MulQuadLeft(m20, m12, m03, m31); QuadSwap01(m20, m12, m03, m31); QuadSwap12(m12, m20, m03, m31); QuadSwap01(m12, m03, m20, m31);
    DistALeft(m30, Mul(Mul(m22, m13), m01), Mul(Mul(m02, m23), m11), Mul(Mul(m12, m03), m21), Mul(Mul(m12, m23), m01), Mul(Mul(m22, m03), m11), Mul(Mul(m02, m13), m21));
    MulQuadLeft(m30, m22, m13, m01); QuadSwap01(m30, m22, m13, m01); QuadSwap12(m22, m30, m13, m01); QuadSwap23(m22, m13, m30, m01); QuadSwap01(m22, m13, m01, m30); QuadSwap12(m13, m22, m01, m30); QuadSwap01(m13, m01, m22, m30);
    MulQuadLeft(m30, m02, m23, m11); QuadSwap01(m30, m02, m23, m11); QuadSwap12(m02, m30, m23, m11); QuadSwap23(m02, m23, m30, m11); QuadSwap12(m02, m23, m11, m30);
    MulQuadLeft(m30, m12, m03, m21); QuadSwap01(m30, m12, m03, m21); QuadSwap12(m12, m30, m03, m21); QuadSwap23(m12, m03, m30, m21); QuadSwap01(m12, m03, m21, m30);
    MulQuadLeft(m30, m12, m23, m01); QuadSwap01(m30, m12, m23, m01); QuadSwap12(m12, m30, m23, m01); QuadSwap23(m12, m23, m30, m01); QuadSwap12(m12, m23, m01, m30); QuadSwap01(m12, m01, m23, m30);
    MulQuadLeft(m30, m22, m03, m11); QuadSwap01(m30, m22, m03, m11); QuadSwap12(m22, m30, m03, m11); QuadSwap23(m22, m03, m30, m11); QuadSwap01(m22, m03, m11, m30); QuadSwap12(m03, m22, m11, m30);
    MulQuadLeft(m30, m02, m13, m21); QuadSwap01(m30, m02, m13, m21); QuadSwap12(m02, m30, m13, m21); QuadSwap23(m02, m13, m30, m21);
    DistARight(m03, Mul(Mul(m22, m33), m11), Mul(Mul(m32, m13), m21), Mul(Mul(m12, m23), m31), Mul(Mul(m32, m23), m11), Mul(Mul(m12, m33), m21), Mul(Mul(m22, m13), m31));
    MulQuadRight(m03, m22, m33, m11); QuadSwap23(m03, m22, m33, m11); QuadSwap12(m03, m22, m11, m33);
    MulQuadRight(m03, m32, m13, m21); QuadSwap12(m03, m32, m13, m21); QuadSwap23(m03, m13, m32, m21);
    MulQuadRight(m03, m12, m23, m31);
    MulQuadRight(m03, m32, m23, m11); QuadSwap12(m03, m32, m23, m11); QuadSwap23(m03, m23, m32, m11); QuadSwap12(m03, m23, m11, m32);
    MulQuadRight(m03, m12, m33, m21); QuadSwap23(m03, m12, m33, m21);
    MulQuadRight(m03, m22, m13, m31); QuadSwap12(m03, m22, m13, m31);
    assert Mul(Sub(Sub(Sub(Add(Add(Mul(Mul(m22, m33), m11), Mul(Mul(m32, m13), m21)), Mul(Mul(m12, m23), m31)), Mul(Mul(m32, m23), m11)), Mul(Mul(m12, m33), m21)), Mul(Mul(m22, m13), m31)), m03) == Sub(Sub(Sub(Add(Add(Quad(m03, m11, m22, m33), Quad(m03, m13, m21, m32)), Quad(m03, m12, m23, m31)), Quad(m03, m11, m23, m32)), Quad(m03, m12, m21, m33)), Quad(m03, m13, m22, m31));
    DistARight(m13, Mul(Mul(m32, m23), m01), Mul(Mul(m02, m33), m21), Mul(Mul(m22, m03), m31), Mul(Mul(m22, m33), m01), Mul(Mul(m32, m03), m21), Mul(Mul(m02, m23), m31));
    MulQuadRight(m13, m32, m23, m01); QuadSwap12(m13, m32, m23, m01); QuadSwap23(m13, m23, m32, m01); QuadSwap12(m13, m23, m01, m32); QuadSwap01(m13, m01, m23, m32);
    MulQuadRight(m13, m02, m33, m21); QuadSwap01(m13, m02, m33, m21); QuadSwap23(m02, m13, m33, m21);
    MulQuadRight(m13, m22, m03, m31); QuadSwap12(m13, m22, m03, m31); QuadSwap01(m13, m03, m22, m31);
    MulQuadRight(m13, m22, m33, m01); QuadSwap23(m13, m22, m33, m01); QuadSwap12(m13, m22, m01, m33); QuadSwap01(m13, m01, m22, m33);
    MulQuadRight(m13, m32, m03, m21); QuadSwap12(m13, m32, m03, m21); QuadSwap23(m13, m03, m32, m21); QuadSwap01(m13, m03, m21, m32);
    MulQuadRight(m13, m02, m23, m31); QuadSwap01(m13, m02, m23, m31);
    assert Mul(Sub(Sub(Sub(Add(Add(Mul(Mul(m32, m23), m01), Mul(Mul(m02, m33), m21)), Mul(Mul(m22, m03), m31)), Mul(Mul(m22, m33), m01)), Mul(Mul(m32, m03), m21)), Mul(Mul(m02, m23), m31)), m13) == Sub(Sub(Sub(Add(Add(Quad(m01, m13, m23, m32), Quad(m02, m13, m21, m33)), Quad(m03, m13, m22, m31)), Quad(m01, m13, m22, m33)), Quad(m03, m13, m21, m32)), Quad(m02, m13, m23, m31));
    DistARight(m23, Mul(Mul(m12, m33), m01), Mul(Mul(m32, m03), m11), Mul(Mul(m02, m13), m31), Mul(Mul(m32, m13), m01), Mul(Mul(m02, m33), m11), Mul(Mul(m12, m03), m31));
    MulQuadRight(m23, m12, m33, m01); QuadSwap01(m23, m12, m33, m01); QuadSwap23(m12, m23, m33, m01); QuadSwap12(m12, m23, m01, m33); QuadSwap01(m12, m01, m23, m33);
    MulQuadRight(m23, m32, m03, m11); QuadSwap12(m23, m32, m03, m11); QuadSwap23(m23, m03, m32, m11); QuadSwap01(m23, m03, m11, m32); QuadSwap12(m03, m23, m11, m32);
    MulQuadRight(m23, m02, m13, m31); QuadSwap01(m23, m02, m13, m31); QuadSwap12(m02, m23, m13, m31);
    MulQuadRight(m23, m32, m13, m01); QuadSwap12(m23, m32, m13, m01); QuadSwap23(m23, m13, m32, m01); QuadSwap01(m23, m13, m01, m32); QuadSwap12(m13, m23, m01, m32); QuadSwap01(m13, m01, m23, m32);
    MulQuadRight(m23, m02, m33, m11); QuadSwap01(m23, m02, m33, m11); QuadSwap23(m02, m23, m33, m11); QuadSwap12(m02, m23, m11, m33);
    MulQuadRight(m23, m12, m03, m31); QuadSwap01(m23, m12, m03, m31); QuadSwap12(m12, m23, m03, m31); QuadSwap01(m12, m03, m23, m31);
    assert Mul(Sub(Sub(Sub(Add(Add(Mul(Mul(m12, m33), m01), Mul(Mul(m32, m03), m11)), Mul(Mul(m02, m13), m31)), Mul(Mul(m32, m13), m01)), Mul(Mul(m02, m33), m11)), Mul(Mul(m12, m03), m31)), m23) == Sub(Sub(Sub(Add(Add(Quad(m01, m12, m23, m33), Quad(m03, m11, m23, m32)), Quad(m02, m13, m23, m31)), Quad(m01, m13, m23, m32)), Quad(m02, m11, m23, m33)), Quad(m03, m12, m23, m31));
    DistARight(m33, Mul(Mul(m22, m13), m01), Mul(Mul(m02, m23), m11), Mul(Mul(m12, m03), m21), Mul(Mul(m12, m23), m01), Mul(Mul(m22, m03), m11), Mul(Mul(m02, m13), m21));
    MulQuadRight(m33, m22, m13, m01); QuadSwap01(m33, m22, m13, m01); QuadSwap12(m22, m33, m13, m01); QuadSwap23(m22, m13, m33, m01); QuadSwap01(m22, m13, m01, m33); QuadSwap12(m13, m22, m01, m33); QuadSwap01(m13, m01, m22, m33);
    MulQuadRight(m33, m02, m23, m11); QuadSwap01(m33, m02, m23, m11); QuadSwap12(m02, m33, m23, m11); QuadSwap23(m02, m23, m33, m11); QuadSwap12(m02, m23, m11, m33);
    MulQuadRight(m33, m12, m03, m21); QuadSwap01(m33, m12, m03, m21); QuadSwap12(m12, m33, m03, m21); QuadSwap23(m12, m03, m33, m21); QuadSwap01(m12, m03, m21, m33);
    MulQuadRight(m33, m12, m23, m01); QuadSwap01(m33, m12, m23, m01); QuadSwap12(m12, m33, m23, m01); QuadSwap23(m12, m23, m33, m01); QuadSwap12(m12, m23, m01, m33); QuadSwap01(m12, m01, m23, m33);
    MulQuadRight(m33, m22, m03, m11); QuadSwap01(m33, m22, m03, m11); QuadSwap12(m22, m33, m03, m11); QuadSwap23(m22, m03, m33, m11); QuadSwap01(m22, m03, m11, m33); QuadSwap12(m03, m22, m11, m33);
    MulQuadRight(m33, m02, m13, m21); QuadSwap01(m33, m02, m13, m21); QuadSwap12(m02, m33, m13, m21); QuadSwap23(m02, m13, m33, m21);
    assert Mul(Sub(Sub(Sub(Add(Add(Mul(Mul(m22, m13), m01), Mul(Mul(m02, m23), m11)), Mul(Mul(m12, m03), m21)), Mul(Mul(m12, m23), m01)), Mul(Mul(m22, m03), m11)), Mul(Mul(m02, m13), m21)), m33) == Sub(Sub(Sub(Add(Add(Quad(m01, m13, m22, m33), Quad(m02, m11, m23, m33)), Quad(m03, m12, m21, m33)), Quad(m01, m12, m23, m33)), Quad(m03, m11, m22, m33)), Quad(m02, m13, m21, m33));
  }

  lemma LeftEntry10(m00: Complex, m01: Complex, m02: Complex, m03: Complex, m10: Complex, m11: Complex, m12: Complex, m13: Complex, m20: Complex, m21: Complex, m22: Complex, m23: Complex, m30: Complex, m31: Complex, m32: Complex, m33: Complex)
    ensures Sum4(Mul(Sub(Sub(Sub(Add(Add(Mul(Mul(m32, m23), m10), Mul(Mul(m12, m33), m20)), Mul(Mul(m22, m13), m30)), Mul(Mul(m22, m33), m10)), Mul(Mul(m32, m13), m20)), Mul(Mul(m12, m23), m30)), m00), Mul(Sub(Sub(Sub(Add(Add(Mul(Mul(m22, m33), m00), Mul(Mul(m32, m03), m20)), Mul(Mul(m02, m23), m30)), Mul(Mul(m32, m23), m00)), Mul(Mul(m02, m33), m20)), Mul(Mul(m22, m03), m30)), m10), Mul(Sub(Sub(Sub(Add(Add(Mul(Mul(m32, m13), m00), Mul(Mul(m02, m33), m10)), Mul(Mul(m12, m03), m30)), Mul(Mul(m12, m33), m00)), Mul(Mul(m32, m03), m10)), Mul(Mul(m02, m13), m30)), m20), Mul(Sub(Sub(Sub(Add(Add(Mul(Mul(m12, m23), m00), Mul(Mul(m22, m03), m10)), Mul(Mul(m02, m13), m20)), Mul(Mul(m22, m13), m00)), Mul(Mul(m02, m23), m10)), Mul(Mul(m12, m03), m20)), m30))
         == Zero
  {
    DistALeft(m00, Mul(Mul(m22, m33), m11), Mul(Mul(m32, m13), m21), Mul(Mul(m12, m23), m31), Mul(Mul(m32, m23), m11), Mul(Mul(m12, m33), m21), Mul(Mul(m22, m13), m31));
    MulQuadLeft(m00, m22, m33, m11); QuadSwap23(m00, m22, m33, m11); QuadSwap12(m00, m22, m11, m33);
    MulQuadLeft(m00, m32, m13, m21); QuadSwap12(m00, m32, m13, m21); QuadSwap23(m00, m13, m32, m21);
    MulQuadLeft(m00, m12, m23, m31);
    MulQuadLeft(m00, m32, m23, m11); QuadSwap12(m00, m32, m23, m11); QuadSwap23(m00, m23, m32, m11); QuadSwap12(m00, m23, m11, m32);
    MulQuadLeft(m00, m12, m33, m21); QuadSwap23(m00, m12, m33, m21);
    MulQuadLeft(m00, m22, m13, m31); QuadSwap12(m00, m22, m13, m31);
    DistALeft(m10, Mul(Mul(m32, m23), m01), Mul(Mul(m02, m33), m21), Mul(Mul(m22, m03), m31), Mul(Mul(m22, m33), m01), Mul(Mul(m32, m03), m21), Mul(Mul(m02, m23), m31));
    MulQuadLeft(m10, m32, m23, m01); QuadSwap12(m10, m32, m23, m01); QuadSwap23(m10, m23, m32, m01); QuadSwap12(m10, m23, m01, m32); QuadSwap01(m10, m01, m23, m32);
    MulQuadLeft(m10, m02, m33, m21); QuadSwap01(m10, m02, m33, m21); QuadSwap23(m02, m10, m33, m21);
    MulQuadLeft(m10, m22, m03, m31); QuadSwap12(m10, m22, m03, m31); QuadSwap01(m10, m03, m22, m31);
    MulQuadLeft(m10, m22, m33, m01); QuadSwap23(m10, m22, m33, m01); QuadSwap12(m10, m22, m01, m33); QuadSwap01(m10, m01, m22, m33);
    MulQuadLeft(m10, m32, m03, m21); QuadSwap12(m10, m32, m03, m21); QuadSwap23(m10, m03, m32, m21); QuadSwap01(m10, m03, m21, m32);
    MulQuadLeft(m10, m02, m23, m31); QuadSwap01(m10, m02, m23, m31);
    DistALeft(m20, Mul(Mul(m12, m33), m01), Mul(Mul(m32, m03), m11), Mul(Mul(m02, m13), m31), Mul(Mul(m32, m13), m01), Mul(Mul(m02, m33), m11), Mul(Mul(m12, m03), m31));
    MulQuadLeft(m20, m12, m33, m01); QuadSwap01(m20, m12, m33, m01); QuadSwap23(m12, m20, m33, m01); QuadSwap12(m12, m20, m01, m33); QuadSwap01(m12, m01, m20, m33);
    MulQuadLeft(m20, m32, m03, m11); QuadSwap12(m20, m32, m03, m11); QuadSwap23(m20, m03, m32, m11); QuadSwap01(m20, m03, m11, m32); QuadSwap12(m03, m20, m11, m32);
    MulQuadLeft(m20, m02, m13, m31); QuadSwap01(m20, m02, m13, m31); QuadSwap12(m02, m20, m13, m31);
    MulQuadLeft(m20, m32, m13, m01); QuadSwap12(m20, m32, m13, m01); QuadSwap23(m20, m13, m32, m01); QuadSwap01(m20, m13, m01, m32); QuadSwap12(m13, m20, m01, m32); QuadSwap01(m13, m01, m20, m32);
    MulQuadLeft(m20, m02, m33, m11); QuadSwap01(m20, m02, m33, m11); QuadSwap23(m02, m20, m33, m11); QuadSwap12(m02, m20, m11, m33);
    MulQuadLeft(m20, m12, m03, m31); QuadSwap01(m20, m12, m03, m31); QuadSwap12(m12, m20, m03, m31); QuadSwap01(m12, m03, m20, m31);
    DistALeft(m30, Mul(Mul(m22, m13), m01), Mul(Mul(m02, m23), m11), Mul(Mul(m12, m03), m21), Mul(Mul(m12, m23), m01), Mul(Mul(m22, m03), m11), Mul(Mul(m02, m13), m21));
    MulQuadLeft(m30, m22, m13, m01); QuadSwap01(m30, m22, m13, m01); QuadSwap12(m22, m30, m13, m01); QuadSwap23(m22, m13, m30, m01); QuadSwap01(m22, m13, m01, m30); QuadSwap12(m13, m22, m01, m30); QuadSwap01(m13, m01, m22, m30);
    MulQuadLeft(m30, m02, m23, m11); QuadSwap01(m30, m02, m23, m11); QuadSwap12(m02, m30, m23, m11); QuadSwap23(m02, m23, m30, m11); QuadSwap12(m02, m23, m11, m30);
    MulQuadLeft(m30, m12, m03, m21); QuadSwap01(m30, m12, m03, m21); QuadSwap12(m12, m30, m03, m21); QuadSwap23(m12, m03, m30, m21); QuadSwap01(m12, m03, m21, m30);
    MulQuadLeft(m30, m12, m23, m01); QuadSwap01(m30, m12, m23, m01); QuadSwap12(m12, m30, m23, m01); QuadSwap23(m12, m23, m30, m01); QuadSwap12(m12, m23, m01, m30); QuadSwap01(m12, m01, m23, m30);
    MulQuadLeft(m30, m22, m03, m11); QuadSwap01(m30, m22, m03, m11); QuadSwap12(m22, m30, m03, m11); QuadSwap23(m22, m03, m30, m11); QuadSwap01(m22, m03, m11, m30); QuadSwap12(m03, m22, m11, m30);
    MulQuadLeft(m30, m02, m13, m21); QuadSwap01(m30, m02, m13, m21); QuadSwap12(m02, m30, m13, m21); QuadSwap23(m02, m13, m30, m21);
    DistARight(m00, Mul(Mul(m32, m23), m10), Mul(Mul(m12, m33), m20), Mul(Mul(m22, m13), m30), Mul(Mul(m22, m33), m10), Mul(Mul(m32, m13), m20), Mul(Mul(m12, m23), m30));
    MulQuadRight(m00, m32, m23, m10); QuadSwap12(m00, m32, m23, m10); QuadSwap23(m00, m23, m32, m10); QuadSwap12(m00, m23, m10, m32);
    MulQuadRight(m00, m12, m33, m20); QuadSwap23(m00, m12, m33, m20);
    MulQuadRight(m00, m22, m13, m30); QuadSwap12(m00, m22, m13, m30);
    MulQuadRight(m00, m22, m33, m10); QuadSwap23(m00, m22, m33, m10); QuadSwap12(m00, m22, m10, m33);
    MulQuadRight(m00, m32, m13, m20); QuadSwap12(m00, m32, m13, m20); QuadSwap23(m00, m13, m32, m20);
    MulQuadRight(m00, m12, m23, m30);
    assert Mul(Sub(Sub(Sub(Add(Add(Mul(Mul(m32, m23), m10), Mul(Mul(m12, m33), m20)), Mul(Mul(m22, m13), m30)), Mul(Mul(m22, m33), m10)), Mul(Mul(m32, m13), m20)), Mul(Mul(m12, m23), m30)), m00) == Sub(Sub(Sub(Add(Add(Quad(m00, m10, m23, m32), Quad(m00, m12, m20, m33)), Quad(m00, m13, m22, m30)), Quad(m00, m10, m22, m33)), Quad(m00, m13, m20, m32)), Quad(m00, m12, m23, m30));
    DistARight(m10, Mul(Mul(m22, m33), m00), Mul(Mul(m32, m03), m20), Mul(Mul(m02, m23), m30), Mul(Mul(m32, m23), m00), Mul(Mul(m02, m33), m20), Mul(Mul(m22, m03), m30));
    MulQuadRight(m10, m22, m33, m00); QuadSwap23(m10, m22, m33, m00); QuadSwap12(m10, m22, m00, m33); QuadSwap01(m10, m00, m22, m33);
    MulQuadRight(m10, m32, m03, m20); QuadSwap12(m10, m32, m03, m20); QuadSwap23(m10, m03, m32, m20); QuadSwap01(m10, m03, m20, m32);
    MulQuadRight(m10, m02, m23, m30); QuadSwap01(m10, m02, m23, m30);
    MulQuadRight(m10, m32, m23, m00); QuadSwap12(m10, m32, m23, m00); QuadSwap23(m10, m23, m32, m00); QuadSwap12(m10, m23, m00, m32); QuadSwap01(m10, m00, m23, m32);
    MulQuadRight(m10, m02, m33, m20); QuadSwap01(m10, m02, m33, m20); QuadSwap23(m02, m10, m33, m20);
    MulQuadRight(m10, m22, m03, m30); QuadSwap12(m10, m22, m03, m30); QuadSwap01(m10, m03, m22, m30);
    assert Mul(Sub(Sub(Sub(Add(Add(Mul(Mul(m22, m33), m00), Mul(Mul(m32, m03), m20)), Mul(Mul(m02, m23), m30)), Mul(Mul(m32, m23), m00)), Mul(Mul(m02, m33), m20)), Mul(Mul(m22, m03), m30)), m10) == Sub(Sub(Sub(Add(Add(Quad(m00, m10, m22, m33), Quad(m03, m10, m20, m32)), Quad(m02, m10, m23, m30)), Quad(m00, m10, m23, m32)), Quad(m02, m10, m20, m33)), Quad(m03, m10, m22, m30));
    DistARight(m20, Mul(Mul(m32, m13), m00), Mul(Mul(m02, m33), m10), Mul(Mul(m12, m03), m30), Mul(Mul(m12, m33), m00), Mul(Mul(m32, m03), m10), Mul(Mul(m02, m13), m30));
    MulQuadRight(m20, m32, m13, m00); QuadSwap12(m20, m32, m13, m00); QuadSwap23(m20, m13, m32, m00); QuadSwap01(m20, m13, m00, m32); QuadSwap12(m13, m20, m00, m32); QuadSwap01(m13, m00, m20, m32);
    MulQuadRight(m20, m02, m33, m10); QuadSwap01(m20, m02, m33, m10); QuadSwap23(m02, m20, m33, m10); QuadSwap12(m02, m20, m10, m33);
    MulQuadRight(m20, m12, m03, m30); QuadSwap01(m20, m12, m03, m30); QuadSwap12(m12, m20, m03, m30); QuadSwap01(m12, m03, m20, m30);
    MulQuadRight(m20, m12, m33, m00); QuadSwap01(m20, m12, m33, m00); QuadSwap23(m12, m20, m33, m00); QuadSwap12(m12, m20, m00, m33); QuadSwap01(m12, m00, m20, m33);
    MulQuadRight(m20, m32, m03, m10); QuadSwap12(m20, m32, m03, m10); QuadSwap23(m20, m03, m32, m10); QuadSwap01(m20, m03, m10, m32); QuadSwap12(m03, m20, m10, m32);
    MulQuadRight(m20, m02, m13, m30); QuadSwap01(m20, m02, m13, m30); QuadSwap12(m02, m20, m13, m30);
    assert Mul(Sub(Sub(Sub(Add(Add(Mul(Mul(m32, m13), m00), Mul(Mul(m02, m33), m10)), Mul(Mul(m12, m03), m30)), Mul(Mul(m12, m33), m00)), Mul(Mul(m32, m03), m10)), Mul(Mul(m02, m13), m30)), m20) == Sub(Sub(Sub(Add(Add(Quad(m00, m13, m20, m32), Quad(m02, m10, m20, m33)), Quad(m03, m12, m20, m30)), Quad(m00, m12, m20, m33)), Quad(m03, m10, m20, m32)), Quad(m02, m13, m20, m30));
    DistARight(m30, Mul(Mul(m12, m23), m00), Mul(Mul(m22, m03), m10), Mul(Mul(m02, m13), m20), Mul(Mul(m22, m13), m00), Mul(Mul(m02, m23), m10), Mul(Mul(m12, m03), m20));
    MulQuadRight(m30, m12, m23, m00); QuadSwap01(m30, m12, m23, m00); QuadSwap12(m12, m30, m23, m00); QuadSwap23(m12, m23, m30, m00); QuadSwap12(m12, m23, m00, m30); QuadSwap01(m12, m00, m23, m30);
    MulQuadRight(m30, m22, m03, m10); QuadSwap01(m30, m22, m03, m10); QuadSwap12(m22, m30, m03, m10); QuadSwap23(m22, m03, m30, m10); QuadSwap01(m22, m03, m10, m30); QuadSwap12(m03, m22, m10, m30);
    MulQuadRight(m30, m02, m13, m20); QuadSwap01(m30, m02, m13, m20); QuadSwap12(m02, m30, m13, m20); QuadSwap23(m02, m13, m30, m20);
    MulQuadRight(m30, m22, m13, m00); QuadSwap01(m30, m22, m13, m00); QuadSwap12(m22, m30, m13, m00); QuadSwap23(m22, m13, m30, m00); QuadSwap01(m22, m13, m00, m30); QuadSwap12(m13, m22, m00, m30); QuadSwap01(m13, m00, m22, m30);
    MulQuadRight(m30, m02, m23, m10); QuadSwap01(m30, m02, m23, m10); QuadSwap12(m02, m30, m23, m10); QuadSwap23(m02, m23, m30, m10); QuadSwap12(m02, m23, m10, m30);
    MulQuadRight(m30, m12, m03, m20); QuadSwap01(m30, m12, m03, m20); QuadSwap12(m12, m30, m03, m20); QuadSwap23(m12, m03, m30, m20); QuadSwap01(m12, m03, m20, m30);
    assert Mul(Sub(Sub(Sub(Add(Add(Mul(Mul(m12, m23), m00), Mul(Mul(m22, m03), m10)), Mul(Mul(m02, m13), m20)), Mul(Mul(m22, m13), m00)), Mul(Mul(m02, m23), m10)), Mul(Mul(m12, m03), m20)), m30) == Sub(Sub(Sub(Add(Add(Quad(m00, m12, m23, m30), Quad(m03, m10, m22, m30)), Quad(m02, m13, m20, m30)), Quad(m00, m13, m22, m30)), Quad(m02, m10, m23, m30)), Quad(m03, m12, m20, m30));
  }

  lemma LeftEntry11(m00: Complex, m01: Complex, m02: Complex, m03: Complex, m10: Complex, m11: Complex, m12: Complex, m13: Complex, m20: Complex, m21: Complex, m22: Complex, m23: Complex, m30: Complex, m31: Complex, m32: Complex, m33: Complex)
    ensures Sum4(Mul(Sub(Sub(Sub(Add(Add(Mul(Mul(m32, m23), m10), Mul(Mul(m12, m33), m20)), Mul(Mul(m22, m13), m30)), Mul(Mul(m22, m33), m10)), Mul(Mul(m32, m13), m20)), Mul(Mul(m12, m23), m30)), m01), Mul(Sub(Sub(Sub(Add(Add(Mul(Mul(m22, m33), m00), Mul(Mul(m32, m03), m20)), Mul(Mul(m02, m23), m30)), Mul(Mul(m32, m23), m00)), Mul(Mul(m02, m33), m20)), Mul(Mul(m22, m03), m30)), m11), Mul(Sub(Sub(Sub(Add(Add(Mul(Mul(m32, m13), m00), Mul(Mul(m02, m33), m10)), Mul(Mul(m12, m03), m30)), Mul(Mul(m12, m33), m00)), Mul(Mul(m32, m03), m10)), Mul(Mul(m02, m13), m30)), m21), Mul(Sub(Sub(Sub(Add(Add(Mul(Mul(m12, m23), m00), Mul(Mul(m22, m03), m10)), Mul(Mul(m02, m13), m20)), Mul(Mul(m22, m13), m00)), Mul(Mul(m02, m23), m10)), Mul(Mul(m12, m03), m20)), m31))
         == DetOf(m00, m01, m02, m03, m10, m11, m12, m13, m20, m21, m22, m23, m30, m31, m32, m33)
  {
    DistALeft(m00, Mul(Mul(m22, m33), m11), Mul(Mul(m32, m13), m21), Mul(Mul(m12, m23), m31), Mul(Mul(m32, m23), m11), Mul(Mul(m12, m33), m21), Mul(Mul(m22, m13), m31));
    MulQuadLeft(m00, m22, m33, m11); QuadSwap23(m00, m22, m33, m11); QuadSwap12(m00, m22, m11, m33);
    MulQuadLeft(m00, m32, m13, m21); QuadSwap12(m00, m32, m13, m21); QuadSwap23(m00, m13, m32, m21);
    MulQuadLeft(m00, m12, m23, m31);
    MulQuadLeft(m00, m32, m23, m11); QuadSwap12(m00, m32, m23, m11); QuadSwap23(m00, m23, m32, m11); QuadSwap12(m00, m23, m11, m32);
    MulQuadLeft(m00, m12, m33, m21); QuadSwap23(m00, m12, m33, m21);
    MulQuadLeft(m00, m22, m13, m31); QuadSwap12(m00, m22, m13, m31);
    DistALeft(m10, Mul(Mul(m32, m23), m01), Mul(Mul(m02, m33), m21), Mul(Mul(m22, m03), m31), Mul(Mul(m22, m33), m01), Mul(Mul(m32, m03), m21), Mul(Mul(m02, m23), m31));
    MulQuadLeft(m10, m32, m23, m01); QuadSwap12(m10, m32, m23, m01); QuadSwap23(m10, m23, m32, m01); QuadSwap12(m10, m23, m01, m32); QuadSwap01(m10, m01, m23, m32);
    MulQuadLeft(m10, m02, m33, m21); QuadSwap01(m10, m02, m33, m21); QuadSwap23(m02, m10, m33, m21);
    MulQuadLeft(m10, m22, m03, m31); QuadSwap12(m10, m22, m03, m31); QuadSwap01(m10, m03, m22, m31);
    MulQuadLeft(m10, m22, m33, m01); QuadSwap23(m10, m22, m33, m01); QuadSwap12(m10, m22, m01, m33); QuadSwap01(m10, m01, m22, m33);
    MulQuadLeft(m10, m32, m03, m21); QuadSwap12(m10, m32, m03, m21); QuadSwap23(m10, m03, m32, m21); QuadSwap01(m10, m03, m21, m32);
    MulQuadLeft(m10, m02, m23, m31); QuadSwap01(m10, m02, m23, m31);
    DistALeft(m20, Mul(Mul(m12, m33), m01), Mul(Mul(m32, m03), m11), Mul(Mul(m02, m13), m31), Mul(Mul(m32, m13), m01), Mul(Mul(m02, m33), m11), Mul(Mul(m12, m03), m31));
    MulQuadLeft(m20, m12, m33, m01); QuadSwap01(m20, m12, m33, m01); QuadSwap23(m12, m20, m33, m01); QuadSwap12(m12, m20, m01, m33); QuadSwap01(m12, m01, m20, m33);
    MulQuadLeft(m20, m32, m03, m11); QuadSwap12(m20, m32, m03, m11); QuadSwap23(m20, m03, m32, m11); QuadSwap01(m20, m03, m11, m32); QuadSwap12(m03, m20, m11, m32);
    MulQuadLeft(m20, m02, m13, m31); QuadSwap01(m20, m02, m13, m31); QuadSwap12(m02, m20, m13, m31);
    MulQuadLeft(m20, m32, m13, m01); QuadSwap12(m20, m32, m13, m01); QuadSwap23(m20, m13, m32, m01); QuadSwap01(m20, m13, m01, m32); QuadSwap12(m13, m20, m01, m32); QuadSwap01(m13, m01, m20, m32);
    MulQuadLeft(m20, m02, m33, m11); QuadSwap01(m20, m02, m33, m11); QuadSwap23(m02, m20, m33, m11); QuadSwap12(m02, m20, m11, m33);
    MulQuadLeft(m20, m12, m03, m31); QuadSwap01(m20, m12, m03, m31); QuadSwap12(m12, m20, m03, m31); QuadSwap01(m12, m03, m20, m31);
    DistALeft(m30, Mul(Mul(m22, m13), m01), Mul(Mul(m02, m23), m11), Mul(Mul(m12, m03), m21), Mul(Mul(m12, m23), m01), Mul(Mul(m22, m03), m11), Mul(Mul(m02, m13), m21));
    MulQuadLeft(m30, m22, m13, m01); QuadSwap01(m30, m22, m13, m01); QuadSwap12(m22, m30, m13, m01); QuadSwap23(m22, m13, m30, m01); QuadSwap01(m22, m13, m01, m30); QuadSwap12(m13, m22, m01, m30); QuadSwap01(m13, m01, m22, m30);
    MulQuadLeft(m30, m02, m23, m11); QuadSwap01(m30, m02, m23, m11); QuadSwap12(m02, m30, m23, m11); QuadSwap23(m02, m23, m30, m11); QuadSwap12(m02, m23, m11, m30);
    MulQuadLeft(m30, m12, m03, m21); QuadSwap01(m30, m12, m03, m21); QuadSwap12(m12, m30, m03, m21); QuadSwap23(m12, m03, m30, m21); QuadSwap01(m12, m03, m21, m30);
    MulQuadLeft(m30, m12, m23, m01); QuadSwap01(m30, m12, m23, m01); QuadSwap12(m12, m30, m23, m01); QuadSwap23(m12, m23, m30, m01); QuadSwap12(m12, m23, m01, m30); QuadSwap01(m12, m01, m23, m30);
    MulQuadLeft(m30, m22, m03, m11); QuadSwap01(m30, m22, m03, m11); QuadSwap12(m22, m30, m03, m11); QuadSwap23(m22, m03, m30, m11); QuadSwap01(m22, m03, m11, m30); QuadSwap12(m03, m22, m11, m30);
    MulQuadLeft(m30, m02, m13, m21); QuadSwap01(m30, m02, m13, m21); QuadSwap12(m02, m30, m13, m21); QuadSwap23(m02, m13, m30, m21);
    DistARight(m01, Mul(Mul(m32, m23), m10), Mul(Mul(m12, m33), m20), Mul(Mul(m22, m13), m30), Mul(Mul(m22, m33), m10), Mul(Mul(m32, m13), m20), Mul(Mul(m12, m23), m30));
    MulQuadRight(m01, m32, m23, m10); QuadSwap12(m01, m32, m23, m10); QuadSwap23(m01, m23, m32, m10); QuadSwap12(m01, m23, m10, m32);
    MulQuadRight(m01, m12, m33, m20); QuadSwap23(m01, m12, m33, m20);
    MulQuadRight(m01, m22, m13, m30); QuadSwap12(m01, m22, m13, m30);
    MulQuadRight(m01, m22, m33, m10); QuadSwap23(m01, m22, m33, m10); QuadSwap12(m01, m22, m10, m33);
    MulQuadRight(m01, m32, m13, m20); QuadSwap12(m01, m32, m13, m20); QuadSwap23(m01, m13, m32, m20);
    MulQuadRight(m01, m12, m23, m30);
    assert Mul(Sub(Sub(Sub(Add(Add(Mul(Mul(m32, m23), m10), Mul(Mul(m12, m33), m20)), Mul(Mul(m22, m13), m30)), Mul(Mul(m22, m33), m10)), Mul(Mul(m32, m13), m20)), Mul(Mul(m12, m23), m30)), m01) == Sub(Sub(Sub(Add(Add(Quad(m01, m10, m23, m32), Quad(m01, m12, m20, m33)), Quad(m01, m13, m22, m30)), Quad(m01, m10, m22, m33)), Quad(m01, m13, m20, m32)), Quad(m01, m12, m23, m30));
    DistARight(m11, Mul(Mul(m22, m33), m00), Mul(Mul(m32, m03), m20), Mul(Mul(m02, m23), m30), Mul(Mul(m32, m23), m00), Mul(Mul(m02, m33), m20), Mul(Mul(m22, m03), m30));
    MulQuadRight(m11, m22, m33, m00); QuadSwap23(m11, m22, m33, m00); QuadSwap12(m11, m22, m00, m33); QuadSwap01(m11, m00, m22, m33);
    MulQuadRight(m11, m32, m03, m20); QuadSwap12(m11, m32, m03, m20); QuadSwap23(m11, m03, m32, m20); QuadSwap01(m11, m03, m20, m32);
    MulQuadRight(m11, m02, m23, m30); QuadSwap01(m11, m02, m23, m30);
    MulQuadRight(m11, m32, m23, m00); QuadSwap12(m11, m32, m23, m00); QuadSwap23(m11, m23, m32, m00); QuadSwap12(m11, m23, m00, m32); QuadSwap01(m11, m00, m23, m32);
    MulQuadRight(m11, m02, m33, m20); QuadSwap01(m11, m02, m33, m20); QuadSwap23(m02, m11, m33, m20);
    MulQuadRight(m11, m22, m03, m30); QuadSwap12(m11, m22, m03, m30); QuadSwap01(m11, m03, m22, m30);
    assert Mul(Sub(Sub(Sub(Add(Add(Mul(Mul(m22, m33), m00), Mul(Mul(m32, m03), m20)), Mul(Mul(m02, m23), m30)), Mul(Mul(m32, m23), m00)), Mul(Mul(m02, m33), m20)), Mul(Mul(m22, m03), m30)), m11) == Sub(Sub(Sub(Add(Add(Quad(m00, m11, m22, m33), Quad(m03, m11, m20, m32)), Quad(m02, m11, m23, m30)), Quad(m00, m11, m23, m32)), Quad(m02, m11, m20, m33)), Quad(m03, m11, m22, m30));
    DistARight(m21, Mul(Mul(m32, m13), m00), Mul(Mul(m02, m33), m10), Mul(Mul(m12, m03), m30), Mul(Mul(m12, m33), m00), Mul(Mul(m32, m03), m10), Mul(Mul(m02, m13), m30));
    MulQuadRight(m21, m32, m13, m00); QuadSwap12(m21, m32, m13, m00); QuadSwap23(m21, m13, m32, m00); QuadSwap01(m21, m13, m00, m32); QuadSwap12(m13, m21, m00, m32); QuadSwap01(m13, m00, m21, m32);
    MulQuadRight(m21, m02, m33, m10); QuadSwap01(m21, m02, m33, m10); QuadSwap23(m02, m21, m33, m10); QuadSwap12(m02, m21, m10, m33);
    MulQuadRight(m21, m12, m03, m30); QuadSwap01(m21, m12, m03, m30); QuadSwap12(m12, m21, m03, m30); QuadSwap01(m12, m03, m21, m30);
    MulQuadRight(m21, m12, m33, m00); QuadSwap01(m21, m12, m33, m00); QuadSwap23(m12, m21, m33, m00); QuadSwap12(m12, m21, m00, m33); QuadSwap01(m12, m00, m21, m33);
    MulQuadRight(m21, m32, m03, m10); QuadSwap12(m21, m32, m03, m10); QuadSwap23(m21, m03, m32, m10); QuadSwap01(m21, m03, m10, m32); QuadSwap12(m03, m21, m10, m32);
    MulQuadRight(m21, m02, m13, m30); QuadSwap01(m21, m02, m13, m30); QuadSwap12(m02, m21, m13, m30);
    assert Mul(Sub(Sub(Sub(Add(Add(Mul(Mul(m32, m13), m00), Mul(Mul(m02, m33), m10)), Mul(Mul(m12, m03), m30)), Mul(Mul(m12, m33), m00)), Mul(Mul(m32, m03), m10)), Mul(Mul(m02, m13), m30)), m21) == Sub(Sub(Sub(Add(Add(Quad(m00, m13, m21, m32), Quad(m02, m10, m21, m33)), Quad(m03, m12, m21, m30)), Quad(m00, m12, m21, m33)), Quad(m03, m10, m21, m32)), Quad(m02, m13, m21, m30));
    DistARight(m31, Mul(Mul(m12, m23), m00), Mul(Mul(m22, m03), m10), Mul(Mul(m02, m13), m20), Mul(Mul(m22, m13), m00), Mul(Mul(m02, m23), m10), Mul(Mul(m12, m03), m20));
    MulQuadRight(m31, m12, m23, m00); QuadSwap01(m31, m12, m23, m00); QuadSwap12(m12, m31, m23, m00); QuadSwap23(m12, m23, m31, m00); QuadSwap12(m12, m23, m00, m31); QuadSwap01(m12, m00, m23, m31);
    MulQuadRight(m31, m22, m03, m10); QuadSwap01(m31, m22, m03, m10); QuadSwap12(m22, m31, m03, m10); QuadSwap23(m22, m03, m31, m10); QuadSwap01(m22, m03, m10, m31); QuadSwap12(m03, m22, m10, m31);
    MulQuadRight(m31, m02, m13, m20); QuadSwap01(m31, m02, m13, m20); QuadSwap12(m02, m31, m13, m20); QuadSwap23(m02, m13, m31, m20);
    MulQuadRight(m31, m22, m13, m00); QuadSwap01(m31, m22, m13, m00); QuadSwap12(m22, m31, m13, m00); QuadSwap23(m22, m13, m31, m00); QuadSwap01(m22, m13, m00, m31); QuadSwap12(m13, m22, m00, m31); QuadSwap01(m13, m00, m22, m31);
    MulQuadRight(m31, m02, m23, m10); QuadSwap01(m31, m02, m23, m10); QuadSwap12(m02, m31, m23, m10); QuadSwap23(m02, m23, m31, m10); QuadSwap12(m02, m23, m10, m31);
    MulQuadRight(m31, m12, m03, m20); QuadSwap01(m31, m12, m03, m20); QuadSwap12(m12, m31, m03, m20); QuadSwap23(m12, m03, m31, m20); QuadSwap01(m12, m03, m20, m31);
    assert Mul(Sub(Sub(Sub(Add(Add(Mul(Mul(m12, m23), m00), Mul(Mul(m22, m03), m10)), Mul(Mul(m02, m13), m20)), Mul(Mul(m22, m13), m00)), Mul(Mul(m02, m23), m10)), Mul(Mul(m12, m03), m20)), m31) == Sub(Sub(Sub(Add(Add(Quad(m00, m12, m23, m31), Quad(m03, m10, m22, m31)), Quad(m02, m13, m20, m31)), Quad(m00, m13, m22, m31)), Quad(m02, m10, m23, m31)), Quad(m03, m12, m20, m31));
  }

  lemma LeftEntry12(m00: Complex, m01: Complex, m02: Complex, m03: Complex, m10: Complex, m11: Complex, m12: Complex, m13: Complex, m20: Complex, m21: Complex, m22: Complex, m23: Complex, m30: Complex, m31: Complex, m32: Complex, m33: Complex)
    ensures Sum4(Mul(Sub(Sub(Sub(Add(Add(Mul(Mul(m32, m23), m10), Mul(Mul(m12, m33), m20)), Mul(Mul(m22, m13), m30)), Mul(Mul(m22, m33), m10)), Mul(Mul(m32, m13), m20)), Mul(Mul(m12, m23), m30)), m02), Mul(Sub(Sub(Sub(Add(Add(Mul(Mul(m22, m33), m00), Mul(Mul(m32, m03), m20)), Mul(Mul(m02, m23), m30)), Mul(Mul(m32, m23), m00)), Mul(Mul(m02, m33), m20)), Mul(Mul(m22, m03), m30)), m12), Mul(Sub(Sub(Sub(Add(Add(Mul(Mul(m32, m13), m00), Mul(Mul(m02, m33), m10)), Mul(Mul(m12, m03), m30)), Mul(Mul(m12, m33), m00)), Mul(Mul(m32, m03), m10)), Mul(Mul(m02, m13), m30)), m22), Mul(Sub(Sub(Sub(Add(Add(Mul(Mul(m12, m23), m00), Mul(Mul(m22, m03), m10)), Mul(Mul(m02, m13), m20)), Mul(Mul(m22, m13), m00)), Mul(Mul(m02, m23), m10)), Mul(Mul(m12, m03), m20)), m32))
         == Zero
  {
    DistALeft(m00, Mul(Mul(m22, m33), m11), Mul(Mul(m32, m13), m21), Mul(Mul(m12, m23), m31), Mul(Mul(m32, m23), m11), Mul(Mul(m12, m33), m21), Mul(Mul(m22, m13), m31));
    MulQuadLeft(m00, m22, m33, m11); QuadSwap23(m00, m22, m33, m11); QuadSwap12(m00, m22, m11, m33);
    MulQuadLeft(m00, m32, m13, m21); QuadSwap12(m00, m32, m13, m21); QuadSwap23(m00, m13, m32, m21);
    MulQuadLeft(m00, m12, m23, m31);
    MulQuadLeft(m00, m32, m23, m11); QuadSwap12(m00, m32, m23, m11); QuadSwap23(m00, m23, m32, m11); QuadSwap12(m00, m23, m11, m32);
    MulQuadLeft(m00, m12, m33, m21); QuadSwap23(m00, m12, m33, m21);
    MulQuadLeft(m00, m22, m13, m31); QuadSwap12(m00, m22, m13, m31);
    DistALeft(m10, Mul(Mul(m32, m23), m01), Mul(Mul(m02, m33), m21), Mul(Mul(m22, m03), m31), Mul(Mul(m22, m33), m01), Mul(Mul(m32, m03), m21), Mul(Mul(m02, m23), m31));
    MulQuadLeft(m10, m32, m23, m01); QuadSwap12(m10, m32, m23, m01); QuadSwap23(m10, m23, m32, m01); QuadSwap12(m10, m23, m01, m32); QuadSwap01(m10, m01, m23, m32);
    MulQuadLeft(m10, m02, m33, m21); QuadSwap01(m10, m02, m33, m21); QuadSwap23(m02, m10, m33, m21);
    MulQuadLeft(m10, m22, m03, m31); QuadSwap12(m10, m22, m03, m31); QuadSwap01(m10, m03, m22, m31);
    MulQuadLeft(m10, m22, m33, m01); QuadSwap23(m10, m22, m33, m01); QuadSwap12(m10, m22, m01, m33); QuadSwap01(m10, m01, m22, m33);
    MulQuadLeft(m10, m32, m03, m21); QuadSwap12(m10, m32, m03, m21); QuadSwap23(m10, m03, m32, m21); QuadSwap01(m10, m03, m21, m32);
    MulQuadLeft(m10, m02, m23, m31); QuadSwap01(m10, m02, m23, m31);
    DistALeft(m20, Mul(Mul(m12, m33), m01), Mul(Mul(m32, m03), m11), Mul(Mul(m02, m13), m31), Mul(Mul(m32, m13), m01), Mul(Mul(m02, m33), m11), Mul(Mul(m12, m03), m31));
    MulQuadLeft(m20, m12, m33, m01); QuadSwap01(m20, m12, m33, m01); QuadSwap23(m12, m20, m33, m01); QuadSwap12(m12, m20, m01, m33); QuadSwap01(m12, m01, m20, m33);
    MulQuadLeft(m20, m32, m03, m11); QuadSwap12(m20, m32, m03, m11); QuadSwap23(m20, m03, m32, m11); QuadSwap01(m20, m03, m11, m32); QuadSwap12(m03, m20, m11, m32);
    MulQuadLeft(m20, m02, m13, m31); QuadSwap01(m20, m02, m13, m31); QuadSwap12(m02, m20, m13, m31);
    MulQuadLeft(m20, m32, m13, m01); QuadSwap12(m20, m32, m13, m01); QuadSwap23(m20, m13, m32, m01); QuadSwap01(m20, m13, m01, m32); QuadSwap12(m13, m20, m01, m32); QuadSwap01(m13, m01, m20, m32);
    MulQuadLeft(m20, m02, m33, m11); QuadSwap01(m20, m02, m33, m11); QuadSwap23(m02, m20, m33, m11); QuadSwap12(m02, m20, m11, m33);
    MulQuadLeft(m20, m12, m03, m31); QuadSwap01(m20, m12, m03, m31); QuadSwap12(m12, m20, m03, m31); QuadSwap01(m12, m03, m20, m31);
    DistALeft(m30, Mul(Mul(m22, m13), m01), Mul(Mul(m02, m23), m11), Mul(Mul(m12, m03), m21), Mul(Mul(m12, m23), m01), Mul(Mul(m22, m03), m11), Mul(Mul(m02, m13), m21));
    MulQuadLeft(m30, m22, m13, m01); QuadSwap01(m30, m22, m13, m01); QuadSwap12(m22, m30, m13, m01); QuadSwap23(m22, m13, m30, m01); QuadSwap01(m22, m13, m01, m30); QuadSwap12(m13, m22, m01, m30); QuadSwap01(m13, m01, m22, m30);
    MulQuadLeft(m30, m02, m23, m11); QuadSwap01(m30, m02, m23, m11); QuadSwap12(m02, m30, m23, m11); QuadSwap23(m02, m23, m30, m11); QuadSwap12(m02, m23, m11, m30);
    MulQuadLeft(m30, m12, m03, m21); QuadSwap01(m30, m12, m03, m21); QuadSwap12(m12, m30, m03, m21); QuadSwap23(m12, m03, m30, m21); QuadSwap01(m12, m03, m21, m30);
    MulQuadLeft(m30, m12, m23, m01); QuadSwap01(m30, m12, m23, m01); QuadSwap12(m12, m30, m23, m01); QuadSwap23(m12, m23, m30, m01); QuadSwap12(m12, m23, m01, m30); QuadSwap01(m12, m01, m23, m30);
    MulQuadLeft(m30, m22, m03, m11); QuadSwap01(m30, m22, m03, m11); QuadSwap12(m22, m30, m03, m11); QuadSwap23(m22, m03, m30, m11); QuadSwap01(m22, m03, m11, m30); QuadSwap12(m03, m22, m11, m30);
    MulQuadLeft(m30, m02, m13, m21); QuadSwap01(m30, m02, m13, m21); QuadSwap12(m02, m30, m13, m21); QuadSwap23(m02, m13, m30, m21);
    DistARight(m02, Mul(Mul(m32, m23), m10), Mul(Mul(m12, m33), m20), Mul(Mul(m22, m13), m30), Mul(Mul(m22, m33), m10), Mul(Mul(m32, m13), m20), Mul(Mul(m12, m23), m30));
    MulQuadRight(m02, m32, m23, m10); QuadSwap12(m02, m32, m23, m10); QuadSwap23(m02, m23, m32, m10); QuadSwap12(m02, m23, m10, m32);
    MulQuadRight(m02, m12, m33, m20); QuadSwap23(m02, m12, m33, m20);
    MulQuadRight(m02, m22, m13, m30); QuadSwap12(m02, m22, m13, m30);
    MulQuadRight(m02, m22, m33, m10); QuadSwap23(m02, m22, m33, m10); QuadSwap12(m02, m22, m10, m33);
    MulQuadRight(m02, m32, m13, m20); QuadSwap12(m02, m32, m13, m20); QuadSwap23(m02, m13, m32, m20);
    MulQuadRight(m02, m12, m23, m30);
    assert Mul(Sub(Sub(Sub(Add(Add(Mul(Mul(m32, m23), m10), Mul(Mul(m12, m33), m20)), Mul(Mul(m22, m13), m30)), Mul(Mul(m22, m33), m10)), Mul(Mul(m32, m13), m20)), Mul(Mul(m12, m23), m30)), m02) == Sub(Sub(Sub(Add(Add(Quad(m02, m10, m23, m32), Quad(m02, m12, m20, m33)), Quad(m02, m13, m22, m30)), Quad(m02, m10, m22, m33)), Quad(m02, m13, m20, m32)), Quad(m02, m12, m23, m30));
    DistARight(m12, Mul(Mul(m22, m33), m00), Mul(Mul(m32, m03), m20), Mul(Mul(m02, m23), m30), Mul(Mul(m32, m23), m00), Mul(Mul(m02, m33), m20), Mul(Mul(m22, m03), m30));
    MulQuadRight(m12, m22, m33, m00); QuadSwap23(m12, m22, m33, m00); QuadSwap12(m12, m22, m00, m33); QuadSwap01(m12, m00, m22, m33);
    MulQuadRight(m12, m32, m03, m20); QuadSwap12(m12, m32, m03, m20); QuadSwap23(m12, m03, m32, m20); QuadSwap01(m12, m03, m20, m32);
    MulQuadRight(m12, m02, m23, m30); QuadSwap01(m12, m02, m23, m30);
    MulQuadRight(m12, m32, m23, m00); QuadSwap12(m12, m32, m23, m00); QuadSwap23(m12, m23, m32, m00); QuadSwap12(m12, m23, m00, m32); QuadSwap01(m12, m00, m23, m32);
    MulQuadRight(m12, m02, m33, m20); QuadSwap01(m12, m02, m33, m20); QuadSwap23(m02, m12, m33, m20);
    MulQuadRight(m12, m22, m03, m30); QuadSwap12(m12, m22, m03, m30); QuadSwap01(m12, m03, m22, m30);
    assert Mul(Sub(Sub(Sub(Add(Add(Mul(Mul(m22, m33), m00), Mul(Mul(m32, m03), m20)), Mul(Mul(m02, m23), m30)), Mul(Mul(m32, m23), m00)), Mul(Mul(m02, m33), m20)), Mul(Mul(m22, m03), m30)), m12) == Sub(Sub(Sub(Add(Add(Quad(m00, m12, m22, m33), Quad(m03, m12, m20, m32)), Quad(m02, m12, m23, m30)), Quad(m00, m12, m23, m32)), Quad(m02, m12, m20, m33)), Quad(m03, m12, m22, m30));
    DistARight(m22, Mul(Mul(m32, m13), m00), Mul(Mul(m02, m33), m10), Mul(Mul(m12, m03), m30), Mul(Mul(m12, m33), m00), Mul(Mul(m32, m03), m10), Mul(Mul(m02, m13), m30));
    MulQuadRight(m22, m32, m13, m00); QuadSwap12(m22, m32, m13, m00); QuadSwap23(m22, m13, m32, m00); QuadSwap01(m22, m13, m00, m32); QuadSwap12(m13, m22, m00, m32); QuadSwap01(m13, m00, m22, m32);
    MulQuadRight(m22, m02, m33, m10); QuadSwap01(m22, m02, m33, m10); QuadSwap23(m02, m22, m33, m10); QuadSwap12(m02, m22, m10, m33);
    MulQuadRight(m22, m12, m03, m30); QuadSwap01(m22, m12, m03, m30); QuadSwap12(m12, m22, m03, m30); QuadSwap01(m12, m03, m22, m30);
    MulQuadRight(m22, m12, m33, m00); QuadSwap01(m22, m12, m33, m00); QuadSwap23(m12, m22, m33, m00); QuadSwap12(m12, m22, m00, m33); QuadSwap01(m12, m00, m22, m33);
    MulQuadRight(m22, m32, m03, m10); QuadSwap12(m22, m32, m03, m10); QuadSwap23(m22, m03, m32, m10); QuadSwap01(m22, m03, m10, m32); QuadSwap12(m03, m22, m10, m32);
    MulQuadRight(m22, m02, m13, m30); QuadSwap01(m22, m02, m13, m30); QuadSwap12(m02, m22, m13, m30);
    assert Mul(Sub(Sub(Sub(Add(Add(Mul(Mul(m32, m13), m00), Mul(Mul(m02, m33), m10)), Mul(Mul(m12, m03), m30)), Mul(Mul(m12, m33), m00)), Mul(Mul(m32, m03), m10)), Mul(Mul(m02, m13), m30)), m22) == Sub(Sub(Sub(Add(Add(Quad(m00, m13, m22, m32), Quad(m02, m10, m22, m33)), Quad(m03, m12, m22, m30)), Quad(m00, m12, m22, m33)), Quad(m03, m10, m22, m32)), Quad(m02, m13, m22, m30));
    DistARight(m32, Mul(Mul(m12, m23), m00), Mul(Mul(m22, m03), m10), Mul(Mul(m02, m13), m20), Mul(Mul(m22, m13), m00), Mul(Mul(m02, m23), m10), Mul(Mul(m12, m03), m20));
    MulQuadRight(m32, m12, m23, m00); QuadSwap01(m32, m12, m23, m00); QuadSwap12(m12, m32, m23, m00); QuadSwap23(m12, m23, m32, m00); QuadSwap12(m12, m23, m00, m32); QuadSwap01(m12, m00, m23, m32);
    MulQuadRight(m32, m22, m03, m10); QuadSwap01(m32, m22, m03, m10); QuadSwap12(m22, m32, m03, m10); QuadSwap23(m22, m03, m32, m10); QuadSwap01(m22, m03, m10, m32); QuadSwap12(m03, m22, m10, m32);
    MulQuadRight(m32, m02, m13, m20); QuadSwap01(m32, m02, m13, m20); QuadSwap12(m02, m32, m13, m20); QuadSwap23(m02, m13, m32, m20);
    MulQuadRight(m32, m22, m13, m00); QuadSwap01(m32, m22, m13, m00); QuadSwap12(m22, m32, m13, m00); QuadSwap23(m22, m13, m32, m00); QuadSwap01(m22, m13, m00, m32); QuadSwap12(m13, m22, m00, m32); QuadSwap01(m13, m00, m22, m32);
    MulQuadRight(m32, m02, m23, m10); QuadSwap01(m32, m02, m23, m10); QuadSwap12(m02, m32, m23, m10); QuadSwap23(m02, m23, m32, m10); QuadSwap12(m02, m23, m10, m32);
    MulQuadRight(m32, m12, m03, m20); QuadSwap01(m32, m12, m03, m20); QuadSwap12(m12, m32, m03, m20); QuadSwap23(m12, m03, m32, m20); QuadSwap01(m12, m03, m20, m32);
    assert Mul(Sub(Sub(Sub(Add(Add(Mul(Mul(m12, m23), m00), Mul(Mul(m22, m03), m10)), Mul(Mul(m02, m13), m20)), Mul(Mul(m22, m13), m00)), Mul(Mul(m02, m23), m10)), Mul(Mul(m12, m03), m20)), m32) == Sub(Sub(Sub(Add(Add(Quad(m00, m12, m23, m32), Quad(m03, m10, m22, m32)), Quad(m02, m13, m20, m32)), Quad(m00, m13, m22, m32)), Quad(m02, m10, m23, m32)), Quad(m03, m12, m20, m32));
  }

  lemma LeftEntry13(m00: Complex, m01: Complex, m02: Complex, m03: Complex, m10: Complex, m11: Complex, m12: Complex, m13: Complex, m20: Complex, m21: Complex, m22: Complex, m23: Complex, m30: Complex, m31: Complex, m32: Complex, m33: Complex)
    ensures Sum4(Mul(Sub(Sub(Sub(Add(Add(Mul(Mul(m32, m23), m10), Mul(Mul(m12, m33), m20)), Mul(Mul(m22, m13), m30)), Mul(Mul(m22, m33), m10)), Mul(Mul(m32, m13), m20)), Mul(Mul(m12, m23), m30)), m03), Mul(Sub(Sub(Sub(Add(Add(Mul(Mul(m22, m33), m00), Mul(Mul(m32, m03), m20)), Mul(Mul(m02, m23), m30)), Mul(Mul(m32, m23), m00)), Mul(Mul(m02, m33), m20)), Mul(Mul(m22, m03), m30)), m13), Mul(Sub(Sub(Sub(Add(Add(Mul(Mul(m32, m13), m00), Mul(Mul(m02, m33), m10)), Mul(Mul(m12, m03), m30)), Mul(Mul(m12, m33), m00)), Mul(Mul(m32, m03), m10)), Mul(Mul(m02, m13), m30)), m23), Mul(Sub(Sub(Sub(Add(Add(Mul(Mul(m12, m23), m00), Mul(Mul(m22, m03), m10)), Mul(Mul(m02, m13), m20)), Mul(Mul(m22, m13), m00)), Mul(Mul(m02, m23), m10)), Mul(Mul(m12, m03), m20)), m33))
         == Zero
  {
    DistALeft(m00, Mul(Mul(m22, m33), m11), Mul(Mul(m32, m13), m21), Mul(Mul(m12, m23), m31), Mul(Mul(m32, m23), m11), Mul(Mul(m12, m33), m21), Mul(Mul(m22, m13), m31));
    MulQuadLeft(m00, m22, m33, m11); QuadSwap23(m00, m22, m33, m11); QuadSwap12(m00, m22, m11, m33);
    MulQuadLeft(m00, m32, m13, m21); QuadSwap12(m00, m32, m13, m21); QuadSwap23(m00, m13, m32, m21);
    MulQuadLeft(m00, m12, m23, m31);
    MulQuadLeft(m00, m32, m23, m11); QuadSwap12(m00, m32, m23, m11); QuadSwap23(m00, m23, m32, m11); QuadSwap12(m00, m23, m11, m32);
    MulQuadLeft(m00, m12, m33, m21); QuadSwap23(m00, m12, m33, m21);
    MulQuadLeft(m00, m22, m13, m31); QuadSwap12(m00, m22, m13, m31);
    DistALeft(m10, Mul(Mul(m32, m23), m01), Mul(Mul(m02, m33), m21), Mul(Mul(m22, m03), m31), Mul(Mul(m22, m33), m01), Mul(Mul(m32, m03), m21), Mul(Mul(m02, m23), m31));
    MulQuadLeft(m10, m32, m23, m01); QuadSwap12(m10, m32, m23, m01); QuadSwap23(m10, m23, m32, m01); QuadSwap12(m10, m23, m01, m32); QuadSwap01(m10, m01, m23, m32);
    MulQuadLeft(m10, m02, m33, m21); QuadSwap01(m10, m02, m33, m21); QuadSwap23(m02, m10, m33, m21);
    MulQuadLeft(m10, m22, m03, m31); QuadSwap12(m10, m22, m03, m31); QuadSwap01(m10, m03, m22, m31);
    MulQuadLeft(m10, m22, m33, m01); QuadSwap23(m10, m22, m33, m01); QuadSwap12(m10, m22, m01, m33); QuadSwap01(m10, m01, m22, m33);
    MulQuadLeft(m10, m32, m03, m21); QuadSwap12(m10, m32, m03, m21); QuadSwap23(m10, m03, m32, m21); QuadSwap01(m10, m03, m21, m32);
    MulQuadLeft(m10, m02, m23, m31); QuadSwap01(m10, m02, m23, m31);
    DistALeft(m20, Mul(Mul(m12, m33), m01), Mul(Mul(m32, m03), m11), Mul(Mul(m02, m13), m31), Mul(Mul(m32, m13), m01), Mul(Mul(m02, m33), m11), Mul(Mul(m12, m03), m31));
    MulQuadLeft(m20, m12, m33, m01); QuadSwap01(m20, m12, m33, m01); QuadSwap23(m12, m20, m33, m01); QuadSwap12(m12, m20, m01, m33); QuadSwap01(m12, m01, m20, m33);
    MulQuadLeft(m20, m32, m03, m11); QuadSwap12(m20, m32, m03, m11); QuadSwap23(m20, m03, m32, m11); QuadSwap01(m20, m03, m11, m32); QuadSwap12(m03, m20, m11, m32);
    MulQuadLeft(m20, m02, m13, m31); QuadSwap01(m20, m02, m13, m31); QuadSwap12(m02, m20, m13, m31);
    MulQuadLeft(m20, m32, m13, m01); QuadSwap12(m20, m32, m13, m01); QuadSwap23(m20, m13, m32, m01); QuadSwap01(m20, m13, m01, m32); QuadSwap12(m13, m20, m01, m32); QuadSwap01(m13, m01, m20, m32);
    MulQuadLeft(m20, m02, m33, m11); QuadSwap01(m20, m02, m33, m11); QuadSwap23(m02, m20, m33, m11); QuadSwap12(m02, m20, m11, m33);
    MulQuadLeft(m20, m12, m03, m31); QuadSwap01(m20, m12, m03, m31); QuadSwap12(m12, m20, m03, m31); QuadSwap01(m12, m03, m20, m31);
    DistALeft(m30, Mul(Mul(m22, m13), m01), Mul(Mul(m02, m23), m11), Mul(Mul(m12, m03), m21), Mul(Mul(m12, m23), m01), Mul(Mul(m22, m03), m11), Mul(Mul(m02, m13), m21));
    MulQuadLeft(m30, m22, m13, m01); QuadSwap01(m30, m22, m13, m01); QuadSwap12(m22, m30, m13, m01); QuadSwap23(m22, m13, m30, m01); QuadSwap01(m22, m13, m01, m30); QuadSwap12(m13, m22, m01, m30); QuadSwap01(m13, m01, m22, m30);
    MulQuadLeft(m30, m02, m23, m11); QuadSwap01(m30, m02, m23, m11); QuadSwap12(m02, m30, m23, m11); QuadSwap23(m02, m23, m30, m11); QuadSwap12(m02, m23, m11, m30);
    MulQuadLeft(m30, m12, m03, m21); QuadSwap01(m30, m12, m03, m21); QuadSwap12(m12, m30, m03, m21); QuadSwap23(m12, m03, m30, m21); QuadSwap01(m12, m03, m21, m30);
    MulQuadLeft(m30, m12, m23, m01); QuadSwap01(m30, m12, m23, m01); QuadSwap12(m12, m30, m23, m01); QuadSwap23(m12, m23, m30, m01); QuadSwap12(m12, m23, m01, m30); QuadSwap01(m12, m01, m23, m30);
    MulQuadLeft(m30, m22, m03, m11); QuadSwap01(m30, m22, m03, m11); QuadSwap12(m22, m30, m03, m11); QuadSwap23(m22, m03, m30, m11); QuadSwap01(m22, m03, m11, m30); QuadSwap12(m03, m22, m11, m30);
    MulQuadLeft(m30, m02, m13, m21); QuadSwap01(m30, m02, m13, m21); QuadSwap12(m02, m30, m13, m21); QuadSwap23(m02, m13, m30, m21);
    DistARight(m03, Mul(Mul(m32, m23), m10), Mul(Mul(m12, m33), m20), Mul(Mul(m22, m13), m30), Mul(Mul(m22, m33), m10), Mul(Mul(m32, m13), m20), Mul(Mul(m12, m23), m30));
    MulQuadRight(m03, m32, m23, m10); QuadSwap12(m03, m32, m23, m10); QuadSwap23(m03, m23, m32, m10); QuadSwap12(m03, m23, m10, m32);
    MulQuadRight(m03, m12, m33, m20); QuadSwap23(m03, m12, m33, m20);
    MulQuadRight(m03, m22, m13, m30); QuadSwap12(m03, m22, m13, m30);
    MulQuadRight(m03, m22, m33, m10); QuadSwap23(m03, m22, m33, m10); QuadSwap12(m03, m22, m10, m33);
    MulQuadRight(m03, m32, m13, m20); QuadSwap12(m03, m32, m13, m20); QuadSwap23(m03, m13, m32, m20);
    MulQuadRight(m03, m12, m23, m30);
    assert Mul(Sub(Sub(Sub(Add(Add(Mul(Mul(m32, m23), m10), Mul(Mul(m12, m33), m20)), Mul(Mul(m22, m13), m30)), Mul(Mul(m22, m33), m10)), Mul(Mul(m32, m13), m20)), Mul(Mul(m12, m23), m30)), m03) == Sub(Sub(Sub(Add(Add(Quad(m03, m10, m23, m32), Quad(m03, m12, m20, m33)), Quad(m03, m13, m22, m30)), Quad(m03, m10, m22, m33)), Quad(m03, m13, m20, m32)), Quad(m03, m12, m23, m30));
    DistARight(m13, Mul(Mul(m22, m33), m00), Mul(Mul(m32, m03), m20), Mul(Mul(m02, m23), m30), Mul(Mul(m32, m23), m00), Mul(Mul(m02, m33), m20), Mul(Mul(m22, m03), m30));
    MulQuadRight(m13, m22, m33, m00); QuadSwap23(m13, m22, m33, m00); QuadSwap12(m13, m22, m00, m33); QuadSwap01(m13, m00, m22, m33);
    MulQuadRight(m13, m32, m03, m20); QuadSwap12(m13, m32, m03, m20); QuadSwap23(m13, m03, m32, m20); QuadSwap01(m13, m03, m20, m32);
    MulQuadRight(m13, m02, m23, m30); QuadSwap01(m13, m02, m23, m30);
    MulQuadRight(m13, m32, m23, m00); QuadSwap12(m13, m32, m23, m00); QuadSwap23(m13, m23, m32, m00); QuadSwap12(m13, m23, m00, m32); QuadSwap01(m13, m00, m23, m32);
    MulQuadRight(m13, m02, m33, m20); QuadSwap01(m13, m02, m33, m20); QuadSwap23(m02, m13, m33, m20);
    MulQuadRight(m13, m22, m03, m30); QuadSwap12(m13, m22, m03, m30); QuadSwap01(m13, m03, m22, m30);
    assert Mul(Sub(Sub(Sub(Add(Add(Mul(Mul(m22, m33), m00), Mul(Mul(m32, m03), m20)), Mul(Mul(m02, m23), m30)), Mul(Mul(m32, m23), m00)), Mul(Mul(m02, m33), m20)), Mul(Mul(m22, m03), m30)), m13) == Sub(Sub(Sub(Add(Add(Quad(m00, m13, m22, m33), Quad(m03, m13, m20, m32)), Quad(m02, m13, m23, m30)), Quad(m00, m13, m23, m32)), Quad(m02, m13, m20, m33)), Quad(m03, m13, m22, m30));
    DistARight(m23, Mul(Mul(m32, m13), m00), Mul(Mul(m02, m33), m10), Mul(Mul(m12, m03), m30), Mul(Mul(m12, m33), m00), Mul(Mul(m32, m03), m10), Mul(Mul(m02, m13), m30));
    MulQuadRight(m23, m32, m13, m00); QuadSwap12(m23, m32, m13, m00); QuadSwap23(m23, m13, m32, m00); QuadSwap01(m23, m13, m00, m32); QuadSwap12(m13, m23, m00, m32); QuadSwap01(m13, m00, m23, m32);
    MulQuadRight(m23, m02, m33, m10); QuadSwap01(m23, m02, m33, m10); QuadSwap23(m02, m23, m33, m10); QuadSwap12(m02, m23, m10, m33);
    MulQuadRight(m23, m12, m03, m30); QuadSwap01(m23, m12, m03, m30); QuadSwap12(m12, m23, m03, m30); QuadSwap01(m12, m03, m23, m30);
    MulQuadRight(m23, m12, m33, m00); QuadSwap01(m23, m12, m33, m00); QuadSwap23(m12, m23, m33, m00); QuadSwap12(m12, m23, m00, m33); QuadSwap01(m12, m00, m23, m33);
    MulQuadRight(m23, m32, m03, m10); QuadSwap12(m23, m32, m03, m10); QuadSwap23(m23, m03, m32, m10); QuadSwap01(m23, m03, m10, m32); QuadSwap12(m03, m23, m10, m32);
    MulQuadRight(m23, m02, m13, m30); QuadSwap01(m23, m02, m13, m30); QuadSwap12(m02, m23, m13, m30);
    assert Mul(Sub(Sub(Sub(Add(Add(Mul(Mul(m32, m13), m00), Mul(Mul(m02, m33), m10)), Mul(Mul(m12, m03), m30)), Mul(Mul(m12, m33), m00)), Mul(Mul(m32, m03), m10)), Mul(Mul(m02, m13), m30)), m23) == Sub(Sub(Sub(Add(Add(Quad(m00, m13, m23, m32), Quad(m02, m10, m23, m33)), Quad(m03, m12, m23, m30)), Quad(m00, m12, m23, m33)), Quad(m03, m10, m23, m32)), Quad(m02, m13, m23, m30));
    DistARight(m33, Mul(Mul(m12, m23), m00), Mul(Mul(m22, m03), m10), Mul(Mul(m02, m13), m20), Mul(Mul(m22, m13), m00), Mul(Mul(m02, m23), m10), Mul(Mul(m12, m03), m20));
    MulQuadRight(m33, m12, m23, m00); QuadSwap01(m33, m12, m23, m00); QuadSwap12(m12, m33, m23, m00); QuadSwap23(m12, m23, m33, m00); QuadSwap12(m12, m23, m00, m33); QuadSwap01(m12, m00, m23, m33);
    MulQuadRight(m33, m22, m03, m10); QuadSwap01(m33, m22, m03, m10); QuadSwap12(m22, m33, m03, m10); QuadSwap23(m22, m03, m33, m10); QuadSwap01(m22, m03, m10, m33); QuadSwap12(m03, m22, m10, m33);
    MulQuadRight(m33, m02, m13, m20); QuadSwap01(m33, m02, m13, m20); QuadSwap12(m02, m33, m13, m20); QuadSwap23(m02, m13, m33, m20);
    MulQuadRight(m33, m22, m13, m00); QuadSwap01(m33, m22, m13, m00); QuadSwap12(m22, m33, m13, m00); QuadSwap23(m22, m13, m33, m00); QuadSwap01(m22, m13, m00, m33); QuadSwap12(m13, m22, m00, m33); QuadSwap01(m13, m00, m22, m33);
    MulQuadRight(m33, m02, m23, m10); QuadSwap01(m33, m02, m23, m10); QuadSwap12(m02, m33, m23, m10); QuadSwap23(m02, m23, m33, m10); QuadSwap12(m02, m23, m10, m33);
    MulQuadRight(m33, m12, m03, m20); QuadSwap01(m33, m12, m03, m20); QuadSwap12(m12, m33, m03, m20); QuadSwap23(m12, m03, m33, m20); QuadSwap01(m12, m03, m20, m33);
    assert Mul(Sub(Sub(Sub(Add(Add(Mul(Mul(m12, m23), m00), Mul(Mul(m22, m03), m10)), Mul(Mul(m02, m13), m20)), Mul(Mul(m22, m13), m00)), Mul(Mul(m02, m23), m10)), Mul(Mul(m12, m03), m20)), m33) == Sub(Sub(Sub(Add(Add(Quad(m00, m12, m23, m33), Quad(m03, m10, m22, m33)), Quad(m02, m13, m20, m33)), Quad(m00, m13, m22, m33)), Quad(m02, m10, m23, m33)), Quad(m03, m12, m20, m33));
  }

  lemma LeftEntry20(m00: Complex, m01: Complex, m02: Complex, m03: Complex, m10: Complex, m11: Complex, m12: Complex, m13: Complex, m20: Complex, m21: Complex, m22: Complex, m23: Complex, m30: Complex, m31: Complex, m32: Complex, m33: Complex)
    ensures Sum4(Mul(Sub(Add(Add(Mul(Mul(m20, m31), m13), Mul(Mul(m30, m11), m23)), Mul(Mul(m10, m21), m33)), Add(Add(Mul(Mul(m30, m21), m13), Mul(Mul(m10, m31), m23)), Mul(Mul(m20, m11), m33))), m00), Mul(Sub(Add(Add(Mul(Mul(m30, m21), m03), Mul(Mul(m00, m31), m23)), Mul(Mul(m20, m01), m33)), Add(Add(Mul(Mul(m20, m31), m03), Mul(Mul(m30, m01), m23)), Mul(Mul(m00, m21), m33))), m10), Mul(Sub(Add(Add(Mul(Mul(m10, m31), m03), Mul(Mul(m30, m01), m13)), Mul(Mul(m00, m11), m33)), Add(Add(Mul(Mul(m30, m11), m03), Mul(Mul(m00, m31), m13)), Mul(Mul(m10, m01), m33))), m20), Mul(Sub(Add(Add(Mul(Mul(m20, m11), m03), Mul(Mul(m00, m21), m13)), Mul(Mul(m10, m01), m23)), Add(Add(Mul(Mul(m10, m21), m03), Mul(Mul(m20, m01), m13)), Mul(Mul(m00, m11), m23))), m30))
         == Zero
  {
    DistALeft(m00, Mul(Mul(m22, m33), m11), Mul(Mul(m32, m13), m21), Mul(Mul(m12, m23), m31), Mul(Mul(m32, m23), m11), Mul(Mul(m12, m33), m21), Mul(Mul(m22, m13), m31));
    MulQuadLeft(m00, m22, m33, m11); QuadSwap23(m00, m22, m33, m11); QuadSwap12(m00, m22, m11, m33);
    MulQuadLeft(m00, m32, m13, m21); QuadSwap12(m00, m32, m13, m21); QuadSwap23(m00, m13, m32, m21);
    MulQuadLeft(m00, m12, m23, m31);
    MulQuadLeft(m00, m32, m23, m11); QuadSwap12(m00, m32, m23, m11); QuadSwap23(m00, m23, m32, m11); QuadSwap12(m00, m23, m11, m32);
    MulQuadLeft(m00, m12, m33, m21); QuadSwap23(m00, m12, m33, m21);
    MulQuadLeft(m00, m22, m13, m31); QuadSwap12(m00, m22, m13, m31);
    DistALeft(m10, Mul(Mul(m32, m23), m01), Mul(Mul(m02, m33), m21), Mul(Mul(m22, m03), m31), Mul(Mul(m22, m33), m01), Mul(Mul(m32, m03), m21), Mul(Mul(m02, m23), m31));
    MulQuadLeft(m10, m32, m23, m01); QuadSwap12(m10, m32, m23, m01); QuadSwap23(m10, m23, m32, m01); QuadSwap12(m10, m23, m01, m32); QuadSwap01(m10, m01, m23, m32);
    MulQuadLeft(m10, m02, m33, m21); QuadSwap01(m10, m02, m33, m21); QuadSwap23(m02, m10, m33, m21);
    MulQuadLeft(m10, m22, m03, m31); QuadSwap12(m10, m22, m03, m31); QuadSwap01(m10, m03, m22, m31);
    MulQuadLeft(m10, m22, m33, m01); QuadSwap23(m10, m22, m33, m01); QuadSwap12(m10, m22, m01, m33); QuadSwap01(m10, m01, m22, m33);
    MulQuadLeft(m10, m32, m03, m21); QuadSwap12(m10, m32, m03, m21); QuadSwap23(m10, m03, m32, m21); QuadSwap01(m10, m03, m21, m32);
    MulQuadLeft(m10, m02, m23, m31); QuadSwap01(m10, m02, m23, m31);
    DistALeft(m20, Mul(Mul(m12, m33), m01), Mul(Mul(m32, m03), m11), Mul(Mul(m02, m13), m31), Mul(Mul(m32, m13), m01), Mul(Mul(m02, m33), m11), Mul(Mul(m12, m03), m31));
    MulQuadLeft(m20, m12, m33, m01); QuadSwap01(m20, m12, m33, m01); QuadSwap23(m12, m20, m33, m01); QuadSwap12(m12, m20, m01, m33); QuadSwap01(m12, m01, m20, m33);
    MulQuadLeft(m20, m32, m03, m11); QuadSwap12(m20, m32, m03, m11); QuadSwap23(m20, m03, m32, m11); QuadSwap01(m20, m03, m11, m32); QuadSwap12(m03, m20, m11, m32);
    MulQuadLeft(m20, m02, m13, m31); QuadSwap01(m20, m02, m13, m31); QuadSwap12(m02, m20, m13, m31);
    MulQuadLeft(m20, m32, m13, m01); QuadSwap12(m20, m32, m13, m01); QuadSwap23(m20, m13, m32, m01); QuadSwap01(m20, m13, m01, m32); QuadSwap12(m13, m20, m01, m32); QuadSwap01(m13, m01, m20, m32);
    MulQuadLeft(m20, m02, m33, m11); QuadSwap01(m20, m02, m33, m11); QuadSwap23(m02, m20, m33, m11); QuadSwap12(m02, m20, m11, m33);
    MulQuadLeft(m20, m12, m03, m31); QuadSwap01(m20, m12, m03, m31); QuadSwap12(m12, m20, m03, m31); QuadSwap01(m12, m03, m20, m31);
    DistALeft(m30, Mul(Mul(m22, m13), m01), Mul(Mul(m02, m23), m11), Mul(Mul(m12, m03), m21), Mul(Mul(m12, m23), m01), Mul(Mul(m22, m03), m11), Mul(Mul(m02, m13), m21));
    MulQuadLeft(m30, m22, m13, m01); QuadSwap01(m30, m22, m13, m01); QuadSwap12(m22, m30, m13, m01); QuadSwap23(m22, m13, m30, m01); QuadSwap01(m22, m13, m01, m30); QuadSwap12(m13, m22, m01, m30); QuadSwap01(m13, m01, m22, m30);
    MulQuadLeft(m30, m02, m23, m11); QuadSwap01(m30, m02, m23, m11); QuadSwap12(m02, m30, m23, m11); QuadSwap23(m02, m23, m30, m11); QuadSwap12(m02, m23, m11, m30);
    MulQuadLeft(m30, m12, m03, m21); QuadSwap01(m30, m12, m03, m21); QuadSwap12(m12, m30, m03, m21); QuadSwap23(m12, m03, m30, m21); QuadSwap01(m12, m03, m21, m30);
    MulQuadLeft(m30, m12, m23, m01); QuadSwap01(m30, m12, m23, m01); QuadSwap12(m12, m30, m23, m01); QuadSwap23(m12, m23, m30, m01); QuadSwap12(m12, m23, m01, m30); QuadSwap01(m12, m01, m23, m30);
    MulQuadLeft(m30, m22, m03, m11); QuadSwap01(m30, m22, m03, m11); QuadSwap12(m22, m30, m03, m11); QuadSwap23(m22, m03, m30, m11); QuadSwap01(m22, m03, m11, m30); QuadSwap12(m03, m22, m11, m30);
    MulQuadLeft(m30, m02, m13, m21); QuadSwap01(m30, m02, m13, m21); QuadSwap12(m02, m30, m13, m21); QuadSwap23(m02, m13, m30, m21);
    DistBRight(m00, Mul(Mul(m20, m31), m13), Mul(Mul(m30, m11), m23), Mul(Mul(m10, m21), m33), Mul(Mul(m30, m21), m13), Mul(Mul(m10, m31), m23), Mul(Mul(m20, m11), m33));
    MulQuadRight(m00, m20, m31, m13); QuadSwap23(m00, m20, m31, m13); QuadSwap12(m00, m20, m13, m31);
    MulQuadRight(m00, m30, m11, m23); QuadSwap12(m00, m30, m11, m23); QuadSwap23(m00, m11, m30, m23);
    MulQuadRight(m00, m10, m21, m33);
    MulQuadRight(m00, m30, m21, m13); QuadSwap12(m00, m30, m21, m13); QuadSwap23(m00, m21, m30, m13); QuadSwap12(m00, m21, m13, m30);
    MulQuadRight(m00, m10, m31, m23); QuadSwap23(m00, m10, m31, m23);
    MulQuadRight(m00, m20, m11, m33); QuadSwap12(m00, m20, m11, m33);
    assert Mul(Sub(Add(Add(Mul(Mul(m20, m31), m13), Mul(Mul(m30, m11), m23)), Mul(Mul(m10, m21), m33)), Add(Add(Mul(Mul(m30, m21), m13), Mul(Mul(m10, m31), m23)), Mul(Mul(m20, m11), m33))), m00) == Sub(Sub(Sub(Add(Add(Quad(m00, m13, m20, m31), Quad(m00, m11, m23, m30)), Quad(m00, m10, m21, m33)), Quad(m00, m13, m21, m30)), Quad(m00, m10, m23, m31)), Quad(m00, m11, m20, m33));
    DistBRight(m10, Mul(Mul(m30, m21), m03), Mul(Mul(m00, m31), m23), Mul(Mul(m20, m01), m33), Mul(Mul(m20, m31), m03), Mul(Mul(m30, m01), m23), Mul(Mul(m00, m21), m33));
    MulQuadRight(m10, m30, m21, m03); QuadSwap12(m10, m30, m21, m03); QuadSwap23(m10, m21, m30, m03); QuadSwap12(m10, m21, m03, m30); QuadSwap01(m10, m03, m21, m30);
    MulQuadRight(m10, m00, m31, m23); QuadSwap01(m10, m00, m31, m23); QuadSwap23(m00, m10, m31, m23);
    MulQuadRight(m10, m20, m01, m33); QuadSwap12(m10, m20, m01, m33); QuadSwap01(m10, m01, m20, m33);
    MulQuadRight(m10, m20, m31, m03); QuadSwap23(m10, m20, m31, m03); QuadSwap12(m10, m20, m03, m31); QuadSwap01(m10, m03, m20, m31);
    MulQuadRight(m10, m30, m01, m23); QuadSwap12(m10, m30, m01, m23); QuadSwap23(m10, m01, m30, m23); QuadSwap01(m10, m01, m23, m30);
    MulQuadRight(m10, m00, m21, m33); QuadSwap01(m10, m00, m21, m33);
    assert Mul(Sub(Add(Add(Mul(Mul(m30, m21), m03), Mul(Mul(m00, m31), m23)), Mul(Mul(m20, m01), m33)), Add(Add(Mul(Mul(m20, m31), m03), Mul(Mul(m30, m01), m23)), Mul(Mul(m00, m21), m33))), m10) == Sub(Sub(Sub(Add(Add(Quad(m03, m10, m21, m30), Quad(m00, m10, m23, m31)), Quad(m01, m10, m20, m33)), Quad(m03, m10, m20, m31)), Quad(m01, m10, m23, m30)), Quad(m00, m10, m21, m33));
    DistBRight(m20, Mul(Mul(m10, m31), m03), Mul(Mul(m30, m01), m13), Mul(Mul(m00, m11), m33), Mul(Mul(m30, m11), m03), Mul(Mul(m00, m31), m13), Mul(Mul(m10, m01), m33));
    MulQuadRight(m20, m10, m31, m03); QuadSwap01(m20, m10, m31, m03); QuadSwap23(m10, m20, m31, m03); QuadSwap12(m10, m20, m03, m31); QuadSwap01(m10, m03, m20, m31);
    MulQuadRight(m20, m30, m01, m13); QuadSwap12(m20, m30, m01, m13); QuadSwap23(m20, m01, m30, m13); QuadSwap01(m20, m01, m13, m30); QuadSwap12(m01, m20, m13, m30);
    MulQuadRight(m20, m00, m11, m33); QuadSwap01(m20, m00, m11, m33); QuadSwap12(m00, m20, m11, m33);
    MulQuadRight(m20, m30, m11, m03); QuadSwap12(m20, m30, m11, m03); QuadSwap23(m20, m11, m30, m03); QuadSwap01(m20, m11, m03, m30); QuadSwap12(m11, m20, m03, m30); QuadSwap01(m11, m03, m20, m30);
    MulQuadRight(m20, m00, m31, m13); QuadSwap01(m20, m00, m31, m13); QuadSwap23(m00, m20, m31, m13); QuadSwap12(m00, m20, m13, m31);
    MulQuadRight(m20, m10, m01, m33); QuadSwap01(m20, m10, m01, m33); QuadSwap12(m10, m20, m01, m33); QuadSwap01(m10, m01, m20, m33);
    assert Mul(Sub(Add(Add(Mul(Mul(m10, m31), m03), Mul(Mul(m30, m01), m13)), Mul(Mul(m00, m11), m33)), Add(Add(Mul(Mul(m30, m11), m03), Mul(Mul(m00, m31), m13)), Mul(Mul(m10, m01), m33))), m20) == Sub(Sub(Sub(Add(Add(Quad(m03, m10, m20, m31), Quad(m01, m13, m20, m30)), Quad(m00, m11, m20, m33)), Quad(m03, m11, m20, m30)), Quad(m00, m13, m20, m31)), Quad(m01, m10, m20, m33));
    DistBRight(m30, Mul(Mul(m20, m11), m03), Mul(Mul(m00, m21), m13), Mul(Mul(m10, m01), m23), Mul(Mul(m10, m21), m03), Mul(Mul(m20, m01), m13), Mul(Mul(m00, m11), m23));
    MulQuadRight(m30, m20, m11, m03); QuadSwap01(m30, m20, m11, m03); QuadSwap12(m20, m30, m11, m03); QuadSwap23(m20, m11, m30, m03); QuadSwap01(m20, m11, m03, m30); QuadSwap12(m11, m20, m03, m30); QuadSwap01(m11, m03, m20, m30);
    MulQuadRight(m30, m00, m21, m13); QuadSwap01(m30, m00, m21, m13); QuadSwap12(m00, m30, m21, m13); QuadSwap23(m00, m21, m30, m13); QuadSwap12(m00, m21, m13, m30);
    MulQuadRight(m30, m10, m01, m23); QuadSwap01(m30, m10, m01, m23); QuadSwap12(m10, m30, m01, m23); QuadSwap23(m10, m01, m30, m23); QuadSwap01(m10, m01, m23, m30);
    MulQuadRight(m30, m10, m21, m03); QuadSwap01(m30, m10, m21, m03); QuadSwap12(m10, m30, m21, m03); QuadSwap23(m10, m21, m30, m03); QuadSwap12(m10, m21, m03, m30); QuadSwap01(m10, m03, m21, m30);
    MulQuadRight(m30, m20, m01, m13); QuadSwap01(m30, m20, m01, m13); QuadSwap12(m20, m30, m01, m13); QuadSwap23(m20, m01, m30, m13); QuadSwap01(m20, m01, m13, m30); QuadSwap12(m01, m20, m13, m30);
    MulQuadRight(m30, m00, m11, m23); QuadSwap01(m30, m00, m11, m23); QuadSwap12(m00, m30, m11, m23); QuadSwap23(m00, m11, m30, m23);
    assert Mul(Sub(Add(Add(Mul(Mul(m20, m11), m03), Mul(Mul(m00, m21), m13)), Mul(Mul(m10, m01), m23)), Add(Add(Mul(Mul(m10, m21), m03), Mul(Mul(m20, m01), m13)), Mul(Mul(m00, m11), m23))), m30) == Sub(Sub(Sub(Add(Add(Quad(m03, m11, m20, m30), Quad(m00, m13, m21, m30)), Quad(m01, m10, m23, m30)), Quad(m03, m10, m21, m30)), Quad(m01, m13, m20, m30)), Quad(m00, m11, m23, m30));
  }

  lemma LeftEntry21(m00: Complex, m01: Complex, m02: Complex, m03: Complex, m10: Complex, m11: Complex, m12: Complex, m13: Complex, m20: Complex, m21: Complex, m22: Complex, m23: Complex, m30: Complex, m31: Complex, m32: Complex, m33: Complex)
    ensures Sum4(Mul(Sub(Add(Add(Mul(Mul(m20, m31), m13), Mul(Mul(m30, m11), m23)), Mul(Mul(m10, m21), m33)), Add(Add(Mul(Mul(m30, m21), m13), Mul(Mul(m10, m31), m23)), Mul(Mul(m20, m11), m33))), m01), Mul(Sub(Add(Add(Mul(Mul(m30, m21), m03), Mul(Mul(m00, m31), m23)), Mul(Mul(m20, m01), m33)), Add(Add(Mul(Mul(m20, m31), m03), Mul(Mul(m30, m01), m23)), Mul(Mul(m00, m21), m33))), m11), Mul(Sub(Add(Add(Mul(Mul(m10, m31), m03), Mul(Mul(m30, m01), m13)), Mul(Mul(m00, m11), m33)), Add(Add(Mul(Mul(m30, m11), m03), Mul(Mul(m00, m31), m13)), Mul(Mul(m10, m01), m33))), m21), Mul(Sub(Add(Add(Mul(Mul(m20, m11), m03), Mul(Mul(m00, m21), m13)), Mul(Mul(m10, m01), m23)), Add(Add(Mul(Mul(m10, m21), m03), Mul(Mul(m20, m01), m13)), Mul(Mul(m00, m11), m23))), m31))
         == Zero
  {
    DistALeft(m00, Mul(Mul(m22, m33), m11), Mul(Mul(m32, m13), m21), Mul(Mul(m12, m23), m31), Mul(Mul(m32, m23), m11), Mul(Mul(m12, m33), m21), Mul(Mul(m22, m13), m31));
    MulQuadLeft(m00, m22, m33, m11); QuadSwap23(m00, m22, m33, m11); QuadSwap12(m00, m22, m11, m33);
    MulQuadLeft(m00, m32, m13, m21); QuadSwap12(m00, m32, m13, m21); QuadSwap23(m00, m13, m32, m21);
    MulQuadLeft(m00, m12, m23, m31);
    MulQuadLeft(m00, m32, m23, m11); QuadSwap12(m00, m32, m23, m11); QuadSwap23(m00, m23, m32, m11); QuadSwap12(m00, m23, m11, m32);
    MulQuadLeft(m00, m12, m33, m21); QuadSwap23(m00, m12, m33, m21);
    MulQuadLeft(m00, m22, m13, m31); QuadSwap12(m00, m22, m13, m31);
    DistALeft(m10, Mul(Mul(m32, m23), m01), Mul(Mul(m02, m33), m21), Mul(Mul(m22, m03), m31), Mul(Mul(m22, m33), m01), Mul(Mul(m32, m03), m21), Mul(Mul(m02, m23), m31));
    MulQuadLeft(m10, m32, m23, m01); QuadSwap12(m10, m32, m23, m01); QuadSwap23(m10, m23, m32, m01); QuadSwap12(m10, m23, m01, m32); QuadSwap01(m10, m01, m23, m32);
    MulQuadLeft(m10, m02, m33, m21); QuadSwap01(m10, m02, m33, m21); QuadSwap23(m02, m10, m33, m21);
    MulQuadLeft(m10, m22, m03, m31); QuadSwap12(m10, m22, m03, m31); QuadSwap01(m10, m03, m22, m31);
    MulQuadLeft(m10, m22, m33, m01); QuadSwap23(m10, m22, m33, m01); QuadSwap12(m10, m22, m01, m33); QuadSwap01(m10, m01, m22, m33);
    MulQuadLeft(m10, m32, m03, m21); QuadSwap12(m10, m32, m03, m21); QuadSwap23(m10, m03, m32, m21); QuadSwap01(m10, m03, m21, m32);
    MulQuadLeft(m10, m02, m23, m31); QuadSwap01(m10, m02, m23, m31);
    DistALeft(m20, Mul(Mul(m12, m33), m01), Mul(Mul(m32, m03), m11), Mul(Mul(m02, m13), m31), Mul(Mul(m32, m13), m01), Mul(Mul(m02, m33), m11), Mul(Mul(m12, m03), m31));
    MulQuadLeft(m20, m12, m33, m01); QuadSwap01(m20, m12, m33, m01); QuadSwap23(m12, m20, m33, m01); QuadSwap12(m12, m20, m01, m33); QuadSwap01(m12, m01, m20, m33);
    MulQuadLeft(m20, m32, m03, m11); QuadSwap12(m20, m32, m03, m11); QuadSwap23(m20, m03, m32, m11); QuadSwap01(m20, m03, m11, m32); QuadSwap12(m03, m20, m11, m32);
    MulQuadLeft(m20, m02, m13, m31); QuadSwap01(m20, m02, m13, m31); QuadSwap12(m02, m20, m13, m31);
    MulQuadLeft(m20, m32, m13, m01); QuadSwap12(m20, m32, m13, m01); QuadSwap23(m20, m13, m32, m01); QuadSwap01(m20, m13, m01, m32); QuadSwap12(m13, m20, m01, m32); QuadSwap01(m13, m01, m20, m32);
    MulQuadLeft(m20, m02, m33, m11); QuadSwap01(m20, m02, m33, m11); QuadSwap23(m02, m20, m33, m11); QuadSwap12(m02, m20, m11, m33);
    MulQuadLeft(m20, m12, m03, m31); QuadSwap01(m20, m12, m03, m31); QuadSwap12(m12, m20, m03, m31); QuadSwap01(m12, m03, m20, m31);
    DistALeft(m30, Mul(Mul(m22, m13), m01), Mul(Mul(m02, m23), m11), Mul(Mul(m12, m03), m21), Mul(Mul(m12, m23), m01), Mul(Mul(m22, m03), m11), Mul(Mul(m02, m13), m21));
    MulQuadLeft(m30, m22, m13, m01); QuadSwap01(m30, m22, m13, m01); QuadSwap12(m22, m30, m13, m01); QuadSwap23(m22, m13, m30, m01); QuadSwap01(m22, m13, m01, m30); QuadSwap12(m13, m22, m01, m30); QuadSwap01(m13, m01, m22, m30);
    MulQuadLeft(m30, m02, m23, m11); QuadSwap01(m30, m02, m23, m11); QuadSwap12(m02, m30, m23, m11); QuadSwap23(m02, m23, m30, m11); QuadSwap12(m02, m23, m11, m30);
    MulQuadLeft(m30, m12, m03, m21); QuadSwap01(m30, m12, m03, m21); QuadSwap12(m12, m30, m03, m21); QuadSwap23(m12, m03, m30, m21); QuadSwap01(m12, m03, m21, m30);
    MulQuadLeft(m30, m12, m23, m01); QuadSwap01(m30, m12, m23, m01); QuadSwap12(m12, m30, m23, m01); QuadSwap23(m12, m23, m30, m01); QuadSwap12(m12, m23, m01, m30); QuadSwap01(m12, m01, m23, m30);
    MulQuadLeft(m30, m22, m03, m11); QuadSwap01(m30, m22, m03, m11); QuadSwap12(m22, m30, m03, m11); QuadSwap23(m22, m03, m30, m11); QuadSwap01(m22, m03, m11, m30); QuadSwap12(m03, m22, m11, m30);
    MulQuadLeft(m30, m02, m13, m21); QuadSwap01(m30, m02, m13, m21); QuadSwap12(m02, m30, m13, m21); QuadSwap23(m02, m13, m30, m21);
    DistBRight(m01, Mul(Mul(m20, m31), m13), Mul(Mul(m30, m11), m23), Mul(Mul(m10, m21), m33), Mul(Mul(m30, m21), m13), Mul(Mul(m10, m31), m23), Mul(Mul(m20, m11), m33));
    MulQuadRight(m01, m20, m31, m13); QuadSwap23(m01, m20, m31, m13); QuadSwap12(m01, m20, m13, m31);
    MulQuadRight(m01, m30, m11, m23); QuadSwap12(m01, m30, m11, m23); QuadSwap23(m01, m11, m30, m23);
    MulQuadRight(m01, m10, m21, m33);
    MulQuadRight(m01, m30, m21, m13); QuadSwap12(m01, m30, m21, m13); QuadSwap23(m01, m21, m30, m13); QuadSwap12(m01, m21, m13, m30);
    MulQuadRight(m01, m10, m31, m23); QuadSwap23(m01, m10, m31, m23);
    MulQuadRight(m01, m20, m11, m33); QuadSwap12(m01, m20, m11, m33);
    assert Mul(Sub(Add(Add(Mul(Mul(m20, m31), m13), Mul(Mul(m30, m11), m23)), Mul(Mul(m10, m21), m33)), Add(Add(Mul(Mul(m30, m21), m13), Mul(Mul(m10, m31), m23)), Mul(Mul(m20, m11), m33))), m01) == Sub(Sub(Sub(Add(Add(Quad(m01, m13, m20, m31), Quad(m01, m11, m23, m30)), Quad(m01, m10, m21, m33)), Quad(m01, m13, m21, m30)), Quad(m01, m10, m23, m31)), Quad(m01, m11, m20, m33));
    DistBRight(m11, Mul(Mul(m30, m21), m03), Mul(Mul(m00, m31), m23), Mul(Mul(m20, m01), m33), Mul(Mul(m20, m31), m03), Mul(Mul(m30, m01), m23), Mul(Mul(m00, m21), m33));
    MulQuadRight(m11, m30, m21, m03); QuadSwap12(m11, m30, m21, m03); QuadSwap23(m11, m21, m30, m03); QuadSwap12(m11, m21, m03, m30); QuadSwap01(m11, m03, m21, m30);
    MulQuadRight(m11, m00, m31, m23); QuadSwap01(m11, m00, m31, m23); QuadSwap23(m00, m11, m31, m23);
    MulQuadRight(m11, m20, m01, m33); QuadSwap12(m11, m20, m01, m33); QuadSwap01(m11, m01, m20, m33);
    MulQuadRight(m11, m20, m31, m03); QuadSwap23(m11, m20, m31, m03); QuadSwap12(m11, m20, m03, m31); QuadSwap01(m11, m03, m20, m31);
    MulQuadRight(m11, m30, m01, m23); QuadSwap12(m11, m30, m01, m23); QuadSwap23(m11, m01, m30, m23); QuadSwap01(m11, m01, m23, m30);
    MulQuadRight(m11, m00, m21, m33); QuadSwap01(m11, m00, m21, m33);
    assert Mul(Sub(Add(Add(Mul(Mul(m30, m21), m03), Mul(Mul(m00, m31), m23)), Mul(Mul(m20, m01), m33)), Add(Add(Mul(Mul(m20, m31), m03), Mul(Mul(m30, m01), m23)), Mul(Mul(m00, m21), m33))), m11) == Sub(Sub(Sub(Add(Add(Quad(m03, m11, m21, m30), Quad(m00, m11, m23, m31)), Quad(m01, m11, m20, m33)), Quad(m03, m11, m20, m31)), Quad(m01, m11, m23, m30)), Quad(m00, m11, m21, m33));
    DistBRight(m21, Mul(Mul(m10, m31), m03), Mul(Mul(m30, m01), m13), Mul(Mul(m00, m11), m33), Mul(Mul(m30, m11), m03), Mul(Mul(m00, m31), m13), Mul(Mul(m10, m01), m33));
    MulQuadRight(m21, m10, m31, m03); QuadSwap01(m21, m10, m31, m03); QuadSwap23(m10, m21, m31, m03); QuadSwap12(m10, m21, m03, m31); QuadSwap01(m10, m03, m21, m31);
    MulQuadRight(m21, m30, m01, m13); QuadSwap12(m21, m30, m01, m13); QuadSwap23(m21, m01, m30, m13); QuadSwap01(m21, m01, m13, m30); QuadSwap12(m01, m21, m13, m30);
    MulQuadRight(m21, m00, m11, m33); QuadSwap01(m21, m00, m11, m33); QuadSwap12(m00, m21, m11, m33);
    MulQuadRight(m21, m30, m11, m03); QuadSwap12(m21, m30, m11, m03); QuadSwap23(m21, m11, m30, m03); QuadSwap01(m21, m11, m03, m30); QuadSwap12(m11, m21, m03, m30); QuadSwap01(m11, m03, m21, m30);
    MulQuadRight(m21, m00, m31, m13); QuadSwap01(m21, m00, m31, m13); QuadSwap23(m00, m21, m31, m13); QuadSwap12(m00, m21, m13, m31);
    MulQuadRight(m21, m10, m01, m33); QuadSwap01(m21, m10, m01, m33); QuadSwap12(m10, m21, m01, m33); QuadSwap01(m10, m01, m21, m33);
    assert Mul(Sub(Add(Add(Mul(Mul(m10, m31), m03), Mul(Mul(m30, m01), m13)), Mul(Mul(m00, m11), m33)), Add(Add(Mul(Mul(m30, m11), m03), Mul(Mul(m00, m31), m13)), Mul(Mul(m10, m01), m33))), m21) == Sub(Sub(Sub(Add(Add(Quad(m03, m10, m21, m31), Quad(m01, m13, m21, m30)), Quad(m00, m11, m21, m33)), Quad(m03, m11, m21, m30)), Quad(m00, m13, m21, m31)), Quad(m01, m10, m21, m33));
    DistBRight(m31, Mul(Mul(m20, m11), m03), Mul(Mul(m00, m21), m13), Mul(Mul(m10, m01), m23), Mul(Mul(m10, m21), m03), Mul(Mul(m20, m01), m13), Mul(Mul(m00, m11), m23));
    MulQuadRight(m31, m20, m11, m03); QuadSwap01(m31, m20, m11, m03); QuadSwap12(m20, m31, m11, m03); QuadSwap23(m20, m11, m31, m03); QuadSwap01(m20, m11, m03, m31); QuadSwap12(m11, m20, m03, m31); QuadSwap01(m11, m03, m20, m31);
    MulQuadRight(m31, m00, m21, m13); QuadSwap01(m31, m00, m21, m13); QuadSwap12(m00, m31, m21, m13); QuadSwap23(m00, m21, m31, m13); QuadSwap12(m00, m21, m13, m31);
    MulQuadRight(m31, m10, m01, m23); QuadSwap01(m31, m10, m01, m23); QuadSwap12(m10, m31, m01, m23); QuadSwap23(m10, m01, m31, m23); QuadSwap01(m10, m01, m23, m31);
    MulQuadRight(m31, m10, m21, m03); QuadSwap01(m31, m10, m21, m03); QuadSwap12(m10, m31, m21, m03); QuadSwap23(m10, m21, m31, m03); QuadSwap12(m10, m21, m03, m31); QuadSwap01(m10, m03, m21, m31);
    MulQuadRight(m31, m20, m01, m13); QuadSwap01(m31, m20, m01, m13); QuadSwap12(m20, m31, m01, m13); QuadSwap23(m20, m01, m31, m13); QuadSwap01(m20, m01, m13, m31); QuadSwap12(m01, m20, m13, m31);
    MulQuadRight(m31, m00, m11, m23); QuadSwap01(m31, m00, m11, m23); QuadSwap12(m00, m31, m11, m23); QuadSwap23(m00, m11, m31, m23);
    assert Mul(Sub(Add(Add(Mul(Mul(m20, m11), m03), Mul(Mul(m00, m21), m13)), Mul(Mul(m10, m01), m23)), Add(Add(Mul(Mul(m10, m21), m03), Mul(Mul(m20, m01), m13)), Mul(Mul(m00, m11), m23))), m31) == Sub(Sub(Sub(Add(Add(Quad(m03, m11, m20, m31), Quad(m00, m13, m21, m31)), Quad(m01, m10, m23, m31)), Quad(m03, m10, m21, m31)), Quad(m01, m13, m20, m31)), Quad(m00, m11, m23, m31));
  }

  lemma LeftEntry22(m00: Complex, m01: Complex, m02: Complex, m03: Complex, m10: Complex, m11: Complex, m12: Complex, m13: Complex, m20: Complex, m21: Complex, m22: Complex, m23: Complex, m30: Complex, m31: Complex, m32: Complex, m33: Complex)
    ensures Sum4(Mul(Sub(Add(Add(Mul(Mul(m20, m31), m13), Mul(Mul(m30, m11), m23)), Mul(Mul(m10, m21), m33)), Add(Add(Mul(Mul(m30, m21), m13), Mul(Mul(m10, m31), m23)), Mul(Mul(m20, m11), m33))), m02), Mul(Sub(Add(Add(Mul(Mul(m30, m21), m03), Mul(Mul(m00, m31), m23)), Mul(Mul(m20, m01), m33)), Add(Add(Mul(Mul(m20, m31), m03), Mul(Mul(m30, m01), m23)), Mul(Mul(m00, m21), m33))), m12), Mul(Sub(Add(Add(Mul(Mul(m10, m31), m03), Mul(Mul(m30, m01), m13)), Mul(Mul(m00, m11), m33)), Add(Add(Mul(Mul(m30, m11), m03), Mul(Mul(m00, m31), m13)), Mul(Mul(m10, m01), m33))), m22), Mul(Sub(Add(Add(Mul(Mul(m20, m11), m03), Mul(Mul(m00, m21), m13)), Mul(Mul(m10, m01), m23)), Add(Add(Mul(Mul(m10, m21), m03), Mul(Mul(m20, m01), m13)), Mul(Mul(m00, m11), m23))), m32))
         == DetOf(m00, m01, m02, m03, m10, m11, m12, m13, m20, m21, m22, m23, m30, m31, m32, m33)
  {
    DistALeft(m00, Mul(Mul(m22, m33), m11), Mul(Mul(m32, m13), m21), Mul(Mul(m12, m23), m31), Mul(Mul(m32, m23), m11), Mul(Mul(m12, m33), m21), Mul(Mul(m22, m13), m31));
    MulQuadLeft(m00, m22, m33, m11); QuadSwap23(m00, m22, m33, m11); QuadSwap12(m00, m22, m11, m33);
    MulQuadLeft(m00, m32, m13, m21); QuadSwap12(m00, m32, m13, m21); QuadSwap23(m00, m13, m32, m21);
    MulQuadLeft(m00, m12, m23, m31);
    MulQuadLeft(m00, m32, m23, m11); QuadSwap12(m00, m32, m23, m11); QuadSwap23(m00, m23, m32, m11); QuadSwap12(m00, m23, m11, m32);
    MulQuadLeft(m00, m12, m33, m21); QuadSwap23(m00, m12, m33, m21);
    MulQuadLeft(m00, m22, m13, m31); QuadSwap12(m00, m22, m13, m31);
    DistALeft(m10, Mul(Mul(m32, m23), m01), Mul(Mul(m02, m33), m21), Mul(Mul(m22, m03), m31), Mul(Mul(m22, m33), m01), Mul(Mul(m32, m03), m21), Mul(Mul(m02, m23), m31));
    MulQuadLeft(m10, m32, m23, m01); QuadSwap12(m10, m32, m23, m01); QuadSwap23(m10, m23, m32, m01); QuadSwap12(m10, m23, m01, m32); QuadSwap01(m10, m01, m23, m32);
    MulQuadLeft(m10, m02, m33, m21); QuadSwap01(m10, m02, m33, m21); QuadSwap23(m02, m10, m33, m21);
    MulQuadLeft(m10, m22, m03, m31); QuadSwap12(m10, m22, m03, m31); QuadSwap01(m10, m03, m22, m31);
    MulQuadLeft(m10, m22, m33, m01); QuadSwap23(m10, m22, m33, m01); QuadSwap12(m10, m22, m01, m33); QuadSwap01(m10, m01, m22, m33);
    MulQuadLeft(m10, m32, m03, m21); QuadSwap12(m10, m32, m03, m21); QuadSwap23(m10, m03, m32, m21); QuadSwap01(m10, m03, m21, m32);
    MulQuadLeft(m10, m02, m23, m31); QuadSwap01(m10, m02, m23, m31);
    DistALeft(m20, Mul(Mul(m12, m33), m01), Mul(Mul(m32, m03), m11), Mul(Mul(m02, m13), m31), Mul(Mul(m32, m13), m01), Mul(Mul(m02, m33), m11), Mul(Mul(m12, m03), m31));
    MulQuadLeft(m20, m12, m33, m01); QuadSwap01(m20, m12, m33, m01); QuadSwap23(m12, m20, m33, m01); QuadSwap12(m12, m20, m01, m33); QuadSwap01(m12, m01, m20, m33);
    MulQuadLeft(m20, m32, m03, m11); QuadSwap12(m20, m32, m03, m11); QuadSwap23(m20, m03, m32, m11); QuadSwap01(m20, m03, m11, m32); QuadSwap12(m03, m20, m11, m32);
    MulQuadLeft(m20, m02, m13, m31); QuadSwap01(m20, m02, m13, m31); QuadSwap12(m02, m20, m13, m31);
    MulQuadLeft(m20, m32, m13, m01); QuadSwap12(m20, m32, m13, m01); QuadSwap23(m20, m13, m32, m01); QuadSwap01(m20, m13, m01, m32); QuadSwap12(m13, m20, m01, m32); QuadSwap01(m13, m01, m20, m32);
    MulQuadLeft(m20, m02, m33, m11); QuadSwap01(m20, m02, m33, m11); QuadSwap23(m02, m20, m33, m11); QuadSwap12(m02, m20, m11, m33);
    MulQuadLeft(m20, m12, m03, m31); QuadSwap01(m20, m12, m03, m31); QuadSwap12(m12, m20, m03, m31); QuadSwap01(m12, m03, m20, m31);
    DistALeft(m30, Mul(Mul(m22, m13), m01), Mul(Mul(m02, m23), m11), Mul(Mul(m12, m03), m21), Mul(Mul(m12, m23), m01), Mul(Mul(m22, m03), m11), Mul(Mul(m02, m13), m21));
    MulQuadLeft(m30, m22, m13, m01); QuadSwap01(m30, m22, m13, m01); QuadSwap12(m22, m30, m13, m01); QuadSwap23(m22, m13, m30, m01); QuadSwap01(m22, m13, m01, m30); QuadSwap12(m13, m22, m01, m30); QuadSwap01(m13, m01, m22, m30);
    MulQuadLeft(m30, m02, m23, m11); QuadSwap01(m30, m02, m23, m11); QuadSwap12(m02, m30, m23, m11); QuadSwap23(m02, m23, m30, m11); QuadSwap12(m02, m23, m11, m30);
    MulQuadLeft(m30, m12, m03, m21); QuadSwap01(m30, m12, m03, m21); QuadSwap12(m12, m30, m03, m21); QuadSwap23(m12, m03, m30, m21); QuadSwap01(m12, m03, m21, m30);
    MulQuadLeft(m30, m12, m23, m01); QuadSwap01(m30, m12, m23, m01); QuadSwap12(m12, m30, m23, m01); QuadSwap23(m12, m23, m30, m01); QuadSwap12(m12, m23, m01, m30); QuadSwap01(m12, m01, m23, m30);
    MulQuadLeft(m30, m22, m03, m11); QuadSwap01(m30, m22, m03, m11); QuadSwap12(m22, m30, m03, m11); QuadSwap23(m22, m03, m30, m11); QuadSwap01(m22, m03, m11, m30); QuadSwap12(m03, m22, m11, m30);
    MulQuadLeft(m30, m02, m13, m21); QuadSwap01(m30, m02, m13, m21); QuadSwap12(m02, m30, m13, m21); QuadSwap23(m02, m13, m30, m21);
    DistBRight(m02, Mul(Mul(m20, m31), m13), Mul(Mul(m30, m11), m23), Mul(Mul(m10, m21), m33), Mul(Mul(m30, m21), m13), Mul(Mul(m10, m31), m23), Mul(Mul(m20, m11), m33));
    MulQuadRight(m02, m20, m31, m13); QuadSwap23(m02, m20, m31, m13); QuadSwap12(m02, m20, m13, m31);
    MulQuadRight(m02, m30, m11, m23); QuadSwap12(m02, m30, m11, m23); QuadSwap23(m02, m11, m30, m23);
    MulQuadRight(m02, m10, m21, m33);
    MulQuadRight(m02, m30, m21, m13); QuadSwap12(m02, m30, m21, m13); QuadSwap23(m02, m21, m30, m13); QuadSwap12(m02, m21, m13, m30);
    MulQuadRight(m02, m10, m31, m23); QuadSwap23(m02, m10, m31, m23);
    MulQuadRight(m02, m20, m11, m33); QuadSwap12(m02, m20, m11, m33);
    assert Mul(Sub(Add(Add(Mul(Mul(m20, m31), m13), Mul(Mul(m30, m11), m23)), Mul(Mul(m10, m21), m33)), Add(Add(Mul(Mul(m30, m21), m13), Mul(Mul(m10, m31), m23)), Mul(Mul(m20, m11), m33))), m02) == Sub(Sub(Sub(Add(Add(Quad(m02, m13, m20, m31), Quad(m02, m11, m23, m30)), Quad(m02, m10, m21, m33)), Quad(m02, m13, m21, m30)), Quad(m02, m10, m23, m31)), Quad(m02, m11, m20, m33));
    DistBRight(m12, Mul(Mul(m30, m21), m03), Mul(Mul(m00, m31), m23), Mul(Mul(m20, m01), m33), Mul(Mul(m20, m31), m03), Mul(Mul(m30, m01), m23), Mul(Mul(m00, m21), m33));
    MulQuadRight(m12, m30, m21, m03); QuadSwap12(m12, m30, m21, m03); QuadSwap23(m12, m21, m30, m03); QuadSwap12(m12, m21, m03, m30); QuadSwap01(m12, m03, m21, m30);
    MulQuadRight(m12, m00, m31, m23); QuadSwap01(m12, m00, m31, m23); QuadSwap23(m00, m12, m31, m23);
    MulQuadRight(m12, m20, m01, m33); QuadSwap12(m12, m20, m01, m33); QuadSwap01(m12, m01, m20, m33);
    MulQuadRight(m12, m20, m31, m03); QuadSwap23(m12, m20, m31, m03); QuadSwap12(m12, m20, m03, m31); QuadSwap01(m12, m03, m20, m31);
    MulQuadRight(m12, m30, m01, m23); QuadSwap12(m12, m30, m01, m23); QuadSwap23(m12, m01, m30, m23); QuadSwap01(m12, m01, m23, m30);
    MulQuadRight(m12, m00, m21, m33); QuadSwap01(m12, m00, m21, m33);
    assert Mul(Sub(Add(Add(Mul(Mul(m30, m21), m03), Mul(Mul(m00, m31), m23)), Mul(Mul(m20, m01), m33)), Add(Add(Mul(Mul(m20, m31), m03), Mul(Mul(m30, m01), m23)), Mul(Mul(m00, m21), m33))), m12) == Sub(Sub(Sub(Add(Add(Quad(m03, m12, m21, m30), Quad(m00, m12, m23, m31)), Quad(m01, m12, m20, m33)), Quad(m03, m12, m20, m31)), Quad(m01, m12, m23, m30)), Quad(m00, m12, m21, m33));
    DistBRight(m22, Mul(Mul(m10, m31), m03), Mul(Mul(m30, m01), m13), Mul(Mul(m00, m11), m33), Mul(Mul(m30, m11), m03), Mul(Mul(m00, m31), m13), Mul(Mul(m10, m01), m33));
    MulQuadRight(m22, m10, m31, m03); QuadSwap01(m22, m10, m31, m03); QuadSwap23(m10, m22, m31, m03); QuadSwap12(m10, m22, m03, m31); QuadSwap01(m10, m03, m22, m31);
    MulQuadRight(m22, m30, m01, m13); QuadSwap12(m22, m30, m01, m13); QuadSwap23(m22, m01, m30, m13); QuadSwap01(m22, m01, m13, m30); QuadSwap12(m01, m22, m13, m30);
    MulQuadRight(m22, m00, m11, m33); QuadSwap01(m22, m00, m11, m33); QuadSwap12(m00, m22, m11, m33);
    MulQuadRight(m22, m30, m11, m03); QuadSwap12(m22, m30, m11, m03); QuadSwap23(m22, m11, m30, m03); QuadSwap01(m22, m11, m03, m30); QuadSwap12(m11, m22, m03, m30); QuadSwap01(m11, m03, m22, m30);
    MulQuadRight(m22, m00, m31, m13); QuadSwap01(m22, m00, m31, m13); QuadSwap23(m00, m22, m31, m13); QuadSwap12(m00, m22, m13, m31);
    MulQuadRight(m22, m10, m01, m33); QuadSwap01(m22, m10, m01, m33); QuadSwap12(m10, m22, m01, m33); QuadSwap01(m10, m01, m22, m33);
    assert Mul(Sub(Add(Add(Mul(Mul(m10, m31), m03), Mul(Mul(m30, m01), m13)), Mul(Mul(m00, m11), m33)), Add(Add(Mul(Mul(m30, m11), m03), Mul(Mul(m00, m31), m13)), Mul(Mul(m10, m01), m33))), m22) == Sub(Sub(Sub(Add(Add(Quad(m03, m10, m22, m31), Quad(m01, m13, m22, m30)), Quad(m00, m11, m22, m33)), Quad(m03, m11, m22, m30)), Quad(m00, m13, m22, m31)), Quad(m01, m10, m22, m33));
    DistBRight(m32, Mul(Mul(m20, m11), m03), Mul(Mul(m00, m21), m13), Mul(Mul(m10, m01), m23), Mul(Mul(m10, m21), m03), Mul(Mul(m20, m01), m13), Mul(Mul(m00, m11), m23));
    MulQuadRight(m32, m20, m11, m03); QuadSwap01(m32, m20, m11, m03); QuadSwap12(m20, m32, m11, m03); QuadSwap23(m20, m11, m32, m03); QuadSwap01(m20, m11, m03, m32); QuadSwap12(m11, m20, m03, m32); QuadSwap01(m11, m03, m20, m32);
    MulQuadRight(m32, m00, m21, m13); QuadSwap01(m32, m00, m21, m13); QuadSwap12(m00, m32, m21, m13); QuadSwap23(m00, m21, m32, m13); QuadSwap12(m00, m21, m13, m32);
    MulQuadRight(m32, m10, m01, m23); QuadSwap01(m32, m10, m01, m23); QuadSwap12(m10, m32, m01, m23); QuadSwap23(m10, m01, m32, m23); QuadSwap01(m10, m01, m23, m32);
    MulQuadRight(m32, m10, m21, m03); QuadSwap01(m32, m10, m21, m03); QuadSwap12(m10, m32, m21, m03); QuadSwap23(m10, m21, m32, m03); QuadSwap12(m10, m21, m03, m32); QuadSwap01(m10, m03, m21, m32);
    MulQuadRight(m32, m20, m01, m13); QuadSwap01(m32, m20, m01, m13); QuadSwap12(m20, m32, m01, m13); QuadSwap23(m20, m01, m32, m13); QuadSwap01(m20, m01, m13, m32); QuadSwap12(m01, m20, m13, m32);
    MulQuadRight(m32, m00, m11, m23); QuadSwap01(m32, m00, m11, m23); QuadSwap12(m00, m32, m11, m23); QuadSwap23(m00, m11, m32, m23);
    assert Mul(Sub(Add(Add(Mul(Mul(m20, m11), m03), Mul(Mul(m00, m21), m13)), Mul(Mul(m10, m01), m23)), Add(Add(Mul(Mul(m10, m21), m03), Mul(Mul(m20, m01), m13)), Mul(Mul(m00, m11), m23))), m32) == Sub(Sub(Sub(Add(Add(Quad(m03, m11, m20, m32), Quad(m00, m13, m21, m32)), Quad(m01, m10, m23, m32)), Quad(m03, m10, m21, m32)), Quad(m01, m13, m20, m32)), Quad(m00, m11, m23, m32));
  }

  lemma LeftEntry23(m00: Complex, m01: Complex, m02: Complex, m03: Complex, m10: Complex, m11: Complex, m12: Complex, m13: Complex, m20: Complex, m21: Complex, m22: Complex, m23: Complex, m30: Complex, m31: Complex, m32: Complex, m33: Complex)
    ensures Sum4(Mul(Sub(Add(Add(Mul(Mul(m20, m31), m13), Mul(Mul(m30, m11), m23)), Mul(Mul(m10, m21), m33)), Add(Add(Mul(Mul(m30, m21), m13), Mul(Mul(m10, m31), m23)), Mul(Mul(m20, m11), m33))), m03), Mul(Sub(Add(Add(Mul(Mul(m30, m21), m03), Mul(Mul(m00, m31), m23)), Mul(Mul(m20, m01), m33)), Add(Add(Mul(Mul(m20, m31), m03), Mul(Mul(m30, m01), m23)), Mul(Mul(m00, m21), m33))), m13), Mul(Sub(Add(Add(Mul(Mul(m10, m31), m03), Mul(Mul(m30, m01), m13)), Mul(Mul(m00, m11), m33)), Add(Add(Mul(Mul(m30, m11), m03), Mul(Mul(m00, m31), m13)), Mul(Mul(m10, m01), m33))), m23), Mul(Sub(Add(Add(Mul(Mul(m20, m11), m03), Mul(Mul(m00, m21), m13)), Mul(Mul(m10, m01), m23)), Add(Add(Mul(Mul(m10, m21), m03), Mul(Mul(m20, m01), m13)), Mul(Mul(m00, m11), m23))), m33))
         == Zero
  {
    DistALeft(m00, Mul(Mul(m22, m33), m11), Mul(Mul(m32, m13), m21), Mul(Mul(m12, m23), m31), Mul(Mul(m32, m23), m11), Mul(Mul(m12, m33), m21), Mul(Mul(m22, m13), m31));
    MulQuadLeft(m00, m22, m33, m11); QuadSwap23(m00, m22, m33, m11); QuadSwap12(m00, m22, m11, m33);
    MulQuadLeft(m00, m32, m13, m21); QuadSwap12(m00, m32, m13, m21); QuadSwap23(m00, m13, m32, m21);
    MulQuadLeft(m00, m12, m23, m31);
    MulQuadLeft(m00, m32, m23, m11); QuadSwap12(m00, m32, m23, m11); QuadSwap23(m00, m23, m32, m11); QuadSwap12(m00, m23, m11, m32);
    MulQuadLeft(m00, m12, m33, m21); QuadSwap23(m00, m12, m33, m21);
    MulQuadLeft(m00, m22, m13, m31); QuadSwap12(m00, m22, m13, m31);
    DistALeft(m10, Mul(Mul(m32, m23), m01), Mul(Mul(m02, m33), m21), Mul(Mul(m22, m03), m31), Mul(Mul(m22, m33), m01), Mul(Mul(m32, m03), m21), Mul(Mul(m02, m23), m31));
    MulQuadLeft(m10, m32, m23, m01); QuadSwap12(m10, m32, m23, m01); QuadSwap23(m10, m23, m32, m01); QuadSwap12(m10, m23, m01, m32); QuadSwap01(m10, m01, m23, m32);
    MulQuadLeft(m10, m02, m33, m21); QuadSwap01(m10, m02, m33, m21); QuadSwap23(m02, m10, m33, m21);
    MulQuadLeft(m10, m22, m03, m31); QuadSwap12(m10, m22, m03, m31); QuadSwap01(m10, m03, m22, m31);
    MulQuadLeft(m10, m22, m33, m01); QuadSwap23(m10, m22, m33, m01); QuadSwap12(m10, m22, m01, m33); QuadSwap01(m10, m01, m22, m33);
    MulQuadLeft(m10, m32, m03, m21); QuadSwap12(m10, m32, m03, m21); QuadSwap23(m10, m03, m32, m21); QuadSwap01(m10, m03, m21, m32);
    MulQuadLeft(m10, m02, m23, m31); QuadSwap01(m10, m02, m23, m31);
    DistALeft(m20, Mul(Mul(m12, m33), m01), Mul(Mul(m32, m03), m11), Mul(Mul(m02, m13), m31), Mul(Mul(m32, m13), m01), Mul(Mul(m02, m33), m11), Mul(Mul(m12, m03), m31));
    MulQuadLeft(m20, m12, m33, m01); QuadSwap01(m20, m12, m33, m01); QuadSwap23(m12, m20, m33, m01); QuadSwap12(m12, m20, m01, m33); QuadSwap01(m12, m01, m20, m33);
    MulQuadLeft(m20, m32, m03, m11); QuadSwap12(m20, m32, m03, m11); QuadSwap23(m20, m03, m32, m11); QuadSwap01(m20, m03, m11, m32); QuadSwap12(m03, m20, m11, m32);
    MulQuadLeft(m20, m02, m13, m31); QuadSwap01(m20, m02, m13, m31); QuadSwap12(m02, m20, m13, m31);
    MulQuadLeft(m20, m32, m13, m01); QuadSwap12(m20, m32, m13, m01); QuadSwap23(m20, m13, m32, m01); QuadSwap01(m20, m13, m01, m32); QuadSwap12(m13, m20, m01, m32); QuadSwap01(m13, m01, m20, m32);
    MulQuadLeft(m20, m02, m33, m11); QuadSwap01(m20, m02, m33, m11); QuadSwap23(m02, m20, m33, m11); QuadSwap12(m02, m20, m11, m33);
    MulQuadLeft(m20, m12, m03, m31); QuadSwap01(m20, m12, m03, m31); QuadSwap12(m12, m20, m03, m31); QuadSwap01(m12, m03, m20, m31);
    DistALeft(m30, Mul(Mul(m22, m13), m01), Mul(Mul(m02, m23), m11), Mul(Mul(m12, m03), m21), Mul(Mul(m12, m23), m01), Mul(Mul(m22, m03), m11), Mul(Mul(m02, m13), m21));
    MulQuadLeft(m30, m22, m13, m01); QuadSwap01(m30, m22, m13, m01); QuadSwap12(m22, m30, m13, m01); QuadSwap23(m22, m13, m30, m01); QuadSwap01(m22, m13, m01, m30); QuadSwap12(m13, m22, m01, m30); QuadSwap01(m13, m01, m22, m30);
    MulQuadLeft(m30, m02, m23, m11); QuadSwap01(m30, m02, m23, m11); QuadSwap12(m02, m30, m23, m11); QuadSwap23(m02, m23, m30, m11); QuadSwap12(m02, m23, m11, m30);
    MulQuadLeft(m30, m12, m03, m21); QuadSwap01(m30, m12, m03, m21); QuadSwap12(m12, m30, m03, m21); QuadSwap23(m12, m03, m30, m21); QuadSwap01(m12, m03, m21, m30);
    MulQuadLeft(m30, m12, m23, m01); QuadSwap01(m30, m12, m23, m01); QuadSwap12(m12, m30, m23, m01); QuadSwap23(m12, m23, m30, m01); QuadSwap12(m12, m23, m01, m30); QuadSwap01(m12, m01, m23, m30);
    MulQuadLeft(m30, m22, m03, m11); QuadSwap01(m30, m22, m03, m11); QuadSwap12(m22, m30, m03, m11); QuadSwap23(m22, m03, m30, m11); QuadSwap01(m22, m03, m11, m30); QuadSwap12(m03, m22, m11, m30);
    MulQuadLeft(m30, m02, m13, m21); QuadSwap01(m30, m02, m13, m21); QuadSwap12(m02, m30, m13, m21); QuadSwap23(m02, m13, m30, m21);
    DistBRight(m03, Mul(Mul(m20, m31), m13), Mul(Mul(m30, m11), m23), Mul(Mul(m10, m21), m33), Mul(Mul(m30, m21), m13), Mul(Mul(m10, m31), m23), Mul(Mul(m20, m11), m33));
    MulQuadRight(m03, m20, m31, m13); QuadSwap23(m03, m20, m31, m13); QuadSwap12(m03, m20, m13, m31);
    MulQuadRight(m03, m30, m11, m23); QuadSwap12(m03, m30, m11, m23); QuadSwap23(m03, m11, m30, m23);
    MulQuadRight(m03, m10, m21, m33);
    MulQuadRight(m03, m30, m21, m13); QuadSwap12(m03, m30, m21, m13); QuadSwap23(m03, m21, m30, m13); QuadSwap12(m03, m21, m13, m30);
    MulQuadRight(m03, m10, m31, m23); QuadSwap23(m03, m10, m31, m23);
    MulQuadRight(m03, m20, m11, m33); QuadSwap12(m03, m20, m11, m33);
    assert Mul(Sub(Add(Add(Mul(Mul(m20, m31), m13), Mul(Mul(m30, m11), m23)), Mul(Mul(m10, m21), m33)), Add(Add(Mul(Mul(m30, m21), m13), Mul(Mul(m10, m31), m23)), Mul(Mul(m20, m11), m33))), m03) == Sub(Sub(Sub(Add(Add(Quad(m03, m13, m20, m31), Quad(m03, m11, m23, m30)), Quad(m03, m10, m21, m33)), Quad(m03, m13, m21, m30)), Quad(m03, m10, m23, m31)), Quad(m03, m11, m20, m33));
    DistBRight(m13, Mul(Mul(m30, m21), m03), Mul(Mul(m00, m31), m23), Mul(Mul(m20, m01), m33), Mul(Mul(m20, m31), m03), Mul(Mul(m30, m01), m23), Mul(Mul(m00, m21), m33));
    MulQuadRight(m13, m30, m21, m03); QuadSwap12(m13, m30, m21, m03); QuadSwap23(m13, m21, m30, m03); QuadSwap12(m13, m21, m03, m30); QuadSwap01(m13, m03, m21, m30);
    MulQuadRight(m13, m00, m31, m23); QuadSwap01(m13, m00, m31, m23); QuadSwap23(m00, m13, m31, m23);
    MulQuadRight(m13, m20, m01, m33); QuadSwap12(m13, m20, m01, m33); QuadSwap01(m13, m01, m20, m33);
    MulQuadRight(m13, m20, m31, m03); QuadSwap23(m13, m20, m31, m03); QuadSwap12(m13, m20, m03, m31); QuadSwap01(m13, m03, m20, m31);
    MulQuadRight(m13, m30, m01, m23); QuadSwap12(m13, m30, m01, m23); QuadSwap23(m13, m01, m30, m23); QuadSwap01(m13, m01, m23, m30);
    MulQuadRight(m13, m00, m21, m33); QuadSwap01(m13, m00, m21, m33);
    assert Mul(Sub(Add(Add(Mul(Mul(m30, m21), m03), Mul(Mul(m00, m31), m23)), Mul(Mul(m20, m01), m33)), Add(Add(Mul(Mul(m20, m31), m03), Mul(Mul(m30, m01), m23)), Mul(Mul(m00, m21), m33))), m13) == Sub(Sub(Sub(Add(Add(Quad(m03, m13, m21, m30), Quad(m00, m13, m23, m31)), Quad(m01, m13, m20, m33)), Quad(m03, m13, m20, m31)), Quad(m01, m13, m23, m30)), Quad(m00, m13, m21, m33));
    DistBRight(m23, Mul(Mul(m10, m31), m03), Mul(Mul(m30, m01), m13), Mul(Mul(m00, m11), m33), Mul(Mul(m30, m11), m03), Mul(Mul(m00, m31), m13), Mul(Mul(m10, m01), m33));
    MulQuadRight(m23, m10, m31, m03); QuadSwap01(m23, m10, m31, m03); QuadSwap23(m10, m23, m31, m03); QuadSwap12(m10, m23, m03, m31); QuadSwap01(m10, m03, m23, m31);
    MulQuadRight(m23, m30, m01, m13); QuadSwap12(m23, m30, m01, m13); QuadSwap23(m23, m01, m30, m13); QuadSwap01(m23, m01, m13, m30); QuadSwap12(m01, m23, m13, m30);
    MulQuadRight(m23, m00, m11, m33); QuadSwap01(m23, m00, m11, m33); QuadSwap12(m00, m23, m11, m33);
    MulQuadRight(m23, m30, m11, m03); QuadSwap12(m23, m30, m11, m03); QuadSwap23(m23, m11, m30, m03); QuadSwap01(m23, m11, m03, m30); QuadSwap12(m11, m23, m03, m30); QuadSwap01(m11, m03, m23, m30);
    MulQuadRight(m23, m00, m31, m13); QuadSwap01(m23, m00, m31, m13); QuadSwap23(m00, m23, m31, m13); QuadSwap12(m00, m23, m13, m31);
    MulQuadRight(m23, m10, m01, m33); QuadSwap01(m23, m10, m01, m33); QuadSwap12(m10, m23, m01, m33); QuadSwap01(m10, m01, m23, m33);
    assert Mul(Sub(Add(Add(Mul(Mul(m10, m31), m03), Mul(Mul(m30, m01), m13)), Mul(Mul(m00, m11), m33)), Add(Add(Mul(Mul(m30, m11), m03), Mul(Mul(m00, m31), m13)), Mul(Mul(m10, m01), m33))), m23) == Sub(Sub(Sub(Add(Add(Quad(m03, m10, m23, m31), Quad(m01, m13, m23, m30)), Quad(m00, m11, m23, m33)), Quad(m03, m11, m23, m30)), Quad(m00, m13, m23, m31)), Quad(m01, m10, m23, m33));
    DistBRight(m33, Mul(Mul(m20, m11), m03), Mul(Mul(m00, m21), m13), Mul(Mul(m10, m01), m23), Mul(Mul(m10, m21), m03), Mul(Mul(m20, m01), m13), Mul(Mul(m00, m11), m23));
    MulQuadRight(m33, m20, m11, m03); QuadSwap01(m33, m20, m11, m03); QuadSwap12(m20, m33, m11, m03); QuadSwap23(m20, m11, m33, m03); QuadSwap01(m20, m11, m03, m33); QuadSwap12(m11, m20, m03, m33); QuadSwap01(m11, m03, m20, m33);
    MulQuadRight(m33, m00, m21, m13); QuadSwap01(m33, m00, m21, m13); QuadSwap12(m00, m33, m21, m13); QuadSwap23(m00, m21, m33, m13); QuadSwap12(m00, m21, m13, m33);
    MulQuadRight(m33, m10, m01, m23); QuadSwap01(m33, m10, m01, m23); QuadSwap12(m10, m33, m01, m23); QuadSwap23(m10, m01, m33, m23); QuadSwap01(m10, m01, m23, m33);
    MulQuadRight(m33, m10, m21, m03); QuadSwap01(m33, m10, m21, m03); QuadSwap12(m10, m33, m21, m03); QuadSwap23(m10, m21, m33, m03); QuadSwap12(m10, m21, m03, m33); QuadSwap01(m10, m03, m21, m33);
    MulQuadRight(m33, m20, m01, m13); QuadSwap01(m33, m20, m01, m13); QuadSwap12(m20, m33, m01, m13); QuadSwap23(m20, m01, m33, m13); QuadSwap01(m20, m01, m13, m33); QuadSwap12(m01, m20, m13, m33);
    MulQuadRight(m33, m00, m11, m23); QuadSwap01(m33, m00, m11, m23); QuadSwap12(m00, m33, m11, m23); QuadSwap23(m00, m11, m33, m23);
    assert Mul(Sub(Add(Add(Mul(Mul(m20, m11), m03), Mul(Mul(m00, m21), m13)), Mul(Mul(m10, m01), m23)), Add(Add(Mul(Mul(m10, m21), m03), Mul(Mul(m20, m01), m13)), Mul(Mul(m00, m11), m23))), m33) == Sub(Sub(Sub(Add(Add(Quad(m03, m11, m20, m33), Quad(m00, m13, m21, m33)), Quad(m01, m10, m23, m33)), Quad(m03, m10, m21, m33)), Quad(m01, m13, m20, m33)), Quad(m00, m11, m23, m33));
  }

  lemma LeftEntry30(m00: Complex, m01: Complex, m02: Complex, m03: Complex, m10: Complex, m11: Complex, m12: Complex, m13: Complex, m20: Complex, m21: Complex, m22: Complex, m23: Complex, m30: Complex, m31: Complex, m32: Complex, m33: Complex)
    ensures Sum4(Mul(Sub(Add(Add(Mul(Mul(m10, m31), m22), Mul(Mul(m20, m11), m32)), Mul(Mul(m30, m21), m12)), Add(Add(Mul(Mul(m10, m21), m32), Mul(Mul(m20, m31), m12)), Mul(Mul(m30, m11), m22))), m00), Mul(Sub(Add(Add(Mul(Mul(m00, m21), m32), Mul(Mul(m20, m31), m02)), Mul(Mul(m30, m01), m22)), Add(Add(Mul(Mul(m00, m31), m22), Mul(Mul(m20, m01), m32)), Mul(Mul(m30, m21), m02))), m10), Mul(Sub(Add(Add(Mul(Mul(m00, m31), m12), Mul(Mul(m10, m01), m32)), Mul(Mul(m30, m11), m02)), Add(Add(Mul(Mul(m00, m11), m32), Mul(Mul(m10, m31), m02)), Mul(Mul(m30, m01), m12))), m20), Mul(Sub(Add(Add(Mul(Mul(m00, m11), m22), Mul(Mul(m10, m21), m02)), Mul(Mul(m20, m01), m12)), Add(Add(Mul(Mul(m00, m21), m12), Mul(Mul(m10, m01), m22)), Mul(Mul(m20, m11), m02))), m30))
         == Zero
  {
    DistALeft(m00, Mul(Mul(m22, m33), m11), Mul(Mul(m32, m13), m21), Mul(Mul(m12, m23), m31), Mul(Mul(m32, m23), m11), Mul(Mul(m12, m33), m21), Mul(Mul(m22, m13), m31));
    MulQuadLeft(m00, m22, m33, m11); QuadSwap23(m00, m22, m33, m11); QuadSwap12(m00, m22, m11, m33);
    MulQuadLeft(m00, m32, m13, m21); QuadSwap12(m00, m32, m13, m21); QuadSwap23(m00, m13, m32, m21);
    MulQuadLeft(m00, m12, m23, m31);
    MulQuadLeft(m00, m32, m23, m11); QuadSwap12(m00, m32, m23, m11); QuadSwap23(m00, m23, m32, m11); QuadSwap12(m00, m23, m11, m32);
    MulQuadLeft(m00, m12, m33, m21); QuadSwap23(m00, m12, m33, m21);
    MulQuadLeft(m00, m22, m13, m31); QuadSwap12(m00, m22, m13, m31);
    DistALeft(m10, Mul(Mul(m32, m23), m01), Mul(Mul(m02, m33), m21), Mul(Mul(m22, m03), m31), Mul(Mul(m22, m33), m01), Mul(Mul(m32, m03), m21), Mul(Mul(m02, m23), m31));
    MulQuadLeft(m10, m32, m23, m01); QuadSwap12(m10, m32, m23, m01); QuadSwap23(m10, m23, m32, m01); QuadSwap12(m10, m23, m01, m32); QuadSwap01(m10, m01, m23, m32);
    MulQuadLeft(m10, m02, m33, m21); QuadSwap01(m10, m02, m33, m21); QuadSwap23(m02, m10, m33, m21);
    MulQuadLeft(m10, m22, m03, m31); QuadSwap12(m10, m22, m03, m31); QuadSwap01(m10, m03, m22, m31);
    MulQuadLeft(m10, m22, m33, m01); QuadSwap23(m10, m22, m33, m01); QuadSwap12(m10, m22, m01, m33); QuadSwap01(m10, m01, m22, m33);
    MulQuadLeft(m10, m32, m03, m21); QuadSwap12(m10, m32, m03, m21); QuadSwap23(m10, m03, m32, m21); QuadSwap01(m10, m03, m21, m32);
    MulQuadLeft(m10, m02, m23, m31); QuadSwap01(m10, m02, m23, m31);
    DistALeft(m20, Mul(Mul(m12, m33), m01), Mul(Mul(m32, m03), m11), Mul(Mul(m02, m13), m31), Mul(Mul(m32, m13), m01), Mul(Mul(m02, m33), m11), Mul(Mul(m12, m03), m31));
    MulQuadLeft(m20, m12, m33, m01); QuadSwap01(m20, m12, m33, m01); QuadSwap23(m12, m20, m33, m01); QuadSwap12(m12, m20, m01, m33); QuadSwap01(m12, m01, m20, m33);
    MulQuadLeft(m20, m32, m03, m11); QuadSwap12(m20, m32, m03, m11); QuadSwap23(m20, m03, m32, m11); QuadSwap01(m20, m03, m11, m32); QuadSwap12(m03, m20, m11, m32);
    MulQuadLeft(m20, m02, m13, m31); QuadSwap01(m20, m02, m13, m31); QuadSwap12(m02, m20, m13, m31);
    MulQuadLeft(m20, m32, m13, m01); QuadSwap12(m20, m32, m13, m01); QuadSwap23(m20, m13, m32, m01); QuadSwap01(m20, m13, m01, m32); QuadSwap12(m13, m20, m01, m32); QuadSwap01(m13, m01, m20, m32);
    MulQuadLeft(m20, m02, m33, m11); QuadSwap01(m20, m02, m33, m11); QuadSwap23(m02, m20, m33, m11); QuadSwap12(m02, m20, m11, m33);
    MulQuadLeft(m20, m12, m03, m31); QuadSwap01(m20, m12, m03, m31); QuadSwap12(m12, m20, m03, m31); QuadSwap01(m12, m03, m20, m31);
    DistALeft(m30, Mul(Mul(m22, m13), m01), Mul(Mul(m02, m23), m11), Mul(Mul(m12, m03), m21), Mul(Mul(m12, m23), m01), Mul(Mul(m22, m03), m11), Mul(Mul(m02, m13), m21));
    MulQuadLeft(m30, m22, m13, m01); QuadSwap01(m30, m22, m13, m01); QuadSwap12(m22, m30, m13, m01); QuadSwap23(m22, m13, m30, m01); QuadSwap01(m22, m13, m01, m30); QuadSwap12(m13, m22, m01, m30); QuadSwap01(m13, m01, m22, m30);
    MulQuadLeft(m30, m02, m23, m11); QuadSwap01(m30, m02, m23, m11); QuadSwap12(m02, m30, m23, m11); QuadSwap23(m02, m23, m30, m11); QuadSwap12(m02, m23, m11, m30);
    MulQuadLeft(m30, m12, m03, m21); QuadSwap01(m30, m12, m03, m21); QuadSwap12(m12, m30, m03, m21); QuadSwap23(m12, m03, m30, m21); QuadSwap01(m12, m03, m21, m30);
    MulQuadLeft(m30, m12, m23, m01); QuadSwap01(m30, m12, m23, m01); QuadSwap12(m12, m30, m23, m01); QuadSwap23(m12, m23, m30, m01); QuadSwap12(m12, m23, m01, m30); QuadSwap01(m12, m01, m23, m30);
    MulQuadLeft(m30, m22, m03, m11); QuadSwap01(m30, m22, m03, m11); QuadSwap12(m22, m30, m03, m11); QuadSwap23(m22, m03, m30, m11); QuadSwap01(m22, m03, m11, m30); QuadSwap12(m03, m22, m11, m30);
    MulQuadLeft(m30, m02, m13, m21); QuadSwap01(m30, m02, m13, m21); QuadSwap12(m02, m30, m13, m21); QuadSwap23(m02, m13, m30, m21);
    DistBRight(m00, Mul(Mul(m10, m31), m22), Mul(Mul(m20, m11), m32), Mul(Mul(m30, m21), m12), Mul(Mul(m10, m21), m32), Mul(Mul(m20, m31), m12), Mul(Mul(m30, m11), m22));
    MulQuadRight(m00, m10, m31, m22); QuadSwap23(m00, m10, m31, m22);
    MulQuadRight(m00, m20, m11, m32); QuadSwap12(m00, m20, m11, m32);
    MulQuadRight(m00, m30, m21, m12); QuadSwap12(m00, m30, m21, m12); QuadSwap23(m00, m21, m30, m12); QuadSwap12(m00, m21, m12, m30);
    MulQuadRight(m00, m10, m21, m32);
    MulQuadRight(m00, m20, m31, m12); QuadSwap23(m00, m20, m31, m12); QuadSwap12(m00, m20, m12, m31);
    MulQuadRight(m00, m30, m11, m22); QuadSwap12(m00, m30, m11, m22); QuadSwap23(m00, m11, m30, m22);
    assert Mul(Sub(Add(Add(Mul(Mul(m10, m31), m22), Mul(Mul(m20, m11), m32)), Mul(Mul(m30, m21), m12)), Add(Add(Mul(Mul(m10, m21), m32), Mul(Mul(m20, m31), m12)), Mul(Mul(m30, m11), m22))), m00) == Sub(Sub(Sub(Add(Add(Quad(m00, m10, m22, m31), Quad(m00, m11, m20, m32)), Quad(m00, m12, m21, m30)), Quad(m00, m10, m21, m32)), Quad(m00, m12, m20, m31)), Quad(m00, m11, m22, m30));
    DistBRight(m10, Mul(Mul(m00, m21), m32), Mul(Mul(m20, m31), m02), Mul(Mul(m30, m01), m22), Mul(Mul(m00, m31), m22), Mul(Mul(m20, m01), m32), Mul(Mul(m30, m21), m02));
    MulQuadRight(m10, m00, m21, m32); QuadSwap01(m10, m00, m21, m32);
    MulQuadRight(m10, m20, m31, m02); QuadSwap23(m10, m20, m31, m02); QuadSwap12(m10, m20, m02, m31); QuadSwap01(m10, m02, m20, m31);
    MulQuadRight(m10, m30, m01, m22); QuadSwap12(m10, m30, m01, m22); QuadSwap23(m10, m01, m30, m22); QuadSwap01(m10, m01, m22, m30);
    MulQuadRight(m10, m00, m31, m22); QuadSwap01(m10, m00, m31, m22); QuadSwap23(m00, m10, m31, m22);
    MulQuadRight(m10, m20, m01, m32); QuadSwap12(m10, m20, m01, m32); QuadSwap01(m10, m01, m20, m32);
    MulQuadRight(m10, m30, m21, m02); QuadSwap12(m10, m30, m21, m02); QuadSwap23(m10, m21, m30, m02); QuadSwap12(m10, m21, m02, m30); QuadSwap01(m10, m02, m21, m30);
    assert Mul(Sub(Add(Add(Mul(Mul(m00, m21), m32), Mul(Mul(m20, m31), m02)), Mul(Mul(m30, m01), m22)), Add(Add(Mul(Mul(m00, m31), m22), Mul(Mul(m20, m01), m32)), Mul(Mul(m30, m21), m02))), m10) == Sub(Sub(Sub(Add(Add(Quad(m00, m10, m21, m32), Quad(m02, m10, m20, m31)), Quad(m01, m10, m22, m30)), Quad(m00, m10, m22, m31)), Quad(m01, m10, m20, m32)), Quad(m02, m10, m21, m30));
    DistBRight(m20, Mul(Mul(m00, m31), m12), Mul(Mul(m10, m01), m32), Mul(Mul(m30, m11), m02), Mul(Mul(m00, m11), m32), Mul(Mul(m10, m31), m02), Mul(Mul(m30, m01), m12));
    MulQuadRight(m20, m00, m31, m12); QuadSwap01(m20, m00, m31, m12); QuadSwap23(m00, m20, m31, m12); QuadSwap12(m00, m20, m12, m31);
    MulQuadRight(m20, m10, m01, m32); QuadSwap01(m20, m10, m01, m32); QuadSwap12(m10, m20, m01, m32); QuadSwap01(m10, m01, m20, m32);
    MulQuadRight(m20, m30, m11, m02); QuadSwap12(m20, m30, m11, m02); QuadSwap23(m20, m11, m30, m02); QuadSwap01(m20, m11, m02, m30); QuadSwap12(m11, m20, m02, m30); QuadSwap01(m11, m02, m20, m30);
    MulQuadRight(m20, m00, m11, m32); QuadSwap01(m20, m00, m11, m32); QuadSwap12(m00, m20, m11, m32);
    MulQuadRight(m20, m10, m31, m02); QuadSwap01(m20, m10, m31, m02); QuadSwap23(m10, m20, m31, m02); QuadSwap12(m10, m20, m02, m31); QuadSwap01(m10, m02, m20, m31);
    MulQuadRight(m20, m30, m01, m12); QuadSwap12(m20, m30, m01, m12); QuadSwap23(m20, m01, m30, m12); QuadSwap01(m20, m01, m12, m30); QuadSwap12(m01, m20, m12, m30);
    assert Mul(Sub(Add(Add(Mul(Mul(m00, m31), m12), Mul(Mul(m10, m01), m32)), Mul(Mul(m30, m11), m02)), Add(Add(Mul(Mul(m00, m11), m32), Mul(Mul(m10, m31), m02)), Mul(Mul(m30, m01), m12))), m20) == Sub(Sub(Sub(Add(Add(Quad(m00, m12, m20, m31), Quad(m01, m10, m20, m32)), Quad(m02, m11, m20, m30)), Quad(m00, m11, m20, m32)), Quad(m02, m10, m20, m31)), Quad(m01, m12, m20, m30));
    DistBRight(m30, Mul(Mul(m00, m11), m22), Mul(Mul(m10, m21), m02), Mul(Mul(m20, m01), m12), Mul(Mul(m00, m21), m12), Mul(Mul(m10, m01), m22), Mul(Mul(m20, m11), m02));
    MulQuadRight(m30, m00, m11, m22); QuadSwap01(m30, m00, m11, m22); QuadSwap12(m00, m30, m11, m22); QuadSwap23(m00, m11, m30, m22);
    MulQuadRight(m30, m10, m21, m02); QuadSwap01(m30, m10, m21, m02); QuadSwap12(m10, m30, m21, m02); QuadSwap23(m10, m21, m30, m02); QuadSwap12(m10, m21, m02, m30); QuadSwap01(m10, m02, m21, m30);
    MulQuadRight(m30, m20, m01, m12); QuadSwap01(m30, m20, m01, m12); QuadSwap12(m20, m30, m01, m12); QuadSwap23(m20, m01, m30, m12); QuadSwap01(m20, m01, m12, m30); QuadSwap12(m01, m20, m12, m30);
    MulQuadRight(m30, m00, m21, m12); QuadSwap01(m30, m00, m21, m12); QuadSwap12(m00, m30, m21, m12); QuadSwap23(m00, m21, m30, m12); QuadSwap12(m00, m21, m12, m30);
    MulQuadRight(m30, m10, m01, m22); QuadSwap01(m30, m10, m01, m22); QuadSwap12(m10, m30, m01, m22); QuadSwap23(m10, m01, m30, m22); QuadSwap01(m10, m01, m22, m30);
    MulQuadRight(m30, m20, m11, m02); QuadSwap01(m30, m20, m11, m02); QuadSwap12(m20, m30, m11, m02); QuadSwap23(m20, m11, m30, m02); QuadSwap01(m20, m11, m02, m30); QuadSwap12(m11, m20, m02, m30); QuadSwap01(m11, m02, m20, m30);
    assert Mul(Sub(Add(Add(Mul(Mul(m00, m11), m22), Mul(Mul(m10, m21), m02)), Mul(Mul(m20, m01), m12)), Add(Add(Mul(Mul(m00, m21), m12), Mul(Mul(m10, m01), m22)), Mul(Mul(m20, m11), m02))), m30) == Sub(Sub(Sub(Add(Add(Quad(m00, m11, m22, m30), Quad(m02, m10, m21, m30)), Quad(m01, m12, m20, m30)), Quad(m00, m12, m21, m30)), Quad(m01, m10, m22, m30)), Quad(m02, m11, m20, m30));
  }

  lemma LeftEntry31(m00: Complex, m01: Complex, m02: Complex, m03: Complex, m10: Complex, m11: Complex, m12: Complex, m13: Complex, m20: Complex, m21: Complex, m22: Complex, m23: Complex, m30: Complex, m31: Complex, m32: Complex, m33: Complex)
    ensures Sum4(Mul(Sub(Add(Add(Mul(Mul(m10, m31), m22), Mul(Mul(m20, m11), m32)), Mul(Mul(m30, m21), m12)), Add(Add(Mul(Mul(m10, m21), m32), Mul(Mul(m20, m31), m12)), Mul(Mul(m30, m11), m22))), m01), Mul(Sub(Add(Add(Mul(Mul(m00, m21), m32), Mul(Mul(m20, m31), m02)), Mul(Mul(m30, m01), m22)), Add(Add(Mul(Mul(m00, m31), m22), Mul(Mul(m20, m01), m32)), Mul(Mul(m30, m21), m02))), m11), Mul(Sub(Add(Add(Mul(Mul(m00, m31), m12), Mul(Mul(m10, m01), m32)), Mul(Mul(m30, m11), m02)), Add(Add(Mul(Mul(m00, m11), m32), Mul(Mul(m10, m31), m02)), Mul(Mul(m30, m01), m12))), m21), Mul(Sub(Add(Add(Mul(Mul(m00, m11), m22), Mul(Mul(m10, m21), m02)), Mul(Mul(m20, m01), m12)), Add(Add(Mul(Mul(m00, m21), m12), Mul(Mul(m10, m01), m22)), Mul(Mul(m20, m11), m02))), m31))
         == Zero
  {
    DistALeft(m00, Mul(Mul(m22, m33), m11), Mul(Mul(m32, m13), m21), Mul(Mul(m12, m23), m31), Mul(Mul(m32, m23), m11), Mul(Mul(m12, m33), m21), Mul(Mul(m22, m13), m31));
    MulQuadLeft(m00, m22, m33, m11); QuadSwap23(m00, m22, m33, m11); QuadSwap12(m00, m22, m11, m33);
    MulQuadLeft(m00, m32, m13, m21); QuadSwap12(m00, m32, m13, m21); QuadSwap23(m00, m13, m32, m21);
    MulQuadLeft(m00, m12, m23, m31);
    MulQuadLeft(m00, m32, m23, m11); QuadSwap12(m00, m32, m23, m11); QuadSwap23(m00, m23, m32, m11); QuadSwap12(m00, m23, m11, m32);
    MulQuadLeft(m00, m12, m33, m21); QuadSwap23(m00, m12, m33, m21);
    MulQuadLeft(m00, m22, m13, m31); QuadSwap12(m00, m22, m13, m31);
    DistALeft(m10, Mul(Mul(m32, m23), m01), Mul(Mul(m02, m33), m21), Mul(Mul(m22, m03), m31), Mul(Mul(m22, m33), m01), Mul(Mul(m32, m03), m21), Mul(Mul(m02, m23), m31));
    MulQuadLeft(m10, m32, m23, m01); QuadSwap12(m10, m32, m23, m01); QuadSwap23(m10, m23, m32, m01); QuadSwap12(m10, m23, m01, m32); QuadSwap01(m10, m01, m23, m32);
    MulQuadLeft(m10, m02, m33, m21); QuadSwap01(m10, m02, m33, m21); QuadSwap23(m02, m10, m33, m21);
    MulQuadLeft(m10, m22, m03, m31); QuadSwap12(m10, m22, m03, m31); QuadSwap01(m10, m03, m22, m31);
    MulQuadLeft(m10, m22, m33, m01); QuadSwap23(m10, m22, m33, m01); QuadSwap12(m10, m22, m01, m33); QuadSwap01(m10, m01, m22, m33);
    MulQuadLeft(m10, m32, m03, m21); QuadSwap12(m10, m32, m03, m21); QuadSwap23(m10, m03, m32, m21); QuadSwap01(m10, m03, m21, m32);
    MulQuadLeft(m10, m02, m23, m31); QuadSwap01(m10, m02, m23, m31);
    DistALeft(m20, Mul(Mul(m12, m33), m01), Mul(Mul(m32, m03), m11), Mul(Mul(m02, m13), m31), Mul(Mul(m32, m13), m01), Mul(Mul(m02, m33), m11), Mul(Mul(m12, m03), m31));
    MulQuadLeft(m20, m12, m33, m01); QuadSwap01(m20, m12, m33, m01); QuadSwap23(m12, m20, m33, m01); QuadSwap12(m12, m20, m01, m33); QuadSwap01(m12, m01, m20, m33);
    MulQuadLeft(m20, m32, m03, m11); QuadSwap12(m20, m32, m03, m11); QuadSwap23(m20, m03, m32, m11); QuadSwap01(m20, m03, m11, m32); QuadSwap12(m03, m20, m11, m32);
    MulQuadLeft(m20, m02, m13, m31); QuadSwap01(m20, m02, m13, m31); QuadSwap12(m02, m20, m13, m31);
    MulQuadLeft(m20, m32, m13, m01); QuadSwap12(m20, m32, m13, m01); QuadSwap23(m20, m13, m32, m01); QuadSwap01(m20, m13, m01, m32); QuadSwap12(m13, m20, m01, m32); QuadSwap01(m13, m01, m20, m32);
    MulQuadLeft(m20, m02, m33, m11); QuadSwap01(m20, m02, m33, m11); QuadSwap23(m02, m20, m33, m11); QuadSwap12(m02, m20, m11, m33);
    MulQuadLeft(m20, m12, m03, m31); QuadSwap01(m20, m12, m03, m31); QuadSwap12(m12, m20, m03, m31); QuadSwap01(m12, m03, m20, m31);
    DistALeft(m30, Mul(Mul(m22, m13), m01), Mul(Mul(m02, m23), m11), Mul(Mul(m12, m03), m21), Mul(Mul(m12, m23), m01), Mul(Mul(m22, m03), m11), Mul(Mul(m02, m13), m21));
    MulQuadLeft(m30, m22, m13, m01); QuadSwap01(m30, m22, m13, m01); QuadSwap12(m22, m30, m13, m01); QuadSwap23(m22, m13, m30, m01); QuadSwap01(m22, m13, m01, m30); QuadSwap12(m13, m22, m01, m30); QuadSwap01(m13, m01, m22, m30);
    MulQuadLeft(m30, m02, m23, m11); QuadSwap01(m30, m02, m23, m11); QuadSwap12(m02, m30, m23, m11); QuadSwap23(m02, m23, m30, m11); QuadSwap12(m02, m23, m11, m30);
    MulQuadLeft(m30, m12, m03, m21); QuadSwap01(m30, m12, m03, m21); QuadSwap12(m12, m30, m03, m21); QuadSwap23(m12, m03, m30, m21); QuadSwap01(m12, m03, m21, m30);
    MulQuadLeft(m30, m12, m23, m01); QuadSwap01(m30, m12, m23, m01); QuadSwap12(m12, m30, m23, m01); QuadSwap23(m12, m23, m30, m01); QuadSwap12(m12, m23, m01, m30); QuadSwap01(m12, m01, m23, m30);
    MulQuadLeft(m30, m22, m03, m11); QuadSwap01(m30, m22, m03, m11); QuadSwap12(m22, m30, m03, m11); QuadSwap23(m22, m03, m30, m11); QuadSwap01(m22, m03, m11, m30); QuadSwap12(m03, m22, m11, m30);
    MulQuadLeft(m30, m02, m13, m21); QuadSwap01(m30, m02, m13, m21); QuadSwap12(m02, m30, m13, m21); QuadSwap23(m02, m13, m30, m21);
    DistBRight(m01, Mul(Mul(m10, m31), m22), Mul(Mul(m20, m11), m32), Mul(Mul(m30, m21), m12), Mul(Mul(m10, m21), m32), Mul(Mul(m20, m31), m12), Mul(Mul(m30, m11), m22));
    MulQuadRight(m01, m10, m31, m22); QuadSwap23(m01, m10, m31, m22);
    MulQuadRight(m01, m20, m11, m32); QuadSwap12(m01, m20, m11, m32);
    MulQuadRight(m01, m30, m21, m12); QuadSwap12(m01, m30, m21, m12); QuadSwap23(m01, m21, m30, m12); QuadSwap12(m01, m21, m12, m30);
    MulQuadRight(m01, m10, m21, m32);
    MulQuadRight(m01, m20, m31, m12); QuadSwap23(m01, m20, m31, m12); QuadSwap12(m01, m20, m12, m31);
    MulQuadRight(m01, m30, m11, m22); QuadSwap12(m01, m30, m11, m22); QuadSwap23(m01, m11, m30, m22);
    assert Mul(Sub(Add(Add(Mul(Mul(m10, m31), m22), Mul(Mul(m20, m11), m32)), Mul(Mul(m30, m21), m12)), Add(Add(Mul(Mul(m10, m21), m32), Mul(Mul(m20, m31), m12)), Mul(Mul(m30, m11), m22))), m01) == Sub(Sub(Sub(Add(Add(Quad(m01, m10, m22, m31), Quad(m01, m11, m20, m32)), Quad(m01, m12, m21, m30)), Quad(m01, m10, m21, m32)), Quad(m01, m12, m20, m31)), Quad(m01, m11, m22, m30));
    DistBRight(m11, Mul(Mul(m00, m21), m32), Mul(Mul(m20, m31), m02), Mul(Mul(m30, m01), m22), Mul(Mul(m00, m31), m22), Mul(Mul(m20, m01), m32), Mul(Mul(m30, m21), m02));
    MulQuadRight(m11, m00, m21, m32); QuadSwap01(m11, m00, m21, m32);
    MulQuadRight(m11, m20, m31, m02); QuadSwap23(m11, m20, m31, m02); QuadSwap12(m11, m20, m02, m31); QuadSwap01(m11, m02, m20, m31);
    MulQuadRight(m11, m30, m01, m22); QuadSwap12(m11, m30, m01, m22); QuadSwap23(m11, m01, m30, m22); QuadSwap01(m11, m01, m22, m30);
    MulQuadRight(m11, m00, m31, m22); QuadSwap01(m11, m00, m31, m22); QuadSwap23(m00, m11, m31, m22);
    MulQuadRight(m11, m20, m01, m32); QuadSwap12(m11, m20, m01, m32); QuadSwap01(m11, m01, m20, m32);
    MulQuadRight(m11, m30, m21, m02); QuadSwap12(m11, m30, m21, m02); QuadSwap23(m11, m21, m30, m02); QuadSwap12(m11, m21, m02, m30); QuadSwap01(m11, m02, m21, m30);
    assert Mul(Sub(Add(Add(Mul(Mul(m00, m21), m32), Mul(Mul(m20, m31), m02)), Mul(Mul(m30, m01), m22)), Add(Add(Mul(Mul(m00, m31), m22), Mul(Mul(m20, m01), m32)), Mul(Mul(m30, m21), m02))), m11) == Sub(Sub(Sub(Add(Add(Quad(m00, m11, m21, m32), Quad(m02, m11, m20, m31)), Quad(m01, m11, m22, m30)), Quad(m00, m11, m22, m31)), Quad(m01, m11, m20, m32)), Quad(m02, m11, m21, m30));
    DistBRight(m21, Mul(Mul(m00, m31), m12), Mul(Mul(m10, m01), m32), Mul(Mul(m30, m11), m02), Mul(Mul(m00, m11), m32), Mul(Mul(m10, m31), m02), Mul(Mul(m30, m01), m12));
    MulQuadRight(m21, m00, m31, m12); QuadSwap01(m21, m00, m31, m12); QuadSwap23(m00, m21, m31, m12); QuadSwap12(m00, m21, m12, m31);
    MulQuadRight(m21, m10, m01, m32); QuadSwap01(m21, m10, m01, m32); QuadSwap12(m10, m21, m01, m32); QuadSwap01(m10, m01, m21, m32);
    MulQuadRight(m21, m30, m11, m02); QuadSwap12(m21, m30, m11, m02); QuadSwap23(m21, m11, m30, m02); QuadSwap01(m21, m11, m02, m30); QuadSwap12(m11, m21, m02, m30); QuadSwap01(m11, m02, m21, m30);
    MulQuadRight(m21, m00, m11, m32); QuadSwap01(m21, m00, m11, m32); QuadSwap12(m00, m21, m11, m32);
    MulQuadRight(m21, m10, m31, m02); QuadSwap01(m21, m10, m31, m02); QuadSwap23(m10, m21, m31, m02); QuadSwap12(m10, m21, m02, m31); QuadSwap01(m10, m02, m21, m31);
    MulQuadRight(m21, m30, m01, m12); QuadSwap12(m21, m30, m01, m12); QuadSwap23(m21, m01, m30, m12); QuadSwap01(m21, m01, m12, m30); QuadSwap12(m01, m21, m12, m30);
    assert Mul(Sub(Add(Add(Mul(Mul(m00, m31), m12), Mul(Mul(m10, m01), m32)), Mul(Mul(m30, m11), m02)), Add(Add(Mul(Mul(m00, m11), m32), Mul(Mul(m10, m31), m02)), Mul(Mul(m30, m01), m12))), m21) == Sub(Sub(Sub(Add(Add(Quad(m00, m12, m21, m31), Quad(m01, m10, m21, m32)), Quad(m02, m11, m21, m30)), Quad(m00, m11, m21, m32)), Quad(m02, m10, m21, m31)), Quad(m01, m12, m21, m30));
    DistBRight(m31, Mul(Mul(m00, m11), m22), Mul(Mul(m10, m21), m02), Mul(Mul(m20, m01), m12), Mul(Mul(m00, m21), m12), Mul(Mul(m10, m01), m22), Mul(Mul(m20, m11), m02));
    MulQuadRight(m31, m00, m11, m22); QuadSwap01(m31, m00, m11, m22); QuadSwap12(m00, m31, m11, m22); QuadSwap23(m00, m11, m31, m22);
    MulQuadRight(m31, m10, m21, m02); QuadSwap01(m31, m10, m21, m02); QuadSwap12(m10, m31, m21, m02); QuadSwap23(m10, m21, m31, m02); QuadSwap12(m10, m21, m02, m31); QuadSwap01(m10, m02, m21, m31);
    MulQuadRight(m31, m20, m01, m12); QuadSwap01(m31, m20, m01, m12); QuadSwap12(m20, m31, m01, m12); QuadSwap23(m20, m01, m31, m12); QuadSwap01(m20, m01, m12, m31); QuadSwap12(m01, m20, m12, m31);
    MulQuadRight(m31, m00, m21, m12); QuadSwap01(m31, m00, m21, m12); QuadSwap12(m00, m31, m21, m12); QuadSwap23(m00, m21, m31, m12); QuadSwap12(m00, m21, m12, m31);
    MulQuadRight(m31, m10, m01, m22); QuadSwap01(m31, m10, m01, m22); QuadSwap12(m10, m31, m01, m22); QuadSwap23(m10, m01, m31, m22); QuadSwap01(m10, m01, m22, m31);
    MulQuadRight(m31, m20, m11, m02); QuadSwap01(m31, m20, m11, m02); QuadSwap12(m20, m31, m11, m02); QuadSwap23(m20, m11, m31, m02); QuadSwap01(m20, m11, m02, m31); QuadSwap12(m11, m20, m02, m31); QuadSwap01(m11, m02, m20, m31);
    assert Mul(Sub(Add(Add(Mul(Mul(m00, m11), m22), Mul(Mul(m10, m21), m02)), Mul(Mul(m20, m01), m12)), Add(Add(Mul(Mul(m00, m21), m12), Mul(Mul(m10, m01), m22)), Mul(Mul(m20, m11), m02))), m31) == Sub(Sub(Sub(Add(Add(Quad(m00, m11, m22, m31), Quad(m02, m10, m21, m31)), Quad(m01, m12, m20, m31)), Quad(m00, m12, m21, m31)), Quad(m01, m10, m22, m31)), Quad(m02, m11, m20, m31));
  }

  lemma LeftEntry32(m00: Complex, m01: Complex, m02: Complex, m03: Complex, m10: Complex, m11: Complex, m12: Complex, m13: Complex, m20: Complex, m21: Complex, m22: Complex, m23: Complex, m30: Complex, m31: Complex, m32: Complex, m33: Complex)
    ensures Sum4(Mul(Sub(Add(Add(Mul(Mul(m10, m31), m22), Mul(Mul(m20, m11), m32)), Mul(Mul(m30, m21), m12)), Add(Add(Mul(Mul(m10, m21), m32), Mul(Mul(m20, m31), m12)), Mul(Mul(m30, m11), m22))), m02), Mul(Sub(Add(Add(Mul(Mul(m00, m21), m32), Mul(Mul(m20, m31), m02)), Mul(Mul(m30, m01), m22)), Add(Add(Mul(Mul(m00, m31), m22), Mul(Mul(m20, m01), m32)), Mul(Mul(m30, m21), m02))), m12), Mul(Sub(Add(Add(Mul(Mul(m00, m31), m12), Mul(Mul(m10, m01), m32)), Mul(Mul(m30, m11), m02)), Add(Add(Mul(Mul(m00, m11), m32), Mul(Mul(m10, m31), m02)), Mul(Mul(m30, m01), m12))), m22), Mul(Sub(Add(Add(Mul(Mul(m00, m11), m22), Mul(Mul(m10, m21), m02)), Mul(Mul(m20, m01), m12)), Add(Add(Mul(Mul(m00, m21), m12), Mul(Mul(m10, m01), m22)), Mul(Mul(m20, m11), m02))), m32))
         == Zero
  {
    DistALeft(m00, Mul(Mul(m22, m33), m11), Mul(Mul(m32, m13), m21), Mul(Mul(m12, m23), m31), Mul(Mul(m32, m23), m11), Mul(Mul(m12, m33), m21), Mul(Mul(m22, m13), m31));
    MulQuadLeft(m00, m22, m33, m11); QuadSwap23(m00, m22, m33, m11); QuadSwap12(m00, m22, m11, m33);
    MulQuadLeft(m00, m32, m13, m21); QuadSwap12(m00, m32, m13, m21); QuadSwap23(m00, m13, m32, m21);
    MulQuadLeft(m00, m12, m23, m31);
    MulQuadLeft(m00, m32, m23, m11); QuadSwap12(m00, m32, m23, m11); QuadSwap23(m00, m23, m32, m11); QuadSwap12(m00, m23, m11, m32);
    MulQuadLeft(m00, m12, m33, m21); QuadSwap23(m00, m12, m33, m21);
    MulQuadLeft(m00, m22, m13, m31); QuadSwap12(m00, m22, m13, m31);
    DistALeft(m10, Mul(Mul(m32, m23), m01), Mul(Mul(m02, m33), m21), Mul(Mul(m22, m03), m31), Mul(Mul(m22, m33), m01), Mul(Mul(m32, m03), m21), Mul(Mul(m02, m23), m31));
    MulQuadLeft(m10, m32, m23, m01); QuadSwap12(m10, m32, m23, m01); QuadSwap23(m10, m23, m32, m01); QuadSwap12(m10, m23, m01, m32); QuadSwap01(m10, m01, m23, m32);
    MulQuadLeft(m10, m02, m33, m21); QuadSwap01(m10, m02, m33, m21); QuadSwap23(m02, m10, m33, m21);
    MulQuadLeft(m10, m22, m03, m31); QuadSwap12(m10, m22, m03, m31); QuadSwap01(m10, m03, m22, m31);
    MulQuadLeft(m10, m22, m33, m01); QuadSwap23(m10, m22, m33, m01); QuadSwap12(m10, m22, m01, m33); QuadSwap01(m10, m01, m22, m33);
    MulQuadLeft(m10, m32, m03, m21); QuadSwap12(m10, m32, m03, m21); QuadSwap23(m10, m03, m32, m21); QuadSwap01(m10, m03, m21, m32);
    MulQuadLeft(m10, m02, m23, m31); QuadSwap01(m10, m02, m23, m31);
    DistALeft(m20, Mul(Mul(m12, m33), m01), Mul(Mul(m32, m03), m11), Mul(Mul(m02, m13), m31), Mul(Mul(m32, m13), m01), Mul(Mul(m02, m33), m11), Mul(Mul(m12, m03), m31));
    MulQuadLeft(m20, m12, m33, m01); QuadSwap01(m20, m12, m33, m01); QuadSwap23(m12, m20, m33, m01); QuadSwap12(m12, m20, m01, m33); QuadSwap01(m12, m01, m20, m33);
    MulQuadLeft(m20, m32, m03, m11); QuadSwap12(m20, m32, m03, m11); QuadSwap23(m20, m03, m32, m11); QuadSwap01(m20, m03, m11, m32); QuadSwap12(m03, m20, m11, m32);
    MulQuadLeft(m20, m02, m13, m31); QuadSwap01(m20, m02, m13, m31); QuadSwap12(m02, m20, m13, m31);
    MulQuadLeft(m20, m32, m13, m01); QuadSwap12(m20, m32, m13, m01); QuadSwap23(m20, m13, m32, m01); QuadSwap01(m20, m13, m01, m32); QuadSwap12(m13, m20, m01, m32); QuadSwap01(m13, m01, m20, m32);
    MulQuadLeft(m20, m02, m33, m11); QuadSwap01(m20, m02, m33, m11); QuadSwap23(m02, m20, m33, m11); QuadSwap12(m02, m20, m11, m33);
    MulQuadLeft(m20, m12, m03, m31); QuadSwap01(m20, m12, m03, m31); QuadSwap12(m12, m20, m03, m31); QuadSwap01(m12, m03, m20, m31);
    DistALeft(m30, Mul(Mul(m22, m13), m01), Mul(Mul(m02, m23), m11), Mul(Mul(m12, m03), m21), Mul(Mul(m12, m23), m01), Mul(Mul(m22, m03), m11), Mul(Mul(m02, m13), m21));
    MulQuadLeft(m30, m22, m13, m01); QuadSwap01(m30, m22, m13, m01); QuadSwap12(m22, m30, m13, m01); QuadSwap23(m22, m13, m30, m01); QuadSwap01(m22, m13, m01, m30); QuadSwap12(m13, m22, m01, m30); QuadSwap01(m13, m01, m22, m30);
    MulQuadLeft(m30, m02, m23, m11); QuadSwap01(m30, m02, m23, m11); QuadSwap12(m02, m30, m23, m11); QuadSwap23(m02, m23, m30, m11); QuadSwap12(m02, m23, m11, m30);
    MulQuadLeft(m30, m12, m03, m21); QuadSwap01(m30, m12, m03, m21); QuadSwap12(m12, m30, m03, m21); QuadSwap23(m12, m03, m30, m21); QuadSwap01(m12, m03, m21, m30);
    MulQuadLeft(m30, m12, m23, m01); QuadSwap01(m30, m12, m23, m01); QuadSwap12(m12, m30, m23, m01); QuadSwap23(m12, m23, m30, m01); QuadSwap12(m12, m23, m01, m30); QuadSwap01(m12, m01, m23, m30);
    MulQuadLeft(m30, m22, m03, m11); QuadSwap01(m30, m22, m03, m11); QuadSwap12(m22, m30, m03, m11); QuadSwap23(m22, m03, m30, m11); QuadSwap01(m22, m03, m11, m30); QuadSwap12(m03, m22, m11, m30);
    MulQuadLeft(m30, m02, m13, m21); QuadSwap01(m30, m02, m13, m21); QuadSwap12(m02, m30, m13, m21); QuadSwap23(m02, m13, m30, m21);
    DistBRight(m02, Mul(Mul(m10, m31), m22), Mul(Mul(m20, m11), m32), Mul(Mul(m30, m21), m12), Mul(Mul(m10, m21), m32), Mul(Mul(m20, m31), m12), Mul(Mul(m30, m11), m22));
    MulQuadRight(m02, m10, m31, m22); QuadSwap23(m02, m10, m31, m22);
    MulQuadRight(m02, m20, m11, m32); QuadSwap12(m02, m20, m11, m32);
    MulQuadRight(m02, m30, m21, m12); QuadSwap12(m02, m30, m21, m12); QuadSwap23(m02, m21, m30, m12); QuadSwap12(m02, m21, m12, m30);
    MulQuadRight(m02, m10, m21, m32);
    MulQuadRight(m02, m20, m31, m12); QuadSwap23(m02, m20, m31, m12); QuadSwap12(m02, m20, m12, m31);
    MulQuadRight(m02, m30, m11, m22); QuadSwap12(m02, m30, m11, m22); QuadSwap23(m02, m11, m30, m22);
    assert Mul(Sub(Add(Add(Mul(Mul(m10, m31), m22), Mul(Mul(m20, m11), m32)), Mul(Mul(m30, m21), m12)), Add(Add(Mul(Mul(m10, m21), m32), Mul(Mul(m20, m31), m12)), Mul(Mul(m30, m11), m22))), m02) == Sub(Sub(Sub(Add(Add(Quad(m02, m10, m22, m31), Quad(m02, m11, m20, m32)), Quad(m02, m12, m21, m30)), Quad(m02, m10, m21, m32)), Quad(m02, m12, m20, m31)), Quad(m02, m11, m22, m30));
    DistBRight(m12, Mul(Mul(m00, m21), m32), Mul(Mul(m20, m31), m02), Mul(Mul(m30, m01), m22), Mul(Mul(m00, m31), m22), Mul(Mul(m20, m01), m32), Mul(Mul(m30, m21), m02));
    MulQuadRight(m12, m00, m21, m32); QuadSwap01(m12, m00, m21, m32);
    MulQuadRight(m12, m20, m31, m02); QuadSwap23(m12, m20, m31, m02); QuadSwap12(m12, m20, m02, m31); QuadSwap01(m12, m02, m20, m31);
    MulQuadRight(m12, m30, m01, m22); QuadSwap12(m12, m30, m01, m22); QuadSwap23(m12, m01, m30, m22); QuadSwap01(m12, m01, m22, m30);
    MulQuadRight(m12, m00, m31, m22); QuadSwap01(m12, m00, m31, m22); QuadSwap23(m00, m12, m31, m22);
    MulQuadRight(m12, m20, m01, m32); QuadSwap12(m12, m20, m01, m32); QuadSwap01(m12, m01, m20, m32);
    MulQuadRight(m12, m30, m21, m02); QuadSwap12(m12, m30, m21, m02); QuadSwap23(m12, m21, m30, m02); QuadSwap12(m12, m21, m02, m30); QuadSwap01(m12, m02, m21, m30);
    assert Mul(Sub(Add(Add(Mul(Mul(m00, m21), m32), Mul(Mul(m20, m31), m02)), Mul(Mul(m30, m01), m22)), Add(Add(Mul(Mul(m00, m31), m22), Mul(Mul(m20, m01), m32)), Mul(Mul(m30, m21), m02))), m12) == Sub(Sub(Sub(Add(Add(Quad(m00, m12, m21, m32), Quad(m02, m12, m20, m31)), Quad(m01, m12, m22, m30)), Quad(m00, m12, m22, m31)), Quad(m01, m12, m20, m32)), Quad(m02, m12, m21, m30));
    DistBRight(m22, Mul(Mul(m00, m31), m12), Mul(Mul(m10, m01), m32), Mul(Mul(m30, m11), m02), Mul(Mul(m00, m11), m32), Mul(Mul(m10, m31), m02), Mul(Mul(m30, m01), m12));
    MulQuadRight(m22, m00, m31, m12); QuadSwap01(m22, m00, m31, m12); QuadSwap23(m00, m22, m31, m12); QuadSwap12(m00, m22, m12, m31);
    MulQuadRight(m22, m10, m01, m32); QuadSwap01(m22, m10, m01, m32); QuadSwap12(m10, m22, m01, m32); QuadSwap01(m10, m01, m22, m32);
    MulQuadRight(m22, m30, m11, m02); QuadSwap12(m22, m30, m11, m02); QuadSwap23(m22, m11, m30, m02); QuadSwap01(m22, m11, m02, m30); QuadSwap12(m11, m22, m02, m30); QuadSwap01(m11, m02, m22, m30);
    MulQuadRight(m22, m00, m11, m32); QuadSwap01(m22, m00, m11, m32); QuadSwap12(m00, m22, m11, m32);
    MulQuadRight(m22, m10, m31, m02); QuadSwap01(m22, m10, m31, m02); QuadSwap23(m10, m22, m31, m02); QuadSwap12(m10, m22, m02, m31); QuadSwap01(m10, m02, m22, m31);
    MulQuadRight(m22, m30, m01, m12); QuadSwap12(m22, m30, m01, m12); QuadSwap23(m22, m01, m30, m12); QuadSwap01(m22, m01, m12, m30); QuadSwap12(m01, m22, m12, m30);
    assert Mul(Sub(Add(Add(Mul(Mul(m00, m31), m12), Mul(Mul(m10, m01), m32)), Mul(Mul(m30, m11), m02)), Add(Add(Mul(Mul(m00, m11), m32), Mul(Mul(m10, m31), m02)), Mul(Mul(m30, m01), m12))), m22) == Sub(Sub(Sub(Add(Add(Quad(m00, m12, m22, m31), Quad(m01, m10, m22, m32)), Quad(m02, m11, m22, m30)), Quad(m00, m11, m22, m32)), Quad(m02, m10, m22, m31)), Quad(m01, m12, m22, m30));
    DistBRight(m32, Mul(Mul(m00, m11), m22), Mul(Mul(m10, m21), m02), Mul(Mul(m20, m01), m12), Mul(Mul(m00, m21), m12), Mul(Mul(m10, m01), m22), Mul(Mul(m20, m11), m02));
    MulQuadRight(m32, m00, m11, m22); QuadSwap01(m32, m00, m11, m22); QuadSwap12(m00, m32, m11, m22); QuadSwap23(m00, m11, m32, m22);
    MulQuadRight(m32, m10, m21, m02); QuadSwap01(m32, m10, m21, m02); QuadSwap12(m10, m32, m21, m02); QuadSwap23(m10, m21, m32, m02); QuadSwap12(m10, m21, m02, m32); QuadSwap01(m10, m02, m21, m32);
    MulQuadRight(m32, m20, m01, m12); QuadSwap01(m32, m20, m01, m12); QuadSwap12(m20, m32, m01, m12); QuadSwap23(m20, m01, m32, m12); QuadSwap01(m20, m01, m12, m32); QuadSwap12(m01, m20, m12, m32);
    MulQuadRight(m32, m00, m21, m12); QuadSwap01(m32, m00, m21, m12); QuadSwap12(m00, m32, m21, m12); QuadSwap23(m00, m21, m32, m12); QuadSwap12(m00, m21, m12, m32);
    MulQuadRight(m32, m10, m01, m22); QuadSwap01(m32, m10, m01, m22); QuadSwap12(m10, m32, m01, m22); QuadSwap23(m10, m01, m32, m22); QuadSwap01(m10, m01, m22, m32);
    MulQuadRight(m32, m20, m11, m02); QuadSwap01(m32, m20, m11, m02); QuadSwap12(m20, m32, m11, m02); QuadSwap23(m20, m11, m32, m02); QuadSwap01(m20, m11, m02, m32); QuadSwap12(m11, m20, m02, m32); QuadSwap01(m11, m02, m20, m32);
    assert Mul(Sub(Add(Add(Mul(Mul(m00, m11), m22), Mul(Mul(m10, m21), m02)), Mul(Mul(m20, m01), m12)), Add(Add(Mul(Mul(m00, m21), m12), Mul(Mul(m10, m01), m22)), Mul(Mul(m20, m11), m02))), m32) == Sub(Sub(Sub(Add(Add(Quad(m00, m11, m22, m32), Quad(m02, m10, m21, m32)), Quad(m01, m12, m20, m32)), Quad(m00, m12, m21, m32)), Quad(m01, m10, m22, m32)), Quad(m02, m11, m20, m32));
  }

  lemma LeftEntry33(m00: Complex, m01: Complex, m02: Complex, m03: Complex, m10: Complex, m11: Complex, m12: Complex, m13: Complex, m20: Complex, m21: Complex, m22: Complex, m23: Complex, m30: Complex, m31: Complex, m32: Complex, m33: Complex)
    ensures Sum4(Mul(Sub(Add(Add(Mul(Mul(m10, m31), m22), Mul(Mul(m20, m11), m32)), Mul(Mul(m30, m21), m12)), Add(Add(Mul(Mul(m10, m21), m32), Mul(Mul(m20, m31), m12)), Mul(Mul(m30, m11), m22))), m03), Mul(Sub(Add(Add(Mul(Mul(m00, m21), m32), Mul(Mul(m20, m31), m02)), Mul(Mul(m30, m01), m22)), Add(Add(Mul(Mul(m00, m31), m22), Mul(Mul(m20, m01), m32)), Mul(Mul(m30, m21), m02))), m13), Mul(Sub(Add(Add(Mul(Mul(m00, m31), m12), Mul(Mul(m10, m01), m32)), Mul(Mul(m30, m11), m02)), Add(Add(Mul(Mul(m00, m11), m32), Mul(Mul(m10, m31), m02)), Mul(Mul(m30, m01), m12))), m23), Mul(Sub(Add(Add(Mul(Mul(m00, m11), m22), Mul(Mul(m10, m21), m02)), Mul(Mul(m20, m01), m12)), Add(Add(Mul(Mul(m00, m21), m12), Mul(Mul(m10, m01), m22)), Mul(Mul(m20, m11), m02))), m33))
         == DetOf(m00, m01, m02, m03, m10, m11, m12, m13, m20, m21, m22, m23, m30, m31, m32, m33)
  {
    DistALeft(m00, Mul(Mul(m22, m33), m11), Mul(Mul(m32, m13), m21), Mul(Mul(m12, m23), m31), Mul(Mul(m32, m23), m11), Mul(Mul(m12, m33), m21), Mul(Mul(m22, m13), m31));
    MulQuadLeft(m00, m22, m33, m11); QuadSwap23(m00, m22, m33, m11); QuadSwap12(m00, m22, m11, m33);
    MulQuadLeft(m00, m32, m13, m21); QuadSwap12(m00, m32, m13, m21); QuadSwap23(m00, m13, m32, m21);
    MulQuadLeft(m00, m12, m23, m31);
    MulQuadLeft(m00, m32, m23, m11); QuadSwap12(m00, m32, m23, m11); QuadSwap23(m00, m23, m32, m11); QuadSwap12(m00, m23, m11, m32);
    MulQuadLeft(m00, m12, m33, m21); QuadSwap23(m00, m12, m33, m21);
    MulQuadLeft(m00, m22, m13, m31); QuadSwap12(m00, m22, m13, m31);
    DistALeft(m10, Mul(Mul(m32, m23), m01), Mul(Mul(m02, m33), m21), Mul(Mul(m22, m03), m31), Mul(Mul(m22, m33), m01), Mul(Mul(m32, m03), m21), Mul(Mul(m02, m23), m31));
    MulQuadLeft(m10, m32, m23, m01); QuadSwap12(m10, m32, m23, m01); QuadSwap23(m10, m23, m32, m01); QuadSwap12(m10, m23, m01, m32); QuadSwap01(m10, m01, m23, m32);
    MulQuadLeft(m10, m02, m33, m21); QuadSwap01(m10, m02, m33, m21); QuadSwap23(m02, m10, m33, m21);
    MulQuadLeft(m10, m22, m03, m31); QuadSwap12(m10, m22, m03, m31); QuadSwap01(m10, m03, m22, m31);
    MulQuadLeft(m10, m22, m33, m01); QuadSwap23(m10, m22, m33, m01); QuadSwap12(m10, m22, m01, m33); QuadSwap01(m10, m01, m22, m33);
    MulQuadLeft(m10, m32, m03, m21); QuadSwap12(m10, m32, m03, m21); QuadSwap23(m10, m03, m32, m21); QuadSwap01(m10, m03, m21, m32);
    MulQuadLeft(m10, m02, m23, m31); QuadSwap01(m10, m02, m23, m31);
    DistALeft(m20, Mul(Mul(m12, m33), m01), Mul(Mul(m32, m03), m11), Mul(Mul(m02, m13), m31), Mul(Mul(m32, m13), m01), Mul(Mul(m02, m33), m11), Mul(Mul(m12, m03), m31));
    MulQuadLeft(m20, m12, m33, m01); QuadSwap01(m20, m12, m33, m01); QuadSwap23(m12, m20, m33, m01); QuadSwap12(m12, m20, m01, m33); QuadSwap01(m12, m01, m20, m33);
    MulQuadLeft(m20, m32, m03, m11); QuadSwap12(m20, m32, m03, m11); QuadSwap23(m20, m03, m32, m11); QuadSwap01(m20, m03, m11, m32); QuadSwap12(m03, m20, m11, m32);
    MulQuadLeft(m20, m02, m13, m31); QuadSwap01(m20, m02, m13, m31); QuadSwap12(m02, m20, m13, m31);
    MulQuadLeft(m20, m32, m13, m01); QuadSwap12(m20, m32, m13, m01); QuadSwap23(m20, m13, m32, m01); QuadSwap01(m20, m13, m01, m32); QuadSwap12(m13, m20, m01, m32); QuadSwap01(m13, m01, m20, m32);
    MulQuadLeft(m20, m02, m33, m11); QuadSwap01(m20, m02, m33, m11); QuadSwap23(m02, m20, m33, m11); QuadSwap12(m02, m20, m11, m33);
    MulQuadLeft(m20, m12, m03, m31); QuadSwap01(m20, m12, m03, m31); QuadSwap12(m12, m20, m03, m31); QuadSwap01(m12, m03, m20, m31);
    DistALeft(m30, Mul(Mul(m22, m13), m01), Mul(Mul(m02, m23), m11), Mul(Mul(m12, m03), m21), Mul(Mul(m12, m23), m01), Mul(Mul(m22, m03), m11), Mul(Mul(m02, m13), m21));
    MulQuadLeft(m30, m22, m13, m01); QuadSwap01(m30, m22, m13, m01); QuadSwap12(m22, m30, m13, m01); QuadSwap23(m22, m13, m30, m01); QuadSwap01(m22, m13, m01, m30); QuadSwap12(m13, m22, m01, m30); QuadSwap01(m13, m01, m22, m30);
    MulQuadLeft(m30, m02, m23, m11); QuadSwap01(m30, m02, m23, m11); QuadSwap12(m02, m30, m23, m11); QuadSwap23(m02, m23, m30, m11); QuadSwap12(m02, m23, m11, m30);
    MulQuadLeft(m30, m12, m03, m21); QuadSwap01(m30, m12, m03, m21); QuadSwap12(m12, m30, m03, m21); QuadSwap23(m12, m03, m30, m21); QuadSwap01(m12, m03, m21, m30);
    MulQuadLeft(m30, m12, m23, m01); QuadSwap01(m30, m12, m23, m01); QuadSwap12(m12, m30, m23, m01); QuadSwap23(m12, m23, m30, m01); QuadSwap12(m12, m23, m01, m30); QuadSwap01(m12, m01, m23, m30);
    MulQuadLeft(m30, m22, m03, m11); QuadSwap01(m30, m22, m03, m11); QuadSwap12(m22, m30, m03, m11); QuadSwap23(m22, m03, m30, m11); QuadSwap01(m22, m03, m11, m30); QuadSwap12(m03, m22, m11, m30);
    MulQuadLeft(m30, m02, m13, m21); QuadSwap01(m30, m02, m13, m21); QuadSwap12(m02, m30, m13, m21); QuadSwap23(m02, m13, m30, m21);
    DistBRight(m03, Mul(Mul(m10, m31), m22), Mul(Mul(m20, m11), m32), Mul(Mul(m30, m21), m12), Mul(Mul(m10, m21), m32), Mul(Mul(m20, m31), m12), Mul(Mul(m30, m11), m22));
    MulQuadRight(m03, m10, m31, m22); QuadSwap23(m03, m10, m31, m22);
    MulQuadRight(m03, m20, m11, m32); QuadSwap12(m03, m20, m11, m32);
    MulQuadRight(m03, m30, m21, m12); QuadSwap12(m03, m30, m21, m12); QuadSwap23(m03, m21, m30, m12); QuadSwap12(m03, m21, m12, m30);
    MulQuadRight(m03, m10, m21, m32);
    MulQuadRight(m03, m20, m31, m12); QuadSwap23(m03, m20, m31, m12); QuadSwap12(m03, m20, m12, m31);
    MulQuadRight(m03, m30, m11, m22); QuadSwap12(m03, m30, m11, m22); QuadSwap23(m03, m11, m30, m22);
    assert Mul(Sub(Add(Add(Mul(Mul(m10, m31), m22), Mul(Mul(m20, m11), m32)), Mul(Mul(m30, m21), m12)), Add(Add(Mul(Mul(m10, m21), m32), Mul(Mul(m20, m31), m12)), Mul(Mul(m30, m11), m22))), m03) == Sub(Sub(Sub(Add(Add(Quad(m03, m10, m22, m31), Quad(m03, m11, m20, m32)), Quad(m03, m12, m21, m30)), Quad(m03, m10, m21, m32)), Quad(m03, m12, m20, m31)), Quad(m03, m11, m22, m30));
    DistBRight(m13, Mul(Mul(m00, m21), m32), Mul(Mul(m20, m31), m02), Mul(Mul(m30, m01), m22), Mul(Mul(m00, m31), m22), Mul(Mul(m20, m01), m32), Mul(Mul(m30, m21), m02));
    MulQuadRight(m13, m00, m21, m32); QuadSwap01(m13, m00, m21, m32);
    MulQuadRight(m13, m20, m31, m02); QuadSwap23(m13, m20, m31, m02); QuadSwap12(m13, m20, m02, m31); QuadSwap01(m13, m02, m20, m31);
    MulQuadRight(m13, m30, m01, m22); QuadSwap12(m13, m30, m01, m22); QuadSwap23(m13, m01, m30, m22); QuadSwap01(m13, m01, m22, m30);
    MulQuadRight(m13, m00, m31, m22); QuadSwap01(m13, m00, m31, m22); QuadSwap23(m00, m13, m31, m22);
    MulQuadRight(m13, m20, m01, m32); QuadSwap12(m13, m20, m01, m32); QuadSwap01(m13, m01, m20, m32);
    MulQuadRight(m13, m30, m21, m02); QuadSwap12(m13, m30, m21, m02); QuadSwap23(m13, m21, m30, m02); QuadSwap12(m13, m21, m02, m30); QuadSwap01(m13, m02, m21, m30);
    assert Mul(Sub(Add(Add(Mul(Mul(m00, m21), m32), Mul(Mul(m20, m31), m02)), Mul(Mul(m30, m01), m22)), Add(Add(Mul(Mul(m00, m31), m22), Mul(Mul(m20, m01), m32)), Mul(Mul(m30, m21), m02))), m13) == Sub(Sub(Sub(Add(Add(Quad(m00, m13, m21, m32), Quad(m02, m13, m20, m31)), Quad(m01, m13, m22, m30)), Quad(m00, m13, m22, m31)), Quad(m01, m13, m20, m32)), Quad(m02, m13, m21, m30));
    DistBRight(m23, Mul(Mul(m00, m31), m12), Mul(Mul(m10, m01), m32), Mul(Mul(m30, m11), m02), Mul(Mul(m00, m11), m32), Mul(Mul(m10, m31), m02), Mul(Mul(m30, m01), m12));
    MulQuadRight(m23, m00, m31, m12); QuadSwap01(m23, m00, m31, m12); QuadSwap23(m00, m23, m31, m12); QuadSwap12(m00, m23, m12, m31);
    MulQuadRight(m23, m10, m01, m32); QuadSwap01(m23, m10, m01, m32); QuadSwap12(m10, m23, m01, m32); QuadSwap01(m10, m01, m23, m32);
    MulQuadRight(m23, m30, m11, m02); QuadSwap12(m23, m30, m11, m02); QuadSwap23(m23, m11, m30, m02); QuadSwap01(m23, m11, m02, m30); QuadSwap12(m11, m23, m02, m30); QuadSwap01(m11, m02, m23, m30);
    MulQuadRight(m23, m00, m11, m32); QuadSwap01(m23, m00, m11, m32); QuadSwap12(m00, m23, m11, m32);
    MulQuadRight(m23, m10, m31, m02); QuadSwap01(m23, m10, m31, m02); QuadSwap23(m10, m23, m31, m02); QuadSwap12(m10, m23, m02, m31); QuadSwap01(m10, m02, m23, m31);
    MulQuadRight(m23, m30, m01, m12); QuadSwap12(m23, m30, m01, m12); QuadSwap23(m23, m01, m30, m12); QuadSwap01(m23, m01, m12, m30); QuadSwap12(m01, m23, m12, m30);
    assert Mul(Sub(Add(Add(Mul(Mul(m00, m31), m12), Mul(Mul(m10, m01), m32)), Mul(Mul(m30, m11), m02)), Add(Add(Mul(Mul(m00, m11), m32), Mul(Mul(m10, m31), m02)), Mul(Mul(m30, m01), m12))), m23) == Sub(Sub(Sub(Add(Add(Quad(m00, m12, m23, m31), Quad(m01, m10, m23, m32)), Quad(m02, m11, m23, m30)), Quad(m00, m11, m23, m32)), Quad(m02, m10, m23, m31)), Quad(m01, m12, m23, m30));
    DistBRight(m33, Mul(Mul(m00, m11), m22), Mul(Mul(m10, m21), m02), Mul(Mul(m20, m01), m12), Mul(Mul(m00, m21), m12), Mul(Mul(m10, m01), m22), Mul(Mul(m20, m11), m02));
    MulQuadRight(m33, m00, m11, m22); QuadSwap01(m33, m00, m11, m22); QuadSwap12(m00, m33, m11, m22); QuadSwap23(m00, m11, m33, m22);
    MulQuadRight(m33, m10, m21, m02); QuadSwap01(m33, m10, m21, m02); QuadSwap12(m10, m33, m21, m02); QuadSwap23(m10, m21, m33, m02); QuadSwap12(m10, m21, m02, m33); QuadSwap01(m10, m02, m21, m33);
    MulQuadRight(m33, m20, m01, m12); QuadSwap01(m33, m20, m01, m12); QuadSwap12(m20, m33, m01, m12); QuadSwap23(m20, m01, m33, m12); QuadSwap01(m20, m01, m12, m33); QuadSwap12(m01, m20, m12, m33);
    MulQuadRight(m33, m00, m21, m12); QuadSwap01(m33, m00, m21, m12); QuadSwap12(m00, m33, m21, m12); QuadSwap23(m00, m21, m33, m12); QuadSwap12(m00, m21, m12, m33);
    MulQuadRight(m33, m10, m01, m22); QuadSwap01(m33, m10, m01, m22); QuadSwap12(m10, m33, m01, m22); QuadSwap23(m10, m01, m33, m22); QuadSwap01(m10, m01, m22, m33);
    MulQuadRight(m33, m20, m11, m02); QuadSwap01(m33, m20, m11, m02); QuadSwap12(m20, m33, m11, m02); QuadSwap23(m20, m11, m33, m02); QuadSwap01(m20, m11, m02, m33); QuadSwap12(m11, m20, m02, m33); QuadSwap01(m11, m02, m20, m33);
    assert Mul(Sub(Add(Add(Mul(Mul(m00, m11), m22), Mul(Mul(m10, m21), m02)), Mul(Mul(m20, m01), m12)), Add(Add(Mul(Mul(m00, m21), m12), Mul(Mul(m10, m01), m22)), Mul(Mul(m20, m11), m02))), m33) == Sub(Sub(Sub(Add(Add(Quad(m00, m11, m22, m33), Quad(m02, m10, m21, m33)), Quad(m01, m12, m20, m33)), Quad(m00, m12, m21, m33)), Quad(m01, m10, m22, m33)), Quad(m02, m11, m20, m33));
  }

}