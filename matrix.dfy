/**
 * 4x4 complex matrices as values: the algebra that the kernels of
 * dtmm/linalg.py compute element by element.  Every sum is written in the
 * order the kernels write it (left to right over the inner index).
 */
module Matrix4 {
  import opened Scalars

  type Vec4 = v: seq<Complex> | |v| == 4 witness [Zero, Zero, Zero, Zero]
  type Mat4 = m: seq<Vec4> | |m| == 4
    witness [[Zero, Zero, Zero, Zero], [Zero, Zero, Zero, Zero],
             [Zero, Zero, Zero, Zero], [Zero, Zero, Zero, Zero]]

  /** Builds a matrix from an entry function. */
  function Build(f: (int, int) -> Complex): (m: Mat4)
    ensures forall i, j | 0 <= i < 4 && 0 <= j < 4 :: m[i][j] == f(i, j)
  {
    seq(4, i => seq(4, j => f(i, j)))
  }

  function Identity(): (m: Mat4)
    ensures forall i, j | 0 <= i < 4 && 0 <= j < 4 :: m[i][j] == (if i == j then One else Zero)
  {
    Build((i, j) => if i == j then One else Zero)
  }

  /** Row i of a times column k of b, summed over j = 0..3 from the left. */
  function RowCol(a: Mat4, b: Mat4, i: int, k: int): Complex
    requires 0 <= i < 4 && 0 <= k < 4
  {
    Sum4(Mul(a[i][0], b[0][k]), Mul(a[i][1], b[1][k]), Mul(a[i][2], b[2][k]), Mul(a[i][3], b[3][k]))
  }

  /** The matrix product a·b. */
  function MatMul(a: Mat4, b: Mat4): (p: Mat4)
    ensures forall i, k | 0 <= i < 4 && 0 <= k < 4 :: p[i][k] == RowCol(a, b, i, k)
  {
    Build((i, k) => if 0 <= i < 4 && 0 <= k < 4 then RowCol(a, b, i, k) else Zero)
  }

  /** The product a·diag(d): column j of a scaled by d[j]. */
  function MatDiag(a: Mat4, d: Vec4): (p: Mat4)
    ensures forall i, j | 0 <= i < 4 && 0 <= j < 4 :: p[i][j] == Mul(a[i][j], d[j])
  {
    Build((i, j) => if 0 <= i < 4 && 0 <= j < 4 then Mul(a[i][j], d[j]) else Zero)
  }

  /** The matrix-vector product a·v. */
  function MatVec(a: Mat4, v: Vec4): (w: Vec4)
    ensures forall i | 0 <= i < 4 ::
      w[i] == Sum4(Mul(a[i][0], v[0]), Mul(a[i][1], v[1]), Mul(a[i][2], v[2]), Mul(a[i][3], v[3]))
  {
    seq(4, i requires 0 <= i < 4 =>
      Sum4(Mul(a[i][0], v[0]), Mul(a[i][1], v[1]), Mul(a[i][2], v[2]), Mul(a[i][3], v[3])))
  }

  /** Entry-wise product v ⊙ d, i.e. diag(d)·v. */
  function VecDiag(v: Vec4, d: Vec4): (w: Vec4)
    ensures forall k | 0 <= k < 4 :: w[k] == Mul(v[k], d[k])
  {
    seq(4, k requires 0 <= k < 4 => Mul(v[k], d[k]))
  }

  function VecAdd(u: Vec4, v: Vec4): (w: Vec4)
    ensures forall k | 0 <= k < 4 :: w[k] == Add(u[k], v[k])
  {
    seq(4, k requires 0 <= k < 4 => Add(u[k], v[k]))
  }

  function MatAdd(a: Mat4, b: Mat4): (m: Mat4)
    ensures forall i, j | 0 <= i < 4 && 0 <= j < 4 :: m[i][j] == Add(a[i][j], b[i][j])
  {
    Build((i, j) => if 0 <= i < 4 && 0 <= j < 4 then Add(a[i][j], b[i][j]) else Zero)
  }

  /** Every entry multiplied by k. */
  function ScaleMat(m: Mat4, k: Complex): (r: Mat4)
    ensures forall i, j | 0 <= i < 4 && 0 <= j < 4 :: r[i][j] == Mul(m[i][j], k)
  {
    Build((i, j) => if 0 <= i < 4 && 0 <= j < 4 then Mul(m[i][j], k) else Zero)
  }

  /** Two matrices with the same 16 entries are equal. */
  lemma MatExt(x: Mat4, y: Mat4)
    requires forall i, j | 0 <= i < 4 && 0 <= j < 4 :: x[i][j] == y[i][j]
    ensures x == y
  {
    forall i | 0 <= i < 4
      ensures x[i] == y[i]
    {
      assert forall j | 0 <= j < 4 :: x[i][j] == y[i][j];
    }
  }

  // ---------------------------------------------------------------------
  // The rotation-pattern product of _dotmr2.

  /**
   * The real 4x4 matrix that _dotmr2 multiplies by from the right, for the
   * pair (c, s): rows (c,0,-s,0), (0,c,0,s), (s,0,c,0), (0,-s,0,c).
   */
  function Rot2(c: real, s: real): Mat4 {
    [[FromReal(c), Zero, FromReal(-s), Zero],
     [Zero, FromReal(c), Zero, FromReal(s)],
     [FromReal(s), Zero, FromReal(c), Zero],
     [Zero, FromReal(-s), Zero, FromReal(c)]]
  }

  /** Row i of the product as _dotmr2 forms it, a complex entry times a float. */
  function RotRow(r: Vec4, c: real, s: real): Vec4 {
    [Add(Scale(r[0], c), Scale(r[2], s)),
     Sub(Scale(r[1], c), Scale(r[3], s)),
     Add(Scale(Neg(r[0]), s), Scale(r[2], c)),
     Add(Scale(r[1], s), Scale(r[3], c))]
  }

  function RotProduct(a: Mat4, c: real, s: real): Mat4 {
    [RotRow(a[0], c, s), RotRow(a[1], c, s), RotRow(a[2], c, s), RotRow(a[3], c, s)]
  }

  lemma MulReal(a: Complex, x: real)
    ensures Mul(a, FromReal(x)) == Scale(a, x)
    ensures Scale(a, -x) == Scale(Neg(a), x)
  {}

  /** Entries 0 and 2 of RotRow(r, c, s): row r times columns 0 and 2 of Rot2(c, s). */
  lemma RotRowEven(r: Vec4, c: real, s: real)
    ensures RotRow(r, c, s)[0] == Sum4(Mul(r[0], FromReal(c)), Mul(r[1], Zero), Mul(r[2], FromReal(s)), Mul(r[3], Zero))
    ensures RotRow(r, c, s)[2] == Sum4(Mul(r[0], FromReal(-s)), Mul(r[1], Zero), Mul(r[2], FromReal(c)), Mul(r[3], Zero))
  {
    MulReal(r[0], c);
    MulReal(r[0], -s);
    MulZero(r[1]);
    MulReal(r[2], s);
    MulReal(r[2], c);
    MulZero(r[3]);
  }

  /** Entries 1 and 3 of RotRow(r, c, s): row r times columns 1 and 3 of Rot2(c, s). */
  lemma RotRowOdd(r: Vec4, c: real, s: real)
    ensures RotRow(r, c, s)[1] == Sum4(Mul(r[0], Zero), Mul(r[1], FromReal(c)), Mul(r[2], Zero), Mul(r[3], FromReal(-s)))
    ensures RotRow(r, c, s)[3] == Sum4(Mul(r[0], Zero), Mul(r[1], FromReal(s)), Mul(r[2], Zero), Mul(r[3], FromReal(c)))
  {
    MulZero(r[0]);
    MulReal(r[1], c);
    MulReal(r[1], s);
    MulZero(r[2]);
    MulReal(r[3], -s);
    MulReal(r[3], c);
  }

  /** The kernel's eight-product formula is the full product a·Rot2(c, s). */
  lemma RotProductIsProduct(a: Mat4, c: real, s: real)
    ensures RotProduct(a, c, s) == MatMul(a, Rot2(c, s))
  {
    var p := RotProduct(a, c, s);
    var q := MatMul(a, Rot2(c, s));
    forall i, k | 0 <= i < 4 && 0 <= k < 4
      ensures p[i][k] == q[i][k]
    {
      assert q[i][k] == RowCol(a, Rot2(c, s), i, k);
      RotRowEven(a[i], c, s);
      RotRowOdd(a[i], c, s);
    }
    MatExt(p, q);
  }

  /** With (c, s) = (1, 0) the rotation product leaves a unchanged. */
  lemma RotProductUnit(a: Mat4)
    ensures RotProduct(a, 1.0, 0.0) == a
  {
    var p := RotProduct(a, 1.0, 0.0);
    forall i, k | 0 <= i < 4 && 0 <= k < 4
      ensures p[i][k] == a[i][k]
    {
    }
    MatExt(p, a);
  }

  // ---------------------------------------------------------------------
  // Linearity of a·diag(d)·b in d (used for the projection matrices).

  lemma MulDistrib3(a: Complex, d1: Complex, d2: Complex, b: Complex)
    ensures Mul(Mul(a, Add(d1, d2)), b) == Add(Mul(Mul(a, d1), b), Mul(Mul(a, d2), b))
  {
    MulAddRight(a, d1, d2);
    MulAddLeft(Mul(a, d1), Mul(a, d2), b);
  }

  lemma Sum4Add(x0: Complex, x1: Complex, x2: Complex, x3: Complex,
                y0: Complex, y1: Complex, y2: Complex, y3: Complex)
    ensures Sum4(Add(x0, y0), Add(x1, y1), Add(x2, y2), Add(x3, y3))
         == Add(Sum4(x0, x1, x2, x3), Sum4(y0, y1, y2, y3))
  {}

  /** a·diag(d1 + d2)·b == a·diag(d1)·b + a·diag(d2)·b. */
  lemma DiagProductLinear(a: Mat4, d1: Vec4, d2: Vec4, b: Mat4)
    ensures MatMul(MatDiag(a, VecAdd(d1, d2)), b)
         == MatAdd(MatMul(MatDiag(a, d1), b), MatMul(MatDiag(a, d2), b))
  {
    var d := VecAdd(d1, d2);
    var lhs := MatMul(MatDiag(a, d), b);
    var p1 := MatMul(MatDiag(a, d1), b);
    var p2 := MatMul(MatDiag(a, d2), b);
    var rhs := MatAdd(p1, p2);
    forall i, k | 0 <= i < 4 && 0 <= k < 4
      ensures lhs[i][k] == rhs[i][k]
    {
      MulDistrib3(a[i][0], d1[0], d2[0], b[0][k]);
      MulDistrib3(a[i][1], d1[1], d2[1], b[1][k]);
      MulDistrib3(a[i][2], d1[2], d2[2], b[2][k]);
      MulDistrib3(a[i][3], d1[3], d2[3], b[3][k]);
      Sum4Add(Mul(Mul(a[i][0], d1[0]), b[0][k]), Mul(Mul(a[i][1], d1[1]), b[1][k]),
              Mul(Mul(a[i][2], d1[2]), b[2][k]), Mul(Mul(a[i][3], d1[3]), b[3][k]),
              Mul(Mul(a[i][0], d2[0]), b[0][k]), Mul(Mul(a[i][1], d2[1]), b[1][k]),
              Mul(Mul(a[i][2], d2[2]), b[2][k]), Mul(Mul(a[i][3], d2[3]), b[3][k]));
      assert lhs[i][k] == RowCol(MatDiag(a, d), b, i, k);
      assert p1[i][k] == RowCol(MatDiag(a, d1), b, i, k);
      assert p2[i][k] == RowCol(MatDiag(a, d2), b, i, k);
    }
    MatExt(lhs, rhs);
  }

  // ---------------------------------------------------------------------
  // Associativity of the products used by the per-pixel transmission.

  lemma Sum4MulRight(x0: Complex, x1: Complex, x2: Complex, x3: Complex, y: Complex)
    ensures Mul(Sum4(x0, x1, x2, x3), y) == Sum4(Mul(x0, y), Mul(x1, y), Mul(x2, y), Mul(x3, y))
  {}

  lemma Sum4MulLeft(y: Complex, x0: Complex, x1: Complex, x2: Complex, x3: Complex)
    ensures Mul(y, Sum4(x0, x1, x2, x3)) == Sum4(Mul(y, x0), Mul(y, x1), Mul(y, x2), Mul(y, x3))
  {}

  /** (x·b)·f == x·(b·f). */
  lemma MatVecAssoc(x: Mat4, b: Mat4, f: Vec4)
    ensures MatVec(MatMul(x, b), f) == MatVec(x, MatVec(b, f))
  {
    var l := MatVec(MatMul(x, b), f);
    var r := MatVec(x, MatVec(b, f));
    var xb := MatMul(x, b);
    var bf := MatVec(b, f);
    forall i | 0 <= i < 4
      ensures l[i] == r[i]
    {
      forall j | 0 <= j < 4
        ensures Mul(xb[i][j], f[j])
             == Sum4(Mul(x[i][0], Mul(b[0][j], f[j])), Mul(x[i][1], Mul(b[1][j], f[j])),
                     Mul(x[i][2], Mul(b[2][j], f[j])), Mul(x[i][3], Mul(b[3][j], f[j])))
      {
        assert xb[i][j] == RowCol(x, b, i, j);
        Sum4MulRight(Mul(x[i][0], b[0][j]), Mul(x[i][1], b[1][j]), Mul(x[i][2], b[2][j]), Mul(x[i][3], b[3][j]), f[j]);
        MulAssoc(x[i][0], b[0][j], f[j]);
        MulAssoc(x[i][1], b[1][j], f[j]);
        MulAssoc(x[i][2], b[2][j], f[j]);
        MulAssoc(x[i][3], b[3][j], f[j]);
      }
      forall k | 0 <= k < 4
        ensures Mul(x[i][k], bf[k])
             == Sum4(Mul(x[i][k], Mul(b[k][0], f[0])), Mul(x[i][k], Mul(b[k][1], f[1])),
                     Mul(x[i][k], Mul(b[k][2], f[2])), Mul(x[i][k], Mul(b[k][3], f[3])))
      {
        Sum4MulLeft(x[i][k], Mul(b[k][0], f[0]), Mul(b[k][1], f[1]), Mul(b[k][2], f[2]), Mul(b[k][3], f[3]));
      }
    }
  }

  /** (a·diag(p))·w == a·(w ⊙ p). */
  lemma MatVecDiag(a: Mat4, p: Vec4, w: Vec4)
    ensures MatVec(MatDiag(a, p), w) == MatVec(a, VecDiag(w, p))
  {
    var l := MatVec(MatDiag(a, p), w);
    var r := MatVec(a, VecDiag(w, p));
    forall i | 0 <= i < 4
      ensures l[i] == r[i]
    {
      forall j | 0 <= j < 4
        ensures Mul(Mul(a[i][j], p[j]), w[j]) == Mul(a[i][j], Mul(w[j], p[j]))
      {
        MulAssoc(a[i][j], p[j], w[j]);
        MulComm(p[j], w[j]);
      }
    }
  }
}
