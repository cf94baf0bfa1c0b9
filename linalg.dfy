/**
 * The numba kernels of dtmm/linalg.py as methods over arrays.  Each kernel
 * writes element by element into a caller-supplied buffer; the contracts
 * tie the leading 4x4 block (or every pixel's four-component column) of
 * that buffer to the value-level algebra of Matrix4 and Inverse4, evaluated
 * on the inputs as they were on entry, so they also hold when the output
 * buffer is one of the inputs.  Entries outside what a kernel writes keep
 * their values.
 */
module Linalg {
  import opened Scalars
  import opened Matrix4
  import opened Inverse4

  // ---------------------------------------------------------------------
  // Views of buffers as values.

  predicate Holds4x4<T>(a: array2<T>) { a.Length0 >= 4 && a.Length1 >= 4 }

  /** The leading 4x4 block of a (n, n) buffer. */
  function Block(a: array2<Complex>): Mat4
    reads a
    requires Holds4x4(a)
  {
    [[a[0, 0], a[0, 1], a[0, 2], a[0, 3]],
     [a[1, 0], a[1, 1], a[1, 2], a[1, 3]],
     [a[2, 0], a[2, 1], a[2, 2], a[2, 3]],
     [a[3, 0], a[3, 1], a[3, 2], a[3, 3]]]
  }

  /** The first four entries of a length-n vector. */
  function Head(v: array<Complex>): Vec4
    reads v
    requires v.Length >= 4
  {
    [v[0], v[1], v[2], v[3]]
  }

  /** The four components at pixel (i, j) of a (n, H, W) field buffer. */
  function Pixel(f: array3<Complex>, i: int, j: int): Vec4
    reads f
    requires f.Length0 >= 4 && 0 <= i < f.Length1 && 0 <= j < f.Length2
  {
    [f[0, i, j], f[1, i, j], f[2, i, j], f[3, i, j]]
  }

  /** The 4x4 matrix at pixel (i, j) of a (H, W, n, n) buffer. */
  function PixelMatrix(a: array4<Complex>, i: int, j: int): Mat4
    reads a
    requires 0 <= i < a.Length0 && 0 <= j < a.Length1 && a.Length2 >= 4 && a.Length3 >= 4
  {
    [[a[i, j, 0, 0], a[i, j, 0, 1], a[i, j, 0, 2], a[i, j, 0, 3]],
     [a[i, j, 1, 0], a[i, j, 1, 1], a[i, j, 1, 2], a[i, j, 1, 3]],
     [a[i, j, 2, 0], a[i, j, 2, 1], a[i, j, 2, 2], a[i, j, 2, 3]],
     [a[i, j, 3, 0], a[i, j, 3, 1], a[i, j, 3, 2], a[i, j, 3, 3]]]
  }

  // ---------------------------------------------------------------------
  // Stores.

  /** Writes row i of the 4x4 block; nothing else changes. */
  method StoreRow<T>(out: array2<T>, i: int, r: seq<T>)
    requires Holds4x4(out) && 0 <= i < 4 && |r| == 4
    modifies out
    ensures forall j | 0 <= j < 4 :: out[i, j] == r[j]
    ensures forall p, q | 0 <= p < out.Length0 && 0 <= q < out.Length1 && (p != i || q >= 4) ::
      out[p, q] == old(out[p, q])
  {
    out[i, 0] := r[0];
    out[i, 1] := r[1];
    out[i, 2] := r[2];
    out[i, 3] := r[3];
  }

  /** Writes the whole 4x4 block, one row after the other. */
  method StoreBlock(out: array2<Complex>, m: Mat4)
    requires Holds4x4(out)
    modifies out
    ensures Block(out) == m
    ensures forall p, q | 0 <= p < out.Length0 && 0 <= q < out.Length1 && (p >= 4 || q >= 4) ::
      out[p, q] == old(out[p, q])
  {
    StoreRow(out, 0, m[0]);
    StoreRow(out, 1, m[1]);
    StoreRow(out, 2, m[2]);
    StoreRow(out, 3, m[3]);
    MatExt(Block(out), m);
  }

  /** Writes the four components of pixel (i, j); nothing else changes. */
  method StorePixel(out: array3<Complex>, i: int, j: int, v: Vec4)
    requires out.Length0 >= 4 && 0 <= i < out.Length1 && 0 <= j < out.Length2
    modifies out
    ensures forall c | 0 <= c < 4 :: out[c, i, j] == v[c]
    ensures forall c, p, q | 0 <= c < out.Length0 && 0 <= p < out.Length1 && 0 <= q < out.Length2
                             && (c >= 4 || p != i || q != j) ::
      out[c, p, q] == old(out[c, p, q])
  {
    out[0, i, j] := v[0];
    out[1, i, j] := v[1];
    out[2, i, j] := v[2];
    out[3, i, j] := v[3];
  }

  // ---------------------------------------------------------------------
  // 4x4 kernels.

  /**
   * `_dotmm`: out = a·b.  All sixteen sums are formed before the first
   * store, so out may be a or b.
   */
  method DotMM(a: array2<Complex>, b: array2<Complex>, out: array2<Complex>)
    requires Holds4x4(a) && Holds4x4(b) && Holds4x4(out)
    modifies out
    ensures Block(out) == MatMul(old(Block(a)), old(Block(b)))
    ensures forall p, q | 0 <= p < out.Length0 && 0 <= q < out.Length1 && (p >= 4 || q >= 4) ::
      out[p, q] == old(out[p, q])
  {
    var p := MatMul(Block(a), Block(b));
    StoreBlock(out, p);
  }

  /**
   * `_dotmd`: out = a·diag(b), row by row.  Each row of a is read just
   * before the same row of out is written, so out may be a.
   */
  method DotMD(a: array2<Complex>, b: array<Complex>, out: array2<Complex>)
    requires Holds4x4(a) && b.Length >= 4 && Holds4x4(out)
    modifies out
    ensures Block(out) == MatDiag(old(Block(a)), old(Head(b)))
    ensures forall p, q | 0 <= p < out.Length0 && 0 <= q < out.Length1 && (p >= 4 || q >= 4) ::
      out[p, q] == old(out[p, q])
  {
    ghost var A, D := Block(a), Head(b);
    StoreRow(out, 0, [Mul(a[0, 0], b[0]), Mul(a[0, 1], b[1]), Mul(a[0, 2], b[2]), Mul(a[0, 3], b[3])]);
    StoreRow(out, 1, [Mul(a[1, 0], b[0]), Mul(a[1, 1], b[1]), Mul(a[1, 2], b[2]), Mul(a[1, 3], b[3])]);
    StoreRow(out, 2, [Mul(a[2, 0], b[0]), Mul(a[2, 1], b[1]), Mul(a[2, 2], b[2]), Mul(a[2, 3], b[3])]);
    StoreRow(out, 3, [Mul(a[3, 0], b[0]), Mul(a[3, 1], b[1]), Mul(a[3, 2], b[2]), Mul(a[3, 3], b[3])]);
    MatExt(Block(out), MatDiag(A, D));
  }

  /**
   * `_dotmr2`: out = a·Rot2(b[0], b[1]) for a real pair b, by the kernel's
   * eight-product formula.  All sums are formed before the first store.
   */
  method DotMR2(a: array2<Complex>, b: array<real>, out: array2<Complex>)
    requires Holds4x4(a) && b.Length >= 2 && Holds4x4(out)
    modifies out
    ensures Block(out) == MatMul(old(Block(a)), Rot2(b[0], b[1]))
    ensures forall p, q | 0 <= p < out.Length0 && 0 <= q < out.Length1 && (p >= 4 || q >= 4) ::
      out[p, q] == old(out[p, q])
  {
    var p := RotProduct(Block(a), b[0], b[1]);
    RotProductIsProduct(Block(a), b[0], b[1]);
    StoreBlock(out, p);
  }

  /** `_dotmv`: out = a·b for a vector b; the four sums precede the stores, so out may be b. */
  method DotMV(a: array2<Complex>, b: array<Complex>, out: array<Complex>)
    requires Holds4x4(a) && b.Length >= 4 && out.Length >= 4
    modifies out
    ensures Head(out) == MatVec(old(Block(a)), old(Head(b)))
    ensures forall p | 4 <= p < out.Length :: out[p] == old(out[p])
  {
    var w := MatVec(Block(a), Head(b));
    out[0] := w[0];
    out[1] := w[1];
    out[2] := w[2];
    out[3] := w[3];
  }

  /** NaN-propagating product: NaN times anything is NaN. */
  function MulNaN(x: Option<Complex>, y: Option<Complex>): (r: Option<Complex>)
    ensures r.Some? <==> x.Some? && y.Some?
    ensures r.Some? ==> r.value == Mul(x.value, y.value)
  {
    if x.Some? && y.Some? then Some(Mul(x.value, y.value)) else None
  }

  /** The value the kernel leaves at (i, j): None everywhere when M is singular. */
  function InverseEntry(m: Mat4, i: int, j: int): Option<Complex>
    requires 0 <= i < 4 && 0 <= j < 4
  {
    match Inverse(m)
    case None => None
    case Some(inv) => Some(inv[i][j])
  }

  /** The first half of `_inv4x4`: the sixteen cofactors of m stored into dst. */
  method StoreCofactors(m: Mat4, dst: array2<Option<Complex>>)
    requires Holds4x4(dst)
    modifies dst
    ensures forall i, j | 0 <= i < 4 && 0 <= j < 4 :: dst[i, j] == Some(Cofactors(m)[i][j])
    ensures forall p, q | 0 <= p < dst.Length0 && 0 <= q < dst.Length1 && (p >= 4 || q >= 4) ::
      dst[p, q] == old(dst[p, q])
  {
    var c := Cofactors(m);
    StoreRow(dst, 0, [Some(c[0][0]), Some(c[0][1]), Some(c[0][2]), Some(c[0][3])]);
    StoreRow(dst, 1, [Some(c[1][0]), Some(c[1][1]), Some(c[1][2]), Some(c[1][3])]);
    StoreRow(dst, 2, [Some(c[2][0]), Some(c[2][1]), Some(c[2][2]), Some(c[2][3])]);
    StoreRow(dst, 3, [Some(c[3][0]), Some(c[3][1]), Some(c[3][2]), Some(c[3][3])]);
  }

  /** The final loop of `_inv4x4`: dst[i, j] = dst[i, j]·scale over the 4x4 block. */
  method RescaleBlock(dst: array2<Option<Complex>>, scale: Option<Complex>)
    requires Holds4x4(dst)
    modifies dst
    ensures forall i, j | 0 <= i < 4 && 0 <= j < 4 :: dst[i, j] == MulNaN(old(dst[i, j]), scale)
    ensures forall p, q | 0 <= p < dst.Length0 && 0 <= q < dst.Length1 && (p >= 4 || q >= 4) ::
      dst[p, q] == old(dst[p, q])
  {
    for i := 0 to 4
      invariant forall p, q | 0 <= p < i && 0 <= q < 4 :: dst[p, q] == MulNaN(old(dst[p, q]), scale)
      invariant forall p, q | 0 <= p < dst.Length0 && 0 <= q < dst.Length1 && (p >= i || q >= 4) ::
        dst[p, q] == old(dst[p, q])
    {
      for j := 0 to 4
        invariant forall p, q | 0 <= p < i && 0 <= q < 4 :: dst[p, q] == MulNaN(old(dst[p, q]), scale)
        invariant forall q | 0 <= q < j :: dst[i, q] == MulNaN(old(dst[i, q]), scale)
        invariant forall p, q | 0 <= p < dst.Length0 && 0 <= q < dst.Length1 && (p > i || q >= 4 || (p == i && q >= j)) ::
          dst[p, q] == old(dst[p, q])
      {
        dst[i, j] := MulNaN(dst[i, j], scale);
      }
    }
  }

  /**
   * `_inv4x4`: stores the sixteen cofactors into dst, forms the determinant
   * from column 0 of src and row 0 of dst, and then rescales every entry of
   * dst in place by 1/det, or by NaN when det is exactly zero.
   */
  method Inv4x4(src: array2<Complex>, dst: array2<Option<Complex>>)
    requires Holds4x4(src) && Holds4x4(dst)
    modifies dst
    ensures forall i, j | 0 <= i < 4 && 0 <= j < 4 :: dst[i, j] == InverseEntry(Block(src), i, j)
    ensures Det(Block(src)) == Zero <==> forall i, j | 0 <= i < 4 && 0 <= j < 4 :: dst[i, j].None?
    ensures Det(Block(src)) != Zero ==> forall i, j | 0 <= i < 4 && 0 <= j < 4 ::
      dst[i, j] == Some(Mul(Cofactors(Block(src))[i][j], Inv(Det(Block(src)))))
    ensures forall p, q | 0 <= p < dst.Length0 && 0 <= q < dst.Length1 && (p >= 4 || q >= 4) ::
      dst[p, q] == old(dst[p, q])
  {
    var m := Block(src);
    StoreCofactors(m, dst);
    var det := Sum4(Mul(src[0, 0], dst[0, 0].value), Mul(src[1, 0], dst[0, 1].value),
                    Mul(src[2, 0], dst[0, 2].value), Mul(src[3, 0], dst[0, 3].value));
    assert det == Det(m);
    var scale: Option<Complex> := if det == Zero then None else Some(Inv(det));
    RescaleBlock(dst, scale);
  }

  // ---------------------------------------------------------------------
  // Field kernels: one 4x4 product per pixel of a (4, H, W) field.

  /**
   * `_dotm1f`: out[:, i, j] = a·b[:, i, j] for every pixel.  Each pixel's
   * four components are read before they are written, so out may be b.
   */
  method DotM1F(a: array2<Complex>, b: array3<Complex>, out: array3<Complex>)
    requires Holds4x4(a) && b.Length0 >= 4
    requires out.Length0 >= 4 && out.Length1 == b.Length1 && out.Length2 == b.Length2
    modifies out
    ensures forall i, j | 0 <= i < b.Length1 && 0 <= j < b.Length2 ::
      Pixel(out, i, j) == MatVec(Block(a), old(Pixel(b, i, j)))
    ensures forall c, p, q | 4 <= c < out.Length0 && 0 <= p < out.Length1 && 0 <= q < out.Length2 ::
      out[c, p, q] == old(out[c, p, q])
  {
    var A := Block(a);
    for i := 0 to b.Length1
      invariant forall p, q | 0 <= p < i && 0 <= q < b.Length2 :: Pixel(out, p, q) == MatVec(A, old(Pixel(b, p, q)))
      invariant forall c, p, q | 0 <= c < b.Length0 && i <= p < b.Length1 && 0 <= q < b.Length2 ::
        b[c, p, q] == old(b[c, p, q])
      invariant forall c, p, q | 4 <= c < out.Length0 && 0 <= p < out.Length1 && 0 <= q < out.Length2 ::
        out[c, p, q] == old(out[c, p, q])
    {
      DotM1FRow(A, b, out, i);
    }
  }

  /** Row i of `_dotm1f`; every other row of out is unchanged. */
  method DotM1FRow(A: Mat4, b: array3<Complex>, out: array3<Complex>, i: int)
    requires b.Length0 >= 4 && 0 <= i < b.Length1
    requires out.Length0 >= 4 && out.Length1 == b.Length1 && out.Length2 == b.Length2
    modifies out
    ensures forall q | 0 <= q < b.Length2 :: Pixel(out, i, q) == MatVec(A, old(Pixel(b, i, q)))
    ensures forall c, p, q | 0 <= c < out.Length0 && 0 <= p < out.Length1 && 0 <= q < out.Length2 && (c >= 4 || p != i) ::
      out[c, p, q] == old(out[c, p, q])
  {
    for j := 0 to b.Length2
      invariant forall c, q | 0 <= c < 4 && 0 <= q < j :: out[c, i, q] == MatVec(A, old(Pixel(b, i, q)))[c]
      invariant forall c, q | 0 <= c < b.Length0 && j <= q < b.Length2 :: b[c, i, q] == old(b[c, i, q])
      invariant forall c, p, q | 0 <= c < out.Length0 && 0 <= p < out.Length1 && 0 <= q < out.Length2 && (c >= 4 || p != i) ::
        out[c, p, q] == old(out[c, p, q])
    {
      var v := MatVec(A, Pixel(b, i, j));
      StorePixel(out, i, j, v);
    }
    forall q | 0 <= q < b.Length2
      ensures Pixel(out, i, q) == MatVec(A, old(Pixel(b, i, q)))
    {
      PixelOf(out, i, q, MatVec(A, old(Pixel(b, i, q))));
    }
  }

  /** `_dotmf`: out[:, i, j] = a[i, j]·b[:, i, j] with a per-pixel matrix; out may be b. */
  method DotMF(a: array4<Complex>, b: array3<Complex>, out: array3<Complex>)
    requires a.Length0 == b.Length1 && a.Length1 == b.Length2 && a.Length2 >= 4 && a.Length3 >= 4
    requires b.Length0 >= 4
    requires out.Length0 >= 4 && out.Length1 == b.Length1 && out.Length2 == b.Length2
    modifies out
    ensures forall i, j | 0 <= i < b.Length1 && 0 <= j < b.Length2 ::
      Pixel(out, i, j) == MatVec(PixelMatrix(a, i, j), old(Pixel(b, i, j)))
    ensures forall c, p, q | 4 <= c < out.Length0 && 0 <= p < out.Length1 && 0 <= q < out.Length2 ::
      out[c, p, q] == old(out[c, p, q])
  {
    for i := 0 to b.Length1
      invariant forall p, q | 0 <= p < i && 0 <= q < b.Length2 ::
        Pixel(out, p, q) == MatVec(PixelMatrix(a, p, q), old(Pixel(b, p, q)))
      invariant forall c, p, q | 0 <= c < b.Length0 && i <= p < b.Length1 && 0 <= q < b.Length2 ::
        b[c, p, q] == old(b[c, p, q])
      invariant forall c, p, q | 4 <= c < out.Length0 && 0 <= p < out.Length1 && 0 <= q < out.Length2 ::
        out[c, p, q] == old(out[c, p, q])
    {
      DotMFRow(a, b, out, i);
    }
  }

  /** Row i of `_dotmf`; every other row of out is unchanged. */
  method DotMFRow(a: array4<Complex>, b: array3<Complex>, out: array3<Complex>, i: int)
    requires a.Length0 == b.Length1 && a.Length1 == b.Length2 && a.Length2 >= 4 && a.Length3 >= 4
    requires b.Length0 >= 4 && 0 <= i < b.Length1
    requires out.Length0 >= 4 && out.Length1 == b.Length1 && out.Length2 == b.Length2
    modifies out
    ensures forall q | 0 <= q < b.Length2 :: Pixel(out, i, q) == MatVec(PixelMatrix(a, i, q), old(Pixel(b, i, q)))
    ensures forall c, p, q | 0 <= c < out.Length0 && 0 <= p < out.Length1 && 0 <= q < out.Length2 && (c >= 4 || p != i) ::
      out[c, p, q] == old(out[c, p, q])
  {
    for j := 0 to b.Length2
      invariant forall c, q | 0 <= c < 4 && 0 <= q < j ::
        out[c, i, q] == MatVec(PixelMatrix(a, i, q), old(Pixel(b, i, q)))[c]
      invariant forall c, q | 0 <= c < b.Length0 && j <= q < b.Length2 :: b[c, i, q] == old(b[c, i, q])
      invariant forall c, p, q | 0 <= c < out.Length0 && 0 <= p < out.Length1 && 0 <= q < out.Length2 && (c >= 4 || p != i) ::
        out[c, p, q] == old(out[c, p, q])
    {
      var v := MatVec(PixelMatrix(a, i, j), Pixel(b, i, j));
      StorePixel(out, i, j, v);
    }
    forall q | 0 <= q < b.Length2
      ensures Pixel(out, i, q) == MatVec(PixelMatrix(a, i, q), old(Pixel(b, i, q)))
    {
      PixelOf(out, i, q, MatVec(PixelMatrix(a, i, q), old(Pixel(b, i, q))));
    }
  }

  /** The four phase factors of pixel (i, j): phase(kd·Re d[i, j, k]). */
  function PhaseFactors(d: array3<Complex>, i: int, j: int, kd: real, phase: real -> Complex): Vec4
    reads d
    requires 0 <= i < d.Length0 && 0 <= j < d.Length1 && d.Length2 >= 4
  {
    [phase(kd * d[i, j, 0].re), phase(kd * d[i, j, 1].re), phase(kd * d[i, j, 2].re), phase(kd * d[i, j, 3].re)]
  }

  /** One pixel of `_transmit`: a·(b·f ⊙ phases). */
  function TransmitPixel(a: Mat4, p: Vec4, b: Mat4, f: Vec4): Vec4 {
    MatVec(a, VecDiag(MatVec(b, f), p))
  }

  /** Per pixel, `_transmit` is the product a·diag(p)·b applied to f. */
  lemma TransmitPixelIsProduct(a: Mat4, p: Vec4, b: Mat4, f: Vec4)
    ensures TransmitPixel(a, p, b, f) == MatVec(MatMul(MatDiag(a, p), b), f)
  {
    MatVecAssoc(MatDiag(a, p), b, f);
    MatVecDiag(a, p, MatVec(b, f));
  }

  /** The array shapes `_transmit` works on: a, b (H, W, n, n), d (H, W, n), f (n, H, W), n >= 4. */
  predicate TransmitShapes(a: array4<Complex>, d: array3<Complex>, b: array4<Complex>, f: array3<Complex>) {
    && a.Length0 == f.Length1 && a.Length1 == f.Length2 && a.Length2 >= 4 && a.Length3 >= 4
    && b.Length0 == f.Length1 && b.Length1 == f.Length2 && b.Length2 >= 4 && b.Length3 >= 4
    && d.Length0 == f.Length1 && d.Length1 == f.Length2 && d.Length2 >= 4
    && f.Length0 >= 4
  }

  /** What `_transmit` computes at pixel (i, j) for the field column v. */
  function TransmitAt(a: array4<Complex>, d: array3<Complex>, b: array4<Complex>, f: array3<Complex>,
                      kd: real, phase: real -> Complex, i: int, j: int, v: Vec4): Vec4
    reads a, d, b
    requires TransmitShapes(a, d, b, f) && 0 <= i < f.Length1 && 0 <= j < f.Length2
  {
    TransmitPixel(PixelMatrix(a, i, j), PhaseFactors(d, i, j, kd, phase), PixelMatrix(b, i, j), v)
  }

  /** The inner loop of `_transmit`: every pixel (i, j) of row i. */
  method TransmitRow(a: array4<Complex>, d: array3<Complex>, b: array4<Complex>, f: array3<Complex>,
                     kd: real, phase: real -> Complex, out: array3<Complex>, i: int)
    requires TransmitShapes(a, d, b, f) && 0 <= i < f.Length1
    requires out.Length0 >= 4 && out.Length1 == f.Length1 && out.Length2 == f.Length2
    requires out != d
    modifies out
    ensures forall q | 0 <= q < f.Length2 :: Pixel(out, i, q) == TransmitAt(a, d, b, f, kd, phase, i, q, old(Pixel(f, i, q)))
    ensures forall c, p, q | 0 <= c < out.Length0 && 0 <= p < out.Length1 && 0 <= q < out.Length2 && (c >= 4 || p != i) ::
      out[c, p, q] == old(out[c, p, q])
  {
    ghost var A := seq(f.Length2, q requires 0 <= q < f.Length2 reads a => PixelMatrix(a, i, q));
    ghost var P := seq(f.Length2, q requires 0 <= q < f.Length2 reads d => PhaseFactors(d, i, q, kd, phase));
    ghost var B := seq(f.Length2, q requires 0 <= q < f.Length2 reads b => PixelMatrix(b, i, q));
    for j := 0 to f.Length2
      invariant forall c, q {:trigger out[c, i, q]} | 0 <= c < 4 && 0 <= q < j ::
        out[c, i, q] == TransmitPixel(A[q], P[q], B[q], old(Pixel(f, i, q)))[c]
      invariant forall c, q | 0 <= c < f.Length0 && j <= q < f.Length2 :: f[c, i, q] == old(f[c, i, q])
      invariant forall c, p, q | 0 <= c < out.Length0 && 0 <= p < out.Length1 && 0 <= q < out.Length2 && (c >= 4 || p != i) ::
        out[c, p, q] == old(out[c, p, q])
    {
      var w := Pixel(f, i, j);
      assert w == old(Pixel(f, i, j));
      var v := TransmitPixel(PixelMatrix(a, i, j), PhaseFactors(d, i, j, kd, phase), PixelMatrix(b, i, j), w);
      assert v == TransmitPixel(A[j], P[j], B[j], old(Pixel(f, i, j)));
      StorePixel(out, i, j, v);
    }
    forall q | 0 <= q < f.Length2
      ensures Pixel(out, i, q) == TransmitAt(a, d, b, f, kd, phase, i, q, old(Pixel(f, i, q)))
    {
      PixelOf(out, i, q, TransmitAt(a, d, b, f, kd, phase, i, q, old(Pixel(f, i, q))));
    }
  }

  /** A pixel whose four entries are those of v is v. */
  lemma PixelOf(out: array3<Complex>, i: int, j: int, v: Vec4)
    requires out.Length0 >= 4 && 0 <= i < out.Length1 && 0 <= j < out.Length2
    requires forall c | 0 <= c < 4 :: out[c, i, j] == v[c]
    ensures Pixel(out, i, j) == v
  {
  }

  /**
   * `_transmit`: out[:, i, j] = a[i, j]·diag(phase(kd·Re d[i, j]))·b[i, j]·f[:, i, j].
   * The complex exponential exp(1j·x) is the parameter `phase`.  out may
   * be f; it must not be d, which the kernel reads at other indices.
   */
  method Transmit(a: array4<Complex>, d: array3<Complex>, b: array4<Complex>, f: array3<Complex>,
                  kd: real, phase: real -> Complex, out: array3<Complex>)
    requires TransmitShapes(a, d, b, f)
    requires out.Length0 >= 4 && out.Length1 == f.Length1 && out.Length2 == f.Length2
    requires out != d
    modifies out
    ensures forall i, j | 0 <= i < f.Length1 && 0 <= j < f.Length2 ::
      Pixel(out, i, j) == TransmitAt(a, d, b, f, kd, phase, i, j, old(Pixel(f, i, j)))
    ensures forall c, p, q | 4 <= c < out.Length0 && 0 <= p < out.Length1 && 0 <= q < out.Length2 ::
      out[c, p, q] == old(out[c, p, q])
  {
    for i := 0 to f.Length1
      invariant forall p, q | 0 <= p < i && 0 <= q < f.Length2 ::
        Pixel(out, p, q) == TransmitAt(a, d, b, f, kd, phase, p, q, old(Pixel(f, p, q)))
      invariant forall c, p, q | 0 <= c < f.Length0 && i <= p < f.Length1 && 0 <= q < f.Length2 ::
        f[c, p, q] == old(f[c, p, q])
      invariant forall c, p, q | 4 <= c < out.Length0 && 0 <= p < out.Length1 && 0 <= q < out.Length2 ::
        out[c, p, q] == old(out[c, p, q])
    {
      TransmitRow(a, d, b, f, kd, phase, out, i);
    }
  }

  // ---------------------------------------------------------------------
  // The public gufunc wrappers: one 4x4 core instance each.  Their
  // `assert ... >= 4` checks become the `ok` result (false means
  // AssertionError, with out untouched).

  predicate Square<T>(a: array2<T>, n: int) { a.Length0 == n && a.Length1 == n }

  /** `inv4x4(mat, output)` on one (n, n) core. */
  method Inv4x4Ufunc(mat: array2<Complex>, output: array2<Option<Complex>>) returns (ok: bool)
    requires Square(mat, mat.Length0) && Square(output, mat.Length0)
    modifies output
    ensures ok == (mat.Length0 >= 4)
    ensures ok ==> forall i, j | 0 <= i < 4 && 0 <= j < 4 :: output[i, j] == InverseEntry(Block(mat), i, j)
    ensures forall p, q | 0 <= p < output.Length0 && 0 <= q < output.Length1 && (!ok || p >= 4 || q >= 4) ::
      output[p, q] == old(output[p, q])
  {
    ok := mat.Length0 >= 4;
    if ok {
      Inv4x4(mat, output);
    }
  }

  /** `dotmm(a, b, out)` on one (n, n) core. */
  method DotMMUfunc(a: array2<Complex>, b: array2<Complex>, out: array2<Complex>) returns (ok: bool)
    requires Square(a, a.Length0) && Square(b, a.Length0) && Square(out, a.Length0)
    modifies out
    ensures ok == (a.Length0 >= 4)
    ensures ok ==> Block(out) == MatMul(old(Block(a)), old(Block(b)))
    ensures forall p, q | 0 <= p < out.Length0 && 0 <= q < out.Length1 && (!ok || p >= 4 || q >= 4) ::
      out[p, q] == old(out[p, q])
  {
    ok := a.Length0 >= 4;
    if ok {
      DotMM(a, b, out);
    }
  }

  /** `dotmd(a, b, out)` on one (n, n), (n) core. */
  method DotMDUfunc(a: array2<Complex>, b: array<Complex>, out: array2<Complex>) returns (ok: bool)
    requires Square(a, a.Length0) && b.Length == a.Length0 && Square(out, a.Length0)
    modifies out
    ensures ok == (a.Length0 >= 4)
    ensures ok ==> Block(out) == MatDiag(old(Block(a)), old(Head(b)))
    ensures forall p, q | 0 <= p < out.Length0 && 0 <= q < out.Length1 && (!ok || p >= 4 || q >= 4) ::
      out[p, q] == old(out[p, q])
  {
    ok := a.Length0 >= 4;
    if ok {
      DotMD(a, b, out);
    }
  }

  /** `dotmr2(a, b, out)` on one (n, n), (m) core: needs n >= 4 and m >= 2. */
  method DotMR2Ufunc(a: array2<Complex>, b: array<real>, out: array2<Complex>) returns (ok: bool)
    requires Square(a, a.Length0) && Square(out, a.Length0)
    modifies out
    ensures ok == (a.Length0 >= 4 && b.Length >= 2)
    ensures ok ==> Block(out) == MatMul(old(Block(a)), Rot2(b[0], b[1]))
    ensures forall p, q | 0 <= p < out.Length0 && 0 <= q < out.Length1 && (!ok || p >= 4 || q >= 4) ::
      out[p, q] == old(out[p, q])
  {
    ok := a.Length0 >= 4 && b.Length >= 2;
    if ok {
      DotMR2(a, b, out);
    }
  }

  /** `dotmv(a, b, out)` on one (n, n), (n) core. */
  method DotMVUfunc(a: array2<Complex>, b: array<Complex>, out: array<Complex>) returns (ok: bool)
    requires Square(a, a.Length0) && b.Length == a.Length0 && out.Length == a.Length0
    modifies out
    ensures ok == (a.Length0 >= 4)
    ensures ok ==> Head(out) == MatVec(old(Block(a)), old(Head(b)))
    ensures forall p | 0 <= p < out.Length && (!ok || p >= 4) :: out[p] == old(out[p])
  {
    ok := a.Length0 >= 4;
    if ok {
      DotMV(a, b, out);
    }
  }

  /**
   * `dotmdm(a, d, b, out)`: `_dotmd(a, d, out)` followed by
   * `_dotmm(out, b, out)`.  The result is (a·diag(d))·b whenever out is not
   * b; if out is b, the first step overwrites b and the result is
   * (a·diag(d))·(a·diag(d)).
   */
  method DotMDMUfunc(a: array2<Complex>, d: array<Complex>, b: array2<Complex>, out: array2<Complex>)
    returns (ok: bool)
    requires Square(a, a.Length0) && d.Length == a.Length0 && Square(b, a.Length0) && Square(out, a.Length0)
    modifies out
    ensures ok == (a.Length0 >= 4)
    ensures ok && out != b ==> Block(out) == MatMul(MatDiag(old(Block(a)), old(Head(d))), old(Block(b)))
    ensures ok && out == b ==>
      Block(out) == MatMul(MatDiag(old(Block(a)), old(Head(d))), MatDiag(old(Block(a)), old(Head(d))))
    ensures forall p, q | 0 <= p < out.Length0 && 0 <= q < out.Length1 && (!ok || p >= 4 || q >= 4) ::
      out[p, q] == old(out[p, q])
  {
    ok := a.Length0 >= 4;
    if ok {
      DotMD(a, d, out);
      DotMM(out, b, out);
    }
  }

  /** `dotm1f(a, b, out)`: one (n, n) matrix applied to every pixel of a (n, H, W) field. */
  method DotM1FUfunc(a: array2<Complex>, b: array3<Complex>, out: array3<Complex>) returns (ok: bool)
    requires Square(a, a.Length0) && b.Length0 == a.Length0
    requires out.Length0 == b.Length0 && out.Length1 == b.Length1 && out.Length2 == b.Length2
    modifies out
    ensures ok == (a.Length0 >= 4)
    ensures ok ==> forall i, j | 0 <= i < b.Length1 && 0 <= j < b.Length2 ::
      Pixel(out, i, j) == MatVec(Block(a), old(Pixel(b, i, j)))
    ensures forall c, p, q | 0 <= c < out.Length0 && 0 <= p < out.Length1 && 0 <= q < out.Length2 && (!ok || c >= 4) ::
      out[c, p, q] == old(out[c, p, q])
  {
    ok := a.Length0 >= 4;
    if ok {
      DotM1F(a, b, out);
    }
  }

  /** `dotmf(a, b, out)`: a per-pixel (H, W, n, n) matrix applied to a (n, H, W) field. */
  method DotMFUfunc(a: array4<Complex>, b: array3<Complex>, out: array3<Complex>) returns (ok: bool)
    requires a.Length0 == b.Length1 && a.Length1 == b.Length2 && a.Length2 == b.Length0 && a.Length3 == b.Length0
    requires out.Length0 == b.Length0 && out.Length1 == b.Length1 && out.Length2 == b.Length2
    modifies out
    ensures ok == (b.Length0 >= 4)
    ensures ok ==> forall i, j | 0 <= i < b.Length1 && 0 <= j < b.Length2 ::
      Pixel(out, i, j) == MatVec(PixelMatrix(a, i, j), old(Pixel(b, i, j)))
    ensures forall c, p, q | 0 <= c < out.Length0 && 0 <= p < out.Length1 && 0 <= q < out.Length2 && (!ok || c >= 4) ::
      out[c, p, q] == old(out[c, p, q])
  {
    ok := b.Length0 >= 4;
    if ok {
      DotMF(a, b, out);
    }
  }
}
