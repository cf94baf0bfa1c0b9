/**
 * The masking and composition steps of dtmm/diffract.py.  The eigenmode
 * solvers (`alphaf`, `alphaffi`, `alphaEEi`), the phase factor `phasem`,
 * the window `tukey` and the transforms `fft2`/`ifft2` are parameters or
 * inputs; what is modelled is what this file does with their results:
 * the `beta >= betamax` cutoff, the taper, the mode masks of
 * `phase_matrix`, the products `f·diag(p)·fi` and the `diffract` pipeline.
 *
 * Pixels (over all wavenumbers and the two spatial axes) are flattened
 * into one index p; eigenvalues are `(P, 4)` arrays and eigenvector
 * matrices `(P, 4, 4)` arrays.
 */
module Diffraction {
  import opened Scalars
  import opened Matrix4

  // ---------------------------------------------------------------------------
  // The betamax cutoff
  // ---------------------------------------------------------------------------

  /** `betamax` as `diffraction_alphaffi` accepts it: a number, or a pair `(b1, b2)`. */
  datatype Betamax = Single(b: real) | Pair(b1: real, b2: real)

  /** The cutoff after `b1, betamax = betamax`: the number itself, or the second element. */
  function Cutoff(bm: Betamax): real {
    match bm
    case Single(b) => b
    case Pair(_, b2) => b2
  }

  /**
   * The taper parameters `(a, b2)` with `a = (b2 - b1) / b2`, or None when
   * the `try` block is left: unpacking a number fails, and so does the
   * division when b2 is 0.
   */
  function Taper(bm: Betamax): (r: Option<(real, real)>)
    ensures r.Some? <==> bm.Pair? && bm.b2 != 0.0
    ensures r.Some? ==> r.value.1 == Cutoff(bm) && r.value.0 * bm.b2 == bm.b2 - bm.b1
  {
    match bm
    case Single(_) => None
    case Pair(b1, b2) => if b2 == 0.0 then None else Some(((b2 - b1) / b2, b2))
  }

  /** `x[beta >= cutoff] = 0` on a `(P, 4)` eigenvalue array. */
  method ZeroBeyond2(beta: array<real>, cutoff: real, x: array2<Complex>)
    requires x.Length0 == beta.Length
    modifies x
    ensures forall p, k :: 0 <= p < x.Length0 && 0 <= k < x.Length1 ==>
      x[p, k] == if beta[p] >= cutoff then Zero else old(x[p, k])
  {
    forall p, k | 0 <= p < x.Length0 && 0 <= k < x.Length1 && beta[p] >= cutoff {
      x[p, k] := Zero;
    }
  }

  /** `x[beta >= cutoff] = 0` on a `(P, 4, 4)` eigenvector array. */
  method ZeroBeyond3(beta: array<real>, cutoff: real, x: array3<Complex>)
    requires x.Length0 == beta.Length
    modifies x
    ensures forall p, i, k :: 0 <= p < x.Length0 && 0 <= i < x.Length1 && 0 <= k < x.Length2 ==>
      x[p, i, k] == if beta[p] >= cutoff then Zero else old(x[p, i, k])
  {
    forall p, i, k | 0 <= p < x.Length0 && 0 <= i < x.Length1 && 0 <= k < x.Length2 && beta[p] >= cutoff {
      x[p, i, k] := Zero;
    }
  }

  /**
   * `diffraction_alphaf` after `alphaf`: alpha and f are zeroed at every
   * pixel with `beta >= betamax` and left as computed elsewhere.
   */
  method DiffractionAlphaF(beta: array<real>, betamax: real, alpha: array2<Complex>, f: array3<Complex>)
    requires alpha.Length0 == beta.Length && f.Length0 == beta.Length
    modifies alpha, f
    ensures forall p, k :: 0 <= p < alpha.Length0 && 0 <= k < alpha.Length1 ==>
      alpha[p, k] == if beta[p] >= betamax then Zero else old(alpha[p, k])
    ensures forall p, i, k :: 0 <= p < f.Length0 && 0 <= i < f.Length1 && 0 <= k < f.Length2 ==>
      f[p, i, k] == if beta[p] >= betamax then Zero else old(f[p, i, k])
  {
    ZeroBeyond3(beta, betamax, f);
    ZeroBeyond2(beta, betamax, alpha);
  }

  /**
   * `diffraction_alphaffi` after `alphaffi`: with a pair `betamax`, f is
   * first multiplied by the window `tukey(beta, a, b2)`; then alpha, f
   * and fi are zeroed at every pixel whose beta reaches the cutoff.
   */
  method DiffractionAlphaFFi(beta: array<real>, betamax: Betamax, tukey: (real, real, real) -> real,
                             alpha: array2<Complex>, f: array3<Complex>, fi: array3<Complex>)
    requires alpha.Length0 == beta.Length && f.Length0 == beta.Length && fi.Length0 == beta.Length
    requires f != fi
    modifies alpha, f, fi
    ensures forall p, k :: 0 <= p < alpha.Length0 && 0 <= k < alpha.Length1 ==>
      alpha[p, k] == if beta[p] >= Cutoff(betamax) then Zero else old(alpha[p, k])
    ensures forall p, i, k :: 0 <= p < f.Length0 && 0 <= i < f.Length1 && 0 <= k < f.Length2 ==>
      f[p, i, k] == if beta[p] >= Cutoff(betamax) then Zero
                    else if Taper(betamax).Some? then
                      Scale(old(f[p, i, k]), tukey(beta[p], Taper(betamax).value.0, Taper(betamax).value.1))
                    else old(f[p, i, k])
    ensures forall p, i, k :: 0 <= p < fi.Length0 && 0 <= i < fi.Length1 && 0 <= k < fi.Length2 ==>
      fi[p, i, k] == if beta[p] >= Cutoff(betamax) then Zero else old(fi[p, i, k])
  {
    var taper := Taper(betamax);
    if taper.Some? {
      var (a, b2) := taper.value;
      forall p, i, k | 0 <= p < f.Length0 && 0 <= i < f.Length1 && 0 <= k < f.Length2 {
        f[p, i, k] := Scale(f[p, i, k], tukey(beta[p], a, b2));
      }
    }
    var cutoff := Cutoff(betamax);
    ZeroBeyond3(beta, cutoff, fi);
    ZeroBeyond3(beta, cutoff, f);
    ZeroBeyond2(beta, cutoff, alpha);
  }

  /** `jones_diffraction_alphajji` after `alphaEEi`: alpha, j and ji zeroed beyond betamax. */
  method JonesDiffractionAlphaJJi(beta: array<real>, betamax: real,
                                  alpha: array2<Complex>, j: array3<Complex>, ji: array3<Complex>)
    requires alpha.Length0 == beta.Length && j.Length0 == beta.Length && ji.Length0 == beta.Length
    requires j != ji
    modifies alpha, j, ji
    ensures forall p, k :: 0 <= p < alpha.Length0 && 0 <= k < alpha.Length1 ==>
      alpha[p, k] == if beta[p] >= betamax then Zero else old(alpha[p, k])
    ensures forall p, i, k :: 0 <= p < j.Length0 && 0 <= i < j.Length1 && 0 <= k < j.Length2 ==>
      j[p, i, k] == if beta[p] >= betamax then Zero else old(j[p, i, k])
    ensures forall p, i, k :: 0 <= p < ji.Length0 && 0 <= i < ji.Length1 && 0 <= k < ji.Length2 ==>
      ji[p, i, k] == if beta[p] >= betamax then Zero else old(ji[p, i, k])
  {
    ZeroBeyond3(beta, betamax, ji);
    ZeroBeyond3(beta, betamax, j);
    ZeroBeyond2(beta, betamax, alpha);
  }

  // ---------------------------------------------------------------------------
  // phase_matrix
  // ---------------------------------------------------------------------------

  /**
   * Slot k of a pixel's phase vector after the mode and mask handling:
   * "t" zeroes the odd slots, "r" the even ones, any other mode (None, or
   * the "b" of `diffraction_matrix`) none; a masked pixel is zeroed whole.
   */
  function PhaseEntry(v: Complex, k: nat, mode: Option<string>, masked: bool): Complex {
    if masked then Zero
    else if mode == Some("t") && k % 2 == 1 then Zero
    else if mode == Some("r") && k % 2 == 0 then Zero
    else v
  }

  /** `phase_matrix` on one wavenumber: `phasem` is the parameter `phase`. */
  method PhaseMatrix(alpha: array2<Complex>, kd: real, mode: Option<string>, mask: Option<array<bool>>,
                     phase: (Complex, real) -> Complex, out: array2<Complex>)
    requires out.Length0 == alpha.Length0 && out.Length1 == alpha.Length1
    requires mask.Some? ==> mask.value.Length == alpha.Length0
    modifies out
    ensures forall p, k :: 0 <= p < out.Length0 && 0 <= k < out.Length1 ==>
      out[p, k] == PhaseEntry(phase(old(alpha[p, k]), kd), k, mode, mask.Some? && mask.value[p])
  {
    forall p, k | 0 <= p < out.Length0 && 0 <= k < out.Length1 {
      out[p, k] := phase(alpha[p, k], kd);
    }
    if mode == Some("t") {
      forall p, k | 0 <= p < out.Length0 && 0 <= k < out.Length1 && k % 2 == 1 {
        out[p, k] := Zero;
      }
    } else if mode == Some("r") {
      forall p, k | 0 <= p < out.Length0 && 0 <= k < out.Length1 && k % 2 == 0 {
        out[p, k] := Zero;
      }
    }
    if mask.Some? {
      var m := mask.value;
      forall p, k | 0 <= p < out.Length0 && 0 <= k < out.Length1 && m[p] {
        out[p, k] := Zero;
      }
    }
  }

  /** The mode masks split every slot: the "t" and "r" entries add up to the unmasked one. */
  lemma PhaseModesComplementary(v: Complex, k: nat)
    ensures PhaseEntry(v, k, Some("t"), false) == (if k % 2 == 0 then v else Zero)
    ensures PhaseEntry(v, k, Some("r"), false) == (if k % 2 == 0 then Zero else v)
    ensures Add(PhaseEntry(v, k, Some("t"), false), PhaseEntry(v, k, Some("r"), false)) == PhaseEntry(v, k, None, false)
    ensures forall mode: Option<string> :: PhaseEntry(v, k, mode, true) == Zero
  {
    assert Some("t") != Some("r");
  }

  /** A pixel's phase vector, as `phase_matrix` fills one row. */
  function PhaseVec(alpha: Vec4, kd: real, mode: Option<string>, phase: (Complex, real) -> Complex): Vec4
  {
    [PhaseEntry(phase(alpha[0], kd), 0, mode, false), PhaseEntry(phase(alpha[1], kd), 1, mode, false),
     PhaseEntry(phase(alpha[2], kd), 2, mode, false), PhaseEntry(phase(alpha[3], kd), 3, mode, false)]
  }

  /** Slot k of a pixel's phase vector is the phase of alpha[k] under the mode mask of slot k. */
  lemma PhaseVecAt(alpha: Vec4, kd: real, mode: Option<string>, phase: (Complex, real) -> Complex, k: nat)
    requires k < 4
    ensures PhaseVec(alpha, kd, mode, phase)[k] == PhaseEntry(phase(alpha[k], kd), k, mode, false)
  {
    if k == 0 {} else if k == 1 {} else if k == 2 {} else {}
  }

  lemma PhaseVecComplementary(alpha: Vec4, kd: real, phase: (Complex, real) -> Complex)
    ensures VecAdd(PhaseVec(alpha, kd, Some("t"), phase), PhaseVec(alpha, kd, Some("r"), phase))
         == PhaseVec(alpha, kd, None, phase)
  {
    var t := PhaseVec(alpha, kd, Some("t"), phase);
    var r := PhaseVec(alpha, kd, Some("r"), phase);
    var n := PhaseVec(alpha, kd, None, phase);
    forall k | 0 <= k < 4 ensures VecAdd(t, r)[k] == n[k] {
      PhaseVecAt(alpha, kd, Some("t"), phase, k);
      PhaseVecAt(alpha, kd, Some("r"), phase, k);
      PhaseVecAt(alpha, kd, None, phase, k);
      PhaseModesComplementary(phase(alpha[k], kd), k);
    }
    assert VecAdd(t, r) == n;
  }

  // ---------------------------------------------------------------------------
  // diffraction_matrix, jones_diffraction_matrix, projection_matrix
  // ---------------------------------------------------------------------------

  /** `dotmdm(f, phase_matrix(alpha, kd, mode), fi)` on one pixel. */
  function DiffractionMatrix(f: Mat4, alpha: Vec4, fi: Mat4, kd: real, mode: Option<string>,
                             phase: (Complex, real) -> Complex): Mat4
  {
    MatMul(MatDiag(f, PhaseVec(alpha, kd, mode, phase)), fi)
  }

  /** `jones_diffraction_matrix`: the same product without a mode. */
  function JonesDiffractionMatrix(j: Mat4, alpha: Vec4, ji: Mat4, kd: real,
                                  phase: (Complex, real) -> Complex): Mat4
  {
    DiffractionMatrix(j, alpha, ji, kd, None, phase)
  }

  /** `projection_matrix`: the diffraction matrix with `kd = 0`. */
  function ProjectionMatrix(f: Mat4, alpha: Vec4, fi: Mat4, mode: Option<string>,
                            phase: (Complex, real) -> Complex): Mat4
  {
    DiffractionMatrix(f, alpha, fi, 0.0, mode, phase)
  }

  /** The "t" and "r" matrices of any thickness add up to the matrix without a mode. */
  lemma DiffractionModesAdd(f: Mat4, alpha: Vec4, fi: Mat4, kd: real, phase: (Complex, real) -> Complex)
    ensures MatAdd(DiffractionMatrix(f, alpha, fi, kd, Some("t"), phase),
                   DiffractionMatrix(f, alpha, fi, kd, Some("r"), phase))
         == DiffractionMatrix(f, alpha, fi, kd, None, phase)
  {
    PhaseVecComplementary(alpha, kd, phase);
    DiagProductLinear(f, PhaseVec(alpha, kd, Some("t"), phase), PhaseVec(alpha, kd, Some("r"), phase), fi);
  }

  /**
   * When the phase factor at zero thickness is 1 (`exp(0) = 1`) and fi is
   * the inverse of f, the forward and backward projections are
   * complementary: they add up to the identity.
   */
  lemma ProjectionsComplementary(f: Mat4, alpha: Vec4, fi: Mat4, phase: (Complex, real) -> Complex)
    requires forall a :: phase(a, 0.0) == One
    requires MatMul(f, fi) == Identity()
    ensures MatAdd(ProjectionMatrix(f, alpha, fi, Some("t"), phase),
                   ProjectionMatrix(f, alpha, fi, Some("r"), phase)) == Identity()
  {
    DiffractionModesAdd(f, alpha, fi, 0.0, phase);
    var ones := PhaseVec(alpha, 0.0, None, phase);
    forall k | 0 <= k < 4 ensures ones[k] == One {
      OneAt(alpha[k], phase);
    }
    var fd := MatDiag(f, ones);
    forall i, j | 0 <= i < 4 && 0 <= j < 4 ensures fd[i][j] == f[i][j] {
      MulOneRight(f[i][j]);
    }
    MatExt(fd, f);
  }

  /**
   * At zero thickness, with `exp(0) = 1` and ji the inverse of j, the Jones
   * diffraction matrix is the identity: a slab of no thickness leaves the
   * Jones field as it is.
   */
  lemma JonesZeroThickness(j: Mat4, alpha: Vec4, ji: Mat4, phase: (Complex, real) -> Complex)
    requires forall a :: phase(a, 0.0) == One
    requires MatMul(j, ji) == Identity()
    ensures JonesDiffractionMatrix(j, alpha, ji, 0.0, phase) == Identity()
  {
    var ones := PhaseVec(alpha, 0.0, None, phase);
    forall k | 0 <= k < 4 ensures ones[k] == One {
      PhaseVecAt(alpha, 0.0, None, phase, k);
      OneAt(alpha[k], phase);
    }
    var jd := MatDiag(j, ones);
    forall r, c | 0 <= r < 4 && 0 <= c < 4 ensures jd[r][c] == j[r][c] {
      MulOneRight(j[r][c]);
    }
    MatExt(jd, j);
  }

  lemma OneAt(a: Complex, phase: (Complex, real) -> Complex)
    requires forall b :: phase(b, 0.0) == One
    ensures phase(a, 0.0) == One
  {
  }

  /** A pixel cut off by betamax (f zeroed) has the zero diffraction matrix. */
  lemma CutoffPixelBlocked(f: Mat4, alpha: Vec4, fi: Mat4, kd: real, mode: Option<string>,
                           phase: (Complex, real) -> Complex)
    requires forall i, j :: 0 <= i < 4 && 0 <= j < 4 ==> f[i][j] == Zero
    ensures forall i, j :: 0 <= i < 4 && 0 <= j < 4 ==> DiffractionMatrix(f, alpha, fi, kd, mode, phase)[i][j] == Zero
  {
    var fd := MatDiag(f, PhaseVec(alpha, kd, mode, phase));
    forall i, j | 0 <= i < 4 && 0 <= j < 4 ensures fd[i][j] == Zero {
      MulZero(PhaseVec(alpha, kd, mode, phase)[j]);
    }
    forall i, k | 0 <= i < 4 && 0 <= k < 4
      ensures DiffractionMatrix(f, alpha, fi, kd, mode, phase)[i][k] == Zero
    {
      MulZero(fi[0][k]);
      MulZero(fi[1][k]);
      MulZero(fi[2][k]);
      MulZero(fi[3][k]);
      assert DiffractionMatrix(f, alpha, fi, kd, mode, phase)[i][k] == RowCol(fd, fi, i, k);
    }
  }

  // ---------------------------------------------------------------------------
  // diffract
  // ---------------------------------------------------------------------------

  /** `dotmf(dmat, f)`: each pixel's four components times that pixel's matrix. */
  function ApplyPixelwise(dmat: seq<Mat4>, f: seq<Vec4>): seq<Vec4>
    requires |dmat| == |f|
  {
    seq(|f|, p requires 0 <= p < |f| => MatVec(dmat[p], f[p]))
  }

  /** `np.multiply(out, window)`: every component of pixel p times `window[p]`. */
  function ApplyWindow(f: seq<Vec4>, window: seq<real>): seq<Vec4>
    requires |window| == |f|
  {
    seq(|f|, p requires 0 <= p < |f| => seq(4, c requires 0 <= c < 4 => Scale(f[p][c], window[p])))
  }

  /** `diffract(field, dmat, window)`: `ifft2(dotmf(dmat, fft2(field)))`, then the window if given. */
  function Diffract(field: seq<Vec4>, dmat: seq<Mat4>, window: Option<seq<real>>,
                    fft2: seq<Vec4> -> seq<Vec4>, ifft2: seq<Vec4> -> seq<Vec4>): seq<Vec4>
    requires |fft2(field)| == |dmat|
    requires window.Some? ==> |window.value| == |ifft2(ApplyPixelwise(dmat, fft2(field)))|
  {
    var out := ifft2(ApplyPixelwise(dmat, fft2(field)));
    if window.Some? then ApplyWindow(out, window.value) else out
  }

  lemma MatVecIdentity(v: Vec4)
    ensures MatVec(Identity(), v) == v
  {
    var w := MatVec(Identity(), v);
    forall i | 0 <= i < 4 ensures w[i] == v[i] {
      MulOneRight(v[i]);
      MulZero(v[0]);
      MulZero(v[1]);
      MulZero(v[2]);
      MulZero(v[3]);
    }
  }

  /** With a window, every component of pixel p of the unwindowed result is scaled by `window[p]`. */
  lemma DiffractWindowed(field: seq<Vec4>, dmat: seq<Mat4>, window: seq<real>,
                         fft2: seq<Vec4> -> seq<Vec4>, ifft2: seq<Vec4> -> seq<Vec4>)
    requires |fft2(field)| == |dmat|
    requires |window| == |ifft2(ApplyPixelwise(dmat, fft2(field)))|
    ensures var plain := Diffract(field, dmat, None, fft2, ifft2);
      var r := Diffract(field, dmat, Some(window), fft2, ifft2);
      |r| == |plain| && forall p, c :: 0 <= p < |plain| && 0 <= c < 4 ==> r[p][c] == Scale(plain[p][c], window[p])
  {
  }

  /** With identity matrices, no window and inverse transforms, diffraction changes nothing. */
  lemma DiffractIdentity(field: seq<Vec4>, dmat: seq<Mat4>, fft2: seq<Vec4> -> seq<Vec4>, ifft2: seq<Vec4> -> seq<Vec4>)
    requires |fft2(field)| == |dmat|
    requires forall p :: 0 <= p < |dmat| ==> dmat[p] == Identity()
    requires forall x :: ifft2(fft2(x)) == x
    ensures Diffract(field, dmat, None, fft2, ifft2) == field
  {
    var s := fft2(field);
    var a := ApplyPixelwise(dmat, s);
    forall p | 0 <= p < |s| ensures a[p] == s[p] {
      MatVecIdentity(s[p]);
    }
    assert a == s;
    InverseAt(field, fft2, ifft2);
  }

  lemma InverseAt(x: seq<Vec4>, f: seq<Vec4> -> seq<Vec4>, g: seq<Vec4> -> seq<Vec4>)
    requires forall y :: g(f(y)) == y
    ensures g(f(x)) == x
  {
  }

  /**
   * Two diffractions without a window are one diffraction by the product
   * matrix (B after A is B·A), when `fft2` undoes `ifft2`: the reason the
   * interface matrix can be folded into a step's diffraction matrix.
   */
  lemma DiffractCompose(field: seq<Vec4>, a: seq<Mat4>, b: seq<Mat4>,
                        fft2: seq<Vec4> -> seq<Vec4>, ifft2: seq<Vec4> -> seq<Vec4>)
    requires |fft2(field)| == |a| == |b|
    requires forall x :: fft2(ifft2(x)) == x
    ensures |fft2(Diffract(field, a, None, fft2, ifft2))| == |b|
    ensures Diffract(Diffract(field, a, None, fft2, ifft2), b, None, fft2, ifft2)
         == Diffract(field, seq(|a|, p requires 0 <= p < |a| => MatMul(b[p], a[p])), None, fft2, ifft2)
  {
    var s := fft2(field);
    var once := ApplyPixelwise(a, s);
    InverseAt(once, ifft2, fft2);
    var ba := seq(|a|, p requires 0 <= p < |a| => MatMul(b[p], a[p]));
    var twice := ApplyPixelwise(b, once);
    var direct := ApplyPixelwise(ba, s);
    forall p | 0 <= p < |s| ensures twice[p] == direct[p] {
      MatVecAssoc(b[p], a[p], s[p]);
    }
    assert twice == direct;
  }
}
