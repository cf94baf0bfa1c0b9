/**
 * The small decisions of dtmm/transfer.py: the `norm` bit flags, the
 * normalisation names `_projected_field` accepts, `_validate_betaphi` on
 * array shapes, and the order of the two factors in
 * `corrected_diffraction_matrix` / `corrected_jones_diffraction_matrix`.
 */
module TransferControl {
  import opened Scalars
  import opened Matrix4

  /** `DTMM_NORM_FFT = 1 << 0` and `DTMM_NORM_REF = 1 << 1`. */
  const NormFft: nat := 1
  const NormRef: nat := 2

  /** `x & (1 << k)` is non-zero: bit k of x. */
  predicate Bit(x: nat, k: nat) {
    (x / Pow2(k)) % 2 == 1
  }

  function Pow2(k: nat): (r: nat)
    ensures r > 0
  {
    if k == 0 then 1 else 2 * Pow2(k - 1)
  }

  /** The normalisation kinds, by the names the code uses. */
  datatype NormKind = Fft | Local | Total

  function NormName(n: NormKind): string {
    match n
    case Fft => "fft"
    case Local => "local"
    case Total => "total"
  }

  /** The decoded flags: whether a reference field is computed, and the normalisation name. */
  datatype NormMode = NormMode(calcReference: bool, norm: NormKind)

  /**
   * `calc_reference = bool(norm & DTMM_NORM_REF)`, then "fft" if the FFT
   * bit is set, else "local" with a reference and "total" without.
   */
  function DecodeNorm(flags: nat): NormMode {
    var calcReference := Bit(flags, 1);
    var norm := if Bit(flags, 0) then Fft else if calcReference then Local else Total;
    NormMode(calcReference, norm)
  }

  /** Bit 1 alone decides the reference; bit 0 alone picks "fft" among the three. */
  lemma DecodeNormBits(flags: nat)
    ensures DecodeNorm(flags).calcReference <==> (flags / 2) % 2 == 1
    ensures DecodeNorm(flags).norm == Fft <==> flags % 2 == 1
    ensures DecodeNorm(flags).norm == Local <==> flags % 2 == 0 && (flags / 2) % 2 == 1
    ensures DecodeNorm(flags).norm == Total <==> flags % 2 == 0 && (flags / 2) % 2 == 0
  {
    assert Pow2(0) == 1;
    assert Pow2(1) == 2;
  }

  /** The four documented flag values 0, 1, 2 and 3. */
  lemma DecodeNormValues()
    ensures DecodeNorm(0) == NormMode(false, Total)
    ensures DecodeNorm(1) == NormMode(false, Fft)
    ensures DecodeNorm(2) == NormMode(true, Local)
    ensures DecodeNorm(3) == NormMode(true, Fft)
  {
    DecodeNormBits(0);
    DecodeNormBits(1);
    DecodeNormBits(2);
    DecodeNormBits(3);
  }

  /** Only bits 0 and 1 matter: flags that agree modulo 4 decode alike. */
  lemma DecodeNormLowBits(flags: nat)
    ensures DecodeNorm(flags) == DecodeNorm(flags % 4)
  {
    DecodeNormBits(flags);
    DecodeNormBits(flags % 4);
    assert flags % 4 % 2 == flags % 2;
    assert (flags % 4) / 2 == (flags / 2) % 2;
  }

  /** The normalisation `_projected_field` applies; a name it does not know is a ValueError. */
  datatype Projection = Plain | Normalized(kind: NormKind)

  function ProjectionNorm(norm: Option<string>): (r: Result<Projection>)
    ensures r.Err? ==> r.error == ValueError
  {
    if norm.None? then Ok(Plain)
    else if norm.value == "fft" then Ok(Normalized(Fft))
    else if norm.value == "local" then Ok(Normalized(Local))
    else if norm.value == "total" then Ok(Normalized(Total))
    else Err(ValueError)
  }

  /** A name is accepted exactly when it is one of the three, and it selects that kind. */
  lemma ProjectionNormAccepts(norm: string)
    ensures ProjectionNorm(Some(norm)).Ok? <==> norm in {"fft", "local", "total"}
    ensures forall k: NormKind :: ProjectionNorm(Some(NormName(k))) == Ok(Normalized(k))
  {
    forall k: NormKind ensures ProjectionNorm(Some(NormName(k))) == Ok(Normalized(k)) {
      match k
      case Fft =>
      case Local => assert NormName(k) != "fft";
      case Total => assert NormName(k) != "fft" && NormName(k) != "local";
    }
  }

  /** Whatever the flags, the name they decode to is accepted downstream. */
  lemma DecodedNormAccepted(flags: nat)
    ensures ProjectionNorm(Some(NormName(DecodeNorm(flags).norm))) == Ok(Normalized(DecodeNorm(flags).norm))
  {
    ProjectionNormAccepts(NormName(DecodeNorm(flags).norm));
  }

  // ---------------------------------------------------------------------------
  // _validate_betaphi, on shapes
  // ---------------------------------------------------------------------------

  /** `extendeddim` trailing axes of length 1 (`range` of a negative count is empty). */
  function TrailingOnes(extendeddim: int): (r: seq<nat>)
    ensures |r| == if extendeddim < 0 then 0 else extendeddim
    ensures forall k :: 0 <= k < |r| ==> r[k] == 1
  {
    if extendeddim <= 0 then [] else TrailingOnes(extendeddim - 1) + [1]
  }

  /**
   * `_validate_betaphi(beta, phi, extendeddim)`: the shapes of the two
   * returned arrays (their values are unchanged).
   */
  function ValidateBetaPhi(beta: seq<nat>, phi: seq<nat>, extendeddim: int): (r: Result<(seq<nat>, seq<nat>)>)
    ensures r.Err? ==> r.error == ValueError
  {
    if |beta| != |phi| then Err(ValueError)
    else if |beta| == 1 then
      if beta[0] != phi[0] then Err(ValueError)
      else Ok((beta + TrailingOnes(extendeddim), phi + TrailingOnes(extendeddim)))
    else if |beta| != 0 then Err(ValueError)
    else Ok((beta, phi))
  }

  /**
   * Accepted are two scalars, returned as they are, and two 1-D arrays of
   * the same length n, returned with shape (n, 1, ..., 1).
   */
  lemma ValidateBetaPhiAccepts(beta: seq<nat>, phi: seq<nat>, extendeddim: int)
    ensures ValidateBetaPhi(beta, phi, extendeddim).Ok? <==>
      (|beta| == 0 && |phi| == 0) || (|beta| == 1 && |phi| == 1 && beta[0] == phi[0])
    ensures ValidateBetaPhi(beta, phi, extendeddim).Ok? && |beta| == 1 ==>
      var (b, p) := ValidateBetaPhi(beta, phi, extendeddim).value;
      b == p && |b| == 1 + (if extendeddim < 0 then 0 else extendeddim) && b[0] == beta[0]
      && forall k :: 1 <= k < |b| ==> b[k] == 1
  {
  }

  // ---------------------------------------------------------------------------
  // corrected_diffraction_matrix and its Jones variant
  // ---------------------------------------------------------------------------

  /** `dotmm(dmat, cmat)` when d > 0, else `dotmm(cmat, dmat)`, pixel by pixel. */
  function CorrectedMatrix(d: real, dmat: Mat4, cmat: Mat4): Mat4
  {
    if d > 0.0 then MatMul(dmat, cmat) else MatMul(cmat, dmat)
  }

  /**
   * On a field vector the correction acts first when propagating forward
   * (d > 0) and last when propagating backward.
   */
  lemma CorrectedMatrixOrder(d: real, dmat: Mat4, cmat: Mat4, v: Vec4)
    ensures MatVec(CorrectedMatrix(d, dmat, cmat), v) ==
      if d > 0.0 then MatVec(dmat, MatVec(cmat, v)) else MatVec(cmat, MatVec(dmat, v))
  {
    if d > 0.0 {
      MatVecAssoc(dmat, cmat, v);
    } else {
      MatVecAssoc(cmat, dmat, v);
    }
  }
}
