/**
 * The intensity normalisation of dtmm/transfer.py: `normalize_field`
 * (per pixel) and `normalize_field_total` (per field).  Both first
 * overwrite the caller's intensity arrays where the output intensity is
 * zero (output 1, input 0), then scale the field by the clamped ratio
 * `min(|i_in / i_out|, 1)`.
 */
module TransferNormalize {
  import opened Scalars

  function Abs(x: real): real { if x < 0.0 then -x else x }

  /** `fact[fact <= -1] = -1; fact[fact >= 1] = 1; abs(fact)`. */
  function ClampUnit(x: real): (r: real)
    ensures 0.0 <= r <= 1.0
  {
    var c := if x <= -1.0 then -1.0 else if x >= 1.0 then 1.0 else x;
    Abs(c)
  }

  /** The intensities after the overwrite where the output intensity is zero. */
  function MaskedIn(iin: real, iout: real): real { if iout == 0.0 then 0.0 else iin }
  function MaskedOut(iout: real): real { if iout == 0.0 then 1.0 else iout }

  /** The scale factor of one pixel (or one field) from its two original intensities. */
  function Factor(iin: real, iout: real): real {
    ClampUnit(MaskedIn(iin, iout) / MaskedOut(iout))
  }

  /** The factor is `min(|i_in / i_out|, 1)`, and exactly 0 where the output intensity is 0. */
  lemma FactorIsClampedRatio(iin: real, iout: real)
    ensures 0.0 <= Factor(iin, iout) <= 1.0
    ensures iout == 0.0 ==> Factor(iin, iout) == 0.0
    ensures iout != 0.0 ==>
      Factor(iin, iout) == (if Abs(iin / iout) >= 1.0 then 1.0 else Abs(iin / iout))
  {
  }

  /** Equal non-zero intensities leave the field as it is. */
  lemma FactorOfEqualIntensities(i: real)
    requires i != 0.0
    ensures Factor(i, i) == 1.0
  {
    assert i / i == 1.0;
  }

  /** `m = iout == 0; iout[m] = 1; iin[m] = 0` on (H, W) intensity arrays. */
  method MaskIntensities2(iin: array2<real>, iout: array2<real>)
    requires iin.Length0 == iout.Length0 && iin.Length1 == iout.Length1 && iin != iout
    modifies iin, iout
    ensures forall i, j :: 0 <= i < iin.Length0 && 0 <= j < iin.Length1 ==>
      iin[i, j] == MaskedIn(old(iin[i, j]), old(iout[i, j])) && iout[i, j] == MaskedOut(old(iout[i, j]))
  {
    forall i, j | 0 <= i < iout.Length0 && 0 <= j < iout.Length1 && iout[i, j] == 0.0 {
      iin[i, j] := 0.0;
    }
    forall i, j | 0 <= i < iout.Length0 && 0 <= j < iout.Length1 && iout[i, j] == 0.0 {
      iout[i, j] := 1.0;
    }
  }

  /**
   * `normalize_field(field, intensity_in, intensity_out, out)` for a field of
   * shape (C, H, W) and intensities of shape (H, W); out may be field.
   */
  method NormalizeField(field: array3<Complex>, iin: array2<real>, iout: array2<real>, out: array3<Complex>)
    requires iin.Length0 == iout.Length0 == field.Length1 && iin.Length1 == iout.Length1 == field.Length2
    requires out.Length0 == field.Length0 && out.Length1 == field.Length1 && out.Length2 == field.Length2
    requires iin != iout
    modifies iin, iout, out
    ensures forall i, j :: 0 <= i < iin.Length0 && 0 <= j < iin.Length1 ==>
      iin[i, j] == MaskedIn(old(iin[i, j]), old(iout[i, j])) && iout[i, j] == MaskedOut(old(iout[i, j]))
    ensures forall c, i, j :: 0 <= c < out.Length0 && 0 <= i < out.Length1 && 0 <= j < out.Length2 ==>
      out[c, i, j] == Scale(old(field[c, i, j]), Factor(old(iin[i, j]), old(iout[i, j])))
  {
    MaskIntensities2(iin, iout);
    forall c, i, j | 0 <= c < out.Length0 && 0 <= i < out.Length1 && 0 <= j < out.Length2 {
      out[c, i, j] := Scale(field[c, i, j], ClampUnit(iin[i, j] / iout[i, j]));
    }
  }

  /** `m = i2 == 0; i2[m] = 1; i1[m] = 0` on per-field totals. */
  method MaskIntensities1(i1: array<real>, i2: array<real>)
    requires i1.Length == i2.Length && i1 != i2
    modifies i1, i2
    ensures forall n :: 0 <= n < i1.Length ==>
      i1[n] == MaskedIn(old(i1[n]), old(i2[n])) && i2[n] == MaskedOut(old(i2[n]))
  {
    forall n | 0 <= n < i2.Length && i2[n] == 0.0 {
      i1[n] := 0.0;
    }
    forall n | 0 <= n < i2.Length && i2[n] == 0.0 {
      i2[n] := 1.0;
    }
  }

  /**
   * `normalize_field_total(field, i1, i2, out)` for N fields of shape
   * (C, H, W), each scaled by the factor of its two total intensities.
   */
  method NormalizeFieldTotal(field: array4<Complex>, i1: array<real>, i2: array<real>, out: array4<Complex>)
    requires i1.Length == i2.Length == field.Length0 && i1 != i2
    requires out.Length0 == field.Length0 && out.Length1 == field.Length1
    requires out.Length2 == field.Length2 && out.Length3 == field.Length3
    modifies i1, i2, out
    ensures forall n :: 0 <= n < i1.Length ==>
      i1[n] == MaskedIn(old(i1[n]), old(i2[n])) && i2[n] == MaskedOut(old(i2[n]))
    ensures forall n, c, i, j :: 0 <= n < out.Length0 && 0 <= c < out.Length1 && 0 <= i < out.Length2 && 0 <= j < out.Length3 ==>
      out[n, c, i, j] == Scale(old(field[n, c, i, j]), Factor(old(i1[n]), old(i2[n])))
  {
    MaskIntensities1(i1, i2);
    forall n, c, i, j | 0 <= n < out.Length0 && 0 <= c < out.Length1 && 0 <= i < out.Length2 && 0 <= j < out.Length3 {
      out[n, c, i, j] := Scale(field[n, c, i, j], ClampUnit(i1[n] / i2[n]));
    }
  }
}
