# dtmm core in Dafny

This project models the exact, sequential logic of `dtmm`, a package for
diffractive transfer-matrix optics of liquid-crystal stacks. Floating-point
values become exact `real`s, and a complex number becomes
`Complex(re, im)`. A NaN produced by a singular inverse becomes `None`.

The eigenmode solvers, the FFT, `exp` and the Tukey window belong to modules
that are not part of this model. They enter as function parameters, or, in
the transfer schedule, as symbolic constructors of a `Field` term.

The model follows the four source files:

- **`dtmm/linalg.py`** (modules `Scalars`, `Matrix4`, `CofactorProofs`,
  `Inverse4`, `Linalg`). The numba kernels become methods over Dafny arrays.
  Each writes into a caller-supplied buffer, and each proves its algebraic
  result even when that buffer aliases an input. The ufunc wrappers become
  methods that report whether the signature's dimensions fit. The closed-form
  cofactor inverse is proved to be a two-sided inverse whenever the
  determinant is non-zero.
- **`dtmm/data.py`** (modules `DataValidate`, `DataReorder`, `DataAxis`,
  `DataExpand`, `DataMaterial`). The optical-data validator works on
  abstract shapes. The module also covers:
  - the axis-order computation and the permutation of vector components;
  - the `rot90_director` axis parser, with a printing round trip;
  - `expand` on a 3-D buffer;
  - the refractive-index and uniaxial-order kernels;
  - the mask and default-thickness logic of `director2data`.
- **`dtmm/transfer.py`** (modules `TransferNormalize`, `TransferControl`,
  `TransferPropagate`, `TransferSchedule`). The module covers:
  - intensity normalisation on arrays;
  - the `norm` bit flags and the names `_projected_field` accepts;
  - `_validate_betaphi` on shapes;
  - the factor order of the corrected diffraction matrices;
  - the sub-step loop of `propagate_field_effective`;
  - the pass machine of `_transfer_field`.

  The pass machine is written as a method over symbolic field terms. It is
  proved equal to a functional specification (`Start`, `Pass`, `Settle`,
  `After`), and the schedule properties are lemmas about that specification.
- **`dtmm/diffract.py`** (module `Diffraction`). The module covers:
  - the betamax cutoff zeroing of the three eigenmode builders;
  - the "t"/"r" mode masks of `phase_matrix`;
  - the `f·diag(p)·fi` composition behind `diffraction_matrix` and
    `projection_matrix`;
  - `diffract` as `ifft2 ∘ per-pixel product ∘ fft2`.

## Model

| member | source | states |
|---|---|---|
| Scalars.Inv | dtmm/linalg.py:76-92 | the reciprocal of a non-zero complex number z satisfies z·r = 1 (the division by the determinant) |
| Matrix4.RotProductIsProduct | dtmm/linalg.py:157-196 | the rotation-pattern product equals `a` times the matrix with rows (c,0,-s,0), (0,c,0,s), (s,0,c,0), (0,-s,0,c) |
| Matrix4.RotProductUnit | dtmm/linalg.py:157-196 | with (c, s) = (1, 0) the rotation product returns `a` unchanged |
| Matrix4.DiagProductLinear | dtmm/linalg.py:553-557 | `a·diag(d1+d2)·b` is the sum of `a·diag(d1)·b` and `a·diag(d2)·b` |
| Matrix4.MatVecAssoc | dtmm/linalg.py:199-207 | applying the product of two matrices to a vector equals applying them one after the other |
| Inverse4.AdjugateRight | dtmm/linalg.py:27-92 | the kernel's cofactor matrix C satisfies M·C = det(M)·I entrywise, with det(M) = Σ M[r][0]·C[0][r] |
| Inverse4.AdjugateLeft | dtmm/linalg.py:27-92 | the cofactor matrix also satisfies C·M = det(M)·I |
| Inverse4.InverseIsTwoSided | dtmm/linalg.py:98-108 | for det(M) != 0 the inverse exists and M·inv(M) = inv(M)·M = I |
| Inverse4.InverseNoneIffSingular | dtmm/linalg.py:76-92 | the inverse is undefined (NaN) exactly when the determinant is zero |
| Linalg.DotMM | dtmm/linalg.py:115-154 | the 4×4 block of `out` is a·b computed from the inputs' old values, even when `out` aliases `a` or `b`; cells outside the block are unchanged |
| Linalg.DotMD | dtmm/linalg.py:210-249 | `out` holds a·diag(b[0..4]), also under aliasing; other cells unchanged |
| Linalg.DotMR2 | dtmm/linalg.py:157-196 | `out` holds `a` times the rotation matrix built from b[0], b[1] |
| Linalg.DotMV | dtmm/linalg.py:199-207 | the first four entries of `out` are a·b from the old values; the rest unchanged |
| Linalg.MulNaN | dtmm/linalg.py:86-92 | a product is defined exactly when both factors are, and then equals their product (NaN propagation) |
| Linalg.StoreCofactors | dtmm/linalg.py:27-75 | the 4×4 block of `dst` holds the 16 cofactors of the source matrix |
| Linalg.RescaleBlock | dtmm/linalg.py:84-92 | each block entry is multiplied by the scale, and becomes NaN when the scale is NaN |
| Linalg.Inv4x4 | dtmm/linalg.py:27-92 | each entry of `dst` is the cofactor divided by Σ src[r][0]·dst[0][r]; all sixteen entries are NaN exactly when that determinant is 0 |
| Linalg.DotM1F | dtmm/linalg.py:253-269 | every pixel column of `out` is a·b[:,i,j] from the old values, so `out == b` is safe; channels from 4 on are unchanged |
| Linalg.DotMF | dtmm/linalg.py:272-288 | every pixel column of `out` is a[i,j]·b[:,i,j] using the per-pixel matrix |
| Linalg.TransmitPixelIsProduct | dtmm/linalg.py:349-370 | the per-pixel transmit is a[i,j]·diag(phase(kd·Re d[i,j,k]))·b[i,j] applied to the field column |
| Linalg.TransmitRow | dtmm/linalg.py:358-370 | one row of pixels is transmitted; every other row is unchanged |
| Linalg.Transmit | dtmm/linalg.py:349-370 | every pixel of `out` is the transmitted old field column; only the real part of `d` is used |
| Linalg.Inv4x4Ufunc | dtmm/linalg.py:97-110 | reports whether the matrices are at least 4×4; when they are, the result is the kernel's inverse, and otherwise `output` is untouched |
| Linalg.DotMMUfunc | dtmm/linalg.py:528-532 | the `dotmm` ufunc: the `assert` on the core size (false where it would raise AssertionError), then the 4×4 product |
| Linalg.DotMDUfunc | dtmm/linalg.py:534-538 | the `dotmd` ufunc: the `assert` on the core size (false where it would raise AssertionError), then a·diag(d) |
| Linalg.DotMR2Ufunc | dtmm/linalg.py:540-544 | the `dotmr2` ufunc: the `assert` on the core size (false where it would raise AssertionError), then the rotation product |
| Linalg.DotMVUfunc | dtmm/linalg.py:546-550 | the `dotmv` ufunc: the `assert` on the core size (false where it would raise AssertionError), then the matrix·vector product |
| Linalg.DotMDMUfunc | dtmm/linalg.py:552-557 | `dotmdm(a,d,b)` via the one `out` buffer is (a·diag(d))·b when `out` is not `b`; when `out` aliases `b` the result is stated as well |
| Linalg.DotM1FUfunc | dtmm/linalg.py:468-472 | the `dotm1f` ufunc: the `assert` on the core size (false where it would raise AssertionError), then the per-pixel product |
| Linalg.DotMFUfunc | dtmm/linalg.py:474-478 | the `dotmf` ufunc: the `assert` on the core size (false where it would raise AssertionError), then the per-pixel matrix product |
| DataValidate.ThicknessNDimChecked | dtmm/data.py:294-302 | a thickness that is neither 0-d nor 1-d is a ValueError; on success the thickness is 1-d |
| DataValidate.ValidatedShapes | dtmm/data.py:323-345 | on success thickness, material and angles all have length n, material and angles share a shape, and the ndim is 2 (homogeneous) or 4 |
| DataValidate.NormalFormAccepted | dtmm/data.py:271-348 | data already in normal form is returned as it is |
| DataValidate.SingleLayerBroadcast | dtmm/data.py:318-319 | a single-layer material is broadcast to n identical layers |
| DataValidate.WrongNDimRejected | dtmm/data.py:330-345 | a material of the wrong ndim is rejected |
| DataReorder.Find | dtmm/data.py:459-469 | `str.find`: -1 exactly when the letter is absent, otherwise its first position |
| DataReorder.Axes | dtmm/data.py:459-469 | every computed axis is a position in `order` |
| DataReorder.AxesLabels | dtmm/data.py:464-465 | axis k of the tuple is the position in `order` of the k-th target letter that `order` holds (absent letters are skipped) |
| DataReorder.ReorderShape | dtmm/data.py:459-469 | for data whose axis i has the size of letter `order[i]`, the array `_reorder` returns has at axis k the size of the k-th target letter present in `order` (of `target[k]` when every letter is present); unchanged data is already in target order |
| DataReorder.AxesAllFound | dtmm/data.py:459-469 | when every target letter occurs in `order`, `axes[k]` is the position of `target[k]` |
| DataReorder.AxesMissing | dtmm/data.py:459-469 | an absent letter is skipped, so fewer axes come out |
| DataReorder.ReorderSame | dtmm/data.py:459-460 | an order equal to the target returns the data unchanged |
| DataReorder.ReorderPermutation | dtmm/data.py:461-469 | a permutation of the target gives a valid transpose that puts every letter in place |
| DataReorder.ReorderMissingLetter | dtmm/data.py:461-469 | a missing letter gives a ValueError from the transpose |
| DataReorder.ReorderXyzn | dtmm/data.py:438-469 | "xyzn" into "zyxn" is the transpose [2, 1, 0, 3] |
| DataReorder.Targets | dtmm/data.py:381-389 | the target slots of `nvec`, each below the channel count |
| DataReorder.AtMostThree | dtmm/data.py:381-389 | distinct letters from {x, y, z} number at most three |
| DataReorder.TargetsCharacterised | dtmm/data.py:381-389 | the slots exist exactly when `nvec` has distinct letters from {x, y, z}, and then slot k is the index of `nvec[k]` |
| DataReorder.SourceOf | dtmm/data.py:381-389 | the writer of channel j is its position among the targets, and there is none when no letter targets it |
| DataReorder.CopyChannel | dtmm/data.py:386-387 | `out[..., j] = data[..., i]` changes channel j only |
| DataReorder.Raw2DirectorChannels | dtmm/data.py:351-389 | "xyz" returns the input; otherwise it succeeds exactly when the slots exist, and every written channel holds the data of its letter |
| DataAxis.ParseDigits | dtmm/data.py:188-210 | `int` of a digit string succeeds exactly on non-empty all-digit strings |
| DataAxis.ParseShowNat | dtmm/data.py:188-210 | parsing the decimal form of n gives n |
| DataAxis.ParseShowInt | dtmm/data.py:188-210 | parsing the signed decimal form of k gives k |
| DataAxis.ParseRot90AxisRoundTrip | dtmm/data.py:188-210 | an axis string made of a count and a known letter parses back to that count and that letter's plane |
| DataAxis.ParseRot90AxisExamples | dtmm/data.py:188-210 | "x"→1, "+x"→1, "-x"→-1, "2y"→2, "-3z"→-3 with planes (1,0), (0,2), (2,1); "" is an IndexError; "qx" is a ValueError |
| DataAxis.ParseRot90AxisUnknownLetter | dtmm/data.py:204-210 | any other final letter is a ValueError |
| DataAxis.ParseRot90AxisPlane | dtmm/data.py:188-210 | an accepted string ends in a known letter and yields that letter's plane |
| DataExpand.SliceAxis | dtmm/data.py:877 | numpy's slice assignment on one axis: accepted when the lengths agree or the data axis has length 1, otherwise a ValueError |
| DataExpand.SliceAxisInRange | dtmm/data.py:877 | an in-range slice is taken as it is |
| DataExpand.PlaceAsWritten | dtmm/data.py:862-881 | the guard and the default offsets as written through `nz, nx, ny = shape` |
| DataExpand.Place | dtmm/data.py:862-881 | the guard and the default offsets axis by axis |
| DataExpand.Fill | dtmm/data.py:866-877 | a fresh volume of the requested shape in which every cell is a data value inside the slice and the fill value elsewhere |
| DataExpand.ExpandAsWritten | dtmm/data.py:830-881 | the code as written: a ValueError exactly when its placement fails, otherwise the filled volume |
| DataExpand.Expand | dtmm/data.py:830-881 | the axis-by-axis placement: a ValueError exactly when it fails, otherwise the filled volume |
| DataExpand.CellOutside | dtmm/data.py:866-867 | every cell outside the copied box holds the fill value |
| DataExpand.PlaceCentred | dtmm/data.py:869-877 | with default offsets, the placement succeeds exactly when the shape is at least the data's on every axis, and then the data is centred at `(shape − data)//2` |
| DataExpand.PlaceAtOffsets | dtmm/data.py:869-877 | for in-range offsets, each cell of the box holds the data at the given offsets |
| DataExpand.SameShapeAsWritten | dtmm/data.py:862-864 | as written, expanding into the data's own shape is accepted exactly when the last two axes are equal; the axis-by-axis placement always accepts it |
| DataExpand.SameShapeCounterexample | dtmm/data.py:862-864 | data of shape (1,3,1) into (1,3,1) is rejected as written and accepted axis by axis |
| DataExpand.SquarePlaneAgrees | dtmm/data.py:862-877 | on square planes the written code and the axis-by-axis reading agree |
| DataMaterial.RealIndexRealEps | dtmm/data.py:891-906 | a real index gives a real eps n² |
| DataMaterial.UniaxialOrderInvariants | dtmm/data.py:932-951 | the output has out[0] == out[1], the same mean as the input, and anisotropy scaled by the order |
| DataMaterial.UniaxialOrderBranchesAgree | dtmm/data.py:932-951 | the real and complex branches compute the same values |
| DataMaterial.UniaxialOrderPerfect | dtmm/data.py:932-951 | order 1 leaves a uniaxial eps unchanged |
| DataMaterial.UniaxialOrderCompose | dtmm/data.py:932-951 | applying order t and then order s equals applying order s·t |
| DataMaterial.UniaxialOrderExampleIsotropic | dtmm/data.py:959-969 | order 0 on (1,2,3) gives the mean (2,2,2) |
| DataMaterial.UniaxialOrderReal | dtmm/data.py:932-951 | on real eps the output is m − δ/3, m − δ/3, m + 2δ/3 with δ scaled by the order |
| DataMaterial.UniaxialOrderExamplePerfect | dtmm/data.py:966-969 | order 1 on (1,2,3) gives (1.5, 1.5, 3) |
| DataMaterial.RefindToEpsKernel | dtmm/data.py:891-906 | the kernel writes the squared indices into `out`, also when `out` aliases the input |
| DataMaterial.UniaxialOrderKernel | dtmm/data.py:932-951 | the kernel writes the uniaxial-order triple into `out`, also when `out` aliases `eps` |
| DataMaterial.RefindToEpsUfunc | dtmm/data.py:910-924 | the ufunc runs the kernel exactly when the last axis has length 3 |
| DataMaterial.UniaxialOrderUfunc | dtmm/data.py:959-969 | the ufunc runs the kernel exactly when the last axis has length 3 |
| DataMaterial.DefaultThickness | dtmm/data.py:262-266 | a missing thickness becomes one 1.0 per layer; a given one is kept |
| DataMaterial.DirectorToData | dtmm/data.py:218-268 | a mask without `nhost` is a TypeError; otherwise the real buffer of line 250 holds at every voxel the uniaxial material of its order (inside the mask) or the host material (outside), each from the real part of the squared indices |
| DataMaterial.RealIndicesKeepMaterial | dtmm/data.py:250-259 | for real indices the real buffer loses nothing: a voxel holds the full (complex-typed) result of `refind2eps` and `uniaxial_order` |
| DataMaterial.HostMaterialTruncated | dtmm/data.py:250-259 | a complex host index is stored as the real part of nhost², re² − im²; its imaginary part is dropped |
| DataMaterial.FullOrderMaterial | dtmm/data.py:218-268 | a voxel of order 1 inside the mask with real indices has eps (no², no², ne²) |
| DataMaterial.ZeroOrderMaterial | dtmm/data.py:218-268 | a voxel of order 0 is isotropic at the mean of the real parts of (no², no², ne²) |
| TransferNormalize.ClampUnit | dtmm/transfer.py:91-94 | the clamped absolute factor lies in [0, 1] |
| TransferNormalize.FactorIsClampedRatio | dtmm/transfer.py:87-95 | the factor is min(\|i_in/i_out\|, 1), and it is 0 where i_out == 0 |
| TransferNormalize.FactorOfEqualIntensities | dtmm/transfer.py:87-95 | equal non-zero intensities leave the field unchanged |
| TransferNormalize.MaskIntensities2 | dtmm/transfer.py:88-90 | where i_out == 0, i_out becomes 1 and i_in becomes 0; every other cell is unchanged |
| TransferNormalize.NormalizeField | dtmm/transfer.py:87-95 | every field sample is scaled by its pixel's factor, and the intensity arrays are overwritten as above |
| TransferNormalize.MaskIntensities1 | dtmm/transfer.py:143-145 | the same overwrite on per-field totals |
| TransferNormalize.NormalizeFieldTotal | dtmm/transfer.py:142-151 | each field is scaled by the factor of its two totals |
| TransferControl.DecodeNormBits | dtmm/transfer.py:392-400 | calc_reference is set iff bit 1 is set; "fft" iff bit 0 is set; otherwise "local" iff bit 1 is set and "total" iff it is not |
| TransferControl.DecodeNormValues | dtmm/transfer.py:392-400 | 0, 1, 2, 3 decode to total, fft, local with a reference, and fft with a reference |
| TransferControl.DecodeNormLowBits | dtmm/transfer.py:392-400 | only the two low bits matter |
| TransferControl.ProjectionNorm | dtmm/transfer.py:179-188 | the only error is a ValueError |
| TransferControl.ProjectionNormAccepts | dtmm/transfer.py:179-188 | a name is accepted exactly when it is "fft", "local" or "total", and it selects that normalisation |
| TransferControl.DecodedNormAccepted | dtmm/transfer.py:392-400 | every decoded flag value names a normalisation that `_projected_field` accepts |
| TransferControl.TrailingOnes | dtmm/transfer.py:44-46 | `extendeddim` axes of length 1 (none for a negative count) |
| TransferControl.ValidateBetaPhi | dtmm/transfer.py:33-49 | the only error is a ValueError |
| TransferControl.ValidateBetaPhiAccepts | dtmm/transfer.py:33-49 | accepted exactly when both are scalars, or both are 1-D of the same length; a 1-D pair gains `extendeddim` trailing axes of length 1 |
| TransferControl.CorrectedMatrixOrder | dtmm/transfer.py:71-74 | on a field vector the correction acts first going forward and last going backward |
| TransferPropagate.StepMatrix | dtmm/transfer.py:598-606 | a sub-step has no matrix exactly when neither `dmat` nor `rmat` is given, and without `rmat` it uses `dmat` |
| TransferPropagate.Schedule | dtmm/transfer.py:595-618 | one matrix per sub-step: the first composes `rmat`, every later one is `dmat` |
| TransferPropagate.PropagateFieldEffective | dtmm/transfer.py:595-618 | the loop applies exactly `nsteps` sub-steps with the scheduled matrices, consuming `rmat` on the first |
| TransferPropagate.StepsWithoutInterface | dtmm/transfer.py:595-618 | without `rmat` the loop is `nsteps` identical sub-steps |
| TransferPropagate.StepsIsSchedule | dtmm/transfer.py:595-618 | the step recursion equals applying the schedule |
| TransferPropagate.NoMatricesIsTransferOnly | dtmm/transfer.py:616-618 | with no matrices the loop is `nsteps` local transfers |
| TransferPropagate.IterateExt | dtmm/transfer.py:595-618 | iterating equal step functions gives equal results |
| TransferPropagate.BackwardUndoesForward | dtmm/transfer.py:607-615 | a backward sub-step with the inverse transfer and inverse diffraction undoes a forward one |
| TransferPropagate.StepIsProduct | dtmm/transfer.py:607-615 | on a pixel a forward sub-step is T·D and a backward one D·T |
| TransferSchedule.Substeps | dtmm/transfer.py:419 | `nsteps` broadcast to one value per layer, or a ValueError |
| TransferSchedule.Reverse | dtmm/transfer.py:517 | `indices.reverse()` |
| TransferSchedule.OrderExplicit | dtmm/transfer.py:468-517 | pass i visits layer k when i is even and layer n−1−k when it is odd |
| TransferSchedule.OrderBounded | dtmm/transfer.py:468-517 | every visited index is a layer of the stack |
| TransferSchedule.CallsOfPass | dtmm/transfer.py:468-506 | one propagation call per layer in each pass |
| TransferSchedule.After | dtmm/transfer.py:462-556 | an input layer is in play exactly when reflections survive the interference switch |
| TransferSchedule.PassKeepsInput | dtmm/transfer.py:505-506 | a pass keeps an input layer present or absent |
| TransferSchedule.RunPass | dtmm/transfer.py:468-506 | one pass's loop over the layers equals the specified calls, the field fold, the reference fold and the final input layer |
| TransferSchedule.VisitLayer | dtmm/transfer.py:481-506 | the body for one layer: its call, its reference call, and the field, reference and input layer afterwards |
| TransferSchedule.SnocPrefix | dtmm/transfer.py:468-506 | extending a prefix by one element |
| TransferSchedule.ThroughSnoc | dtmm/transfer.py:493-503 | one more layer propagates the accumulated field once more |
| TransferSchedule.RefThroughSnoc | dtmm/transfer.py:487-491 | one more layer propagates the reference once more |
| TransferSchedule.DoPass | dtmm/transfer.py:468-556 | one pass with the end-of-pass rules equals `Pass`, with the specified calls |
| TransferSchedule.TransferField | dtmm/transfer.py:382-558 | an error exactly when `Failure` names one, and that error; otherwise the accumulated `field_out` and `field_in` of `After(npass)` and every pass's calls; with no passes both outputs stay zero |
| TransferSchedule.RunPasses | dtmm/transfer.py:468-556 | the loop over passes reaches `After(npass)` and records each pass's calls |
| TransferSchedule.CallSchedule | dtmm/transfer.py:480-484 | call k of pass i propagates layer k or n−1−k with thickness d·(−1)^i, in "t" mode exactly when interference is off |
| TransferSchedule.ConsecutivePassesReverse | dtmm/transfer.py:517 | consecutive passes visit the layers in opposite orders with thicknesses of opposite sign |
| TransferSchedule.InputLayerSchedule | dtmm/transfer.py:439-466 | interference is forced when npass > 1, mode is "t" iff interference is off, and an input layer is passed exactly when reflections survive and effective data is used |
| TransferSchedule.ReferenceTracksFlag | dtmm/transfer.py:447-450 | a reference field exists after every pass exactly when bit 1 of `norm` is set |
| TransferSchedule.SinglePass | dtmm/transfer.py:546-556 | a single pass restores `field_in` to the input, and `field_out` is the pass's result, rescaled in "t" mode without reflections |
| TransferSchedule.NoInputLayerWithInterference | dtmm/transfer.py:462-466 | with interference no input layer is ever used |
| TransferSchedule.EvenPassAccumulates | dtmm/transfer.py:518-531 | an even pass adds its field to `field_out` and continues with that sum |
| TransferSchedule.OddPassReinjects | dtmm/transfer.py:532-545 | an odd pass rescales `field_out` and reinjects the reflected part into `field_in` |
| Diffraction.Taper | dtmm/diffract.py:75-83 | the taper applies exactly to a pair with a non-zero second element, whose cutoff is used |
| Diffraction.ZeroBeyond2 | dtmm/diffract.py:43-46 | rows with beta >= cutoff are zeroed; every other row is unchanged |
| Diffraction.ZeroBeyond3 | dtmm/diffract.py:43-46 | the same masking on matrices |
| Diffraction.DiffractionAlphaF | dtmm/diffract.py:18-48 | `alpha` and `f` are zeroed at every beta >= betamax and untouched elsewhere |
| Diffraction.DiffractionAlphaFFi | dtmm/diffract.py:51-92 | `alpha`, `f` and `fi` are zeroed at every beta >= the cutoff (the pair's second element), after the taper when there is one |
| Diffraction.JonesDiffractionAlphaJJi | dtmm/diffract.py:95-122 | `alpha`, `j` and `ji` are zeroed at every beta >= betamax |
| Diffraction.PhaseMatrix | dtmm/diffract.py:151-166 | each slot holds the phase of its alpha, with odd slots zeroed in "t", even slots zeroed in "r", and masked pixels all zero |
| Diffraction.PhaseModesComplementary | dtmm/diffract.py:151-163 | "t" keeps even slots, "r" keeps odd slots, the two add up to the unmasked result, and a mask zeroes everything |
| Diffraction.PhaseVecAt | dtmm/diffract.py:151-163 | slot k of a pixel's phase vector is the phase of alpha[k], kept or zeroed by the mode mask of slot k |
| Diffraction.PhaseVecComplementary | dtmm/diffract.py:151-163 | the "t" and "r" phase vectors add up to the "b" one |
| Diffraction.JonesZeroThickness | dtmm/diffract.py:180-189 | the Jones matrix j·diag(phase)·ji at zero thickness, with exp(0) = 1 and ji the inverse of j, is the identity |
| Diffraction.DiffractionModesAdd | dtmm/diffract.py:237-241 | the "t" and "r" matrices add up to the "b" matrix |
| Diffraction.ProjectionsComplementary | dtmm/diffract.py:231-241 | when phase(·, 0) = 1 and f·fi = I, the "t" and "r" projections add up to the identity |
| Diffraction.CutoffPixelBlocked | dtmm/diffract.py:75-89 | a pixel whose modes were zeroed by the cutoff has an all-zero diffraction matrix |
| Diffraction.DiffractWindowed | dtmm/diffract.py:244-250 | with a window, each pixel of `ifft2(dotmf(dmat, fft2(field)))` is scaled by its window value |
| Diffraction.DiffractIdentity | dtmm/diffract.py:244-250 | identity matrices with an inverse FFT pair leave the field unchanged |
| Diffraction.DiffractCompose | dtmm/diffract.py:244-250 | diffracting by `a` and then by `b` equals diffracting once by the pixelwise product b·a |

## Left out

- Linear algebra: the sums are exact over `real`. Floating-point rounding and the NaN arithmetic of numpy are not modelled; a NaN is `None` and propagates explicitly.
- Parallelism: numba's `prange` loops are modelled as sequential loops, and the kernels' `cache`/`fastmath` flags play no part in the model.
- Broadcasting: gufunc broadcasting over leading dimensions is not modelled. The ufunc wrappers work on one core operand, and their result is the kernel's guard together with the kernel's contract.
- Linalg.Transmit: requires `out` to differ from `d`, because the kernel reads `d` for every pixel after writing. The callers in the source never alias them.
- Linalg.DotMDMUfunc: when `out` aliases `b`, the contract states the result the code produces but does not claim it is (a·diag(d))·b; no caller in the source aliases `b`.
- General uninterpreted functions: `np.exp` becomes a `phase` parameter. The eigenmode primitives (`alphaf`, `alphaffi`, `alphajji_xy`, `alphaEEi`), `phasem`, `tukey`, `fft2`/`ifft2`, `field2intensity` and `total_intensity` are parameters or symbolic `Field` constructors; their numerics belong to modules that are not part of this model.
- Uninterpreted `transfer.py` helpers: `transmitted_field`, `jones2H`, `transmit_jones`, `propagate_field_full`, `normalize_input_field`, and the three `diffract_normalized_*` functions are symbolic steps of the schedule: `Transmitted`, `WithH`, `ExitJones`, `Propagated` and `EnergyScaled`.
- `transfer_field`: the wavelength split loop and its argument plumbing around `_transfer_field` are not modelled; nor are verbose printing and the progress output.
- `_isotropic_effective_data`: the effective data is an input (`dEff`), and `validate_optical_data` is not re-run inside `_transfer_field`; the model keeps only the layer counts.
- TransferSchedule.TransferField: the diffraction flag, the beta/phi values and the wavenumbers passed to each propagation are not recorded in a `Call`; only the layer, thicknesses, sub-step count, mode, input layer and the effective switch are.
- TransferSchedule.TransferField: when an error is raised after `field_in` was zeroed (the order IndexError or the missing-input NameError), the model reports only the error, not the caller's modified `field_in`.
- TransferSchedule.Failure: the `norm == 2` test at dtmm/transfer.py:443 can never hold, because `norm` is a string by then (392-400), so that branch is modelled as never taken.
- Diffraction.PhaseMatrix: models a single wavenumber (one `kd`) per call; the array of wavenumbers is a loop over calls.
- Diffraction.DiffractionAlphaF: `betamax` is a scalar here, as in the function's own cutoff; the pair form with a taper is modelled for `diffraction_alphaffi`, which is the only function that accepts it.
- Diffraction.DiffractionAlphaFFi: `tukey` is a parameter, and a pair whose second element is 0 skips the taper (the division raises and is swallowed), as the `try` block does.
- DataMaterial.DirectorToData: the angles computed from the director (`director2angles`) and the order from `director2order` are transcendental and enter as inputs.
- DataAxis.ParseInt: Python's `int` also accepts surrounding whitespace, underscores between digits and non-ASCII Unicode decimal digits; the model accepts an optional sign followed by the ASCII digits 0-9 only.
- DataExpand.Expand: the trailing (vector) axes of a voxel are one cell, and numpy's handling of overlapping copies does not arise.
- File I/O (`read_raw`, `read_director`, `save_stack`, `load_stack`) and the transcendental data helpers (`director2order`, `director2angles`, `angles2director`, `sphere_mask`, the droplet and cholesteric generators, `rotate_director`) are outside the modelled core.
- `_transmitr` and the commented-out kernels and wrappers in `dtmm/linalg.py` are dead code and are not modelled.

## Findings

| source | as written | input that shows it | evidently intended | confidence | as-written member | corrected member |
|---|---|---|---|---|---|---|
| dtmm/data.py:862-877 | `nz, nx, ny = shape` and then `ny >= data.shape[1] and nx >= data.shape[2]`, while the volume is allocated with `shape` and sliced axis by axis; the default x offset also uses `shape[1] - data.shape[1]` | data of shape (1, 3, 1) expanded into shape (1, 3, 1): the guard compares 1 >= 3 and raises ValueError | each axis of `shape` is compared with, and centred on, the same axis of the data, so any shape at least as large as the data on every axis is accepted | not executed; follows from the text of the code | DataExpand.PlaceAsWritten, DataExpand.ExpandAsWritten, DataExpand.SameShapeCounterexample | DataExpand.Place, DataExpand.Expand, DataExpand.PlaceCentred |
