/**
 * `validate_optical_data` of dtmm/data.py over abstract n-dimensional
 * arrays: a shape and an element function.  Only shapes decide whether the
 * data is accepted; the element function records what broadcasting does.
 */
module DataValidate {
  import opened Scalars

  /** An n-d array: its shape and the element at each index. */
  datatype NdArray<T> = NdArray(shape: seq<nat>, at: seq<nat> -> T)

  function NDim<T>(a: NdArray<T>): nat { |a.shape| }

  /** `len(a)`: the first dimension; a 0-d array has no length (TypeError). */
  function Len<T>(a: NdArray<T>): Result<nat> {
    if |a.shape| == 0 then Err(TypeError) else Ok(a.shape[0])
  }

  /** `a[None]`: a new leading axis of length 1. */
  function NewAxis<T>(a: NdArray<T>): (r: NdArray<T>)
    ensures r.shape == [1] + a.shape
  {
    NdArray([1] + a.shape, (idx: seq<nat>) => a.at(if |idx| > 0 then idx[1..] else idx))
  }

  /** `np.broadcast_to(a, (n,) + a.shape)`: n copies of a along a new first axis. */
  function Repeat<T>(a: NdArray<T>, n: nat): (r: NdArray<T>)
    ensures r.shape == [n] + a.shape
  {
    NdArray([n] + a.shape, (idx: seq<nat>) => a.at(if |idx| > 0 then idx[1..] else idx))
  }

  /** The validated (thickness, material, angles) triple. */
  datatype OpticalData = OpticalData(thickness: NdArray<real>, material: NdArray<Complex>, angles: NdArray<real>)

  /** ndim of a single layer: 1 when homogeneous, 3 otherwise. */
  function LayerNDim(homogeneous: bool): nat { if homogeneous then 1 else 3 }

  /** `material` or `angles` after the single-layer broadcast. */
  function BroadcastLayers<T>(a: NdArray<T>, n: nat, homogeneous: bool): NdArray<T> {
    if NDim(a) == LayerNDim(homogeneous) then Repeat(a, n) else a
  }

  /** One of the two stacks: broadcast, then the length and the ndim checks. */
  function CheckStack<T>(a: NdArray<T>, n: nat, homogeneous: bool): Result<NdArray<T>> {
    var b := BroadcastLayers(a, n, homogeneous);
    var len := Len(b);
    if len.Err? then Err(len.error)
    else if len.value != n then Err(ValueError)
    else if NDim(b) != LayerNDim(homogeneous) + 1 then Err(ValueError)
    else Ok(b)
  }

  /** `validate_optical_data(data, homogeneous)`; the returned copies are values here. */
  function ValidateOpticalData(data: OpticalData, homogeneous: bool): Result<OpticalData> {
    var t := data.thickness;
    if NDim(t) != 0 && NDim(t) != 1 then Err(ValueError)
    else
      var t1 := if NDim(t) == 0 then NewAxis(t) else t;
      var n := t1.shape[0];
      var m := CheckStack(data.material, n, homogeneous);
      if m.Err? then Err(m.error)
      else
        var a := CheckStack(data.angles, n, homogeneous);
        if a.Err? then Err(a.error)
        else if m.value.shape != a.value.shape then Err(ValueError)
        else Ok(OpticalData(t1, m.value, a.value))
  }

  /** A thickness that is neither 0-d nor 1-d is rejected. */
  lemma ThicknessNDimChecked(data: OpticalData, homogeneous: bool)
    ensures NDim(data.thickness) != 0 && NDim(data.thickness) != 1 ==>
      ValidateOpticalData(data, homogeneous) == Err(ValueError)
    ensures ValidateOpticalData(data, homogeneous).Ok? ==>
      var t := ValidateOpticalData(data, homogeneous).value.thickness;
      NDim(t) == 1 && (NDim(data.thickness) == 0 ==> t.shape == [1] && t.at([0]) == data.thickness.at([]))
  {
    var zero: seq<nat> := [0];
    assert zero[1..] == [];
  }

  /**
   * On success all three parts have the same number n of layers, material
   * and angles have the same shape, and that shape has ndim 2 when
   * homogeneous and 4 otherwise.
   */
  lemma ValidatedShapes(data: OpticalData, homogeneous: bool)
    requires ValidateOpticalData(data, homogeneous).Ok?
    ensures var r := ValidateOpticalData(data, homogeneous).value;
      && NDim(r.thickness) == 1
      && NDim(r.material) == (if homogeneous then 2 else 4)
      && r.material.shape == r.angles.shape
      && r.material.shape[0] == r.thickness.shape[0]
      && r.angles.shape[0] == r.thickness.shape[0]
  {
  }

  /** Data already in the normal form is accepted and returned as it is. */
  lemma NormalFormAccepted(data: OpticalData, homogeneous: bool)
    requires NDim(data.thickness) == 1
    requires NDim(data.material) == LayerNDim(homogeneous) + 1
    requires data.material.shape == data.angles.shape
    requires data.material.shape[0] == data.thickness.shape[0]
    ensures ValidateOpticalData(data, homogeneous) == Ok(data)
  {
  }

  /**
   * A single layer of material (ndim 1 when homogeneous, 3 otherwise) is
   * broadcast to n identical layers, n being the number of thicknesses.
   */
  lemma SingleLayerBroadcast(data: OpticalData, homogeneous: bool, idx: seq<nat>)
    requires ValidateOpticalData(data, homogeneous).Ok?
    requires NDim(data.material) == LayerNDim(homogeneous)
    requires |idx| > 0
    ensures var r := ValidateOpticalData(data, homogeneous).value;
      && r.material.shape == [r.thickness.shape[0]] + data.material.shape
      && r.material.at(idx) == data.material.at(idx[1..])
  {
  }

  /** Any stack whose ndim is wrong after broadcasting is rejected. */
  lemma WrongNDimRejected(data: OpticalData, homogeneous: bool)
    requires NDim(data.thickness) == 1
    requires NDim(data.material) != LayerNDim(homogeneous)
    requires NDim(data.material) != LayerNDim(homogeneous) + 1
    ensures ValidateOpticalData(data, homogeneous).Err?
  {
  }
}
