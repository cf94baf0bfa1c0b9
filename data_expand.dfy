/**
 * `expand` of dtmm/data.py: a new (z, y, x) volume prefilled with a fill
 * value, into which the data is slice-assigned at an offset.  One cell of
 * the model stands for the trailing (vector) axes of a voxel.
 *
 * The function as written unpacks the requested shape as `nz, nx, ny` and
 * compares `ny` with the data's axis 1 and `nx` with its axis 2, and takes
 * the default offset of axis 2 from the sizes of axis 1 and vice versa,
 * while it allocates and slices the volume axis by axis.  `PlaceAsWritten`
 * models that code; `Place` is the axis-by-axis reading that the
 * allocation, the slices and the documentation imply, and `Expand` uses it.
 */
module DataExpand {
  import opened Scalars

  /** A requested shape (python ints, possibly negative). */
  datatype Shape3 = Shape3(n0: int, n1: int, n2: int)

  /** The optional offsets given for axes x, y and z. */
  datatype Offsets = Offsets(x: Option<int>, y: Option<int>, z: Option<int>)

  function NoOffsets(): Offsets { Offsets(None, None, None) }

  /** A python slice bound normalised against an axis of length n. */
  function SliceBound(b: int, n: nat): (r: nat)
    ensures r <= n
  {
    if b < 0 then (if b + n < 0 then 0 else b + n) else if b > n then n else b
  }

  /**
   * Where `out[lo:lo+d]` lands on one axis: a run of `count` cells from
   * `start`, filled from an axis of length d (d cells, or one broadcast).
   */
  datatype AxisSlice = AxisSlice(start: nat, count: nat, d: nat)

  predicate AxisFits(a: AxisSlice, n: nat) {
    a.start + a.count <= n && (a.count == a.d || a.d == 1)
  }

  /**
   * The slice `off:off+d` of an axis of length n receiving an axis of
   * length d: numpy broadcasting accepts it when the lengths agree or d is 1.
   */
  function SliceAxis(off: int, d: nat, n: nat): (r: Result<AxisSlice>)
    ensures r.Ok? ==> AxisFits(r.value, n) && r.value.d == d
    ensures r.Err? ==> r.error == ValueError
  {
    var lo := SliceBound(off, n);
    var hi := SliceBound(off + d, n);
    var count := if hi > lo then hi - lo else 0;
    if count == d || d == 1 then Ok(AxisSlice(lo, count, d)) else Err(ValueError)
  }

  /** An in-range slice is taken as it is. */
  lemma SliceAxisInRange(off: int, d: nat, n: nat)
    requires 0 <= off && off + d <= n
    ensures SliceAxis(off, d, n) == Ok(AxisSlice(off, d, d))
  {
  }

  /** The output volume and the slices of its three axes. */
  datatype Placement = Placement(n0: nat, n1: nat, n2: nat, a0: AxisSlice, a1: AxisSlice, a2: AxisSlice)

  predicate ValidPlacement(p: Placement) {
    AxisFits(p.a0, p.n0) && AxisFits(p.a1, p.n1) && AxisFits(p.a2, p.n2)
  }

  function Either(o: Option<int>, default: int): int {
    if o.Some? then o.value else default
  }

  /** The three slices once the guard passed and the offsets are known. */
  function Slices(d0: nat, d1: nat, d2: nat, n0: nat, n1: nat, n2: nat, z: int, y: int, x: int): (r: Result<Placement>)
    ensures r.Ok? ==> ValidPlacement(r.value) && r.value.n0 == n0 && r.value.n1 == n1 && r.value.n2 == n2
    ensures r.Ok? ==> r.value.a0.d == d0 && r.value.a1.d == d1 && r.value.a2.d == d2
    ensures r.Err? ==> r.error == ValueError
  {
    var a0 := SliceAxis(z, d0, n0);
    var a1 := SliceAxis(y, d1, n1);
    var a2 := SliceAxis(x, d2, n2);
    if a0.Err? || a1.Err? || a2.Err? then Err(ValueError)
    else Ok(Placement(n0, n1, n2, a0.value, a1.value, a2.value))
  }

  /**
   * The placement as written: the guard tests `shape[2] >= d1` and
   * `shape[1] >= d2`, and the default offsets are `(shape[1] - d1) // 2`
   * for axis 2 and `(shape[2] - d2) // 2` for axis 1.
   */
  function PlaceAsWritten(d0: nat, d1: nat, d2: nat, shape: Shape3, offs: Offsets): (r: Result<Placement>)
    ensures r.Ok? ==> ValidPlacement(r.value)
    ensures r.Err? ==> r.error == ValueError
  {
    if shape.n0 >= d0 && shape.n2 >= d1 && shape.n1 >= d2 then
      var x := Either(offs.x, (shape.n1 - d1) / 2);
      var y := Either(offs.y, (shape.n2 - d2) / 2);
      var z := Either(offs.z, (shape.n0 - d0) / 2);
      Slices(d0, d1, d2, shape.n0, shape.n1, shape.n2, z, y, x)
    else Err(ValueError)
  }

  /** The placement axis by axis: each axis of the shape is compared with, and centred on, the same axis of the data. */
  function Place(d0: nat, d1: nat, d2: nat, shape: Shape3, offs: Offsets): (r: Result<Placement>)
    ensures r.Ok? ==> ValidPlacement(r.value)
    ensures r.Err? ==> r.error == ValueError
  {
    if shape.n0 >= d0 && shape.n1 >= d1 && shape.n2 >= d2 then
      var x := Either(offs.x, (shape.n2 - d2) / 2);
      var y := Either(offs.y, (shape.n1 - d1) / 2);
      var z := Either(offs.z, (shape.n0 - d0) / 2);
      Slices(d0, d1, d2, shape.n0, shape.n1, shape.n2, z, y, x)
    else Err(ValueError)
  }

  /** The source index along one axis for output index i, or None outside the slice. */
  function SourceIndex(a: AxisSlice, i: nat): (r: Option<nat>)
    requires a.count == a.d || a.d == 1
    ensures r.Some? ==> r.value < a.d
  {
    if a.start <= i < a.start + a.count then Some(if a.d == 1 then 0 else i - a.start) else None
  }

  /** The cell (i, j, k) of the expanded volume. */
  function Cell<T>(data: array3<T>, p: Placement, fill: T, i: nat, j: nat, k: nat): T
    requires ValidPlacement(p)
    requires p.a0.d == data.Length0 && p.a1.d == data.Length1 && p.a2.d == data.Length2
    reads data
  {
    var s0 := SourceIndex(p.a0, i);
    var s1 := SourceIndex(p.a1, j);
    var s2 := SourceIndex(p.a2, k);
    if s0.Some? && s1.Some? && s2.Some? then data[s0.value, s1.value, s2.value] else fill
  }

  /** `out = empty(shape); out[...] = fill_value; out[slices] = data`. */
  method Fill<T>(data: array3<T>, p: Placement, fill: T) returns (out: array3<T>)
    requires ValidPlacement(p)
    requires p.a0.d == data.Length0 && p.a1.d == data.Length1 && p.a2.d == data.Length2
    ensures fresh(out)
    ensures out.Length0 == p.n0 && out.Length1 == p.n1 && out.Length2 == p.n2
    ensures forall i, j, k :: 0 <= i < p.n0 && 0 <= j < p.n1 && 0 <= k < p.n2 ==>
      out[i, j, k] == Cell(data, p, fill, i, j, k)
  {
    out := new T[p.n0, p.n1, p.n2]((i, j, k) => fill);
    forall i, j, k | p.a0.start <= i < p.a0.start + p.a0.count
                  && p.a1.start <= j < p.a1.start + p.a1.count
                  && p.a2.start <= k < p.a2.start + p.a2.count
    {
      out[i, j, k] := data[SourceIndex(p.a0, i).value, SourceIndex(p.a1, j).value, SourceIndex(p.a2, k).value];
    }
  }

  /** `expand` as written. */
  method ExpandAsWritten<T>(data: array3<T>, shape: Shape3, offs: Offsets, fill: T) returns (r: Result<array3<T>>)
    ensures var p := PlaceAsWritten(data.Length0, data.Length1, data.Length2, shape, offs);
      && (r.Err? <==> p.Err?)
      && (r.Err? ==> r.error == ValueError)
      && (r.Ok? ==>
        && fresh(r.value)
        && r.value.Length0 == shape.n0 && r.value.Length1 == shape.n1 && r.value.Length2 == shape.n2
        && forall i, j, k :: 0 <= i < p.value.n0 && 0 <= j < p.value.n1 && 0 <= k < p.value.n2 ==>
             r.value[i, j, k] == Cell(data, p.value, fill, i, j, k))
  {
    var p := PlaceAsWritten(data.Length0, data.Length1, data.Length2, shape, offs);
    if p.Err? {
      return Err(ValueError);
    }
    var out := Fill(data, p.value, fill);
    return Ok(out);
  }

  /** `expand`, axis by axis. */
  method Expand<T>(data: array3<T>, shape: Shape3, offs: Offsets, fill: T) returns (r: Result<array3<T>>)
    ensures var p := Place(data.Length0, data.Length1, data.Length2, shape, offs);
      && (r.Err? <==> p.Err?)
      && (r.Err? ==> r.error == ValueError)
      && (r.Ok? ==>
        && fresh(r.value)
        && r.value.Length0 == shape.n0 && r.value.Length1 == shape.n1 && r.value.Length2 == shape.n2
        && forall i, j, k :: 0 <= i < p.value.n0 && 0 <= j < p.value.n1 && 0 <= k < p.value.n2 ==>
             r.value[i, j, k] == Cell(data, p.value, fill, i, j, k))
  {
    var p := Place(data.Length0, data.Length1, data.Length2, shape, offs);
    if p.Err? {
      return Err(ValueError);
    }
    var out := Fill(data, p.value, fill);
    return Ok(out);
  }

  /** Outside the three slices a cell holds the fill value. */
  lemma CellOutside<T>(data: array3<T>, p: Placement, fill: T, i: nat, j: nat, k: nat)
    requires ValidPlacement(p)
    requires p.a0.d == data.Length0 && p.a1.d == data.Length1 && p.a2.d == data.Length2
    requires !(p.a0.start <= i < p.a0.start + p.a0.count)
          || !(p.a1.start <= j < p.a1.start + p.a1.count)
          || !(p.a2.start <= k < p.a2.start + p.a2.count)
    ensures Cell(data, p, fill, i, j, k) == fill
  {
  }

  /**
   * The corrected placement accepts exactly the shapes at least as large as
   * the data on every axis, and without offsets centres the data: the
   * cells from `(n - d) / 2` on hold data cell by cell, so cropping the
   * output there gives the data back.
   */
  lemma PlaceCentred<T>(data: array3<T>, shape: Shape3, fill: T)
    ensures Place(data.Length0, data.Length1, data.Length2, shape, NoOffsets()).Ok? <==>
      shape.n0 >= data.Length0 && shape.n1 >= data.Length1 && shape.n2 >= data.Length2
    ensures var p := Place(data.Length0, data.Length1, data.Length2, shape, NoOffsets());
      p.Ok? ==>
        && p.value.a0 == AxisSlice((shape.n0 - data.Length0) / 2, data.Length0, data.Length0)
        && p.value.a1 == AxisSlice((shape.n1 - data.Length1) / 2, data.Length1, data.Length1)
        && p.value.a2 == AxisSlice((shape.n2 - data.Length2) / 2, data.Length2, data.Length2)
        && forall i, j, k :: 0 <= i < data.Length0 && 0 <= j < data.Length1 && 0 <= k < data.Length2 ==>
             Cell(data, p.value, fill, p.value.a0.start + i, p.value.a1.start + j, p.value.a2.start + k) == data[i, j, k]
  {
    var d0, d1, d2 := data.Length0, data.Length1, data.Length2;
    if shape.n0 >= d0 && shape.n1 >= d1 && shape.n2 >= d2 {
      SliceAxisInRange((shape.n0 - d0) / 2, d0, shape.n0);
      SliceAxisInRange((shape.n1 - d1) / 2, d1, shape.n1);
      SliceAxisInRange((shape.n2 - d2) / 2, d2, shape.n2);
    }
  }

  /** Explicit offsets that keep the data inside the volume put cell (i, j, k) of the data at (z + i, y + j, x + k). */
  lemma PlaceAtOffsets<T>(data: array3<T>, shape: Shape3, x: int, y: int, z: int, fill: T)
    requires shape.n0 >= data.Length0 && shape.n1 >= data.Length1 && shape.n2 >= data.Length2
    requires 0 <= z && z + data.Length0 <= shape.n0
    requires 0 <= y && y + data.Length1 <= shape.n1
    requires 0 <= x && x + data.Length2 <= shape.n2
    ensures var p := Place(data.Length0, data.Length1, data.Length2, shape, Offsets(Some(x), Some(y), Some(z)));
      && p.Ok?
      && forall i, j, k :: 0 <= i < data.Length0 && 0 <= j < data.Length1 && 0 <= k < data.Length2 ==>
           Cell(data, p.value, fill, z + i, y + j, x + k) == data[i, j, k]
  {
    SliceAxisInRange(z, data.Length0, shape.n0);
    SliceAxisInRange(y, data.Length1, shape.n1);
    SliceAxisInRange(x, data.Length2, shape.n2);
  }

  /**
   * As written, expanding into the data's own shape is accepted only when
   * the data is square in its last two axes; the corrected placement
   * accepts every such shape.
   */
  lemma SameShapeAsWritten(d0: nat, d1: nat, d2: nat)
    ensures PlaceAsWritten(d0, d1, d2, Shape3(d0, d1, d2), NoOffsets()).Ok? <==> d1 == d2
    ensures Place(d0, d1, d2, Shape3(d0, d1, d2), NoOffsets()).Ok?
  {
    SliceAxisInRange(0, d0, d0);
    SliceAxisInRange(0, d1, d1);
    SliceAxisInRange(0, d2, d2);
  }

  /** The concrete case: data of shape (1, 3, 1) into the shape (1, 3, 1). */
  lemma SameShapeCounterexample()
    ensures PlaceAsWritten(1, 3, 1, Shape3(1, 3, 1), NoOffsets()) == Err(ValueError)
    ensures Place(1, 3, 1, Shape3(1, 3, 1), NoOffsets()).Ok?
  {
    SameShapeAsWritten(1, 3, 1);
  }

  /** Where the guard holds and the plane is square, both placements agree. */
  lemma SquarePlaneAgrees(d0: nat, d: nat, shape: Shape3, offs: Offsets)
    requires shape.n1 == shape.n2
    ensures PlaceAsWritten(d0, d, d, shape, offs) == Place(d0, d, d, shape, offs)
  {
  }
}
