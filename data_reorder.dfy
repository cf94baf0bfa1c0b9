/**
 * `_reorder` and `raw2director` of dtmm/data.py: the axis order that
 * `np.transpose` is given, and the permutation of the director's
 * coordinate channels through a popped dictionary.
 */
module DataReorder {
  import opened Scalars

  /** `s.find(c)`: the first position of c in s, or -1. */
  function Find(s: string, c: char): (r: int)
    ensures r == -1 <==> c !in s
    ensures r != -1 ==> 0 <= r < |s| && s[r] == c && c !in s[..r]
  {
    if |s| == 0 then -1
    else if s[0] == c then 0
    else
      var r := Find(s[1..], c);
      assert s[1..][..(if r == -1 then 0 else r)] == s[1..1 + (if r == -1 then 0 else r)];
      if r == -1 then -1 else r + 1
  }

  /** `tuple(i for i in (order.find(c) for c in target) if i != -1)`. */
  function Axes(order: string, target: string): (axes: seq<nat>)
    ensures |axes| <= |target|
    ensures forall k :: 0 <= k < |axes| ==> axes[k] < |order|
  {
    if |target| == 0 then []
    else
      var i := Find(order, target[0]);
      if i == -1 then Axes(order, target[1..]) else [i as nat] + Axes(order, target[1..])
  }

  /** `np.transpose(data, axes)` succeeds: a permutation of 0..ndim-1. */
  predicate ValidAxes(axes: seq<nat>, ndim: nat) {
    && |axes| == ndim
    && (forall k :: 0 <= k < |axes| ==> axes[k] < ndim)
    && (forall k, l :: 0 <= k < l < |axes| ==> axes[k] != axes[l])
  }

  /** What `_reorder` returns: the data itself, or its transpose by `axes`. */
  datatype Reordered = Same | Transposed(axes: seq<nat>)

  /** `_reorder(data, order, target)` for data of the given ndim; every failure is a ValueError. */
  function Reorder(order: string, target: string, ndim: nat): Result<Reordered> {
    if order == target then Ok(Same)
    else
      var axes := Axes(order, target);
      if ValidAxes(axes, ndim) then Ok(Transposed(axes)) else Err(ValueError)
  }

  /** The shape of `np.transpose(data, axes)`: axis k of the result is axis axes[k] of the data. */
  function TransposeShape(shape: seq<nat>, axes: seq<nat>): seq<nat>
    requires ValidAxes(axes, |shape|)
  {
    seq(|axes|, k requires 0 <= k < |axes| => shape[axes[k]])
  }

  predicate Distinct(s: string) {
    forall k, l :: 0 <= k < l < |s| ==> s[k] != s[l]
  }

  /** When every target letter occurs in order, axes[k] points at target[k]. */
  lemma {:induction false} AxesAllFound(order: string, target: string)
    requires forall k :: 0 <= k < |target| ==> target[k] in order
    ensures |Axes(order, target)| == |target|
    ensures forall k :: 0 <= k < |target| ==> order[Axes(order, target)[k]] == target[k]
  {
    if |target| > 0 {
      AxesAllFound(order, target[1..]);
    }
  }

  /** A target letter missing from order makes the axes tuple shorter than the target. */
  lemma {:induction false} AxesMissing(order: string, target: string, m: nat)
    requires m < |target| && target[m] !in order
    ensures |Axes(order, target)| < |target|
  {
    if m > 0 {
      AxesMissing(order, target[1..], m - 1);
    }
  }

  /** Order equal to the target: the data is returned as it is. */
  lemma ReorderSame(order: string, ndim: nat)
    ensures Reorder(order, order, ndim) == Ok(Same)
  {
  }

  /**
   * An order that holds every letter of the target (distinct letters, one per
   * axis) is accepted, and the transposed axis k is the one labelled target[k].
   */
  lemma ReorderPermutation(order: string, target: string)
    requires Distinct(target) && |order| == |target|
    requires forall k :: 0 <= k < |target| ==> target[k] in order
    ensures Reorder(order, target, |target|).Ok?
    ensures Reorder(order, target, |target|).value.Transposed? ==>
      var axes := Reorder(order, target, |target|).value.axes;
      |axes| == |target| && forall k :: 0 <= k < |target| ==> order[axes[k]] == target[k]
  {
    AxesAllFound(order, target);
  }

  /** An order lacking one of the target's letters is rejected for data with one axis per target letter. */
  lemma ReorderMissingLetter(order: string, target: string, m: nat)
    requires m < |target| && target[m] !in order
    ensures Reorder(order, target, |target|) == Err(ValueError)
  {
    AxesMissing(order, target, m);
  }

  /** The example of the documentation: "xyzn" data is read back in "zyxn" order by axes (2, 1, 0, 3). */
  lemma ReorderXyzn()
    ensures Reorder("xyzn", "zyxn", 4) == Ok(Transposed([2, 1, 0, 3]))
  {
    assert "zyxn"[1..] == "yxn" && "yxn"[1..] == "xn" && "xn"[1..] == "n" && "n"[1..] == "";
    assert Find("xyzn", 'z') == 2;
    assert Find("xyzn", 'y') == 1;
    assert Find("xyzn", 'x') == 0;
    assert Find("xyzn", 'n') == 3;
    assert Axes("xyzn", "n") == [3];
    assert Axes("xyzn", "xn") == [0, 3];
    assert Axes("xyzn", "yxn") == [1, 0, 3];
    assert Axes("xyzn", "zyxn") == [2, 1, 0, 3];
  }

  /** The letters of target that occur in order, in target's order. */
  function Present(order: string, target: string): string {
    if |target| == 0 then ""
    else if target[0] in order then [target[0]] + Present(order, target[1..])
    else Present(order, target[1..])
  }

  /** Every target letter occurs in order: none is skipped. */
  lemma {:induction false} PresentAll(order: string, target: string)
    requires forall k :: 0 <= k < |target| ==> target[k] in order
    ensures Present(order, target) == target
  {
    if |target| > 0 {
      PresentAll(order, target[1..]);
    }
  }

  /** Axis k of the tuple is the position in order of the k-th target letter that order holds. */
  lemma {:induction false} AxesLabels(order: string, target: string)
    ensures |Axes(order, target)| == |Present(order, target)|
    ensures forall k :: 0 <= k < |Axes(order, target)| ==> order[Axes(order, target)[k]] == Present(order, target)[k]
  {
    if |target| > 0 {
      AxesLabels(order, target[1..]);
    }
  }

  /** The axis lengths of data laid out in `order`: axis i has the size of letter order[i]. */
  predicate Labelled(shape: seq<nat>, order: string, size: map<char, nat>) {
    |order| == |shape| && forall i :: 0 <= i < |shape| ==> order[i] in size && size[order[i]] == shape[i]
  }

  /**
   * What `_reorder` promises: the array it returns carries its axes in the
   * target's letter order.  Unchanged data already is in that order; a
   * transposed array has at axis k the size of the k-th target letter
   * present in `order`, which is target[k] itself when `order` holds every
   * target letter.
   */
  lemma ReorderShape(order: string, target: string, shape: seq<nat>, size: map<char, nat>)
    requires Labelled(shape, order, size)
    requires Reorder(order, target, |shape|).Ok?
    ensures Reorder(order, target, |shape|).value.Same? ==> order == target && Labelled(shape, target, size)
    ensures Reorder(order, target, |shape|).value.Transposed? ==>
      var axes := Reorder(order, target, |shape|).value.axes;
      var labels := Present(order, target);
      && ValidAxes(axes, |shape|)
      && Labelled(TransposeShape(shape, axes), labels, size)
      && ((forall k :: 0 <= k < |target| ==> target[k] in order) ==> labels == target)
  {
    if order != target {
      var axes := Axes(order, target);
      AxesLabels(order, target);
      var t := TransposeShape(shape, axes);
      var labels := Present(order, target);
      forall k | 0 <= k < |t|
        ensures labels[k] in size && size[labels[k]] == t[k]
      {
        assert order[axes[k]] == labels[k];
      }
      if forall k :: 0 <= k < |target| ==> target[k] in order {
        PresentAll(order, target);
      }
    }
  }

  // ---------------------------------------------------------------------------
  // raw2director: the coordinate channels
  // ---------------------------------------------------------------------------

  /** The dictionary `{"x": 0, "y": 1, "z": 2}`. */
  function SlotIndex(): map<char, nat> {
    map['x' := 0, 'y' := 1, 'z' := 2]
  }

  /**
   * The channel written by each step of the loop, from step i on, given the
   * dictionary left by the earlier pops and the channel count c: a popped
   * letter that is absent is a KeyError, a channel index i or j past c an
   * IndexError.
   */
  function TargetsFrom(nvec: string, i: nat, index: map<char, nat>, c: nat): (r: Result<seq<nat>>)
    requires i <= |nvec|
    ensures r.Ok? ==> |r.value| == |nvec| - i && forall k :: 0 <= k < |r.value| ==> r.value[k] < c && i + k < c
    ensures r.Ok? && i < |nvec| ==> |nvec| <= c
    decreases |nvec| - i
  {
    if i == |nvec| then Ok([])
    else if nvec[i] !in index then Err(KeyError)
    else
      var j := index[nvec[i]];
      if i >= c || j >= c then Err(IndexError)
      else
        var rest := TargetsFrom(nvec, i + 1, index - {nvec[i]}, c);
        if rest.Err? then rest else Ok([j] + rest.value)
  }

  /** The channels `out[..., j]` that the loop assigns, in loop order. */
  function Targets(nvec: string, c: nat): (r: Result<seq<nat>>)
    ensures r.Ok? ==> |r.value| == |nvec| <= c && forall k :: 0 <= k < |nvec| ==> r.value[k] < c
  {
    TargetsFrom(nvec, 0, SlotIndex(), c)
  }

  /** The letters still in the dictionary at step i are the coordinates not yet popped. */
  predicate IndexLeft(nvec: string, i: nat, index: map<char, nat>)
    requires i <= |nvec|
  {
    forall ch :: ch in index <==> ch in SlotIndex() && ch !in nvec[..i]
  }

  /** Distinct letters among x, y and z are at most three. */
  lemma AtMostThree(nvec: string)
    requires Distinct(nvec)
    requires forall k :: 0 <= k < |nvec| ==> nvec[k] in SlotIndex()
    ensures |nvec| <= 3
  {
    if |nvec| >= 4 {
      FourLettersRepeat(nvec);
    }
  }

  /** Four letters among x, y and z cannot all differ. */
  lemma FourLettersRepeat(s: string)
    requires |s| >= 4
    requires forall k :: 0 <= k < |s| ==> s[k] in SlotIndex()
    ensures !Distinct(s)
  {
    assert s[0] in SlotIndex() && s[1] in SlotIndex() && s[2] in SlotIndex() && s[3] in SlotIndex();
    assert s[0] == s[1] || s[0] == s[2] || s[0] == s[3] || s[1] == s[2] || s[1] == s[3] || s[2] == s[3];
  }

  /** For distinct letters of "xyz" and at least three channels, every step succeeds and writes its letter's slot. */
  lemma {:induction false} TargetsFromDistinct(nvec: string, i: nat, index: map<char, nat>, c: nat)
    requires i <= |nvec| && Distinct(nvec) && c >= 3
    requires forall k :: 0 <= k < |nvec| ==> nvec[k] in SlotIndex()
    requires IndexLeft(nvec, i, index)
    requires forall ch :: ch in index ==> index[ch] == SlotIndex()[ch]
    ensures TargetsFrom(nvec, i, index, c).Ok?
    ensures var t := TargetsFrom(nvec, i, index, c).value;
      |t| == |nvec| - i && forall k :: 0 <= k < |t| ==> t[k] == SlotIndex()[nvec[i + k]]
    decreases |nvec| - i
  {
    if i < |nvec| {
      assert nvec[i] !in nvec[..i];
      AtMostThree(nvec);
      var next := index - {nvec[i]};
      assert nvec[..i + 1] == nvec[..i] + [nvec[i]];
      assert IndexLeft(nvec, i + 1, next);
      TargetsFromDistinct(nvec, i + 1, next, c);
    }
  }

  /** A letter preceded by the same letter, or not a coordinate at all, makes its pop fail. */
  lemma {:induction false} TargetsFromBadLetter(nvec: string, i: nat, index: map<char, nat>, c: nat, m: nat)
    requires i <= m < |nvec| && IndexLeft(nvec, i, index)
    requires nvec[m] !in SlotIndex() || nvec[m] in nvec[..m]
    ensures TargetsFrom(nvec, i, index, c).Err?
    decreases m - i
  {
    if i < m && nvec[i] in index && i < c && index[nvec[i]] < c {
      var next := index - {nvec[i]};
      assert nvec[..i + 1] == nvec[..i] + [nvec[i]];
      assert IndexLeft(nvec, i + 1, next);
      TargetsFromBadLetter(nvec, i + 1, next, c, m);
    } else if i == m {
      assert nvec[m] !in index;
    }
  }

  /**
   * With at least three channels, the loop succeeds exactly when `nvec` is
   * made of distinct letters among x, y and z, and then the i-th channel
   * goes to the slot of letter `nvec[i]`.
   */
  lemma TargetsCharacterised(nvec: string, c: nat)
    requires c >= 3
    ensures Targets(nvec, c).Ok? <==>
      Distinct(nvec) && forall k :: 0 <= k < |nvec| ==> nvec[k] in SlotIndex()
    ensures Targets(nvec, c).Ok? ==>
      var t := Targets(nvec, c).value;
      |t| == |nvec| && forall k :: 0 <= k < |nvec| ==> t[k] == SlotIndex()[nvec[k]]
  {
    assert IndexLeft(nvec, 0, SlotIndex());
    if Distinct(nvec) && forall k :: 0 <= k < |nvec| ==> nvec[k] in SlotIndex() {
      TargetsFromDistinct(nvec, 0, SlotIndex(), c);
    } else if exists m :: 0 <= m < |nvec| && nvec[m] !in SlotIndex() {
      var m :| 0 <= m < |nvec| && nvec[m] !in SlotIndex();
      TargetsFromBadLetter(nvec, 0, SlotIndex(), c, m);
    } else {
      var k, l :| 0 <= k < l < |nvec| && nvec[k] == nvec[l];
      assert nvec[l] in nvec[..l];
      TargetsFromBadLetter(nvec, 0, SlotIndex(), c, l);
    }
  }

  /** The most recent loop step that wrote channel j, if any. */
  function SourceOf(done: seq<nat>, j: nat): (r: Option<nat>)
    ensures r.Some? ==> r.value < |done| && done[r.value] == j
    ensures r.None? <==> j !in done
  {
    if |done| == 0 then None
    else if done[|done| - 1] == j then Some(|done| - 1)
    else
      var r := SourceOf(done[..|done| - 1], j);
      assert done == done[..|done| - 1] + [done[|done| - 1]];
      r
  }

  /** What `raw2director` returns for the channel step: its input, or a fresh array. */
  datatype Channels<T> = Input | Fresh(out: array2<Option<T>>)

  function Prefix(r: Result<seq<nat>>, done: seq<nat>): Result<seq<nat>> {
    if r.Ok? then Ok(done + r.value) else r
  }

  lemma PrefixEmpty(r: Result<seq<nat>>)
    ensures Prefix(r, []) == r
  {
    if r.Ok? {
      assert [] + r.value == r.value;
    }
  }

  lemma PrefixStep(r: Result<seq<nat>>, done: seq<nat>, j: nat)
    ensures Prefix(if r.Err? then r else Ok([j] + r.value), done) == Prefix(r, done + [j])
  {
    if r.Ok? {
      assert done + ([j] + r.value) == (done + [j]) + r.value;
    }
  }

  /** Channel j of pixel p once the steps in `done` have run: the source channel it was copied from, or unset. */
  function Written<T>(data: array2<T>, done: seq<nat>, p: nat, j: nat): Option<T>
    requires p < data.Length0 && |done| <= data.Length1
    reads data
  {
    match SourceOf(done, j)
    case None => None
    case Some(k) => Some(data[p, k])
  }

  /** `out[..., j] = data[..., i]`. */
  method CopyChannel<T>(data: array2<T>, out: array2<Option<T>>, i: nat, j: nat)
    requires out.Length0 == data.Length0 && out.Length1 == data.Length1
    requires i < data.Length1 && j < data.Length1
    requires data as object != out as object
    modifies out
    ensures forall q, l :: 0 <= q < out.Length0 && 0 <= l < out.Length1 ==>
      out[q, l] == if l == j then Some(data[q, i]) else old(out[q, l])
  {
    for p := 0 to data.Length0
      invariant forall q :: 0 <= q < p ==> out[q, j] == Some(data[q, i])
      invariant forall q, l :: 0 <= q < out.Length0 && 0 <= l < out.Length1 && (l != j || q >= p) ==>
        out[q, l] == old(out[q, l])
    {
      out[p, j] := Some(data[p, i]);
    }
  }

  /**
   * The channel step of `raw2director` on data flattened to (pixels, c): with
   * `nvec == "xyz"` the input itself; otherwise a new array (None marks what
   * `np.empty_like` leaves unset) whose channel j holds the input channel i
   * with `nvec[i]` the letter of j, or the error of the first failing step.
   */
  method Raw2DirectorChannels<T>(data: array2<T>, nvec: string) returns (r: Result<Channels<T>>)
    ensures nvec == "xyz" ==> r == Ok(Input)
    ensures nvec != "xyz" ==> (r.Ok? <==> Targets(nvec, data.Length1).Ok?)
    ensures nvec != "xyz" && r.Err? ==> r.error == Targets(nvec, data.Length1).error
    ensures nvec != "xyz" && r.Ok? ==>
      && r.value.Fresh? && fresh(r.value.out)
      && r.value.out.Length0 == data.Length0 && r.value.out.Length1 == data.Length1
      && forall p, j :: 0 <= p < data.Length0 && 0 <= j < data.Length1 ==>
           r.value.out[p, j] == Written(data, Targets(nvec, data.Length1).value, p, j)
  {
    if nvec == "xyz" {
      return Ok(Input);
    }
    var out := new Option<T>[data.Length0, data.Length1]((p, j) => None);
    var index := SlotIndex();
    ghost var done: seq<nat> := [];
    PrefixEmpty(Targets(nvec, data.Length1));
    for i := 0 to |nvec|
      invariant |done| == i && i <= data.Length1 && (forall k :: 0 <= k < i ==> done[k] < data.Length1)
      invariant Targets(nvec, data.Length1) == Prefix(TargetsFrom(nvec, i, index, data.Length1), done)
      invariant forall p, j :: 0 <= p < data.Length0 && 0 <= j < data.Length1 ==>
        out[p, j] == Written(data, done, p, j)
    {
      if nvec[i] !in index {
        return Err(KeyError);
      }
      var j := index[nvec[i]];
      if i >= data.Length1 || j >= data.Length1 {
        return Err(IndexError);
      }
      PrefixStep(TargetsFrom(nvec, i + 1, index - {nvec[i]}, data.Length1), done, j);
      index := index - {nvec[i]};
      CopyChannel(data, out, i, j);
      assert (done + [j])[..|done|] == done;
      done := done + [j];
    }
    assert done + [] == done;
    assert Targets(nvec, data.Length1).value == done;
    return Ok(Fresh(out));
  }
}
