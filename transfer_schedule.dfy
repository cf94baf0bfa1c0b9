/**
 * The control flow of `_transfer_field` (dtmm/transfer.py): the passes
 * through the stack, the layer order and thickness sign of each pass,
 * the interference / mode / reflection switches, the reference field,
 * and the `field`, `field_out` and `field_in` accumulators.
 *
 * Fields are symbolic terms: every numerical step (propagation through a
 * layer, projection onto the forward modes, normalisation, the Jones to
 * H-field completion, exit transmission) is a constructor recording its
 * arguments, so the model says exactly which operations are applied to
 * which fields, in which order, with which layer data.
 */
module TransferSchedule {
  import opened Scalars
  import opened TransferControl

  /** `mode = None` (four field components) or `mode = "t"` (forward Jones part only). */
  datatype Mode = BothWays | Forward

  /** The medium a projection uses: `nin` on the input side, `nout` on the output side. */
  datatype Medium = Incoming | Outgoing

  /** The layer `input_layer` describes: the input medium, or the effective medium of a layer. */
  datatype InputLayer = Ambient | EffectiveOf(layer: nat)

  /** One call of the layer propagation, with the arguments the control flow decides. */
  datatype Call = Call(pass: nat, layer: nat, thickness: real, thicknessEff: real, nsteps: nat,
                       mode: Mode, inputLayer: Option<InputLayer>, effective: bool)

  datatype Field =
    | Input                       // the caller's input field (`field0`)
    | Zero
    | Transmitted(f: Field, medium: Medium, norm: Option<NormKind>, ref: Option<Field>)
    | EvenPart(f: Field)          // `field[..., ::2, :, :]`
    | Propagated(f: Field, call: Call)
    | ExitJones(f: Field, layer: nat)
    | Windowed(f: Field)
    | Sum(a: Field, b: Field)
    | Difference(a: Field, b: Field)
    | Rescaled(f: Field, measured: Field)   // times `i0 / total_intensity(measured)`
    | WithH(f: Field)             // even components `f`, odd components `jones2H(f)`
    | RefScaled(f: Field)         // times `(nin / nout) ** 0.5`
    | EnergyScaled(f: Field)      // times `(nin / nout) ** 0.5`

  /**
   * The arguments of `_transfer_field` that steer the control flow.  The
   * thicknesses of the stack and of the effective data are `d` and `dEff`;
   * `nstep` is the sub-step count, a scalar being a one-element sequence;
   * `beta` and `phi` are the shapes of the ray direction arrays and
   * `fieldNDim` the number of axes of the input field.
   */
  datatype Config = Config(d: seq<real>, dEff: seq<real>, nstep: seq<nat>, flags: nat,
                           interference: bool, reflections: bool, window: bool, effective: bool,
                           beta: seq<nat>, phi: seq<nat>, fieldNDim: int)

  /** `interference = True if npass > 1 else interference`. */
  predicate Interferes(c: Config, npass: nat) { npass > 1 || c.interference }

  /** `mode = "t"` exactly when interference is off. */
  function ModeOf(c: Config, npass: nat): Mode {
    if Interferes(c, npass) then BothWays else Forward
  }

  /** `reflections` after the switch at transfer.py:462-466. */
  predicate Reflects(c: Config, npass: nat) { !Interferes(c, npass) && c.reflections }

  /** The initial `input_layer`: the input medium, unless interference is on or reflections are off. */
  function StartInput(c: Config, npass: nat): Option<InputLayer> {
    if Reflects(c, npass) then Some(Ambient) else None
  }

  predicate CalcReference(c: Config) { DecodeNorm(c.flags).calcReference }

  /** The reference field is propagated in the even passes of an interference run. */
  predicate RefActive(c: Config, npass: nat, i: nat) {
    CalcReference(c) && i % 2 == 0 && Interferes(c, npass)
  }

  /** `np.broadcast_to(np.asarray(nstep), (n,))`. */
  function Substeps(c: Config): (r: Result<seq<nat>>)
    ensures r.Ok? ==> |r.value| == |c.d|
    ensures r.Err? ==> r.error == ValueError
  {
    if |c.nstep| == |c.d| then Ok(c.nstep)
    else if |c.nstep| == 1 then Ok(seq(|c.d|, _ => c.nstep[0]))
    else Err(ValueError)
  }

  /** `(-1) ** i` */
  function Sign(i: nat): real { if i % 2 == 0 then 1.0 else -1.0 }

  function Reverse(s: seq<nat>): (r: seq<nat>)
    ensures |r| == |s|
    ensures forall k :: 0 <= k < |s| ==> r[k] == s[|s| - 1 - k]
  {
    seq(|s|, k requires 0 <= k < |s| => s[|s| - 1 - k])
  }

  /** `indices` in pass i: `list(range(n))`, reversed after every pass. */
  function Order(n: nat, i: nat): (r: seq<nat>)
    ensures |r| == n
    decreases i
  {
    if i == 0 then seq(n, k => k) else Reverse(Order(n, i - 1))
  }

  /** Even passes go through the layers from first to last, odd passes from last to first. */
  lemma {:induction false} OrderExplicit(n: nat, i: nat)
    ensures forall k :: 0 <= k < n ==> Order(n, i)[k] == if i % 2 == 0 then k else n - 1 - k
  {
    if i > 0 {
      OrderExplicit(n, i - 1);
    }
  }

  lemma OrderBounded(n: nat, i: nat)
    ensures forall k :: 0 <= k < n ==> Order(n, i)[k] < n
  {
    OrderExplicit(n, i);
  }

  /** `input_layer` before the k-th layer of a pass that started with `input0`. */
  function InputAt(order: seq<nat>, k: nat, input0: Option<InputLayer>): Option<InputLayer>
    requires k <= |order|
  {
    if input0.None? || k == 0 then input0 else Some(EffectiveOf(order[k - 1]))
  }

  /** The propagation call for layer j in pass i (`propagate_field_full` gets no input layer). */
  function MainCall(c: Config, npass: nat, steps: seq<nat>, i: nat, j: nat, input: Option<InputLayer>): Call
    requires j < |c.d| && j < |c.dEff| && j < |steps|
  {
    Call(i, j, c.d[j] * Sign(i), c.dEff[j] * Sign(i), steps[j], ModeOf(c, npass),
         if c.effective then input else None, c.effective)
  }

  /** The reference propagation for layer j in pass i: forward mode, no input layer. */
  function RefCall(c: Config, steps: seq<nat>, i: nat, j: nat): Call
    requires j < |c.d| && j < |c.dEff| && j < |steps|
  {
    Call(i, j, c.d[j] * Sign(i), c.dEff[j] * Sign(i), steps[j], Forward, None, true)
  }

  predicate Fits(c: Config, steps: seq<nat>) {
    |steps| == |c.d| && |c.d| <= |c.dEff|
  }

  predicate InStack(c: Config, order: seq<nat>) {
    forall k :: 0 <= k < |order| ==> order[k] < |c.d|
  }

  /** The calls of one pass along `order`. */
  function PassCalls(c: Config, npass: nat, steps: seq<nat>, i: nat, order: seq<nat>, input0: Option<InputLayer>): (r: seq<Call>)
    requires Fits(c, steps) && InStack(c, order)
    ensures |r| == |order|
  {
    seq(|order|, k requires 0 <= k < |order| => MainCall(c, npass, steps, i, order[k], InputAt(order, k, input0)))
  }

  function RefCalls(c: Config, npass: nat, steps: seq<nat>, i: nat, order: seq<nat>): (r: seq<Call>)
    requires Fits(c, steps) && InStack(c, order)
    ensures |r| == if RefActive(c, npass, i) then |order| else 0
  {
    if RefActive(c, npass, i) then seq(|order|, k requires 0 <= k < |order| => RefCall(c, steps, i, order[k])) else []
  }

  /** The calls of pass i of a run, along `Order`. */
  function CallsOfPass(c: Config, npass: nat, steps: seq<nat>, i: nat): (r: seq<Call>)
    requires Fits(c, steps)
    ensures |r| == |c.d|
  {
    OrderBounded(|c.d|, i);
    PassCalls(c, npass, steps, i, Order(|c.d|, i), StartInput(c, npass))
  }

  function RefCallsOfPass(c: Config, npass: nat, steps: seq<nat>, i: nat): (r: seq<Call>)
    requires Fits(c, steps)
  {
    OrderBounded(|c.d|, i);
    if CalcReference(c) then RefCalls(c, npass, steps, i, Order(|c.d|, i)) else []
  }

  /** The field after the given calls, in order. */
  function Through(f: Field, calls: seq<Call>): Field
    decreases |calls|
  {
    if |calls| == 0 then f else Propagated(Through(f, calls[..|calls| - 1]), calls[|calls| - 1])
  }

  /** The reference after the given calls: its forward part propagated, its H part recomputed. */
  function RefThrough(f: Field, calls: seq<Call>): Field
    decreases |calls|
  {
    if |calls| == 0 then f else WithH(Propagated(EvenPart(RefThrough(f, calls[..|calls| - 1])), calls[|calls| - 1]))
  }

  /** The state the passes update. */
  datatype State = State(field: Field, fieldOut: Field, fieldIn: Field, ref: Option<Field>, input: Option<InputLayer>)

  /** The field a pass starts from: the Jones part only in forward mode. */
  function StartField(c: Config, npass: nat): Field {
    if ModeOf(c, npass) == Forward then Transmitted(Input, Incoming, None, None) else Input
  }

  /** Before the first pass: `field_out` and `field_in` zeroed, `ref` a copy of the field. */
  function Start(c: Config, npass: nat): State {
    var f := StartField(c, npass);
    State(f, Zero, Zero, if CalcReference(c) then Some(f) else None, StartInput(c, npass))
  }

  /** What follows the layer loop of pass i (transfer.py:517-556). */
  function Settle(c: Config, npass: nat, i: nat, s: State): State {
    if npass > 1 then
      if i % 2 == 0 then
        var ref := if i != npass - 1 && s.ref.Some? then Some(RefScaled(s.ref.value)) else s.ref;
        var t := Transmitted(s.field, Outgoing, Some(DecodeNorm(c.flags).norm), ref);
        var f := if i == npass - 1 then s.field else if c.window then Windowed(t) else t;
        var out := Sum(s.fieldOut, f);
        State(out, out, s.fieldIn, ref, s.input)
      else if i != npass - 1 then
        var p := Transmitted(s.field, Incoming, None, None);
        var f := Difference(Input, Rescaled(p, p));
        State(f, Rescaled(s.fieldOut, p), Sum(Rescaled(s.field, p), f),
              if CalcReference(c) then Some(f) else s.ref, s.input)
      else
        State(s.field, s.fieldOut, s.field, s.ref, s.input)
    else
      var out :=
        if ModeOf(c, npass) == Forward then
          if !Reflects(c, npass) then EnergyScaled(WithH(s.field)) else WithH(s.field)
        else s.field;
      State(s.field, out, Input, s.ref, s.input)
  }

  /** One whole pass: the layer loop of transfer.py:475-511 followed by `Settle`. */
  function Pass(c: Config, npass: nat, steps: seq<nat>, i: nat, s: State): State
    requires Fits(c, steps)
    requires s.input.Some? ==> |c.d| > 0
  {
    var order := Order(|c.d|, i);
    OrderBounded(|c.d|, i);
    var f0 := if ModeOf(c, npass) == Forward then EvenPart(s.field) else s.field;
    var calls := PassCalls(c, npass, steps, i, order, s.input);
    var ref := if s.ref.Some? && RefActive(c, npass, i) then Some(RefThrough(s.ref.value, RefCalls(c, npass, steps, i, order))) else s.ref;
    var input := InputAt(order, |order|, s.input);
    var f1 := Through(f0, calls);
    var f2 := if input.Some? then ExitJones(f1, order[|order| - 1]) else f1;
    Settle(c, npass, i, State(f2, s.fieldOut, s.fieldIn, ref, input))
  }

  /** The requirements on `input_layer` a pass needs are kept by every pass. */
  lemma {:induction false} PassKeepsInput(c: Config, npass: nat, steps: seq<nat>, i: nat, s: State)
    requires Fits(c, steps)
    requires s.input.Some? ==> |c.d| > 0
    ensures Pass(c, npass, steps, i, s).input.Some? <==> s.input.Some?
  {
  }

  /** The state after the first i passes. */
  function After(c: Config, npass: nat, steps: seq<nat>, i: nat): (s: State)
    requires |steps| == |c.d|
    requires i > 0 ==> Fits(c, steps) && (Reflects(c, npass) ==> |c.d| > 0)
    ensures s.input.Some? <==> Reflects(c, npass)
    decreases i
  {
    if i == 0 then Start(c, npass)
    else
      var prev := After(c, npass, steps, i - 1);
      PassKeepsInput(c, npass, steps, i - 1, prev);
      Pass(c, npass, steps, i - 1, prev)
  }

  /** When `_transfer_field` raises, and what. */
  function Failure(c: Config, npass: nat): Option<PyError> {
    if Substeps(c).Err? then Some(ValueError)
    else if ValidateBetaPhi(c.beta, c.phi, c.fieldNDim - 4).Err? then Some(ValueError)
    else if npass > 0 && |c.dEff| < |c.d| then Some(IndexError)
    else if npass > 0 && Reflects(c, npass) && |c.d| == 0 then Some(NameError)
    else None
  }

  datatype Outcome = Outcome(fieldOut: Field, fieldIn: Field, calls: seq<seq<Call>>, refCalls: seq<seq<Call>>)

  /**
   * After the first k layers of `order`: the calls made so far, the field
   * and the reference propagated through them, and the current input layer.
   */
  ghost predicate PassPrefix(c: Config, npass: nat, steps: seq<nat>, i: nat, order: seq<nat>,
                             field0: Field, ref0: Option<Field>, input0: Option<InputLayer>, k: nat,
                             field: Field, ref: Option<Field>, input: Option<InputLayer>,
                             calls: seq<Call>, refCalls: seq<Call>)
    requires Fits(c, steps) && InStack(c, order) && k <= |order|
  {
    var active := ref0.Some? && RefActive(c, npass, i);
    && calls == PassCalls(c, npass, steps, i, order, input0)[..k]
    && refCalls == (if active then RefCalls(c, npass, steps, i, order)[..k] else [])
    && field == Through(field0, calls)
    && ref == (if active then Some(RefThrough(ref0.value, refCalls)) else ref0)
    && input == InputAt(order, k, input0)
  }

  /** The layer loop of one pass. */
  method RunPass(c: Config, npass: nat, steps: seq<nat>, i: nat, order: seq<nat>,
                 field0: Field, ref0: Option<Field>, input0: Option<InputLayer>)
    returns (field: Field, ref: Option<Field>, input: Option<InputLayer>, calls: seq<Call>, refCalls: seq<Call>)
    requires Fits(c, steps) && InStack(c, order)
    ensures calls == PassCalls(c, npass, steps, i, order, input0)
    ensures refCalls == (if ref0.Some? then RefCalls(c, npass, steps, i, order) else [])
    ensures field == Through(field0, calls)
    ensures ref == if ref0.Some? && RefActive(c, npass, i) then Some(RefThrough(ref0.value, refCalls)) else ref0
    ensures input == InputAt(order, |order|, input0)
  {
    field, ref, input, calls, refCalls := field0, ref0, input0, [], [];
    var active := ref0.Some? && RefActive(c, npass, i);
    for k := 0 to |order|
      invariant PassPrefix(c, npass, steps, i, order, field0, ref0, input0, k, field, ref, input, calls, refCalls)
    {
      field, ref, input, calls, refCalls := LayerStep(c, npass, steps, i, order, field0, ref0, input0, k,
                                                      active, field, ref, input, calls, refCalls);
    }
    ghost var pc := PassCalls(c, npass, steps, i, order, input0);
    assert pc[..|order|] == pc;
    if active {
      ghost var rcs := RefCalls(c, npass, steps, i, order);
      assert rcs[..|order|] == rcs;
    }
  }

  /** One iteration of the layer loop: layer order[k] is visited and its calls recorded. */
  method LayerStep(c: Config, npass: nat, steps: seq<nat>, i: nat, order: seq<nat>,
                   field0: Field, ref0: Option<Field>, input0: Option<InputLayer>, k: nat, active: bool,
                   field: Field, ref: Option<Field>, input: Option<InputLayer>, calls: seq<Call>, refCalls: seq<Call>)
    returns (field': Field, ref': Option<Field>, input': Option<InputLayer>, calls': seq<Call>, refCalls': seq<Call>)
    requires Fits(c, steps) && InStack(c, order) && k < |order|
    requires active == (ref0.Some? && RefActive(c, npass, i))
    requires PassPrefix(c, npass, steps, i, order, field0, ref0, input0, k, field, ref, input, calls, refCalls)
    ensures PassPrefix(c, npass, steps, i, order, field0, ref0, input0, k + 1, field', ref', input', calls', refCalls')
  {
    ghost var pc := PassCalls(c, npass, steps, i, order, input0);
    ghost var rcs := RefCalls(c, npass, steps, i, order);
    var call, rc;
    field', ref', input', call, rc := VisitLayer(c, npass, steps, i, order[k], field, ref, input, active);
    assert call == pc[k];
    assert input' == InputAt(order, k + 1, input0);
    SnocPrefix(pc, k);
    ThroughSnoc(field0, calls, call);
    calls' := calls + [call];
    refCalls' := refCalls;
    if active {
      assert rc == rcs[k];
      SnocPrefix(rcs, k);
      RefThroughSnoc(ref0.value, refCalls, rc);
      refCalls' := refCalls + [rc];
    }
  }

  /** The body of the layer loop for layer j (transfer.py:481-506). */
  method VisitLayer(c: Config, npass: nat, steps: seq<nat>, i: nat, j: nat,
                    field0: Field, ref0: Option<Field>, input0: Option<InputLayer>, active: bool)
    returns (field: Field, ref: Option<Field>, input: Option<InputLayer>, call: Call, rc: Call)
    requires Fits(c, steps) && j < |c.d|
    requires active ==> ref0.Some?
    ensures call == MainCall(c, npass, steps, i, j, input0)
    ensures rc == RefCall(c, steps, i, j)
    ensures field == Propagated(field0, call)
    ensures ref == if active then Some(WithH(Propagated(EvenPart(ref0.value), rc))) else ref0
    ensures input == if input0.Some? then Some(EffectiveOf(j)) else None
  {
    var thickness := c.d[j] * Sign(i);
    var thicknessEff := c.dEff[j] * Sign(i);
    rc := Call(i, j, thickness, thicknessEff, steps[j], Forward, None, true);
    ref := ref0;
    if active {
      ref := Some(WithH(Propagated(EvenPart(ref.value), rc)));
    }
    call := Call(i, j, thickness, thicknessEff, steps[j], ModeOf(c, npass),
                 if c.effective then input0 else None, c.effective);
    field := Propagated(field0, call);
    input := input0;
    if input.Some? {
      input := Some(EffectiveOf(j));
    }
  }

  lemma SnocPrefix<T>(s: seq<T>, k: nat)
    requires k < |s|
    ensures s[..k + 1] == s[..k] + [s[k]]
  {
  }

  lemma ThroughSnoc(f: Field, calls: seq<Call>, call: Call)
    ensures Through(f, calls + [call]) == Propagated(Through(f, calls), call)
  {
    assert (calls + [call])[..|calls|] == calls;
  }

  lemma RefThroughSnoc(f: Field, calls: seq<Call>, call: Call)
    ensures RefThrough(f, calls + [call]) == WithH(Propagated(EvenPart(RefThrough(f, calls)), call))
  {
    assert (calls + [call])[..|calls|] == calls;
  }

  /** One pass: the layer loop, the exit transmission and the end-of-pass bookkeeping. */
  method DoPass(c: Config, npass: nat, steps: seq<nat>, i: nat, s: State, indices: seq<nat>)
    returns (next: State, calls: seq<Call>, refCalls: seq<Call>)
    requires Fits(c, steps) && indices == Order(|c.d|, i)
    requires s.input == StartInput(c, npass) && (Reflects(c, npass) ==> |c.d| > 0)
    requires s.ref.Some? <==> CalcReference(c)
    ensures next == Pass(c, npass, steps, i, s)
    ensures calls == CallsOfPass(c, npass, steps, i)
    ensures refCalls == RefCallsOfPass(c, npass, steps, i)
  {
    var n := |c.d|;
    OrderBounded(n, i);
    var start := if ModeOf(c, npass) == Forward then EvenPart(s.field) else s.field;
    var field, ref, input;
    field, ref, input, calls, refCalls := RunPass(c, npass, steps, i, indices, start, s.ref, s.input);
    if input.Some? {
      field := ExitJones(field, indices[n - 1]);
    }
    next := Settle(c, npass, i, State(field, s.fieldOut, s.fieldIn, ref, input));
  }

  /**
   * `_transfer_field` on symbolic fields.  The result records, per pass,
   * the layer propagations of the field and of the reference.
   */
  method TransferField(c: Config, npass: nat) returns (r: Result<Outcome>)
    ensures r.Err? <==> Failure(c, npass).Some?
    ensures r.Err? ==> r.error == Failure(c, npass).value
    ensures r.Ok? ==>
      var steps := Substeps(c).value;
      var s := After(c, npass, steps, npass);
      r.value.fieldOut == s.fieldOut && r.value.fieldIn == s.fieldIn
      && |r.value.calls| == npass && |r.value.refCalls| == npass
      && (forall i :: 0 <= i < npass ==> r.value.calls[i] == CallsOfPass(c, npass, steps, i))
      && (forall i :: 0 <= i < npass ==> r.value.refCalls[i] == RefCallsOfPass(c, npass, steps, i))
    ensures r.Ok? && npass == 0 ==> r.value.fieldOut == Zero && r.value.fieldIn == Zero
  {
    var sub := Substeps(c);
    if sub.Err? {
      return Err(ValueError);
    }
    var steps := sub.value;
    var bp := ValidateBetaPhi(c.beta, c.phi, c.fieldNDim - 4);
    if bp.Err? {
      return Err(ValueError);
    }
    if npass > 0 && |c.dEff| < |c.d| {
      return Err(IndexError);
    }
    if npass > 0 && Reflects(c, npass) && |c.d| == 0 {
      return Err(NameError);
    }
    var st, calls, refCalls := RunPasses(c, npass, steps);
    return Ok(Outcome(st.fieldOut, st.fieldIn, calls, refCalls));
  }

  /** The loop over the passes (transfer.py:468-556). */
  method RunPasses(c: Config, npass: nat, steps: seq<nat>)
    returns (s: State, allCalls: seq<seq<Call>>, allRefCalls: seq<seq<Call>>)
    requires |steps| == |c.d|
    requires npass > 0 ==> Fits(c, steps) && (Reflects(c, npass) ==> |c.d| > 0)
    ensures s == After(c, npass, steps, npass)
    ensures |allCalls| == npass && |allRefCalls| == npass
    ensures forall i :: 0 <= i < npass ==> allCalls[i] == CallsOfPass(c, npass, steps, i)
    ensures forall i :: 0 <= i < npass ==> allRefCalls[i] == RefCallsOfPass(c, npass, steps, i)
  {
    var n := |c.d|;
    s := Start(c, npass);
    var indices := Order(n, 0);
    allCalls, allRefCalls := [], [];
    for i := 0 to npass
      invariant s == After(c, npass, steps, i)
      invariant indices == Order(n, i)
      invariant |allCalls| == i && |allRefCalls| == i
      invariant forall p {:trigger allCalls[p]} :: 0 <= p < i ==> allCalls[p] == CallsOfPass(c, npass, steps, p)
      invariant forall p {:trigger allRefCalls[p]} :: 0 <= p < i ==> allRefCalls[p] == RefCallsOfPass(c, npass, steps, p)
    {
      InputUntilLastPass(c, npass, steps, i);
      ReferenceTracksFlag(c, npass, steps, i);
      var calls, refCalls;
      s, calls, refCalls := DoPass(c, npass, steps, i, s, indices);
      indices := Reverse(indices);
      RecordedSnoc(c, npass, steps, i, allCalls, calls, allRefCalls, refCalls);
      allCalls := allCalls + [calls];
      allRefCalls := allRefCalls + [refCalls];
    }
  }

  /** Appending the calls of pass i to the records of passes 0..i-1. */
  lemma RecordedSnoc(c: Config, npass: nat, steps: seq<nat>, i: nat,
                     allCalls: seq<seq<Call>>, calls: seq<Call>, allRefCalls: seq<seq<Call>>, refCalls: seq<Call>)
    requires Fits(c, steps)
    requires |allCalls| == i && |allRefCalls| == i
    requires forall p {:trigger allCalls[p]} :: 0 <= p < i ==> allCalls[p] == CallsOfPass(c, npass, steps, p)
    requires forall p {:trigger allRefCalls[p]} :: 0 <= p < i ==> allRefCalls[p] == RefCallsOfPass(c, npass, steps, p)
    requires calls == CallsOfPass(c, npass, steps, i) && refCalls == RefCallsOfPass(c, npass, steps, i)
    ensures var xs, ys := allCalls + [calls], allRefCalls + [refCalls];
      && (forall p {:trigger xs[p]} :: 0 <= p <= i ==> xs[p] == CallsOfPass(c, npass, steps, p))
      && (forall p {:trigger ys[p]} :: 0 <= p <= i ==> ys[p] == RefCallsOfPass(c, npass, steps, p))
  {
    var xs, ys := allCalls + [calls], allRefCalls + [refCalls];
    forall p | 0 <= p <= i
      ensures xs[p] == CallsOfPass(c, npass, steps, p) && ys[p] == RefCallsOfPass(c, npass, steps, p)
    {
      if p < i {
        assert xs[p] == allCalls[p] && ys[p] == allRefCalls[p];
      }
    }
  }

  // ---------------------------------------------------------------------------
  // Properties of the schedule
  // ---------------------------------------------------------------------------

  /**
   * The k-th propagation of pass i goes through layer k (even passes) or
   * layer n-1-k (odd passes), with thickness `d[j]·(-1)^i` and the
   * effective thickness likewise, and the pass's mode.
   */
  lemma CallSchedule(c: Config, npass: nat, steps: seq<nat>, i: nat, k: nat)
    requires Fits(c, steps) && k < |c.d|
    ensures var j := if i % 2 == 0 then k else |c.d| - 1 - k;
      var call := CallsOfPass(c, npass, steps, i)[k];
      call.pass == i && call.layer == j && call.nsteps == steps[j] && call.mode == ModeOf(c, npass)
      && call.thickness == (if i % 2 == 0 then c.d[j] else -c.d[j])
      && call.thicknessEff == (if i % 2 == 0 then c.dEff[j] else -c.dEff[j])
  {
    OrderExplicit(|c.d|, i);
  }

  /** Consecutive passes visit the layers in opposite orders with opposite thickness signs. */
  lemma ConsecutivePassesReverse(c: Config, npass: nat, steps: seq<nat>, i: nat, k: nat)
    requires Fits(c, steps) && k < |c.d|
    ensures var a := CallsOfPass(c, npass, steps, i + 1)[k];
      var b := CallsOfPass(c, npass, steps, i)[|c.d| - 1 - k];
      a.layer == b.layer && a.thickness == -b.thickness && a.thicknessEff == -b.thicknessEff
  {
    assert (i + 1) % 2 == 1 - i % 2;
    CallSchedule(c, npass, steps, i + 1, k);
    CallSchedule(c, npass, steps, i, |c.d| - 1 - k);
  }

  /**
   * Interference is on (forced by npass > 1 or requested) exactly when the
   * mode is None; then no propagation gets an input layer.  Otherwise,
   * with reflections on and the effective method, the first layer sees
   * the input medium and each later one the effective medium of the layer
   * before it.
   */
  lemma InputLayerSchedule(c: Config, npass: nat, steps: seq<nat>, k: nat)
    requires Fits(c, steps) && k < |c.d|
    ensures ModeOf(c, npass) == Forward <==> npass <= 1 && !c.interference
    ensures Reflects(c, npass) ==> ModeOf(c, npass) == Forward && npass <= 1
    ensures forall i :: CallsOfPass(c, npass, steps, i)[k].inputLayer.Some? <==> c.effective && Reflects(c, npass)
    ensures c.effective && Reflects(c, npass) ==>
      CallsOfPass(c, npass, steps, 0)[k].inputLayer == if k == 0 then Some(Ambient) else Some(EffectiveOf(k - 1))
  {
    OrderExplicit(|c.d|, 0);
  }

  /** Every pass starts with the input layer the run started with. */
  lemma InputUntilLastPass(c: Config, npass: nat, steps: seq<nat>, i: nat)
    requires |steps| == |c.d| && i < npass
    requires i > 0 ==> Fits(c, steps) && (Reflects(c, npass) ==> |c.d| > 0)
    ensures After(c, npass, steps, i).input == StartInput(c, npass)
  {
  }

  /** The field that arrives after the layer loop of pass i (exit transmission not included). */
  function Arrived(c: Config, npass: nat, steps: seq<nat>, i: nat, s: State): Field
    requires Fits(c, steps)
  {
    Through(if ModeOf(c, npass) == Forward then EvenPart(s.field) else s.field, CallsOfPass(c, npass, steps, i))
  }

  /** The reference after the layer loop of pass i. */
  function RefArrived(c: Config, npass: nat, steps: seq<nat>, i: nat, s: State): Option<Field>
    requires Fits(c, steps)
  {
    if s.ref.Some? && RefActive(c, npass, i) then Some(RefThrough(s.ref.value, RefCallsOfPass(c, npass, steps, i))) else s.ref
  }

  /** There is a reference field exactly when the `DTMM_NORM_REF` bit is set, after any number of passes. */
  lemma {:induction false} ReferenceTracksFlag(c: Config, npass: nat, steps: seq<nat>, i: nat)
    requires |steps| == |c.d|
    requires i > 0 ==> Fits(c, steps) && (Reflects(c, npass) ==> |c.d| > 0)
    ensures After(c, npass, steps, i).ref.Some? <==> CalcReference(c)
  {
    if i > 0 {
      ReferenceTracksFlag(c, npass, steps, i - 1);
    }
  }

  /**
   * A single pass without interference: `field_out` holds the forward
   * Jones field together with its H components (scaled by sqrt(nin/nout)
   * when reflections are off), after the exit transmission through the
   * last layer when reflections are on; with interference it is the
   * propagated field itself.  `field_in` is restored to the input field.
   */
  lemma SinglePass(c: Config, steps: seq<nat>)
    requires Fits(c, steps) && (Reflects(c, 1) ==> |c.d| > 0)
    ensures var s := After(c, 1, steps, 1);
      var f := Arrived(c, 1, steps, 0, Start(c, 1));
      s.fieldIn == Input
      && s.fieldOut == if c.interference then f
                       else if c.reflections then WithH(ExitJones(f, |c.d| - 1))
                       else EnergyScaled(WithH(f))
  {
    OrderExplicit(|c.d|, 0);
    assert After(c, 1, steps, 1) == Pass(c, 1, steps, 0, Start(c, 1));
  }

  /** With interference, all passes after the first have no input layer. */
  lemma NoInputLayerWithInterference(c: Config, npass: nat, steps: seq<nat>, i: nat)
    requires |steps| == |c.d| && Interferes(c, npass)
    requires i > 0 ==> Fits(c, steps)
    ensures After(c, npass, steps, i).input.None?
  {
  }

  /**
   * An even, non-final pass of a multi-pass run adds the normalised
   * forward projection of the arrived field (windowed if a window is
   * given) to `field_out`, and the next pass starts from the whole of
   * `field_out`; the final pass, if even, adds the arrived field as is.
   */
  lemma EvenPassAccumulates(c: Config, npass: nat, steps: seq<nat>, i: nat)
    requires Fits(c, steps) && npass > 1 && i < npass && i % 2 == 0
    ensures var prev := After(c, npass, steps, i);
      var s := After(c, npass, steps, i + 1);
      var f := Arrived(c, npass, steps, i, prev);
      var r := RefArrived(c, npass, steps, i, prev);
      var ref := if i != npass - 1 && r.Some? then Some(RefScaled(r.value)) else r;
      var t := Transmitted(f, Outgoing, Some(DecodeNorm(c.flags).norm), ref);
      s.fieldOut == Sum(prev.fieldOut, if i == npass - 1 then f else if c.window then Windowed(t) else t)
      && s.field == s.fieldOut && s.fieldIn == prev.fieldIn
  {
    NoInputLayerWithInterference(c, npass, steps, i);
  }

  /**
   * An odd, non-final pass of a multi-pass run: with p the forward
   * projection of the field that came back to the input side, the field
   * for the next pass is the input minus p rescaled to the input
   * intensity, `field_out` is rescaled alike, and `field_in` is the
   * rescaled arrived field plus the next pass's field.  A final odd pass
   * leaves the arrived field in `field_in`.
   */
  lemma OddPassReinjects(c: Config, npass: nat, steps: seq<nat>, i: nat)
    requires Fits(c, steps) && npass > 1 && i < npass && i % 2 == 1
    ensures var prev := After(c, npass, steps, i);
      var s := After(c, npass, steps, i + 1);
      var f := Arrived(c, npass, steps, i, prev);
      var p := Transmitted(f, Incoming, None, None);
      if i == npass - 1 then
        s.fieldIn == f && s.fieldOut == prev.fieldOut
      else
        s.field == Difference(Input, Rescaled(p, p)) && s.fieldOut == Rescaled(prev.fieldOut, p)
        && s.fieldIn == Sum(Rescaled(f, p), s.field)
  {
    NoInputLayerWithInterference(c, npass, steps, i);
    assert After(c, npass, steps, i + 1) == Pass(c, npass, steps, i, After(c, npass, steps, i));
  }
}
