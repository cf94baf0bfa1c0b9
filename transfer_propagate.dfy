/**
 * The sub-step loop of `propagate_field_effective` (dtmm/transfer.py).
 * The field type F and the matrix type M are left abstract; diffraction
 * (`diffract(field, dmat)`), the local layer transfer (`dotmdmf(f, p, fi,
 * field)`) and the matrix product (`dotmm`) are parameters.  The interface
 * matrix `rmat` enters the first sub-step only and is then dropped.
 */
module TransferPropagate {
  import opened Scalars
  import opened Matrix4

  /** The diffraction matrix of one sub-step, given the current `dmat0` and `rmat`. */
  function StepMatrix<M>(dmat0: Option<M>, rmat: Option<M>, dot: (M, M) -> M): (r: Option<M>)
    ensures r.None? <==> dmat0.None? && rmat.None?
    ensures rmat.None? ==> r == dmat0
  {
    if rmat.Some? then
      if dmat0.Some? then Some(dot(dmat0.value, rmat.value)) else rmat
    else dmat0
  }

  /**
   * One sub-step: without a matrix only the local transfer; with one,
   * diffraction before the transfer when d > 0 and after it otherwise.
   */
  function Step<F, M>(field: F, d: real, dmat: Option<M>, diffract: (F, M) -> F, transfer: F -> F): F {
    match dmat
    case None => transfer(field)
    case Some(m) => if d > 0.0 then transfer(diffract(field, m)) else diffract(transfer(field), m)
  }

  /** `n` sub-steps, the first with `rmat`, the rest without. */
  function Steps<F, M>(field: F, d: real, n: nat, dmat0: Option<M>, rmat: Option<M>,
                       dot: (M, M) -> M, diffract: (F, M) -> F, transfer: F -> F): F
    decreases n
  {
    if n == 0 then field
    else Steps(Step(field, d, StepMatrix(dmat0, rmat, dot), diffract, transfer), d, n - 1, dmat0, None, dot, diffract, transfer)
  }

  /** The matrices the sub-steps use, one per sub-step. */
  function Schedule<M>(n: nat, dmat0: Option<M>, rmat: Option<M>, dot: (M, M) -> M): (r: seq<Option<M>>)
    ensures |r| == n
    ensures n > 0 ==> r[0] == StepMatrix(dmat0, rmat, dot)
    ensures forall k :: 0 < k < n ==> r[k] == dmat0
  {
    if n == 0 then [] else [StepMatrix(dmat0, rmat, dot)] + seq(n - 1, _ => dmat0)
  }

  /** Apply the sub-steps with the given matrices in order. */
  function Apply<F, M>(field: F, d: real, mats: seq<Option<M>>, diffract: (F, M) -> F, transfer: F -> F): F
    decreases |mats|
  {
    if |mats| == 0 then field else Apply(Step(field, d, mats[0], diffract, transfer), d, mats[1..], diffract, transfer)
  }

  /** `f` applied n times. */
  function Iterate<F>(f: F -> F, x: F, n: nat): F
    decreases n
  {
    if n == 0 then x else Iterate(f, f(x), n - 1)
  }

  /** The loop at transfer.py:595-618, on values. */
  method PropagateFieldEffective<F, M>(field: F, d: real, nsteps: nat, dmat0: Option<M>, rmat0: Option<M>,
                                       dot: (M, M) -> M, diffract: (F, M) -> F, transfer: F -> F)
    returns (out: F)
    ensures out == Apply(field, d, Schedule(nsteps, dmat0, rmat0, dot), diffract, transfer)
  {
    var rmat := rmat0;
    out := field;
    for j := 0 to nsteps
      invariant j > 0 ==> rmat.None?
      invariant Steps(out, d, nsteps - j, dmat0, rmat, dot, diffract, transfer)
             == Steps(field, d, nsteps, dmat0, rmat0, dot, diffract, transfer)
    {
      if dmat0.Some? || rmat.Some? {
        var dmat: M;
        if rmat.Some? {
          if dmat0.Some? {
            dmat := dot(dmat0.value, rmat.value);
          } else {
            dmat := rmat.value;
          }
          rmat := None;
        } else {
          dmat := dmat0.value;
        }
        if d > 0.0 {
          out := diffract(out, dmat);
          out := transfer(out);
        } else {
          out := transfer(out);
          out := diffract(out, dmat);
        }
      } else {
        out := transfer(out);
      }
    }
    StepsIsSchedule(field, d, nsteps, dmat0, rmat0, dot, diffract, transfer);
  }

  /** Without an interface matrix every sub-step uses `dmat0`. */
  lemma {:induction false} StepsWithoutInterface<F, M>(field: F, d: real, n: nat, dmat0: Option<M>,
                                                      dot: (M, M) -> M, diffract: (F, M) -> F, transfer: F -> F)
    ensures Steps(field, d, n, dmat0, None, dot, diffract, transfer)
         == Iterate(x => Step(x, d, dmat0, diffract, transfer), field, n)
  {
    if n > 0 {
      StepsWithoutInterface(Step(field, d, dmat0, diffract, transfer), d, n - 1, dmat0, dot, diffract, transfer);
    }
  }

  /** The loop uses the interface matrix on the first sub-step and `dmat0` on every later one. */
  lemma {:induction false} StepsIsSchedule<F, M>(field: F, d: real, n: nat, dmat0: Option<M>, rmat: Option<M>,
                                                dot: (M, M) -> M, diffract: (F, M) -> F, transfer: F -> F)
    ensures Steps(field, d, n, dmat0, rmat, dot, diffract, transfer)
         == Apply(field, d, Schedule(n, dmat0, rmat, dot), diffract, transfer)
  {
    if n > 0 {
      var next := Step(field, d, StepMatrix(dmat0, rmat, dot), diffract, transfer);
      StepsIsSchedule(next, d, n - 1, dmat0, None, dot, diffract, transfer);
      var s := Schedule(n, dmat0, rmat, dot);
      assert s[1..] == Schedule(n - 1, dmat0, None, dot);
    }
  }

  /** With neither matrix the loop is `nsteps` local transfers. */
  lemma NoMatricesIsTransferOnly<F, M>(field: F, d: real, n: nat, dot: (M, M) -> M,
                                       diffract: (F, M) -> F, transfer: F -> F)
    ensures Steps(field, d, n, None, None, dot, diffract, transfer) == Iterate(transfer, field, n)
  {
    StepsWithoutInterface(field, d, n, None, dot, diffract, transfer);
    IterateExt(x => Step(x, d, None, diffract, transfer), transfer, field, n);
  }

  lemma {:induction false} IterateExt<F>(f: F -> F, g: F -> F, x: F, n: nat)
    requires forall y :: f(y) == g(y)
    ensures Iterate(f, x, n) == Iterate(g, x, n)
  {
    if n > 0 {
      IterateExt(f, g, f(x), n - 1);
    }
  }

  /**
   * The backward sub-step undoes the forward one: with thickness -d the
   * transfer comes first, so a backward step with the inverse transfer and
   * the inverse diffraction matrix restores the field.
   */
  lemma BackwardUndoesForward<F, M>(field: F, d: real, m: M, mi: M, diffract: (F, M) -> F,
                                    transfer: F -> F, transferBack: F -> F)
    requires d > 0.0
    requires forall x :: transferBack(transfer(x)) == x
    requires forall x :: diffract(diffract(x, m), mi) == x
    ensures Step(Step(field, d, Some(m), diffract, transfer), -d, Some(mi), diffract, transferBack) == field
  {
    LeftInverseAt(diffract(field, m), transfer, transferBack);
  }

  lemma LeftInverseAt<F>(x: F, f: F -> F, g: F -> F)
    requires forall y :: g(f(y)) == y
    ensures g(f(x)) == x
  {
  }

  /**
   * On one pixel with matrices acting by `MatVec`, a forward sub-step is
   * the product T·D and a backward one D·T.
   */
  lemma StepIsProduct(v: Vec4, d: real, dm: Mat4, t: Mat4)
    ensures Step(v, d, Some(dm), (x: Vec4, m: Mat4) => MatVec(m, x), (x: Vec4) => MatVec(t, x))
         == if d > 0.0 then MatVec(MatMul(t, dm), v) else MatVec(MatMul(dm, t), v)
  {
    MatVecAssoc(t, dm, v);
    MatVecAssoc(dm, t, v);
  }
}
