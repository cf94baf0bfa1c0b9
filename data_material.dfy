/**
 * The material arithmetic of dtmm/data.py: `_refind2eps` (refractive
 * indices to dielectric constants), `_uniaxial_order` (a diagonal
 * dielectric tensor at a given order parameter) with their gufunc
 * wrappers, and the mask and default-thickness logic of `director2data`.
 */
module DataMaterial {
  import opened Scalars

  /** The three eigenvalues of a diagonal dielectric tensor, or three refractive indices. */
  datatype Eps3 = Eps3(e0: Complex, e1: Complex, e2: Complex)

  function Component(e: Eps3, c: nat): Complex
    requires c < 3
  {
    if c == 0 then e.e0 else if c == 1 then e.e1 else e.e2
  }

  function Square(z: Complex): Complex { Mul(z, z) }

  /** `refind**2`, component by component. */
  function RefindToEps(n: Eps3): Eps3
  {
    Eps3(Square(n.e0), Square(n.e1), Square(n.e2))
  }

  /** The isotropic part `(e0 + e1 + e2) / 3`. */
  function Mean(e: Eps3): Complex { Scale(Add(Add(e.e0, e.e1), e.e2), 1.0 / 3.0) }

  /** The anisotropy `e2 - (e0 + e1) / 2`. */
  function Anisotropy(e: Eps3): Complex { Sub(e.e2, Scale(Add(e.e0, e.e1), 1.0 / 2.0)) }

  /** `_uniaxial_order(order, eps)`: both branches of the source. */
  function UniaxialOrder(order: real, eps: Eps3): Eps3 {
    var m := Mean(eps);
    var delta := Anisotropy(eps);
    if order == 0.0 then Eps3(m, m, m)
    else
      var eps1 := Sub(m, Scale(delta, 1.0 / 3.0 * order));
      var eps3 := Add(m, Scale(delta, 2.0 / 3.0 * order));
      Eps3(eps1, eps1, eps3)
  }

  /** A real refractive index gives a real, non-negative dielectric constant. */
  lemma RealIndexRealEps(n: Complex)
    requires n.im == 0.0
    ensures Square(n).im == 0.0 && Square(n).re == n.re * n.re
  {
  }

  /**
   * The result is uniaxial about the third axis, keeps the trace of the
   * input and has the anisotropy of the input times the order parameter.
   */
  lemma UniaxialOrderInvariants(order: real, eps: Eps3)
    ensures UniaxialOrder(order, eps).e0 == UniaxialOrder(order, eps).e1
    ensures Mean(UniaxialOrder(order, eps)) == Mean(eps)
    ensures Anisotropy(UniaxialOrder(order, eps)) == Scale(Anisotropy(eps), order)
  {
  }

  /** The isotropic branch is the uniaxial formula at order 0: the two branches agree. */
  lemma UniaxialOrderBranchesAgree(eps: Eps3)
    ensures var m := Mean(eps); var delta := Anisotropy(eps);
      UniaxialOrder(0.0, eps) == Eps3(Sub(m, Scale(delta, 0.0)), Sub(m, Scale(delta, 0.0)), Add(m, Scale(delta, 0.0)))
  {
  }

  /** Order 1 gives back a tensor that is already uniaxial about the third axis. */
  lemma UniaxialOrderPerfect(eps: Eps3)
    requires eps.e0 == eps.e1
    ensures UniaxialOrder(1.0, eps) == eps
  {
  }

  /** Applying order t and then order s is applying order s * t. */
  lemma {:induction false} UniaxialOrderCompose(s: real, t: real, eps: Eps3)
    ensures UniaxialOrder(s, UniaxialOrder(t, eps)) == UniaxialOrder(s * t, eps)
  {
    UniaxialOrderInvariants(t, eps);
    var d := Anisotropy(eps);
    assert Scale(Scale(d, t), 1.0 / 3.0 * s) == Scale(d, 1.0 / 3.0 * (s * t));
    assert Scale(Scale(d, t), 2.0 / 3.0 * s) == Scale(d, 2.0 / 3.0 * (s * t));
    if t != 0.0 && s != 0.0 {
      assert s * t != 0.0 by {
        var k := RealRecip(s) * RealRecip(t);
        assert k * (s * t) == (RealRecip(s) * s) * (RealRecip(t) * t);
      }
    } else if t == 0.0 && s != 0.0 {
      assert Scale(d, t) == Zero;
    }
  }

  /** The doctest `uniaxial_order(0, [1, 2, 3])`: every entry is the mean 2. */
  lemma UniaxialOrderExampleIsotropic(order: real, a: real, b: real, c: real)
    requires order == 0.0 && a == 1.0 && b == 2.0 && c == 3.0
    ensures UniaxialOrder(order, Eps3(FromReal(a), FromReal(b), FromReal(c)))
         == Eps3(FromReal(2.0), FromReal(2.0), FromReal(2.0))
  {
  }

  /** On real dielectric constants the result is real, given by the formulas of the uniaxial branch. */
  lemma UniaxialOrderReal(order: real, a: real, b: real, c: real)
    requires order != 0.0
    ensures var m := (a + b + c) / 3.0; var delta := c - (a + b) / 2.0;
      UniaxialOrder(order, Eps3(FromReal(a), FromReal(b), FromReal(c)))
      == Eps3(FromReal(m - order * delta / 3.0), FromReal(m - order * delta / 3.0), FromReal(m + 2.0 * order * delta / 3.0))
  {
  }

  /** The doctest `uniaxial_order(1, [1, 2, 3])` gives (1.5, 1.5, 3). */
  lemma UniaxialOrderExamplePerfect(order: real, a: real, b: real, c: real)
    requires order == 1.0 && a == 1.0 && b == 2.0 && c == 3.0
    ensures UniaxialOrder(order, Eps3(FromReal(a), FromReal(b), FromReal(c)))
         == Eps3(FromReal(1.5), FromReal(1.5), FromReal(3.0))
  {
    UniaxialOrderReal(order, a, b, c);
  }

  function Eps3At(a: array<Complex>): Eps3
    requires a.Length >= 3
    reads a
  {
    Eps3(a[0], a[1], a[2])
  }

  /** `_refind2eps(refind, out)`: out may be refind itself, each entry is read before it is written. */
  method RefindToEpsKernel(refind: array<Complex>, out: array<Complex>)
    requires refind.Length >= 3 && out.Length >= 3
    modifies out
    ensures Eps3At(out) == RefindToEps(old(Eps3At(refind)))
    ensures forall c :: 3 <= c < out.Length ==> out[c] == old(out[c])
  {
    out[0] := Square(refind[0]);
    out[1] := Square(refind[1]);
    out[2] := Square(refind[2]);
  }

  /** `_uniaxial_order(order, eps, out)`: the mean and the anisotropy are taken before out is written, so out may be eps. */
  method UniaxialOrderKernel(order: real, eps: array<Complex>, out: array<Complex>)
    requires eps.Length >= 3 && out.Length >= 3
    modifies out
    ensures Eps3At(out) == UniaxialOrder(order, old(Eps3At(eps)))
    ensures forall c :: 3 <= c < out.Length ==> out[c] == old(out[c])
  {
    var e := Eps3(eps[0], eps[1], eps[2]);
    var m := Scale(Add(Add(e.e0, e.e1), e.e2), 1.0 / 3.0);
    var delta := Sub(e.e2, Scale(Add(e.e0, e.e1), 1.0 / 2.0));
    var eps1, eps3;
    if order == 0.0 {
      eps1, eps3 := m, m;
    } else {
      eps1 := Sub(m, Scale(delta, 1.0 / 3.0 * order));
      eps3 := Add(m, Scale(delta, 2.0 / 3.0 * order));
    }
    out[0] := eps1;
    out[1] := eps1;
    out[2] := eps3;
  }

  /** `refind2eps(refind, out)` on one (n) core: n must be 3 (else AssertionError, out untouched). */
  method RefindToEpsUfunc(refind: array<Complex>, out: array<Complex>) returns (ok: bool)
    requires out.Length == refind.Length
    modifies out
    ensures ok == (refind.Length == 3)
    ensures ok ==> Eps3At(out) == RefindToEps(old(Eps3At(refind)))
    ensures !ok ==> out[..] == old(out[..])
  {
    ok := refind.Length == 3;
    if ok {
      RefindToEpsKernel(refind, out);
    }
  }

  /** `uniaxial_order(order, eps, out)` on one (), (n) core: n must be 3. */
  method UniaxialOrderUfunc(order: real, eps: array<Complex>, out: array<Complex>) returns (ok: bool)
    requires out.Length == eps.Length
    modifies out
    ensures ok == (eps.Length == 3)
    ensures ok ==> Eps3At(out) == UniaxialOrder(order, old(Eps3At(eps)))
    ensures !ok ==> out[..] == old(out[..])
  {
    ok := eps.Length == 3;
    if ok {
      UniaxialOrderKernel(order, eps, out);
    }
  }

  // ---------------------------------------------------------------------------
  // director2data
  // ---------------------------------------------------------------------------

  /** Every component has a zero imaginary part. */
  predicate IsReal(e: Eps3) {
    e.e0.im == 0.0 && e.e1.im == 0.0 && e.e2.im == 0.0
  }

  /** Storing into a real (FDTYPE) buffer: each component keeps its real part only. */
  function RealPart(e: Eps3): (r: Eps3)
    ensures IsReal(r)
    ensures IsReal(e) ==> r == e
  {
    Eps3(FromReal(e.e0.re), FromReal(e.e1.re), FromReal(e.e2.re))
  }

  /** The uniaxial order of a real tensor is real, so the real buffer holds it exactly. */
  lemma UniaxialOrderKeepsReal(order: real, eps: Eps3)
    requires IsReal(eps)
    ensures IsReal(UniaxialOrder(order, eps))
  {
  }

  /** The voxel (i, j, k) of a real (nz, ny, nx, 3) material array. */
  function Voxel(material: array4<real>, i: nat, j: nat, k: nat): Eps3
    requires i < material.Length0 && j < material.Length1 && k < material.Length2 && material.Length3 == 3
    reads material
  {
    Eps3(FromReal(material[i, j, k, 0]), FromReal(material[i, j, k, 1]), FromReal(material[i, j, k, 2]))
  }

  /**
   * The material a voxel gets: the host's where the mask excludes it, the
   * ordered nematic's elsewhere.  Both are the real parts of the squared
   * indices, because the buffer they are stored into is real.
   */
  function VoxelMaterial(order: real, inside: bool, no: Complex, ne: Complex, nhost: Complex): Eps3 {
    if inside then UniaxialOrder(order, RealPart(RefindToEps(Eps3(no, no, ne))))
    else RealPart(RefindToEps(Eps3(nhost, nhost, nhost)))
  }

  /** Real indices lose nothing in the real buffer: a voxel holds the full complex result. */
  lemma RealIndicesKeepMaterial(order: real, inside: bool, no: Complex, ne: Complex, nhost: Complex)
    requires no.im == 0.0 && ne.im == 0.0 && nhost.im == 0.0
    ensures VoxelMaterial(order, inside, no, ne, nhost) ==
      if inside then UniaxialOrder(order, RefindToEps(Eps3(no, no, ne))) else RefindToEps(Eps3(nhost, nhost, nhost))
  {
    RealIndexRealEps(no);
    RealIndexRealEps(ne);
    RealIndexRealEps(nhost);
  }

  /** The layer thicknesses: the given ones, or ones for each of the nz layers. */
  function DefaultThickness(thickness: Option<seq<real>>, nz: nat): (t: seq<real>)
    ensures thickness.None? ==> |t| == nz && forall l :: 0 <= l < nz ==> t[l] == 1.0
    ensures thickness.Some? ==> t == thickness.value
  {
    if thickness.Some? then thickness.value else seq(nz, l => 1.0)
  }

  /**
   * `director2data` for a director of shape (nz, ny, nx, 3), given its
   * order parameter per voxel (the length of each director vector, which
   * `director2order` computes).  The material buffer is real, so complex
   * indices keep only the real part of their squares.  A mask without a
   * host index is a TypeError.  The angles, which `director2angles`
   * computes, are not part of the result.
   */
  method DirectorToData(order: array3<real>, mask: Option<array3<bool>>, no: Complex, ne: Complex,
                        nhost: Option<Complex>, thickness: Option<seq<real>>)
    returns (r: Result<(seq<real>, array4<real>)>)
    requires mask.Some? ==> mask.value.Length0 == order.Length0 && mask.value.Length1 == order.Length1
                            && mask.value.Length2 == order.Length2
    ensures r.Err? <==> mask.Some? && nhost.None?
    ensures r.Err? ==> r.error == TypeError
    ensures r.Ok? ==>
      var (t, material) := r.value;
      && fresh(material)
      && t == DefaultThickness(thickness, order.Length0)
      && material.Length0 == order.Length0 && material.Length1 == order.Length1
      && material.Length2 == order.Length2 && material.Length3 == 3
      && forall i, j, k :: 0 <= i < order.Length0 && 0 <= j < order.Length1 && 0 <= k < order.Length2 ==>
           Voxel(material, i, j, k) ==
             VoxelMaterial(order[i, j, k], mask.None? || mask.value[i, j, k], no, ne,
                           if nhost.Some? then nhost.value else Zero)
  {
    var base := RealPart(RefindToEps(Eps3(no, no, ne)));
    var material := new real[order.Length0, order.Length1, order.Length2, 3]((i, j, k, c) =>
      if 0 <= c < 3 then Component(base, c).re else 0.0);
    forall i, j, k | 0 <= i < order.Length0 && 0 <= j < order.Length1 && 0 <= k < order.Length2
      ensures IsReal(UniaxialOrder(order[i, j, k], base))
    {
      UniaxialOrderKeepsReal(order[i, j, k], base);
    }
    forall i, j, k, c | 0 <= i < order.Length0 && 0 <= j < order.Length1 && 0 <= k < order.Length2 && 0 <= c < 3 {
      material[i, j, k, c] := Component(UniaxialOrder(order[i, j, k], Voxel(material, i, j, k)), c).re;
    }
    if mask.Some? {
      if nhost.None? {
        return Err(TypeError);
      }
      var host := RealPart(RefindToEps(Eps3(nhost.value, nhost.value, nhost.value)));
      var m := mask.value;
      forall i, j, k, c | 0 <= i < order.Length0 && 0 <= j < order.Length1 && 0 <= k < order.Length2 && 0 <= c < 3
                          && !m[i, j, k] {
        material[i, j, k, c] := Component(host, c).re;
      }
    }
    return Ok((DefaultThickness(thickness, order.Length0), material));
  }

  /** At full order a nematic voxel with real indices holds (no², no², ne²). */
  lemma FullOrderMaterial(no: Complex, ne: Complex, nhost: Complex)
    requires no.im == 0.0 && ne.im == 0.0
    ensures VoxelMaterial(1.0, true, no, ne, nhost) ==
      Eps3(FromReal(no.re * no.re), FromReal(no.re * no.re), FromReal(ne.re * ne.re))
  {
    RealIndexRealEps(no);
    RealIndexRealEps(ne);
    UniaxialOrderPerfect(RefindToEps(Eps3(no, no, ne)));
  }

  /** At zero order a nematic voxel is isotropic at the mean of the real parts of (no², no², ne²). */
  lemma ZeroOrderMaterial(no: Complex, ne: Complex, nhost: Complex)
    ensures var m := (2.0 * Square(no).re + Square(ne).re) / 3.0;
      VoxelMaterial(0.0, true, no, ne, nhost) == Eps3(FromReal(m), FromReal(m), FromReal(m))
  {
  }

  /** A host voxel with a complex index keeps only the real part of nhost²: the imaginary part is dropped. */
  lemma HostMaterialTruncated(order: real, no: Complex, ne: Complex, nhost: Complex)
    ensures VoxelMaterial(order, false, no, ne, nhost).e0 == FromReal(nhost.re * nhost.re - nhost.im * nhost.im)
  {
  }
}
