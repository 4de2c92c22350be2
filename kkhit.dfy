/** A hit's effect in the kinematic Kalman fit (KinKal/KKHit.hh): the hit's
    residual becomes rank-one weight-space information, which is added to the
    chain when the hit is active; the hit caches the chain information that
    excludes it, to compute unbiased reduced residuals (chi). */
module HitEffect {
  import opened RealMath
  import opened ParamSpace
  import opened WeightData
  import opened FitChain

  /** A residual with respect to reference parameters: measured minus
      predicted value, its variance, the time on the particle trajectory and
      the derivatives of the residual with respect to the parameters. */
  datatype Residual = Residual(value: real, variance: real, time: real, dRdP: PVec)

  /** The state of the underlying hit object that the effect reads. */
  datatype THitState = THitState(active: bool, nDOF: nat)

  /** The per-iteration configuration a hit reads. */
  datatype MIConfig = MIConfig(varianceScale: real, updateHits: bool)

  /** The residual variance scaled by the annealing factor `vscale`. */
  function TVar(r: Residual, vscale: real): real
  {
    r.variance * vscale
  }

  /** The hit's weight matrix d dᵀ/tvar, where d = dR/dP. */
  function HitWeightMat(r: Residual, vscale: real): PMat
    requires TVar(r, vscale) != 0.0
  {
    RankOne(r.dRdP, Inv(TVar(r, vscale)))
  }

  /** The measurement's share of the weight vector, value·(d/tvar). */
  function HitValueWeight(r: Residual, vscale: real): PVec
    requires TVar(r, vscale) != 0.0
  {
    Scale(r.value, Scale(Inv(TVar(r, vscale)), r.dRdP))
  }

  /** The weight-space information of a residual measured at reference
      parameters `ref`: matrix W = d dᵀ/tvar and vector W·ref + d·value/tvar. */
  function HitWeight(r: Residual, vscale: real, ref: PVec): TData
    requires TVar(r, vscale) != 0.0
  {
    var wmat := HitWeightMat(r, vscale);
    TData(Add(MatVec(wmat, ref), HitValueWeight(r, vscale)), wmat)
  }

  /** The residual predicted at parameters `p` by linearising about `ref`. */
  function LinearResidual(r: Residual, ref: PVec, p: PVec): real
  {
    r.value - Dot(r.dRdP, Sub(p, ref))
  }

  /** The hit's weight matrix is symmetric. */
  lemma HitWeightSymmetric(r: Residual, vscale: real, ref: PVec)
    requires TVar(r, vscale) != 0.0
    ensures Symmetric(HitWeight(r, vscale, ref).mat)
  {
    RankOneSymmetric(r.dRdP, Inv(TVar(r, vscale)));
  }

  /** With a positive scaled variance the weight matrix is positive semi-definite. */
  lemma HitWeightNonNegative(r: Residual, vscale: real, ref: PVec, p: PVec)
    requires TVar(r, vscale) > 0.0
    ensures Quad(p, HitWeight(r, vscale, ref).mat) >= 0.0
  {
    var t := TVar(r, vscale);
    assert Inv(t) > 0.0 by { InvPositive(t); }
    RankOneNonNegative(r.dRdP, Inv(t), p);
  }

  lemma InvPositive(t: real)
    requires t > 0.0
    ensures Inv(t) > 0.0
  {
    assert Inv(t) * t == 1.0;
  }

  /** The weight data is the information form of the hit's chi-squared: for
      every parameter vector p, pᵀWp − 2 w·p plus a constant equals
      (linearised residual at p)² / tvar. */
  lemma HitWeightIsChiSquared(r: Residual, vscale: real, ref: PVec, p: PVec)
    requires TVar(r, vscale) != 0.0
    ensures
      var w := HitWeight(r, vscale, ref);
      var u := r.value + Dot(r.dRdP, ref);
      var lr := LinearResidual(r, ref, p);
      Quad(p, w.mat) - 2.0 * Dot(w.vec, p) + u * u / TVar(r, vscale) == lr * lr / TVar(r, vscale)
  {
    RankOneChiSquared(r.dRdP, Inv(TVar(r, vscale)), TVar(r, vscale), r.value, ref, p,
      r.value + Dot(r.dRdP, ref), LinearResidual(r, ref, p));
  }

  /** HitWeightIsChiSquared for a rank-one weight d s dᵀ with s = 1/t and a
      weight vector W·ref + v (s d), where u = v + d·ref and lr = v − d·(p − ref). */
  lemma RankOneChiSquared(d: PVec, s: real, t: real, v: real, ref: PVec, p: PVec, u: real, lr: real)
    requires t != 0.0 && s * t == 1.0
    requires u == v + Dot(d, ref) && lr == v - Dot(d, Sub(p, ref))
    ensures
      var m := RankOne(d, s);
      Quad(p, m) - 2.0 * Dot(Add(MatVec(m, ref), Scale(v, Scale(s, d))), p) + u * u / t == lr * lr / t
  {
    var sd := Scale(s, d);
    var q, e, x := Dot(d, p), Dot(d, ref), Dot(p, sd);
    var wvec := Add(MatVec(RankOne(d, s), ref), Scale(v, sd));
    RankOneQuad(d, s, p, q);
    assert x == s * q by {
      DotScale(p, s, d);
      DotSymmetric(p, d);
    }
    assert Dot(wvec, p) == e * x + v * x by {
      RankOneApply(d, s, ref);
      assert wvec == Add(Scale(e, sd), Scale(v, sd));
      DotSymmetric(wvec, p);
      DotAdd(p, Scale(e, sd), Scale(v, sd));
      DotScale(p, e, sd);
      DotScale(p, v, sd);
    }
    DotSub(d, p, ref);
    ChiSquaredAlgebra(q, e, v, s, t, x, u, lr, Quad(p, RankOne(d, s)), Dot(wvec, p), u * u / t, lr * lr / t);
  }

  /** The scalar identity behind RankOneChiSquared, with q = d·p, e = d·ref,
      x = s q, quad = pᵀ(d s dᵀ)p, wp = w·p, uut = u²/t and llt = lr²/t. */
  lemma ChiSquaredAlgebra(q: real, e: real, v: real, s: real, t: real, x: real, u: real, lr: real,
                          quad: real, wp: real, uut: real, llt: real)
    requires t != 0.0 && s * t == 1.0
    requires x == s * q && u == v + e && lr == v - (q - e)
    requires quad == s * q * q && wp == e * x + v * x
    requires uut == u * u / t && llt == lr * lr / t
    ensures quad - 2.0 * wp + uut == llt
  {
    assert uut == u * u * s;
    assert llt == lr * lr * s;
  }

  /** Processing status, reference parameters, caches and residual of one hit. */
  class KKHit {
    var hit: THitState
    var ref: PData
    const wcache: WData
    const hiteff: WData
    var rresid: Residual
    var vscale: real
    var status: EffStatus

    ghost predicate Valid()
      reads this
    {
      wcache != hiteff && rresid.variance > 0.0 && vscale > 0.0
    }

    /** Built from a hit and a reference trajectory, at unit variance scale. */
    constructor (hit: THitState, resid: Residual, reftraj: PKTraj)
      requires reftraj.Valid() && resid.variance > 0.0
      ensures Valid() && fresh(wcache) && fresh(hiteff)
      ensures this.hit == hit && rresid == resid && vscale == 1.0
      ensures ref == reftraj.NearestPiece(resid.time).params
      ensures wcache.tdata == Zero
      ensures hiteff.tdata == HitWeight(resid, 1.0, ref.parameters)
      ensures status == Unprocessed
    {
      this.hit := hit;
      rresid := resid;
      vscale := 1.0;
      ref := reftraj.NearestPiece(resid.time).params;
      wcache := new WData.Empty();
      hiteff := new WData.Empty();
      status := Unprocessed;
      new;
      Update(reftraj, resid);
    }

    function IsActive(): bool
      reads this
    {
      hit.active
    }

    function Time(): real
      reads this
    {
      rresid.time
    }

    /** Degrees of freedom the hit adds: its own when active, none otherwise. */
    function NDOF(): (n: nat)
      reads this
      ensures n <= hit.nDOF
      ensures !IsActive() ==> n == 0
    {
      if hit.active then hit.nDOF else 0
    }

    /** `process`: the cache absorbs the incoming chain weight, then the hit's
        information is appended; the direction only selects the status flag. */
    method Process(kkdata: KKData, tdir: TDir)
      requires Valid() && kkdata.wdata != wcache && kkdata.wdata != hiteff
      modifies this, wcache, kkdata, kkdata.wdata
      ensures Valid() && status == old(status).SetProcessed(tdir)
      ensures hit == old(hit) && ref == old(ref) && rresid == old(rresid) && vscale == old(vscale)
      ensures hiteff.tdata == old(hiteff.tdata)
      ensures old(hit.active) ==>
        && wcache.tdata == Plus(old(wcache.tdata), old(kkdata.wdata.tdata))
        && kkdata.wdata.tdata == Plus(old(kkdata.wdata.tdata), hiteff.tdata)
        && kkdata.effects == old(kkdata.effects) + [WeightEffect(hiteff.tdata)]
      ensures !old(hit.active) ==>
        && wcache.tdata == old(wcache.tdata)
        && kkdata.wdata.tdata == old(kkdata.wdata.tdata)
        && kkdata.effects == old(kkdata.effects)
    {
      if IsActive() {
        wcache.AddAssign(kkdata.wdata);
        kkdata.AppendWeight(hiteff);
      }
      status := status.SetProcessed(tdir);
    }

    /** `update(pktraj)`: take the hit's residual with respect to the
        trajectory (computed by the hit, passed in here) and rebuild the cache. */
    method Update(pktraj: PKTraj, resid: Residual)
      requires Valid() && pktraj.Valid() && resid.variance > 0.0
      modifies this, wcache, hiteff
      ensures Valid() && rresid == resid && vscale == old(vscale) && hit == old(hit)
      ensures ref == pktraj.NearestPiece(resid.time).params
      ensures wcache.tdata == Zero
      ensures hiteff.tdata == HitWeight(resid, vscale, ref.parameters)
      ensures status == Unprocessed
    {
      rresid := resid;
      UpdateCache(pktraj);
    }

    /** `update(pktraj, miconfig)`: reset the variance scale, then take the
        residual from the hit's own update when the configuration asks for
        it (which may also change the hit's state), else from `resid`. */
    method UpdateWithConfig(pktraj: PKTraj, miconfig: MIConfig,
                            updated: THitState, updatedResid: Residual, resid: Residual)
      requires Valid() && pktraj.Valid() && miconfig.varianceScale > 0.0
      requires updatedResid.variance > 0.0 && resid.variance > 0.0
      modifies this, wcache, hiteff
      ensures Valid() && vscale == miconfig.varianceScale
      ensures hit == (if miconfig.updateHits then updated else old(hit))
      ensures rresid == (if miconfig.updateHits then updatedResid else resid)
      ensures ref == pktraj.NearestPiece(rresid.time).params
      ensures wcache.tdata == Zero
      ensures hiteff.tdata == HitWeight(rresid, vscale, ref.parameters)
      ensures status == Unprocessed
    {
      vscale := miconfig.varianceScale;
      if miconfig.updateHits {
        hit := updated;
        rresid := updatedResid;
      } else {
        rresid := resid;
      }
      UpdateCache(pktraj);
    }

    /** `updateCache`: reset the processing cache, take the reference
        parameters from the trajectory piece nearest the residual's time and
        express the residual as weight-space information. */
    method UpdateCache(pktraj: PKTraj)
      requires Valid() && pktraj.Valid()
      modifies this, wcache, hiteff
      ensures Valid() && rresid == old(rresid) && vscale == old(vscale) && hit == old(hit)
      ensures ref == pktraj.NearestPiece(rresid.time).params
      ensures wcache.tdata == Zero
      ensures hiteff.tdata == HitWeight(rresid, vscale, ref.parameters)
      ensures status == Unprocessed
    {
      wcache.Clear();
      ref := pktraj.NearestPiece(rresid.time).params;
      MulPositive(rresid.variance, vscale);
      assert TVar(rresid, vscale) > 0.0;
      hiteff.SetWeightMat(HitWeightMat(rresid, vscale));
      hiteff.SetWeightVec(Add(MatVec(hiteff.WeightMat(), ref.parameters), HitValueWeight(rresid, vscale)));
      status := Unprocessed;
    }

    /** The variance of the residual at parameter data `pdata`: the
        covariance projected on dR/dP plus the scaled measurement variance. */
    function ResidVariance(pdata: PData): real
      reads this
    {
      Quad(rresid.dRdP, pdata.covariance) + rresid.variance * vscale
    }

    /** `chi`: the residual corrected to `pdata`'s parameters, divided by its
        standard deviation; zero for an inactive hit. */
    function Chi(m: MathFns, pdata: PData): real
      reads this
      requires Sound(m) && Valid()
      requires Quad(rresid.dRdP, pdata.covariance) >= 0.0
    {
      if !hit.active then 0.0
      else
        MulPositive(rresid.variance, vscale);
        var uresid := rresid.value - Dot(Sub(pdata.parameters, ref.parameters), rresid.dRdP);
        var rvar := Quad(rresid.dRdP, pdata.covariance) + rresid.variance * vscale;
        SqrtPositive(m, rvar);
        uresid / m.sqrt(rvar)
    }

    /** `chisq`: the square of chi, never negative. */
    function ChiSq(m: MathFns, pdata: PData): (c: real)
      reads this
      requires Sound(m) && Valid()
      requires Quad(rresid.dRdP, pdata.covariance) >= 0.0
      ensures c >= 0.0
    {
      var chival := Chi(m, pdata);
      chival * chival
    }

    /** `fitChi`: chi at the unbiased parameters (the cache converted to
        parameter space by `toParams`), once the hit was processed both ways;
        otherwise zero. */
    function FitChi(m: MathFns, toParams: TData -> PData): (c: real)
      reads this, wcache
      requires Sound(m) && Valid()
      requires Quad(rresid.dRdP, toParams(wcache.tdata).covariance) >= 0.0
      ensures !(hit.active && status.forwards && status.backwards) ==> c == 0.0
      ensures hit.active && status.forwards && status.backwards ==> c == Chi(m, toParams(wcache.tdata))
    {
      if hit.active && status.WasProcessed(Forwards) && status.WasProcessed(Backwards) then
        Chi(m, toParams(wcache.tdata))
      else 0.0
    }
  }

  /** An inactive hit has zero chi whatever the parameters. */
  lemma InactiveChiIsZero(h: KKHit, m: MathFns, pdata: PData)
    requires Sound(m) && h.Valid() && !h.hit.active
    requires Quad(h.rresid.dRdP, pdata.covariance) >= 0.0
    ensures h.Chi(m, pdata) == 0.0 && h.ChiSq(m, pdata) == 0.0
  {
  }

  /** At the reference parameters the correction vanishes: chi is the
      reference residual over the square root of the residual variance. */
  lemma ChiAtReference(h: KKHit, m: MathFns, pdata: PData)
    requires Sound(m) && h.Valid() && h.hit.active
    requires Quad(h.rresid.dRdP, pdata.covariance) >= 0.0
    requires pdata.parameters == h.ref.parameters
    ensures h.Chi(m, pdata) == h.rresid.value / m.sqrt(h.ResidVariance(pdata))
  {
    var zero := Sub(pdata.parameters, h.ref.parameters);
    DotZero(h.rresid.dRdP, zero);
    DotSymmetric(zero, h.rresid.dRdP);
  }

  /** chisq is the squared linearised residual divided by its variance. */
  lemma ChiSqIsNormalisedResidual(h: KKHit, m: MathFns, pdata: PData)
    requires Sound(m) && h.Valid() && h.hit.active
    requires Quad(h.rresid.dRdP, pdata.covariance) >= 0.0
    ensures h.ResidVariance(pdata) > 0.0
    ensures
      var u := LinearResidual(h.rresid, h.ref.parameters, pdata.parameters);
      h.ChiSq(m, pdata) == u * u / h.ResidVariance(pdata)
  {
    var d := h.rresid.dRdP;
    var vv := PositiveProduct(h.rresid.variance, h.vscale);
    var rvar := h.ResidVariance(pdata);
    DotSymmetric(Sub(pdata.parameters, h.ref.parameters), d);
    SqrtPositive(m, rvar);
    var u := h.rresid.value - Dot(Sub(pdata.parameters, h.ref.parameters), d);
    QuotientSquared(u, m.sqrt(rvar), rvar);
  }

  lemma QuotientSquared(u: real, r: real, v: real)
    requires r > 0.0 && v > 0.0 && r * r == v
    ensures (u / r) * (u / r) == u * u / v
  {
    var c := u / r;
    assert c * r == u;
    assert c * c * v == u * u by {
      assert c * c * v == (c * r) * (c * r);
    }
  }
}
