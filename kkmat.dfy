/** A material crossing's effect in the kinematic Kalman fit
    (KinKal/KKMat.hh): no information, only a mean momentum change and
    process noise, expressed in parameter space. The mean shift is applied
    with its sign reversed when processing backwards; the noise is not. */
module MaterialEffect {
  import opened ParamSpace
  import opened WeightData
  import opened FitChain
  import Vectors
  import opened RealMath

  /** The number of local momentum basis directions (LocalBasis::ndir). */
  const NDir: nat := 3

  type DirVals = s: seq<real> | |s| == NDir witness [0.0, 0.0, 0.0]

  /** The mean momentum change and its variance along each basis direction,
      as the detector crossing reports them for a reference piece. */
  datatype MomEffects = MomEffects(dmom: DirVals, momvar: DirVals)

  /** The detector crossing (DXing) as the effect sees it: the crossing time,
      how many material crossings it holds, and the momentum effects it
      computes for a reference piece (the material model is not part of
      this model). */
  datatype Crossing = Crossing(time: real, nXings: nat, effects: Piece -> MomEffects)

  /** The per-iteration configuration a material effect reads. */
  datatype MConfig = MConfig(varianceScale: real, updateMat: bool)

  /** The outcome of `append`: success or the `invalid_argument` exception. */
  datatype Outcome = Appended | NotAppended | InvalidArgument(msg: string)

  /** The same effect applied against the direction of time: parameter
      change negated, covariance kept. */
  function Reverse(p: PData): (q: PData)
    ensures q.covariance == p.covariance
    ensures forall i :: 0 <= i < NParams ==> q.parameters[i] == -p.parameters[i]
  {
    PData(Scale(-1.0, p.parameters), p.covariance)
  }

  /** Reversing twice gives back the effect. */
  lemma ReverseInvolution(p: PData)
    ensures Reverse(Reverse(p)) == p
  {
    assert Reverse(Reverse(p)).parameters == p.parameters;
  }

  /** A parameter-space effect and its reverse cancel in the parameters. */
  lemma ReverseCancels(p: PData)
    ensures Add(p.parameters, Reverse(p).parameters) == ZeroVec
  {
  }

  /** The variance of the momentum change along direction `idir`, scaled by
      the annealing factor. */
  function ScaledVar(me: MomEffects, idir: nat, vscale: real): real
    requires idir < NDir
  {
    me.momvar[idir] * vscale
  }

  /** The effect summed over the first `n` basis directions, with
      `pder(i)` the derivative of the parameters with respect to the
      momentum along direction i: the shift Σ pder·dmom and the covariance
      Σ pder·pderᵀ·momvar·vscale. */
  function EffectUpTo(pder: nat -> PVec, me: MomEffects, vscale: real, n: nat): PData
    requires n <= NDir
  {
    if n == 0 then PData(ZeroVec, ZeroMat)
    else
      var prev := EffectUpTo(pder, me, vscale, n - 1);
      PData(Add(prev.parameters, Scale(me.dmom[n - 1], pder(n - 1))),
            MAdd(prev.covariance, RankOne(pder(n - 1), ScaledVar(me, n - 1, vscale))))
  }

  /** The effect of a crossing with reference derivatives `pder`: zero when
      the crossing holds no material, else the sum over all directions. */
  function MatEffect(pder: nat -> PVec, xing: Crossing, me: MomEffects, vscale: real): PData
  {
    if xing.nXings > 0 then EffectUpTo(pder, me, vscale, NDir) else PData(ZeroVec, ZeroMat)
  }

  /** The covariance of the effect is symmetric. */
  lemma {:induction false} EffectUpToSymmetric(pder: nat -> PVec, me: MomEffects, vscale: real, n: nat)
    requires n <= NDir
    ensures Symmetric(EffectUpTo(pder, me, vscale, n).covariance)
  {
    if n > 0 {
      EffectUpToSymmetric(pder, me, vscale, n - 1);
      RankOneSymmetric(pder(n - 1), ScaledVar(me, n - 1, vscale));
    }
  }

  /** With non-negative momentum variances and scale, the covariance of the
      effect is positive semi-definite: material only adds noise. */
  lemma {:induction false} EffectUpToNonNegative(pder: nat -> PVec, me: MomEffects, vscale: real, n: nat, p: PVec)
    requires n <= NDir && vscale >= 0.0
    requires forall i :: 0 <= i < NDir ==> me.momvar[i] >= 0.0
    ensures Quad(p, EffectUpTo(pder, me, vscale, n).covariance) >= 0.0
  {
    if n == 0 {
      QuadZero(p);
    } else {
      var prev := EffectUpTo(pder, me, vscale, n - 1);
      EffectUpToNonNegative(pder, me, vscale, n - 1, p);
      NonNegativeProduct(me.momvar[n - 1], vscale);
      RankOneNonNegative(pder(n - 1), ScaledVar(me, n - 1, vscale), p);
      QuadAdd(p, prev.covariance, RankOne(pder(n - 1), ScaledVar(me, n - 1, vscale)));
    }
  }

  /** The covariance does not depend on the mean momentum change, which is
      the only part that depends on the direction of time. */
  lemma {:induction false} EffectUpToCovarianceIgnoresShift(pder: nat -> PVec, me1: MomEffects, me2: MomEffects,
                                                           vscale: real, n: nat)
    requires n <= NDir && me1.momvar == me2.momvar
    ensures EffectUpTo(pder, me1, vscale, n).covariance == EffectUpTo(pder, me2, vscale, n).covariance
  {
    if n > 0 {
      EffectUpToCovarianceIgnoresShift(pder, me1, me2, vscale, n - 1);
      assert ScaledVar(me1, n - 1, vscale) == ScaledVar(me2, n - 1, vscale);
    }
  }

  /** With no mean momentum change there is no parameter shift. */
  lemma {:induction false} EffectUpToNoShift(pder: nat -> PVec, me: MomEffects, vscale: real, n: nat)
    requires n <= NDir
    requires forall i :: 0 <= i < NDir ==> me.dmom[i] == 0.0
    ensures EffectUpTo(pder, me, vscale, n).parameters == ZeroVec
  {
    if n > 0 {
      EffectUpToNoShift(pder, me, vscale, n - 1);
      assert Scale(me.dmom[n - 1], pder(n - 1)) == ZeroVec;
    }
  }

  /** A material effect: the crossing it describes, the reference piece,
      the parameter-space effect, the weight cache and the processing status. */
  class KKMat {
    var xing: Crossing
    var ref: Piece
    var mateff: PData
    const cache: WData
    var vscale: real
    const active: bool
    var status: EffStatus
    /** `ref_.momDeriv(t, dir)`: the derivative of the reference piece's
        parameters with respect to the momentum along a basis direction at
        time t (the trajectory's own formula, not part of this model). */
    const momDeriv: (Piece, real, nat) -> PVec

    /** The derivatives the effect uses: taken at the effect's time. */
    function PDer(): nat -> PVec
      reads this
    {
      var piece, t, deriv := ref, Time(), momDeriv;
      i => deriv(piece, t, i)
    }

    /** `time()`: the crossing time plus a small positive offset, so that a
        material effect at the same time as a hit sorts after it. */
    function Time(): (t: real)
      reads this
      ensures t > xing.time
    {
      xing.time + 0.001
    }

    /** `isActive()`: the flag AND at least one material crossing. */
    function IsActive(): (b: bool)
      reads this
      ensures b <==> active && xing.nXings > 0
    {
      active && xing.nXings > 0
    }

    constructor (xing: Crossing, pktraj: PKTraj, active: bool, momDeriv: (Piece, real, nat) -> PVec)
      requires pktraj.Valid()
      ensures fresh(cache) && this.xing == xing && this.active == active && this.momDeriv == momDeriv
      ensures vscale == 1.0 && ref == pktraj.NearestPiece(xing.time)
      ensures cache.tdata == Zero
      ensures mateff == MatEffect(PDer(), xing, xing.effects(ref), vscale)
      ensures status == Unprocessed
    {
      this.xing := xing;
      ref := pktraj.NearestPiece(xing.time);
      vscale := 1.0;
      this.active := active;
      this.momDeriv := momDeriv;
      cache := new WData.Empty();
      mateff := PData(ZeroVec, ZeroMat);
      status := Unprocessed;
      new;
      Update(pktraj);
    }

    /** `process`: forwards, the effect is appended first and the cache
        then absorbs the chain weight that includes it; backwards, the cache
        absorbs the chain weight first and the reversed effect is appended.
        An inactive effect only records the direction as processed. */
    method Process(kkdata: KKData, tdir: TDir)
      requires kkdata.wdata != cache
      modifies this`status, cache, kkdata, kkdata.wdata
      ensures status == old(status).SetProcessed(tdir)
      ensures active && tdir == Forwards ==>
        && kkdata.effects == old(kkdata.effects) + [ParamEffect(mateff)]
        && kkdata.wdata.tdata == kkdata.transport(old(kkdata.wdata.tdata), mateff)
        && cache.tdata == Plus(old(cache.tdata), kkdata.wdata.tdata)
      ensures active && tdir == Backwards ==>
        && cache.tdata == Plus(old(cache.tdata), old(kkdata.wdata.tdata))
        && kkdata.effects == old(kkdata.effects) + [ParamEffect(Reverse(mateff))]
        && kkdata.wdata.tdata == kkdata.transport(old(kkdata.wdata.tdata), Reverse(mateff))
      ensures !active ==>
        && cache.tdata == old(cache.tdata)
        && kkdata.wdata.tdata == old(kkdata.wdata.tdata)
        && kkdata.effects == old(kkdata.effects)
    {
      if active {
        if tdir == Forwards {
          kkdata.AppendParams(mateff);
          cache.AddAssign(kkdata.wdata);
        } else {
          cache.AddAssign(kkdata.wdata);
          kkdata.AppendParams(Reverse(mateff));
        }
      }
      status := status.SetProcessed(tdir);
    }

    /** `update(pktraj)`: reset the cache, take the reference piece nearest
        the crossing and rebuild the effect. */
    method Update(pktraj: PKTraj)
      requires pktraj.Valid()
      modifies this`ref, this`mateff, this`status, cache
      ensures ref == pktraj.NearestPiece(xing.time)
      ensures cache.tdata == Zero
      ensures mateff == MatEffect(PDer(), xing, xing.effects(ref), vscale)
      ensures status == Unprocessed
    {
      cache.Clear();
      ref := pktraj.NearestPiece(xing.time);
      UpdateCache();
      status := Unprocessed;
    }

    /** `update(pktraj, mconfig)`: the variance scale is always taken from
        the configuration; the crossing (as updated by the detector model,
        passed in here) and the effect are rebuilt only when the
        configuration asks for material updates. */
    method UpdateWithConfig(pktraj: PKTraj, mconfig: MConfig, updatedXing: Crossing)
      requires pktraj.Valid()
      modifies this`xing, this`ref, this`mateff, this`status, this`vscale, cache
      ensures vscale == mconfig.varianceScale
      ensures !mconfig.updateMat ==>
        && xing == old(xing) && ref == old(ref) && mateff == old(mateff)
        && status == old(status) && cache.tdata == old(cache.tdata)
      ensures mconfig.updateMat ==>
        && xing == updatedXing && ref == pktraj.NearestPiece(xing.time)
        && cache.tdata == Zero && status == Unprocessed
        && mateff == MatEffect(PDer(), xing, xing.effects(ref), vscale)
    {
      vscale := mconfig.varianceScale;
      if mconfig.updateMat {
        xing := updatedXing;
        Update(pktraj);
      }
    }

    /** `updateCache`: the effect starts at zero and, when the crossing
        holds material, accumulates each basis direction's mean shift and
        noise in turn. */
    method UpdateCache()
      modifies this`mateff
      ensures mateff == MatEffect(PDer(), xing, xing.effects(ref), vscale)
    {
      mateff := PData(ZeroVec, ZeroMat);
      if xing.nXings > 0 {
        var me := xing.effects(ref);
        var idir := 0;
        while idir < NDir
          invariant 0 <= idir <= NDir
          invariant mateff == EffectUpTo(PDer(), me, vscale, idir)
        {
          var pder := momDeriv(ref, Time(), idir);
          assert PDer()(idir) == pder;
          mateff := PData(Add(mateff.parameters, Scale(me.dmom[idir], pder)),
                          MAdd(mateff.covariance, RankOne(pder, ScaledVar(me, idir, vscale))));
          idir := idir + 1;
        }
      }
    }

    /** `append(fit)`: an active effect appends a piece built from the
        cache, starting at the effect's time and reaching the end of the fit,
        provided that time is after the start of the fit's last piece;
        otherwise it reports `invalid_argument`. `toParams` is the
        weight-to-parameter conversion (matrix inversion, not modelled). */
    method Append(fit: PKTraj, toParams: TData -> PData) returns (o: Outcome)
      requires fit.Valid()
      modifies fit
      ensures fit.Valid()
      ensures active && Time() > old(fit.Back().range.low) ==>
        && o == Appended
        && fit.pieces == old(fit.pieces) + [Piece(toParams(cache.tdata), Vectors.TimeRange(Time(), old(fit.Range().high)))]
      ensures active && Time() <= old(fit.Back().range.low) ==>
        o.InvalidArgument? && fit.pieces == old(fit.pieces)
      ensures !active ==> o == NotAppended && fit.pieces == old(fit.pieces)
    {
      if active {
        var time := Time();
        var newpiece := Piece(toParams(cache.tdata), Vectors.TimeRange(time, fit.Range().high));
        if time > fit.Back().range.low {
          fit.Append(newpiece);
          o := Appended;
        } else {
          o := InvalidArgument("KKMat: Can't append piece");
        }
      } else {
        o := NotAppended;
      }
    }
  }

  /** An effect built from a crossing without material is zero, whatever
      the reference and scale. */
  lemma EmptyCrossingHasNoEffect(pder: nat -> PVec, xing: Crossing, me: MomEffects, vscale: real)
    requires xing.nXings == 0
    ensures MatEffect(pder, xing, me, vscale) == PData(ZeroVec, ZeroMat)
  {
  }

  /** The effect's covariance is symmetric, and positive semi-definite when
      the momentum variances and the scale are non-negative. */
  lemma MatEffectCovariance(pder: nat -> PVec, xing: Crossing, me: MomEffects, vscale: real, p: PVec)
    requires vscale >= 0.0
    requires forall i :: 0 <= i < NDir ==> me.momvar[i] >= 0.0
    ensures Symmetric(MatEffect(pder, xing, me, vscale).covariance)
    ensures Quad(p, MatEffect(pder, xing, me, vscale).covariance) >= 0.0
  {
    if xing.nXings > 0 {
      EffectUpToSymmetric(pder, me, vscale, NDir);
      EffectUpToNonNegative(pder, me, vscale, NDir, p);
    } else {
      QuadZero(p);
    }
  }
}
