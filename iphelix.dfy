/** The helix parametrised at its point of closest approach to the
    interaction point (KinKal/IPHelix.hh and KinKal/IPHelix.cc): d0, φ0, the
    curvature ω, z0, tan λ and t0, together with the particle's mass and
    charge, the reduced mass m̄ (mass as a bending radius, signed by the
    charge and the field), the nominal field, the time range and the
    transverse and z velocities. The object is updated in place by
    `invertCT`, so it is a class here. Positions and directions are in the
    field-aligned local frame: the rotations to and from the global frame
    are not modelled. */
module IPHelixTraj {
  import opened RealMath
  import opened Vectors
  import opened Wrappers
  import opened HelixCommon
  import ParamSpace

  const D0: nat := 0
  const Phi0: nat := 1
  const Omega: nat := 2
  const Z0: nat := 3
  const TanDip: nat := 4
  const T0: nat := 5

  /** The parameter vector with its t0 entry negated, as `invertCT` leaves
      it. */
  function InvertedParams(p: ParamSpace.PVec): ParamSpace.PVec
  {
    p[T0 := -p[T0]]
  }

  /** Inverting twice restores the parameters, and inverting touches only t0. */
  lemma InvertedParamsInvolution(p: ParamSpace.PVec)
    ensures InvertedParams(InvertedParams(p)) == p
    ensures InvertedParams(p)[T0] == -p[T0]
    ensures forall i :: 0 <= i < ParamSpace.NParams && i != T0 ==> InvertedParams(p)[i] == p[i]
  {
  }

  /** `dPardB(time, bnom)`: declared in the source but left returning a
      default (all-zero) parameter change. */
  function DPardB(time: real, bnom: Vec3): (d: ParamSpace.PVec)
    ensures forall i :: 0 <= i < ParamSpace.NParams ==> d[i] == 0.0
  {
    ParamSpace.ZeroVec
  }

  /** Adding the zero parameter change leaves the parameters as they were. */
  lemma AddZeroChange(p: ParamSpace.PVec, time: real, bnom: Vec3)
    ensures ParamSpace.Add(p, DPardB(time, bnom)) == p
  {
    var q := ParamSpace.Add(p, DPardB(time, bnom));
    assert forall i :: 0 <= i < ParamSpace.NParams ==> q[i] == p[i];
  }

  /** The scalar identity behind cos²λ + sin²λ = 1: with s² = 1 + t² and
      c = 1/s, c² + (t·c)² = 1. */
  lemma DipCircle(s: real, t: real, c: real)
    requires s > 0.0 && s * s == 1.0 + t * t && c == 1.0 / s
    ensures c * c + (t * c) * (t * c) == 1.0
  {
    assert c * s == 1.0;
    assert (t * c) * (t * c) == t * t * (c * c);
    assert c * c + t * t * (c * c) == (1.0 + t * t) * (c * c);
    assert (1.0 + t * t) * (c * c) == (s * s) * (c * c);
    assert (s * s) * (c * c) == (c * s) * (c * s);
  }

  class IPHelix {
    var trange: TimeRange
    var pars: ParamSpace.PData
    var mass: real
    var charge: int
    var mbar: real
    var bnom: Vec3
    var vt: real
    var vz: real

    function d0(): real reads this { pars.parameters[D0] }
    function phi0(): real reads this { pars.parameters[Phi0] }
    function omega(): real reads this { pars.parameters[Omega] }
    function z0(): real reads this { pars.parameters[Z0] }
    function tanDip(): real reads this { pars.parameters[TanDip] }
    function t0(): real reads this { pars.parameters[T0] }

    /** `sign()`: the combined bending sign of charge and field, the sign of m̄. */
    function Sign(): real
      reads this
    {
      CopySign1(mbar)
    }

    /** `Q()`: the reduced charge, mass over m̄. */
    function Q(): real
      reads this
      requires mbar != 0.0
    {
      mass / mbar
    }

    /** `cosDip()`: 1 / sqrt(1 + tan²λ), which lies in (0, 1]. */
    function CosDip(m: MathFns): (c: real)
      reads this
      requires Sound(m)
      ensures 0.0 < c <= 1.0
    {
      SecantReciprocal(m, tanDip());
      1.0 / m.sqrt(1.0 + tanDip() * tanDip())
    }

    /** `sinDip()`: tan λ · cos λ. */
    function SinDip(m: MathFns): real
      reads this
      requires Sound(m)
    {
      tanDip() * CosDip(m)
    }

    /** `pbar()`: the momentum in mm, |p̄| = sqrt(1 + tan²λ)/|ω|. */
    function Pbar(m: MathFns): real
      reads this
      requires omega() != 0.0
    {
      1.0 / omega() * m.sqrt(1.0 + tanDip() * tanDip())
    }

    /** `ebar()`: the energy in mm, sqrt(p̄² + m̄²). */
    function Ebar(m: MathFns): real
      reads this
      requires omega() != 0.0
    {
      ReducedEnergy(m, Pbar(m), mbar)
    }

    /** `beta()`: |p̄ / ē|. */
    function Beta(m: MathFns): real
      reads this
      requires omega() != 0.0 && Ebar(m) != 0.0
    {
      Abs(Pbar(m) / Ebar(m))
    }

    /** `gamma()`: |ē / m̄|. */
    function Gamma(m: MathFns): real
      reads this
      requires omega() != 0.0 && mbar != 0.0
    {
      Abs(Ebar(m) / mbar)
    }

    /** `betaGamma()`: |p̄ / m̄|. */
    function BetaGamma(m: MathFns): real
      reads this
      requires omega() != 0.0 && mbar != 0.0
    {
      Abs(Pbar(m) / mbar)
    }

    /** `dphi(t)`: the azimuth turned since t0, which is zero at t0. */
    function Dphi(t: real): (r: real)
      reads this
      ensures t == t0() ==> r == 0.0
    {
      omega() * vt * (t - t0())
    }

    /** `phi(t)`: the azimuth at time t, φ0 at t0. */
    function Phi(t: real): (r: real)
      reads this
      ensures t == t0() ==> r == phi0()
      ensures r - phi0() == Dphi(t)
    {
      Dphi(t) + phi0()
    }

    /** `ztime(z)`: the time at which the helix reaches height z, t0 at z = 0. */
    function ZTime(z: real): (r: real)
      reads this
      requires vz != 0.0
      ensures z == 0.0 ==> r == t0()
      ensures (r - t0()) * vz == z
    {
      t0() + z / vz
    }

    /** `momentumMag(t)`: mass · p̄ / m̄. */
    function MomentumMag(m: MathFns, t: real): real
      reads this
      requires omega() != 0.0 && mbar != 0.0
    {
      mass * Pbar(m) / mbar
    }

    /** `momentumVar(t)`: not implemented in the source, which returns −1. */
    function MomentumVar(t: real): real
    {
      -1.0
    }

    /** `energy(t)`: mass · ē / m̄. */
    function Energy(m: MathFns, t: real): real
      reads this
      requires omega() != 0.0 && mbar != 0.0
    {
      mass * Ebar(m) / mbar
    }

    /** `speed(t)`: c · β. */
    function Speed(m: MathFns, t: real): real
      reads this
      requires omega() != 0.0 && Ebar(m) != 0.0
    {
      CLight * Beta(m)
    }

    /** The momentum direction before normalisation: (Q/ω)·(cos φ, sin φ, tan λ). */
    function MomentumVector(m: MathFns, t: real): Vec3
      reads this
      requires omega() != 0.0 && mbar != 0.0
    {
      Scale(Q() / omega(), Vec3(Cos(m, Phi(t)), Sin(m, Phi(t)), tanDip()))
    }

    /** `direction(t, mdir)` in the local frame: 0 = perpdir, 1 = phidir,
        2 = momdir; any other value is an invalid argument. The phi
        direction is transverse; for a massive particle the momentum
        direction is a unit vector. */
    function LocalDirection(m: MathFns, t: real, mdir: int): (r: Result<Vec3>)
      reads this
      requires Sound(m) && omega() != 0.0 && mbar != 0.0
      ensures r.Failure? <==> !(0 <= mdir < 3)
      ensures r.Failure? ==> r.error == "Invalid direction"
      ensures mdir == 1 ==> r.Success? && r.value.z == 0.0 && Mag2(r.value) == 1.0
      ensures mdir == 2 && mass != 0.0 ==> r.Success? && Mag2(r.value) == 1.0
    {
      var phival := Phi(t);
      if mdir == 0 then
        Success(Vec3(-SinDip(m) * Cos(m, phival), -SinDip(m) * Sin(m, phival), CosDip(m)))
      else if mdir == 1 then
        (PhiDirUnit(m, phival); Success(Vec3(-Sin(m, phival), Cos(m, phival), 0.0)))
      else if mdir == 2 then
        if mass != 0.0 then
          (MomentumVectorNonZero(m, t); UnitIsUnit(m, MomentumVector(m, t));
           Success(Unit(m, MomentumVector(m, t))))
        else Success(Unit(m, MomentumVector(m, t)))
      else Failure("Invalid direction")
    }

    /** `momentum(t)`: β·γ·mass along the momentum direction, carrying the
        particle's mass as its invariant-mass component. */
    function Momentum(m: MathFns, t: real): (p: Mom4)
      reads this
      requires Sound(m) && omega() != 0.0 && mbar != 0.0
      ensures p.m == mass
      ensures mass != 0.0 ==> Mag2(p.Vect()) == (BetaGamma(m) * mass) * (BetaGamma(m) * mass)
    {
      var dir := Unit(m, MomentumVector(m, t));
      var bgm := BetaGamma(m) * mass;
      if mass != 0.0 then
        (MomentumVectorNonZero(m, t); UnitIsUnit(m, MomentumVector(m, t)); Mag2Scale(bgm, dir);
         Mom4(bgm * dir.x, bgm * dir.y, bgm * dir.z, mass))
      else Mom4(bgm * dir.x, bgm * dir.y, bgm * dir.z, mass)
    }

    /** For a massive particle the unnormalised momentum direction is not
        zero: its transverse part has length |Q/ω| > 0. */
    lemma MomentumVectorNonZero(m: MathFns, t: real)
      requires Sound(m) && omega() != 0.0 && mbar != 0.0 && mass != 0.0
      ensures MomentumVector(m, t) != Zero3
    {
      var k := Q() / omega();
      assert mass / mbar != 0.0;
      assert k != 0.0;
      var c, s := Cos(m, Phi(t)), Sin(m, Phi(t));
      assert s * s + c * c == 1.0;
      ScaledCircleNonZero(k, c, s);
      assert MomentumVector(m, t) == Vec3(k * c, k * s, k * tanDip());
    }

    /** The phi direction (−sin φ, cos φ, 0) is a unit vector. */
    lemma PhiDirUnit(m: MathFns, phival: real)
      requires Sound(m)
      ensures Mag2(Vec3(-Sin(m, phival), Cos(m, phival), 0.0)) == 1.0
    {
      assert Sin(m, phival) * Sin(m, phival) + Cos(m, phival) * Cos(m, phival) == 1.0;
    }

    /** `deltaPhi(phi, refphi)`: the same azimuth wrapping as the central
        helix's. */
    method DeltaPhi(phi: real, refphi: real) returns (dphi: real, phiOut: real)
      ensures InPrincipalRange(dphi)
      ensures phiOut - refphi == dphi
      ensures SameDirection(phiOut, phi)
      ensures InPrincipalRange(phi - refphi) ==> phiOut == phi
    {
      dphi, phiOut := HelixCommon.DeltaPhi(phi, refphi);
    }

    /** `invertCT()`: flip the helix in time and charge. Only m̄, the charge
        and the t0 parameter change, so the bending sign and the reduced
        charge flip with m̄. */
    method InvertCT()
      modifies this
      ensures mbar == -old(mbar) && charge == -old(charge)
      ensures pars.parameters == InvertedParams(old(pars.parameters))
      ensures pars.covariance == old(pars.covariance)
      ensures trange == old(trange) && mass == old(mass) && bnom == old(bnom)
      ensures vt == old(vt) && vz == old(vz)
      ensures old(mbar) != 0.0 ==> Sign() == -old(Sign()) && Q() == -old(Q())
    {
      mbar := -1.0 * mbar;
      charge := -1 * charge;
      pars := pars.(parameters := pars.parameters[T0 := -1.0 * pars.parameters[T0]]);
    }

    /** The parameter-override constructor: a copy of `other` with new
        parameter data. */
    constructor WithParams(pdata: ParamSpace.PData, other: IPHelix)
      ensures pars == pdata
      ensures trange == other.trange && mass == other.mass && charge == other.charge
      ensures mbar == other.mbar && bnom == other.bnom && vt == other.vt && vz == other.vz
    {
      trange, mass, charge, mbar := other.trange, other.mass, other.charge, other.mbar;
      bnom, vt, vz := other.bnom, other.vt, other.vz;
      pars := pdata;
    }

    /** The field-change constructor as written: a copy of `other` whose
        parameters move by the zero stub `dPardB`; the requested field is
        used for nothing but that stub, so the copy keeps the old field and
        reduced mass and equals `other`. */
    constructor ChangeFieldAsWritten(other: IPHelix, newBnom: Vec3, trot: real)
      ensures pars == other.pars && bnom == other.bnom && mbar == other.mbar
      ensures trange == other.trange && mass == other.mass && charge == other.charge
      ensures vt == other.vt && vz == other.vz
    {
      trange, mass, charge, mbar := other.trange, other.mass, other.charge, other.mbar;
      bnom, vt, vz := other.bnom, other.vt, other.vz;
      AddZeroChange(other.pars.parameters, trot, newBnom);
      pars := other.pars.(parameters := ParamSpace.Add(other.pars.parameters, DPardB(trot, newBnom)));
    }

    /** The field-change constructor as the central helix implements it:
        the new field replaces the old one and m̄ scales by |B_old|/|B_new|,
        so that m̄·|B| is kept. */
    constructor ChangeField(m: MathFns, other: IPHelix, newBnom: Vec3, trot: real)
      requires Mag(m, newBnom) != 0.0
      ensures bnom == newBnom
      ensures mbar * Mag(m, newBnom) == other.mbar * Mag(m, other.bnom)
      ensures pars == other.pars
      ensures trange == other.trange && mass == other.mass && charge == other.charge
      ensures vt == other.vt && vz == other.vz
    {
      trange, mass, charge := other.trange, other.mass, other.charge;
      vt, vz := other.vt, other.vz;
      mbar := other.mbar * (Mag(m, other.bnom) / Mag(m, newBnom));
      bnom := newBnom;
      AddZeroChange(other.pars.parameters, trot, newBnom);
      pars := other.pars.(parameters := ParamSpace.Add(other.pars.parameters, DPardB(trot, newBnom)));
    }
  }

  /** cos²λ + sin²λ = 1, and sin λ has the sign of tan λ. */
  lemma DipAngles(h: IPHelix, m: MathFns)
    requires Sound(m)
    ensures h.CosDip(m) * h.CosDip(m) + h.SinDip(m) * h.SinDip(m) == 1.0
    ensures h.tanDip() > 0.0 ==> h.SinDip(m) > 0.0
    ensures h.tanDip() < 0.0 ==> h.SinDip(m) < 0.0
  {
    SecantAtLeastOne(m, h.tanDip());
    DipCircle(m.sqrt(1.0 + h.tanDip() * h.tanDip()), h.tanDip(), h.CosDip(m));
    if h.tanDip() > 0.0 {
      MulPositive(h.tanDip(), h.CosDip(m));
    } else if h.tanDip() < 0.0 {
      MulPositive(-h.tanDip(), h.CosDip(m));
    }
  }

  /** For a massive helix, β ∈ [0, 1), γ ≥ 1 and the energy and momentum
      magnitudes obey ē > 0. */
  lemma KinematicRanges(h: IPHelix, m: MathFns)
    requires Sound(m) && h.omega() != 0.0 && h.mbar != 0.0
    ensures h.Ebar(m) > 0.0
    ensures 0.0 <= h.Beta(m) < 1.0
    ensures h.Gamma(m) >= 1.0
  {
    KinematicFactors(m, h.Pbar(m), h.mbar);
  }

  /** On a helix as the field-change constructor writes it, asking for a
      different field leaves the old one in place: the new helix does not
      describe the track in the requested field. */
  method ChangeFieldIgnoresField(other: IPHelix, newBnom: Vec3, trot: real) returns (h: IPHelix)
    requires newBnom != other.bnom
    ensures h.bnom != newBnom && h.mbar == other.mbar
  {
    h := new IPHelix.ChangeFieldAsWritten(other, newBnom, trot);
  }

  /** A non-zero multiple of a point on the unit circle is not the origin. */
  lemma ScaledCircleNonZero(k: real, c: real, s: real)
    requires k != 0.0 && s * s + c * c == 1.0
    ensures k * c != 0.0 || k * s != 0.0
  {
    if c != 0.0 {
      NonZeroProduct(k, c);
    } else {
      assert s * s == 1.0;
      NonZeroProduct(k, s);
    }
  }
}
