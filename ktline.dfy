/** The straight-line kinematic trajectory (KinKal/KTLine.cc): a particle
    moving without bending, parametrised at its point of closest approach
    to the z axis by d0, phi0, z0, cos θ, t0 and the momentum magnitude,
    with the analytic Jacobians between parameters and position/momentum.

    KinKal/KTLine.hh is not part of this model. Its inline accessors are
    taken here in the form the Jacobians in KTLine.cc imply:
    cos θ = cost, sin θ = √(1 − cost²), cot θ = cos θ / sin θ,
    energy = √(mom² + mass²), speed = c·mom/energy, gamma = energy/mass,
    pos0 = (−d0 sin φ0, d0 cos φ0, z0),
    dir = (sin θ cos φ0, sin θ sin φ0, cos θ) and
    flightLength(t) = speed·(t − t0). */
module StraightTrajectory {
  import opened RealMath
  import opened Vectors
  import opened Wrappers
  import ParamSpace

  /** Parameter indices. */
  const D0: nat := 0
  const Phi0: nat := 1
  const Z0: nat := 2
  const Cost: nat := 3
  const T0: nat := 4
  const Mom: nat := 5

  /** A line: its parameters (with covariance), mass, charge, nominal field
      and time range. */
  datatype KTLine = KTLine(pars: ParamSpace.PData, mass: real, charge: int, bnom: Vec3, trange: TimeRange)
  {
    function d0(): real { pars.parameters[D0] }
    function phi0(): real { pars.parameters[Phi0] }
    function z0(): real { pars.parameters[Z0] }
    function cost(): real { pars.parameters[Cost] }
    function t0(): real { pars.parameters[T0] }
    function mom(): real { pars.parameters[Mom] }
  }

  /** The sines and cosines of the polar angle θ and the azimuth φ0. */
  datatype Angles = Angles(sinT: real, cosT: real, sinF: real, cosF: real)
  {
    /** Both pairs lie on the unit circle, and θ is neither 0 nor π. */
    ghost predicate Valid()
    {
      sinT * sinT + cosT * cosT == 1.0 && sinF * sinF + cosF * cosF == 1.0 && sinT != 0.0
    }

    function CotT(): real
      requires sinT != 0.0
    {
      cosT / sinT
    }

    /** The direction of motion (`dir()`, also `momdir_`). */
    function MomDir(): Vec3 { Vec3(sinT * cosF, sinT * sinF, cosT) }

    /** `phidir_`: the transverse direction of increasing φ. */
    function PhiDir(): Vec3 { Vec3(-sinF, cosF, 0.0) }

    /** `perpdir_`: the direction of increasing θ. */
    function PerpDir(): Vec3 { Vec3(cosT * cosF, cosT * sinF, -1.0 * sinT) }

    /** The transverse radial unit vector (cos φ0, sin φ0, 0). */
    function Radial(): Vec3 { Vec3(cosF, sinF, 0.0) }

    /** (−cot θ cos φ0, −cot θ sin φ0, 1), the z0 row of dPar/dX. */
    function CotDir(): Vec3
      requires sinT != 0.0
    {
      Vec3(-CotT() * cosF, -CotT() * sinF, 1.0)
    }
  }

  function SinTheta(m: MathFns, l: KTLine): real { m.sqrt(1.0 - l.cost() * l.cost()) }

  function AnglesOf(m: MathFns, l: KTLine): Angles
  {
    Angles(SinTheta(m, l), l.cost(), m.sin(l.phi0()), m.cos(l.phi0()))
  }

  function Energy(m: MathFns, l: KTLine): real { m.sqrt(l.mom() * l.mom() + l.mass * l.mass) }

  function Speed(m: MathFns, l: KTLine): real
    requires Energy(m, l) != 0.0
  {
    l.mom() / Energy(m, l) * CLight
  }

  function Gamma(m: MathFns, l: KTLine): real
    requires l.mass != 0.0
  {
    Energy(m, l) / l.mass
  }

  function Pos0(m: MathFns, l: KTLine): Vec3
  {
    var a := AnglesOf(m, l);
    Vec3(-l.d0() * a.sinF, l.d0() * a.cosF, l.z0())
  }

  function FlightLength(m: MathFns, l: KTLine, time: real): real
    requires Energy(m, l) != 0.0
  {
    Speed(m, l) * (time - l.t0())
  }

  /** `position(time)`: pos0 moved along the direction by the flight length. */
  function Position(m: MathFns, l: KTLine, time: real): Vec3
    requires Energy(m, l) != 0.0
  {
    Add(Pos0(m, l), Scale(FlightLength(m, l, time), AnglesOf(m, l).MomDir()))
  }

  /** `position(VEC4&)`: overwrite the spatial part, keep the time. */
  function Position4(m: MathFns, l: KTLine, p: Vec4): (q: Vec4)
    requires Energy(m, l) != 0.0
    ensures q.t == p.t && q.Vect() == Position(m, l, p.t)
  {
    var pos3 := Position(m, l, p.t);
    Vec4(pos3.x, pos3.y, pos3.z, p.t)
  }

  /** `momentum(t)`: the direction scaled by the momentum magnitude, with the
      line's mass. */
  function Momentum(m: MathFns, l: KTLine, time: real): Mom4
  {
    var dir := AnglesOf(m, l).MomDir();
    Mom4(l.mom() * dir.x, l.mom() * dir.y, l.mom() * dir.z, l.mass)
  }

  /** `direction(t, mdir)`: the momentum basis; 0 = perpdir, 1 = phidir,
      2 = momdir; any other value is an invalid argument. */
  function Direction(m: MathFns, l: KTLine, time: real, mdir: int): (r: Result<Vec3>)
    ensures r.Failure? <==> !(0 <= mdir < 3)
  {
    var a := AnglesOf(m, l);
    if mdir == 0 then Success(a.PerpDir())
    else if mdir == 1 then Success(a.PhiDir())
    else if mdir == 2 then Success(a.MomDir())
    else Failure("Invalid direction")
  }

  /** A 3×6 Jacobian d(vector)/d(parameters), stored by columns. */
  datatype DVDP = DVDP(d0: Vec3, phi0: Vec3, z0: Vec3, cost: Vec3, t0: Vec3, mom: Vec3)

  /** A 6×3 Jacobian d(parameters)/d(vector), stored by rows. */
  datatype DPDV = DPDV(d0: Vec3, phi0: Vec3, z0: Vec3, cost: Vec3, t0: Vec3, mom: Vec3)

  /** The 3×3 product of a 3×6 and a 6×3 Jacobian: the sum over parameters
      of column ⊗ row. */
  function Compose(a: DVDP, b: DPDV): Mat3
  {
    AddMat3(AddMat3(AddMat3(Outer3(a.d0, b.d0), Outer3(a.phi0, b.phi0)),
                    AddMat3(Outer3(a.z0, b.z0), Outer3(a.cost, b.cost))),
            AddMat3(Outer3(a.t0, b.t0), Outer3(a.mom, b.mom)))
  }

  /** `dXdPar(time)`. */
  function DXDPar(m: MathFns, l: KTLine, time: real): DVDP
    requires Energy(m, l) != 0.0 && l.mass != 0.0 && l.mom() != 0.0
    requires SinTheta(m, l) != 0.0
  {
    var a := AnglesOf(m, l);
    var deltat := time - l.t0();
    var spd := Speed(m, l);
    var gam := Gamma(m, l);
    var dxdd0 := a.PhiDir();
    var dxdt0 := Scale(-spd, a.MomDir());
    DVDP(dxdd0,
         Sub(Scale(a.sinT * spd * deltat, dxdd0), Scale(l.d0(), a.Radial())),
         ZDir,
         Scale(spd * deltat, a.CotDir()),
         dxdt0,
         Scale(-(deltat / (gam * gam * l.mom())), dxdt0))
  }

  /** `dMdPar(time)`: no dependence on d0, z0 or t0. */
  function DMDPar(m: MathFns, l: KTLine, time: real): DVDP
    requires SinTheta(m, l) != 0.0
  {
    var a := AnglesOf(m, l);
    DVDP(Zero3, Scale(l.mom() * a.sinT, a.PhiDir()), Zero3, Scale(l.mom(), a.CotDir()), Zero3, a.MomDir())
  }

  /** The scale −E/(p sin θ c) of the t0 row of dPar/dX. */
  function TimeRowScale(e: real, p: real, sT: real): real
    requires p != 0.0 && sT != 0.0
  {
    assert p * sT * CLight != 0.0 by {
      if p * sT * CLight == 0.0 {
        ZeroProduct(p * sT, CLight);
        ZeroProduct(p, sT);
      }
    }
    -e / (p * sT * CLight)
  }

  /** `dPardX(time)`: cos θ, φ0 and the momentum do not depend on position. */
  function DParDX(m: MathFns, l: KTLine, time: real): DPDV
    requires SinTheta(m, l) != 0.0 && l.mom() != 0.0
  {
    var a := AnglesOf(m, l);
    var e := Energy(m, l);
    DPDV(a.PhiDir(), Zero3, a.CotDir(), Zero3,
         Scale(TimeRowScale(e, l.mom(), a.sinT), a.Radial()), Zero3)
  }

  /** The squared transverse momentum at `time`. */
  function MomT2(m: MathFns, l: KTLine, time: real): real
  {
    var p := Momentum(m, l, time);
    p.px * p.px + p.py * p.py
  }

  /** The transverse part (x, y, 0) of a vector. */
  function Transverse(v: Vec3): Vec3 { Vec3(v.x, v.y, 0.0) }

  /** `dPardM(time)`: the d0, z0 and t0 rows depend on the position at
      `time`; the φ0, cos θ and momentum rows only on the angles. */
  function DParDM(m: MathFns, l: KTLine, time: real): DPDV
    requires SinTheta(m, l) != 0.0 && l.mom() != 0.0 && Energy(m, l) != 0.0
    requires MomT2(m, l, time) != 0.0
  {
    var a := AnglesOf(m, l);
    DPDV(D0RowDM(m, l, time), PhiRowDM(l.mom(), a), Z0RowDM(m, l, time),
         Scale(1.0 / l.mom(), Sub(ZDir, Scale(a.cosT, a.MomDir()))), T0RowDM(m, l, time), a.MomDir())
  }

  /** The φ0 row of dPar/dM: the φ direction over mom·sin θ. */
  function PhiRowDM(p: real, a: Angles): Vec3
    requires p != 0.0 && a.sinT != 0.0
  {
    Scale(1.0 / (p * a.sinT), a.PhiDir())
  }

  /** The d0 row of dPar/dM: (x·pt / pt²)·(sin φ0, −cos φ0, 0). */
  function D0RowDM(m: MathFns, l: KTLine, time: real): Vec3
    requires Energy(m, l) != 0.0 && MomT2(m, l, time) != 0.0
  {
    var a := AnglesOf(m, l);
    var xmt := Dot(Position(m, l, time), Transverse(Momentum(m, l, time).Vect()));
    Scale(xmt / MomT2(m, l, time), Vec3(a.sinF, -a.cosF, 0.0))
  }

  /** The z0 row of dPar/dM. */
  function Z0RowDM(m: MathFns, l: KTLine, time: real): Vec3
    requires SinTheta(m, l) != 0.0 && l.mom() != 0.0 && Energy(m, l) != 0.0
  {
    var a := AnglesOf(m, l);
    var cos2F := a.cosF * a.cosF - a.sinF * a.sinF;
    var sin2F := 2.0 * a.cosF * a.sinF;
    var pos := Position(m, l, time);
    Scale(1.0 / (l.mom() * a.sinT),
      Vec3(a.CotT() * (cos2F * pos.x + sin2F * pos.y), a.CotT() * (sin2F * pos.x - cos2F * pos.y),
           -a.cosF * pos.x - a.sinF * pos.y))
  }

  /** The t0 row of dPar/dM. */
  function T0RowDM(m: MathFns, l: KTLine, time: real): Vec3
    requires Energy(m, l) != 0.0 && MomT2(m, l, time) != 0.0
  {
    var momv := Momentum(m, l, time).Vect();
    var pos := Position(m, l, time);
    var momt := Transverse(momv);
    var momt2 := MomT2(m, l, time);
    var xmt := Dot(pos, momt);
    var e := Energy(m, l);
    Scale(1.0 / (momt2 * CLight),
      Sub(Scale(xmt, Sub(Scale(2.0 * e / momt2, momt), Scale(1.0 / e, momv))), Scale(e, Transverse(pos))))
  }

  /** The constructor's point of closest approach of the line (pos0, dir)
      to the z axis (POCAUtil, which is not part of this model): the point
      on the line, the point on the axis and their distance. */
  datatype Poca = Poca(point1: Vec3, point2: Vec3, dca: real)

  /** The constructor from a position, a four-momentum, a charge and a
      nominal field: the parameters are measured at the closest approach to
      the z axis, with d0 signed by the angular momentum about z. */
  function MakeKTLine(m: MathFns, pocaToZ: (Vec3, Vec3) -> Poca, pos0: Vec4, mom0: Mom4, charge: int,
                      bnom: Vec3, trange: TimeRange): KTLine
    requires Sound(m) && mom0.Vect() != Zero3
  {
    var mommag := Mag(m, mom0.Vect());
    var e := m.sqrt(Mag2(mom0.Vect()) + mom0.m * mom0.m);
    Mag2Positive(mom0.Vect());
    SqrtPositive(m, Mag2(mom0.Vect()));
    SquareNonNegative(mom0.m);
    SqrtPositive(m, Mag2(mom0.Vect()) + mom0.m * mom0.m);
    PositiveQuotient(mommag, e);
    MulPositive(mommag / e, CLight);
    var speed := mommag / e * CLight;
    var dir := Unit(m, mom0.Vect());
    var poca := pocaToZ(pos0.Vect(), dir);
    var flen := Dot(dir, Sub(pos0.Vect(), poca.point1));
    var pca := Sub(poca.point1, poca.point2);
    var amsign := CopySign1(-Dot(Cross(ZDir, pca), dir));
    var t0 := pos0.t - flen / speed;
    var params := [amsign * poca.dca, m.atan2(dir.y, dir.x), poca.point1.z, dir.z, t0, mommag];
    KTLine(ParamSpace.PData(params, ParamSpace.ZeroMat), mom0.m, charge, bnom, trange)
  }

  /** The constructor stores the momentum magnitude and the z component of
      the unit momentum direction, which is a cosine; z0 is the z of the
      closest approach and |d0| its distance to the axis. */
  lemma ConstructorParameters(m: MathFns, pocaToZ: (Vec3, Vec3) -> Poca, pos0: Vec4, mom0: Mom4, charge: int,
                              bnom: Vec3, trange: TimeRange)
    requires Sound(m) && mom0.Vect() != Zero3
    ensures var l := MakeKTLine(m, pocaToZ, pos0, mom0, charge, bnom, trange);
      var dir := Unit(m, mom0.Vect());
      && l.mom() == Mag(m, mom0.Vect()) && l.mom() > 0.0
      && l.cost() == dir.z && -1.0 <= l.cost() <= 1.0
      && l.z0() == pocaToZ(pos0.Vect(), dir).point1.z
      && Abs(l.d0()) == Abs(pocaToZ(pos0.Vect(), dir).dca)
      && l.mass == mom0.m && l.charge == charge && l.bnom == bnom
  {
    var p := mom0.Vect();
    Mag2Positive(p);
    SqrtPositive(m, Mag2(p));
    UnitIsUnit(m, p);
    UnitComponentBound(Unit(m, p));
  }

  /** The parameter-override constructor: everything but the parameters
      comes from `other`. */
  function WithParams(pdata: ParamSpace.PData, other: KTLine): (l: KTLine)
    ensures l.pars == pdata
    ensures l.mass == other.mass && l.charge == other.charge && l.bnom == other.bnom && l.trange == other.trange
  {
    other.(pars := pdata)
  }

  /** The field-change copy constructor ignores the new field and the
      rotation time: a straight line does not depend on the field. */
  function ChangeField(other: KTLine, bnom: Vec3, trot: real): (l: KTLine)
    ensures l == other
  {
    other
  }

  /** The angles of a line with |cos θ| < 1 are valid. */
  lemma AnglesValid(m: MathFns, l: KTLine)
    requires Sound(m) && -1.0 < l.cost() < 1.0
    ensures AnglesOf(m, l).Valid() && SinTheta(m, l) > 0.0
  {
    var c := l.cost();
    var s := PositiveProduct(1.0 - c, 1.0 + c);
    assert 1.0 - c * c == s;
    SqrtPositive(m, 1.0 - c * c);
  }

  /** The direction basis is orthonormal: perpdir, phidir and momdir are
      unit vectors, pairwise perpendicular. */
  lemma BasisOrthonormal(a: Angles)
    requires a.Valid()
    ensures Mag2(a.PerpDir()) == 1.0 && Mag2(a.PhiDir()) == 1.0 && Mag2(a.MomDir()) == 1.0
    ensures Dot(a.PerpDir(), a.PhiDir()) == 0.0
    ensures Dot(a.PerpDir(), a.MomDir()) == 0.0
    ensures Dot(a.PhiDir(), a.MomDir()) == 0.0
  {
    var sT, cT, sF, cF := a.sinT, a.cosT, a.sinF, a.cosF;
    assert Mag2(a.PerpDir()) == cT * cT * (cF * cF + sF * sF) + sT * sT;
    assert Mag2(a.MomDir()) == sT * sT * (cF * cF + sF * sF) + cT * cT;
    assert Dot(a.PerpDir(), a.MomDir()) == cT * sT * (cF * cF + sF * sF) - sT * cT;
  }

  /** The momentum has the line's magnitude and mass at every time. */
  lemma MomentumMagnitude(m: MathFns, l: KTLine, t: real)
    requires Sound(m) && -1.0 < l.cost() < 1.0
    ensures Mag2(Momentum(m, l, t).Vect()) == l.mom() * l.mom()
    ensures Momentum(m, l, t).m == l.mass
  {
    AnglesValid(m, l);
    MomentumAlongDirection(m, l, t);
  }

  lemma MomentumAlongDirection(m: MathFns, l: KTLine, t: real)
    requires AnglesOf(m, l).Valid()
    ensures Mag2(Momentum(m, l, t).Vect()) == l.mom() * l.mom()
  {
    var a := AnglesOf(m, l);
    BasisOrthonormal(a);
    assert Momentum(m, l, t).Vect() == Scale(l.mom(), a.MomDir());
    Mag2Scale(l.mom(), a.MomDir());
  }

  /** dM/dPar has zero columns for d0, z0 and t0. */
  lemma DMDParZeroColumns(m: MathFns, l: KTLine, t: real)
    requires SinTheta(m, l) != 0.0
    ensures DMDPar(m, l, t).d0 == Zero3 && DMDPar(m, l, t).z0 == Zero3 && DMDPar(m, l, t).t0 == Zero3
  {
  }

  /** dPar/dX has zero rows for φ0, cos θ and the momentum. */
  lemma DParDXZeroRows(m: MathFns, l: KTLine, t: real)
    requires SinTheta(m, l) != 0.0 && l.mom() != 0.0
    ensures DParDX(m, l, t).phi0 == Zero3 && DParDX(m, l, t).cost == Zero3 && DParDX(m, l, t).mom == Zero3
  {
  }

  /** The entries of a aᵀ + c cᵀ + u uᵀ for the phi, perp and momentum
      directions, as polynomials in the sines and cosines. */
  lemma FrameEntries(sT: real, cT: real, sF: real, cF: real)
    requires sT * sT + cT * cT == 1.0 && sF * sF + cF * cF == 1.0
    ensures -sF * -sF + cT * cF * (cT * cF) + sT * cF * (sT * cF) == 1.0
    ensures -sF * cF + cT * cF * (cT * sF) + sT * cF * (sT * sF) == 0.0
    ensures -sF * 0.0 + cT * cF * (-1.0 * sT) + sT * cF * cT == 0.0
    ensures cF * -sF + cT * sF * (cT * cF) + sT * sF * (sT * cF) == 0.0
    ensures cF * cF + cT * sF * (cT * sF) + sT * sF * (sT * sF) == 1.0
    ensures cF * 0.0 + cT * sF * (-1.0 * sT) + sT * sF * cT == 0.0
    ensures 0.0 * -sF + -1.0 * sT * (cT * cF) + cT * (sT * cF) == 0.0
    ensures 0.0 * cF + -1.0 * sT * (cT * sF) + cT * (sT * sF) == 0.0
    ensures 0.0 * 0.0 + -1.0 * sT * (-1.0 * sT) + cT * cT == 1.0
  {
    assert cF * cF * (sT * sT + cT * cT) == cF * cF;
    assert sF * sF * (sT * sT + cT * cT) == sF * sF;
    assert cF * sF * (sT * sT + cT * cT) == cF * sF;
  }

  /** The momentum basis spans space: a aᵀ + c cᵀ + u uᵀ = I. */
  lemma FrameCompleteness(a: Angles)
    requires a.Valid()
    ensures AddMat3(AddMat3(Outer3(a.PhiDir(), a.PhiDir()), Outer3(a.PerpDir(), a.PerpDir())),
                    Outer3(a.MomDir(), a.MomDir())) == Identity3
  {
    FrameEntries(a.sinT, a.cosT, a.sinF, a.cosF);
    OuterSquaresSum(a.PhiDir(), a.PerpDir(), a.MomDir());
  }

  /** The entries of a aᵀ + ẑ bᵀ + u (r/sin θ)ᵀ, with b the cot θ direction
      and r the radial direction. */
  lemma TransverseFrameEntries(sT: real, cT: real, sF: real, cF: real, k: real, cot: real)
    requires sT * sT + cT * cT == 1.0 && sF * sF + cF * cF == 1.0
    requires sT * k == 1.0 && cot * sT == cT
    ensures -sF * -sF + 0.0 * (-cot * cF) + sT * cF * (k * cF) == 1.0
    ensures -sF * cF + 0.0 * (-cot * sF) + sT * cF * (k * sF) == 0.0
    ensures -sF * 0.0 + 0.0 * 1.0 + sT * cF * (k * 0.0) == 0.0
    ensures cF * -sF + 0.0 * (-cot * cF) + sT * sF * (k * cF) == 0.0
    ensures cF * cF + 0.0 * (-cot * sF) + sT * sF * (k * sF) == 1.0
    ensures cF * 0.0 + 0.0 * 1.0 + sT * sF * (k * 0.0) == 0.0
    ensures 0.0 * -sF + 1.0 * (-cot * cF) + cT * (k * cF) == 0.0
    ensures 0.0 * cF + 1.0 * (-cot * sF) + cT * (k * sF) == 0.0
    ensures 0.0 * 0.0 + 1.0 * 1.0 + cT * (k * 0.0) == 1.0
  {
    assert sT * cF * (k * cF) == (sT * k) * (cF * cF);
    assert sT * cF * (k * sF) == (sT * k) * (cF * sF);
    assert sT * sF * (k * cF) == (sT * k) * (sF * cF);
    assert sT * sF * (k * sF) == (sT * k) * (sF * sF);
    assert cot == cT * k by {
      assert cot * sT * k == cT * k;
    }
  }

  /** a aᵀ + ẑ bᵀ + u (r / sin θ)ᵀ = I, with b the cot θ direction. */
  lemma TransverseFrameCompleteness(a: Angles)
    requires a.Valid()
    ensures AddMat3(AddMat3(Outer3(a.PhiDir(), a.PhiDir()), Outer3(ZDir, a.CotDir())),
                    Outer3(a.MomDir(), Scale(1.0 / a.sinT, a.Radial()))) == Identity3
  {
    TransverseFrameEntries(a.sinT, a.cosT, a.sinF, a.cosF, 1.0 / a.sinT, a.CotT());
  }

  /** The cos θ row of dPar/dM is the θ direction scaled by −sin θ / mom,
      and the cos θ column of dM/dPar is it scaled by −mom / sin θ. */
  lemma CotDirIsPerp(a: Angles)
    requires a.Valid()
    ensures a.CotDir() == Scale(-(1.0 / a.sinT), a.PerpDir())
    ensures Sub(ZDir, Scale(a.cosT, a.MomDir())) == Scale(-a.sinT, a.PerpDir())
  {
    var sT, cT := a.sinT, a.cosT;
    assert -(1.0 / sT) * (-1.0 * sT) == 1.0;
    assert 1.0 - cT * (sT * 0.0 + cT) == -sT * (-1.0 * sT) by {
      assert 1.0 - cT * cT == sT * sT;
    }
  }

  /** The zero blocks of a composition drop out. */
  lemma ComposeOddZero(x: Mat3, y: Mat3, z: Mat3)
    ensures AddMat3(AddMat3(AddMat3(ZeroMat3, x), AddMat3(ZeroMat3, y)), AddMat3(ZeroMat3, z))
      == AddMat3(AddMat3(x, y), z)
  {
  }

  lemma ComposeEvenZero(x: Mat3, y: Mat3, z: Mat3)
    ensures AddMat3(AddMat3(AddMat3(x, ZeroMat3), AddMat3(y, ZeroMat3)), AddMat3(z, ZeroMat3))
      == AddMat3(AddMat3(x, y), z)
  {
  }

  lemma ScaleOne(v: Vec3)
    ensures Scale(1.0, v) == v
  {
  }

  /** The momentum Jacobians' product, whatever the d0, z0 and t0 rows of
      dPar/dM: only the φ0, cos θ and momentum columns of dM/dPar are
      non-zero, and they pair with the rows to give the frame identity. */
  lemma MomentumCompose(a: Angles, p: real, ps: real, ips: real, dd0: Vec3, dz0: Vec3, dt0: Vec3)
    requires a.Valid() && p != 0.0 && ps == p * a.sinT && ips == 1.0 / ps
    ensures Compose(DVDP(Zero3, Scale(ps, a.PhiDir()), Zero3, Scale(p, a.CotDir()), Zero3, a.MomDir()),
                    DPDV(dd0, Scale(ips, a.PhiDir()), dz0,
                         Scale(1.0 / p, Sub(ZDir, Scale(a.cosT, a.MomDir()))), dt0, a.MomDir()))
      == Identity3
  {
    OuterZeroLeft(dd0);
    OuterZeroLeft(dz0);
    OuterZeroLeft(dt0);
    OuterScaled(ps, ips, a.PhiDir(), a.PhiDir(), 1.0);
    ScaleOne(a.PhiDir());
    CotDirIsPerp(a);
    OuterScaled(p, 1.0 / p, a.CotDir(), Sub(ZDir, Scale(a.cosT, a.MomDir())), 1.0);
    ScaleOne(Sub(ZDir, Scale(a.cosT, a.MomDir())));
    OuterScaled(-(1.0 / a.sinT), -a.sinT, a.PerpDir(), a.PerpDir(), 1.0);
    ScaleOne(a.PerpDir());
    FrameCompleteness(a);
    ComposeOddZero(Outer3(a.PhiDir(), a.PhiDir()), Outer3(a.PerpDir(), a.PerpDir()), Outer3(a.MomDir(), a.MomDir()));
  }

  /** The position Jacobians' product, whatever the φ0, cos θ and momentum
      columns of dX/dPar: only the d0, z0 and t0 rows of dPar/dX are
      non-zero. */
  lemma PositionCompose(a: Angles, spd: real, e: real, p: real, w: real, dphi0: Vec3, dcost: Vec3, dmom: Vec3)
    requires a.Valid() && p != 0.0 && spd * e == CLight * p && w == TimeRowScale(e, p, a.sinT)
    ensures Compose(DVDP(a.PhiDir(), dphi0, ZDir, dcost, Scale(-spd, a.MomDir()), dmom),
                    DPDV(a.PhiDir(), Zero3, a.CotDir(), Zero3, Scale(w, a.Radial()), Zero3))
      == Identity3
  {
    OuterZeroRight(dphi0);
    OuterZeroRight(dcost);
    OuterZeroRight(dmom);
    TimeRowProduct(spd, e, p, a.sinT);
    OuterScaled(-spd, w, a.MomDir(), a.Radial(), 1.0 / a.sinT);
    TransverseFrameCompleteness(a);
    ComposeEvenZero(Outer3(a.PhiDir(), a.PhiDir()), Outer3(ZDir, a.CotDir()), Outer3(a.MomDir(), Scale(1.0 / a.sinT, a.Radial())));
  }

  lemma TimeRowProduct(spd: real, e: real, p: real, sT: real)
    requires p != 0.0 && sT != 0.0 && spd * e == CLight * p
    ensures -spd * TimeRowScale(e, p, sT) == 1.0 / sT
  {
    assert -spd * TimeRowScale(e, p, sT) == (spd * e) / (p * sT * CLight);
  }

  /** dM/dPar · dPar/dM = I₃: the momentum Jacobians are inverse to each
      other. */
  lemma MomentumJacobiansInverse(m: MathFns, l: KTLine, t: real)
    requires Sound(m) && -1.0 < l.cost() < 1.0 && l.mom() != 0.0
    ensures Energy(m, l) != 0.0 && SinTheta(m, l) != 0.0 && MomT2(m, l, t) != 0.0
    ensures Compose(DMDPar(m, l, t), DParDM(m, l, t)) == Identity3
  {
    AnglesValid(m, l);
    EnergyPositive(m, l);
    MomT2Positive(m, l, t);
    MomentumJacobianProduct(m, l, t);
  }

  lemma MomentumJacobianProduct(m: MathFns, l: KTLine, t: real)
    requires AnglesOf(m, l).Valid() && l.mom() != 0.0 && Energy(m, l) != 0.0 && MomT2(m, l, t) != 0.0
    ensures Compose(DMDPar(m, l, t), DParDM(m, l, t)) == Identity3
  {
    var a, p := AnglesOf(m, l), l.mom();
    var ps := p * a.sinT;
    var ips := PhiRowScale(p, a, ps);
    var cols := DVDP(Zero3, Scale(ps, a.PhiDir()), Zero3, Scale(p, a.CotDir()), Zero3, a.MomDir());
    DMDParNamed(m, l, t, a, p, ps);
    DParDMRows(m, l, t);
    var dp := DParDM(m, l, t);
    var rows := DPDV(dp.d0, Scale(ips, a.PhiDir()), dp.z0,
                     Scale(1.0 / p, Sub(ZDir, Scale(a.cosT, a.MomDir()))), dp.t0, a.MomDir());
    assert dp == rows;
    MomentumCompose(a, p, ps, ips, dp.d0, dp.z0, dp.t0);
    assert Compose(cols, rows) == Identity3;
  }

  /** The φ0 row of dPar/dM is the φ direction over p·sin θ; the scale
      is handed back so that callers can name it. */
  lemma PhiRowScale(p: real, a: Angles, ps: real) returns (ips: real)
    requires p != 0.0 && a.sinT != 0.0 && ps == p * a.sinT
    ensures ps != 0.0 && ips == 1.0 / ps
    ensures PhiRowDM(p, a) == Scale(ips, a.PhiDir())
  {
    assert ps != 0.0 by {
      if ps == 0.0 {
        ZeroProduct(p, a.sinT);
      }
    }
    ips := 1.0 / ps;
  }

  /** `DMDParColumns` with the angles, the momentum and mom·sin θ named
      by the caller. */
  lemma DMDParNamed(m: MathFns, l: KTLine, t: real, a: Angles, p: real, ps: real)
    requires a == AnglesOf(m, l) && p == l.mom() && ps == p * a.sinT && a.sinT != 0.0
    ensures DMDPar(m, l, t) == DVDP(Zero3, Scale(ps, a.PhiDir()), Zero3, Scale(p, a.CotDir()), Zero3, a.MomDir())
  {
    DMDParColumns(m, l, t);
  }

  /** The columns of dM/dPar in terms of the angles. */
  lemma DMDParColumns(m: MathFns, l: KTLine, t: real)
    requires SinTheta(m, l) != 0.0
    ensures DMDPar(m, l, t) == DVDP(Zero3, Scale(l.mom() * AnglesOf(m, l).sinT, AnglesOf(m, l).PhiDir()), Zero3,
                                    Scale(l.mom(), AnglesOf(m, l).CotDir()), Zero3, AnglesOf(m, l).MomDir())
  {
  }

  /** The φ0, cos θ and momentum rows of dPar/dM in terms of the angles. */
  lemma DParDMRows(m: MathFns, l: KTLine, t: real)
    requires SinTheta(m, l) != 0.0 && l.mom() != 0.0 && Energy(m, l) != 0.0 && MomT2(m, l, t) != 0.0
    ensures DParDM(m, l, t).phi0 == PhiRowDM(l.mom(), AnglesOf(m, l))
    ensures DParDM(m, l, t).cost == Scale(1.0 / l.mom(), Sub(ZDir, Scale(AnglesOf(m, l).cosT, AnglesOf(m, l).MomDir())))
    ensures DParDM(m, l, t).mom == AnglesOf(m, l).MomDir()
  {
  }

  /** The momentum is mom times the direction of motion. */
  lemma MomentumIsScaledDirection(m: MathFns, l: KTLine, t: real)
    ensures Momentum(m, l, t).Vect() == Scale(l.mom(), AnglesOf(m, l).MomDir())
  {
  }

  /** Moving φ0 or cos θ turns the momentum without changing its length:
      their columns of dM/dPar are perpendicular to it. The momentum is
      proportional to mom: mom times its column is the momentum itself. */
  lemma DMDParTurnsOrScales(m: MathFns, l: KTLine, t: real)
    requires Sound(m) && -1.0 < l.cost() < 1.0
    ensures SinTheta(m, l) != 0.0
    ensures Dot(DMDPar(m, l, t).phi0, Momentum(m, l, t).Vect()) == 0.0
    ensures Dot(DMDPar(m, l, t).cost, Momentum(m, l, t).Vect()) == 0.0
    ensures Scale(l.mom(), DMDPar(m, l, t).mom) == Momentum(m, l, t).Vect()
  {
    AnglesValid(m, l);
    BasisOrthonormal(AnglesOf(m, l));
    CotDirIsPerp(AnglesOf(m, l));
    DMDParColumns(m, l, t);
    MomentumIsScaledDirection(m, l, t);
    DotScaledZero(l.mom() * AnglesOf(m, l).sinT, AnglesOf(m, l).PhiDir(), l.mom(), AnglesOf(m, l).MomDir());
    DotScaleLeft(-(1.0 / AnglesOf(m, l).sinT), AnglesOf(m, l).PerpDir(), AnglesOf(m, l).MomDir());
    DotScaledZero(l.mom(), AnglesOf(m, l).CotDir(), l.mom(), AnglesOf(m, l).MomDir());
  }

  /** dPar/dM applied to the momentum itself: scaling the momentum along
      itself leaves φ0 and cos θ unchanged (their rows are perpendicular to
      it) and changes mom at unit rate (its row maps the momentum to mom). */
  lemma DParDMOnMomentum(m: MathFns, l: KTLine, t: real)
    requires Sound(m) && -1.0 < l.cost() < 1.0 && l.mom() != 0.0
    ensures SinTheta(m, l) != 0.0 && Energy(m, l) != 0.0 && MomT2(m, l, t) != 0.0
    ensures Dot(DParDM(m, l, t).phi0, Momentum(m, l, t).Vect()) == 0.0
    ensures Dot(DParDM(m, l, t).cost, Momentum(m, l, t).Vect()) == 0.0
    ensures Dot(DParDM(m, l, t).mom, Momentum(m, l, t).Vect()) == l.mom()
  {
    AnglesValid(m, l);
    EnergyPositive(m, l);
    MomT2Positive(m, l, t);
    BasisOrthonormal(AnglesOf(m, l));
    CotDirIsPerp(AnglesOf(m, l));
    DParDMRows(m, l, t);
    MomentumIsScaledDirection(m, l, t);
    var ips := PhiRowScale(l.mom(), AnglesOf(m, l), l.mom() * AnglesOf(m, l).sinT);
    DotScaledZero(ips, AnglesOf(m, l).PhiDir(), l.mom(), AnglesOf(m, l).MomDir());
    DotScaleLeft(-AnglesOf(m, l).sinT, AnglesOf(m, l).PerpDir(), AnglesOf(m, l).MomDir());
    DotScaledZero(1.0 / l.mom(), Sub(ZDir, Scale(AnglesOf(m, l).cosT, AnglesOf(m, l).MomDir())), l.mom(), AnglesOf(m, l).MomDir());
    DotScaleRight(l.mom(), AnglesOf(m, l).MomDir(), AnglesOf(m, l).MomDir());
  }

  /** Moving t0 later moves the position back along the motion at the
      velocity c·p/E: E times the t0 column of dX/dPar is −c times the
      momentum. The d0 column is a transverse unit vector perpendicular to
      the momentum. */
  lemma PositionColumnsKinematics(m: MathFns, l: KTLine, t: real)
    requires Sound(m) && -1.0 < l.cost() < 1.0 && l.mom() != 0.0 && l.mass != 0.0
    ensures Energy(m, l) > 0.0 && SinTheta(m, l) != 0.0
    ensures Scale(Energy(m, l), DXDPar(m, l, t).t0) == Scale(-CLight, Momentum(m, l, t).Vect())
    ensures Dot(DXDPar(m, l, t).d0, Momentum(m, l, t).Vect()) == 0.0
    ensures Mag2(DXDPar(m, l, t).d0) == 1.0 && DXDPar(m, l, t).d0.z == 0.0
  {
    AnglesValid(m, l);
    SpeedTimesEnergy(m, l);
    BasisOrthonormal(AnglesOf(m, l));
    PositionJacobianColumns(m, l, t);
    MomentumIsScaledDirection(m, l, t);
    ScaleComposed(Energy(m, l), -Speed(m, l), -CLight, l.mom(), AnglesOf(m, l).MomDir());
    DotScaleRight(l.mom(), AnglesOf(m, l).PhiDir(), AnglesOf(m, l).MomDir());
  }

  /** dX/dPar · dPar/dX = I₃: the position Jacobians are inverse to each
      other, given speed·energy = c·mom. */
  lemma PositionJacobiansInverse(m: MathFns, l: KTLine, t: real)
    requires Sound(m) && -1.0 < l.cost() < 1.0 && l.mom() != 0.0 && l.mass != 0.0
    ensures Energy(m, l) != 0.0 && SinTheta(m, l) != 0.0
    ensures Compose(DXDPar(m, l, t), DParDX(m, l, t)) == Identity3
  {
    AnglesValid(m, l);
    SpeedTimesEnergy(m, l);
    PositionJacobianProduct(m, l, t);
  }

  lemma PositionJacobianProduct(m: MathFns, l: KTLine, t: real)
    requires AnglesOf(m, l).Valid() && l.mom() != 0.0 && l.mass != 0.0 && Energy(m, l) != 0.0
    requires Speed(m, l) * Energy(m, l) == CLight * l.mom()
    ensures Compose(DXDPar(m, l, t), DParDX(m, l, t)) == Identity3
  {
    var a, dx := AnglesOf(m, l), DXDPar(m, l, t);
    var w := TimeRowScale(Energy(m, l), l.mom(), a.sinT);
    var cols := DVDP(a.PhiDir(), dx.phi0, ZDir, dx.cost, Scale(-Speed(m, l), a.MomDir()), dx.mom);
    var rows := DPDV(a.PhiDir(), Zero3, a.CotDir(), Zero3, Scale(w, a.Radial()), Zero3);
    PositionJacobianColumns(m, l, t);
    assert dx == cols;
    assert DParDX(m, l, t) == rows;
    PositionCompose(a, Speed(m, l), Energy(m, l), l.mom(), w, dx.phi0, dx.cost, dx.mom);
    assert Compose(cols, rows) == Identity3;
  }

  /** The d0, z0 and t0 columns of dX/dPar in terms of the angles: the φ
      direction, ẑ and −speed times the direction of motion. */
  lemma PositionJacobianColumns(m: MathFns, l: KTLine, t: real)
    requires Energy(m, l) != 0.0 && l.mass != 0.0 && l.mom() != 0.0 && SinTheta(m, l) != 0.0
    ensures var a, dx := AnglesOf(m, l), DXDPar(m, l, t);
      dx == DVDP(a.PhiDir(), dx.phi0, ZDir, dx.cost, Scale(-Speed(m, l), a.MomDir()), dx.mom)
  {
    var a, dx := AnglesOf(m, l), DXDPar(m, l, t);
    assert dx.d0 == a.PhiDir() && dx.z0 == ZDir && dx.t0 == Scale(-Speed(m, l), a.MomDir());
  }

  lemma EnergyPositive(m: MathFns, l: KTLine)
    requires Sound(m) && l.mom() != 0.0
    ensures Energy(m, l) > 0.0
  {
    var s := SquarePositive(l.mom());
    SquareNonNegative(l.mass);
    SqrtPositive(m, s + l.mass * l.mass);
  }

  /** speed·energy = c·mom, the relation between the t0 column and row. */
  lemma SpeedTimesEnergy(m: MathFns, l: KTLine)
    requires Sound(m) && l.mom() != 0.0
    ensures Energy(m, l) > 0.0 && Speed(m, l) * Energy(m, l) == CLight * l.mom()
  {
    EnergyPositive(m, l);
  }

  /** The transverse momentum of a line with sin θ ≠ 0 and mom ≠ 0 is not zero. */
  lemma MomT2Positive(m: MathFns, l: KTLine, t: real)
    requires Sound(m) && -1.0 < l.cost() < 1.0 && l.mom() != 0.0
    ensures MomT2(m, l, t) > 0.0
  {
    var a := AnglesOf(m, l);
    AnglesValid(m, l);
    var k := SquarePositive(l.mom() * a.sinT);
    MomT2Expansion(l.mom(), a.sinT, a.sinF, a.cosF, k);
  }

  /** (p sT cF)² + (p sT sF)² = (p sT)² when sF² + cF² = 1. */
  lemma MomT2Expansion(p: real, sT: real, sF: real, cF: real, k: real)
    requires sF * sF + cF * cF == 1.0 && k == p * sT * (p * sT)
    ensures p * (sT * cF) * (p * (sT * cF)) + p * (sT * sF) * (p * (sT * sF)) == k
  {
    assert p * (sT * cF) * (p * (sT * cF)) + p * (sT * sF) * (p * (sT * sF)) == k * (cF * cF + sF * sF);
  }
}
