/** The central helix (KinKal/CentralHelix.cc), parametrised at its point of
    closest approach to the z axis by d0, φ0, ω (curvature), z0, tan λ and
    t0. KinKal/CentralHelix.hh is not part of this model: the scalar
    accessors it defines (β, cos λ, the reduced charge Q) enter the
    functions below as arguments, and the rotations between the global
    frame and the field-aligned local frame are not modelled (the
    Jacobians are the local-frame ones). */
module CentralHelixTraj {
  import opened RealMath
  import opened Vectors
  import opened Wrappers
  import opened HelixCommon
  import ParamSpace

  const D0: nat := 0
  const Phi0: nat := 1
  const Omega: nat := 2
  const Z0: nat := 3
  const TanDip: nat := 4
  const T0: nat := 5

  /** The helix: parameters, mass, charge, nominal field, reduced mass
      mbar (mass expressed as a bending radius, signed by charge and field),
      time range and z velocity. */
  datatype CentralHelix = CentralHelix(pars: ParamSpace.PData, mass: real, charge: int, bnom: Vec3,
                                       mbar: real, trange: TimeRange, vz: real)
  {
    function d0(): real { pars.parameters[D0] }
    function phi0(): real { pars.parameters[Phi0] }
    function omega(): real { pars.parameters[Omega] }
    function z0(): real { pars.parameters[Z0] }
    function tanDip(): real { pars.parameters[TanDip] }
    function t0(): real { pars.parameters[T0] }
  }

  /** The field-change copy constructor: the reduced mass scales with
      |B_old| / |B_new| (the bending radius of a fixed momentum is inversely
      proportional to the field), the nominal field is replaced and the
      parameters move by `dPardB(trot, bnom)`, the parameter change for the
      new field at the rotation time, which CentralHelix.hh computes. */
  function ChangeField(m: MathFns, other: CentralHelix, bnom: Vec3, trot: real, dPardB: (real, Vec3) -> ParamSpace.PVec): (h: CentralHelix)
    requires Mag(m, bnom) != 0.0
    ensures h.mbar * Mag(m, bnom) == other.mbar * Mag(m, other.bnom)
    ensures h.bnom == bnom
    ensures h.pars.parameters == ParamSpace.Add(other.pars.parameters, dPardB(trot, bnom))
    ensures h.pars.covariance == other.pars.covariance
    ensures h.mass == other.mass && h.charge == other.charge && h.trange == other.trange && h.vz == other.vz
  {
    var mbar := other.mbar * (Mag(m, other.bnom) / Mag(m, bnom));
    var pars := ParamSpace.PData(ParamSpace.Add(other.pars.parameters, dPardB(trot, bnom)), other.pars.covariance);
    other.(mbar := mbar, bnom := bnom, pars := pars)
  }

  /** Moving to a new field and back, with parameter changes that cancel,
      restores the helix. */
  lemma ChangeFieldRoundTrip(m: MathFns, h: CentralHelix, bnom: Vec3, t1: real, t2: real,
                             there: (real, Vec3) -> ParamSpace.PVec, back: (real, Vec3) -> ParamSpace.PVec)
    requires Mag(m, bnom) != 0.0 && Mag(m, h.bnom) != 0.0
    requires back(t2, h.bnom) == ParamSpace.Sub(ParamSpace.ZeroVec, there(t1, bnom))
    ensures ChangeField(m, ChangeField(m, h, bnom, t1, there), h.bnom, t2, back) == h
  {
    var h1 := ChangeField(m, h, bnom, t1, there);
    var h2 := ChangeField(m, h1, h.bnom, t2, back);
    assert h2.mbar * Mag(m, h.bnom) == h.mbar * Mag(m, h.bnom);
    assert h2.pars.parameters == h.pars.parameters;
  }

  /** The parameter-override constructor: a copy of `other` with new
      parameter data. */
  function WithParams(pdata: ParamSpace.PData, other: CentralHelix): (h: CentralHelix)
    ensures h.pars == pdata
    ensures h.mass == other.mass && h.charge == other.charge && h.bnom == other.bnom
    ensures h.mbar == other.mbar && h.trange == other.trange && h.vz == other.vz
  {
    other.(pars := pdata)
  }

  /** A 3×6 Jacobian d(vector)/d(parameters), by columns. */
  datatype HelixDVDP = HelixDVDP(d0: Vec3, phi0: Vec3, omega: Vec3, z0: Vec3, tanDip: Vec3, t0: Vec3)

  /** A 6×3 Jacobian d(parameters)/d(vector), by rows. */
  datatype HelixDPDV = HelixDPDV(d0: Vec3, phi0: Vec3, omega: Vec3, z0: Vec3, tanDip: Vec3, t0: Vec3)

  /** The transverse flight length c·β·(t − t0)·cos λ. */
  function FlightLength(h: CentralHelix, beta: real, cosDip: real, time: real): real
  {
    CLight * beta * (time - h.t0()) * cosDip
  }

  /** The transverse speed c·β·cos λ: the flight length per unit of
      elapsed time, l/(t − t0) for every t ≠ t0. */
  function TransverseSpeed(beta: real, cosDip: real): real
  {
    CLight * beta * cosDip
  }

  /** `dMdPar(time)` as written, in the local frame, with `q` the reduced
      charge: the columns at flight length l = c·β·(t − t0)·cos λ and
      azimuth φ0 + ω·l. The t0 column divides l by t − t0, which is 0/0 at
      t = t0; `None` stands for the NaN the source computes there. */
  function DMDParAsWritten(m: MathFns, h: CentralHelix, q: real, beta: real, cosDip: real, time: real): Option<HelixDVDP>
    requires h.omega() != 0.0
  {
    if time == h.t0() then None
    else
      var l := FlightLength(h, beta, cosDip, time);
      var ang := h.phi0() + l * h.omega();
      Some(DMDParAt(q, h.omega(), l, h.tanDip(), l / (time - h.t0()), Sin(m, ang), Cos(m, ang)))
  }

  /** `dMdPar(time)` with the quotient l/(t − t0) replaced by its value
      c·β·cos λ, defined at every time including t0. */
  function DMDPar(m: MathFns, h: CentralHelix, q: real, beta: real, cosDip: real, time: real): HelixDVDP
    requires h.omega() != 0.0
  {
    var l := FlightLength(h, beta, cosDip, time);
    var ang := h.phi0() + l * h.omega();
    DMDParAt(q, h.omega(), l, h.tanDip(), TransverseSpeed(beta, cosDip), Sin(m, ang), Cos(m, ang))
  }

  /** The columns of `dMdPar` from the scalars they depend on: the reduced
      charge `q`, the curvature `omval`, the flight length `l`, tan λ, the
      flight length per unit time `g` and the sine and cosine of the
      azimuth reached. */
  function DMDParAt(q: real, omval: real, l: real, tanDip: real, g: real, sang: real, cang: real): HelixDVDP
    requires omval != 0.0
  {
    var factor := q / omval;
    HelixDVDP(Zero3,
              PhiColumn(factor, sang, cang),
              Vec3(-factor / omval * (l * omval * sang + cang), factor / omval * (l * omval * cang - sang), -factor / omval),
              Zero3,
              Vec3(q * l * tanDip * sang, -q * l * tanDip * cang, factor),
              TimeColumn(g, q, sang, cang))
  }

  /** dM/dφ0 in the local frame: the transverse momentum q/ω turned by a
      quarter turn, at azimuth with sine `s` and cosine `c`. */
  function PhiColumn(f: real, s: real, c: real): Vec3
  {
    Vec3(-f * s, f * c, 0.0)
  }

  /** dM/dt0 in the local frame, with `g` the flight length per unit of
      elapsed time. */
  function TimeColumn(g: real, q: real, s: real, c: real): Vec3
  {
    Vec3(g * q * s, -g * q * c, 0.0)
  }

  /** Away from t = t0 the written quotient l/(t − t0) is the transverse
      speed, so the corrected Jacobian is the written one. */
  lemma DMDParAgreesAwayFromT0(m: MathFns, h: CentralHelix, q: real, beta: real, cosDip: real, time: real)
    requires h.omega() != 0.0 && time != h.t0()
    ensures DMDParAsWritten(m, h, q, beta, cosDip, time) == Some(DMDPar(m, h, q, beta, cosDip, time))
  {
    FlightPerTime(CLight * beta, cosDip, time - h.t0());
    assert FlightLength(h, beta, cosDip, time) / (time - h.t0()) == TransverseSpeed(beta, cosDip);
  }

  /** (a·dt·c)/dt = a·c for dt ≠ 0. */
  lemma FlightPerTime(a: real, c: real, dt: real)
    requires dt != 0.0
    ensures a * dt * c / dt == a * c
  {
    assert a * dt * c == (a * c) * dt;
  }

  /** At t = t0 the written Jacobian has no value (its t0 column is 0/0),
      while the corrected one does: at zero flight length its t0 column is
      c·β·cos λ·q·(sin φ0, −cos φ0, 0). */
  lemma DMDParAsWrittenAtT0(m: MathFns, h: CentralHelix, q: real, beta: real, cosDip: real)
    requires h.omega() != 0.0
    ensures DMDParAsWritten(m, h, q, beta, cosDip, h.t0()) == None
    ensures DMDPar(m, h, q, beta, cosDip, h.t0()).t0
      == TimeColumn(TransverseSpeed(beta, cosDip), q, Sin(m, h.phi0()), Cos(m, h.phi0()))
  {
    assert FlightLength(h, beta, cosDip, h.t0()) == 0.0;
    assert h.phi0() + FlightLength(h, beta, cosDip, h.t0()) * h.omega() == h.phi0();
  }

  /** The momentum does not depend on d0 or z0, and moving t0 turns it like
      moving φ0 does: dM/dt0 = −(ω·c·β·cos λ)·dM/dφ0, at every time. */
  lemma DMDParStructure(m: MathFns, h: CentralHelix, q: real, beta: real, cosDip: real, time: real)
    requires h.omega() != 0.0
    ensures DMDPar(m, h, q, beta, cosDip, time).d0 == Zero3
    ensures DMDPar(m, h, q, beta, cosDip, time).z0 == Zero3
    ensures DMDPar(m, h, q, beta, cosDip, time).t0
      == Scale(-(h.omega() * TransverseSpeed(beta, cosDip)), DMDPar(m, h, q, beta, cosDip, time).phi0)
  {
    PhiRotation(q, h.omega(), FlightLength(h, beta, cosDip, time), h.tanDip(), TransverseSpeed(beta, cosDip),
                Sin(m, h.phi0() + FlightLength(h, beta, cosDip, time) * h.omega()),
                Cos(m, h.phi0() + FlightLength(h, beta, cosDip, time) * h.omega()),
                h.omega() * TransverseSpeed(beta, cosDip));
  }

  /** The same on the scalars: with k = ω·g the t0 column is −k times the
      φ0 column. */
  lemma PhiRotation(q: real, omval: real, l: real, tanDip: real, g: real, s: real, c: real, k: real)
    requires omval != 0.0
    requires k == omval * g
    ensures DMDParAt(q, omval, l, tanDip, g, s, c).t0 == Scale(-k, DMDParAt(q, omval, l, tanDip, g, s, c).phi0)
  {
    var f := q / omval;
    assert k * f == g * q by {
      assert k * f == (omval * g) * (q / omval);
    }
    assert -k * (-f * s) == (k * f) * s;
    assert -k * (f * c) == -(k * f) * c;
  }

  /** `dPardXLoc(time)`, given the helix position `pos` and momentum `mom`
      at that time. The d0 row divides by whichever of sin φ0 and cos φ0 is
      larger than 1/2 in magnitude. */
  function DParDXLoc(m: MathFns, h: CentralHelix, pos: Vec3, mom: Vec3): HelixDPDV
    requires Sound(m) && h.omega() != 0.0 && h.vz != 0.0
    requires CenterOffset2(m, h, pos, mom) != 0.0
  {
    var phip := m.atan2(mom.y, mom.x);
    var cx := pos.x - m.sin(phip) / h.omega();
    var cy := pos.y + m.cos(phip) / h.omega();
    var sphi0, cphi0 := m.sin(h.phi0()), m.cos(h.phi0());
    var r2 := cx * cx + cy * cy;
    var dd0dX := D0RowDX(sphi0, cphi0);
    var dphi0dX := Vec3(-cy / r2, cx / r2, 0.0);
    var dz0dX := Vec3(dphi0dX.x * h.tanDip() / h.omega(), dphi0dX.y * h.tanDip() / h.omega(), 1.0);
    var dt0dX := Vec3(dz0dX.x / h.vz, dz0dX.y / h.vz, -1.0 / h.vz);
    HelixDPDV(dd0dX, dphi0dX, Zero3, dz0dX, Zero3, dt0dX)
  }

  /** The d0 row of `dPardXLoc`: −1/sin φ0 along x when |sin φ0| > 1/2,
      else 1/cos φ0 along y. The branch keeps the divisor above 1/2 in
      magnitude, so for every azimuth both entries stay below 2. */
  function D0RowDX(sphi0: real, cphi0: real): (r: Vec3)
    requires sphi0 * sphi0 + cphi0 * cphi0 == 1.0
    ensures r.z == 0.0 && (r.x == 0.0 || r.y == 0.0)
    ensures Abs(r.x) < 2.0 && Abs(r.y) < 2.0
  {
    if Abs(sphi0) > 0.5 then (ReciprocalBelowTwo(sphi0); Vec3(-1.0 / sphi0, 0.0, 0.0))
    else (CosineLarge(sphi0, cphi0); ReciprocalBelowTwo(cphi0); Vec3(0.0, 1.0 / cphi0, 0.0))
  }

  /** A number larger than 1/2 in magnitude has a reciprocal smaller than
      2 in magnitude. */
  lemma ReciprocalBelowTwo(x: real)
    requires Abs(x) > 0.5
    ensures x != 0.0 && Abs(1.0 / x) < 2.0 && Abs(-1.0 / x) < 2.0
  {
    var inv := 1.0 / x;
    assert inv * x == 1.0;
    assert -1.0 / x == -inv;
  }

  /** cx² + cy², the squared distance of the helix centre (as seen from
      `pos` and `mom`) to the origin. */
  function CenterOffset2(m: MathFns, h: CentralHelix, pos: Vec3, mom: Vec3): real
    requires h.omega() != 0.0
  {
    var phip := m.atan2(mom.y, mom.x);
    var cx := pos.x - m.sin(phip) / h.omega();
    var cy := pos.y + m.cos(phip) / h.omega();
    cx * cx + cy * cy
  }

  /** Position does not change ω or tan λ; z0 and t0 follow φ0 in x and y,
      and t0 moves opposite to z at the speed vz. */
  lemma DParDXLocStructure(m: MathFns, h: CentralHelix, pos: Vec3, mom: Vec3)
    requires Sound(m) && h.omega() != 0.0 && h.vz != 0.0
    requires CenterOffset2(m, h, pos, mom) != 0.0
    ensures var j := DParDXLoc(m, h, pos, mom);
      && j.omega == Zero3 && j.tanDip == Zero3
      && j.z0.z == 1.0 && j.t0.z == -1.0 / h.vz && j.phi0.z == 0.0
      && j.t0.x == j.z0.x / h.vz && j.t0.y == j.z0.y / h.vz
  {
  }

  /** With sin² + cos² = 1, a sine at most 1/2 in magnitude comes with a
      cosine larger than 1/2. */
  lemma CosineLarge(s: real, c: real)
    requires s * s + c * c == 1.0 && Abs(s) <= 0.5
    ensures Abs(c) > 0.5 && c != 0.0
  {
    NonNegativeProduct(0.5 - Abs(s), 0.5 + Abs(s));
    assert s * s == Abs(s) * Abs(s);
    assert c * c == Abs(c) * Abs(c);
    if Abs(c) <= 0.5 {
      NonNegativeProduct(0.5 - Abs(c), 0.5 + Abs(c));
    }
  }

  /** The sine form of the d0 row of `dPardMLoc` (lines 228-230), with
      (cx, cy) the centre offset, `g` the φ0 row, `q` the reduced charge and
      `dpx`, `dpy` the derivatives of the radius. */
  function SineFormD0(sphi0: real, cphi0: real, cx: real, g: Vec3, q: real, dpx: real, dpy: real): Vec3
    requires sphi0 != 0.0 && q != 0.0
  {
    Vec3(1.0 / sphi0 * (cx * cphi0 / sphi0 * g.x) - dpx,
         1.0 / sphi0 * (cx * cphi0 / sphi0 * g.y + 1.0 / q) - dpy,
         0.0)
  }

  /** The cosine form of the same row (lines 232-234). */
  function CosineFormD0(sphi0: real, cphi0: real, cy: real, g: Vec3, q: real, dpx: real, dpy: real): Vec3
    requires cphi0 != 0.0 && q != 0.0
  {
    Vec3(1.0 / cphi0 * (cy * sphi0 / cphi0 * g.x + 1.0 / q) - dpx,
         1.0 / cphi0 * (cy * sphi0 / cphi0 * g.y) - dpy,
         0.0)
  }

  /** The d0 row as the source evaluates it: the sine form for every φ0.
      The assignment in the |sin φ0| ≤ 1/2 branch (lines 231-234) declares
      a new local that goes out of scope at once, so it has no effect. At
      sin φ0 = 0 (φ0 = 0 or π) the division has no value: `None`. */
  function DD0DMAsWritten(sphi0: real, cphi0: real, cx: real, g: Vec3, q: real, dpx: real, dpy: real): Option<Vec3>
    requires q != 0.0
  {
    if sphi0 == 0.0 then None else Some(SineFormD0(sphi0, cphi0, cx, g, q, dpx, dpy))
  }

  /** The d0 row as evidently intended: the cosine form when
      |sin φ0| ≤ 1/2, as `dPardXLoc` does for its own d0 row. Defined for
      every azimuth. */
  function DD0DM(sphi0: real, cphi0: real, cx: real, cy: real, g: Vec3, q: real, dpx: real, dpy: real): Vec3
    requires sphi0 * sphi0 + cphi0 * cphi0 == 1.0 && q != 0.0
  {
    if Abs(sphi0) <= 0.5 then
      (CosineLarge(sphi0, cphi0); CosineFormD0(sphi0, cphi0, cy, g, q, dpx, dpy))
    else SineFormD0(sphi0, cphi0, cx, g, q, dpx, dpy)
  }

  /** The corrected row never divides by a sine or cosine of magnitude 1/2
      or less, and it agrees with the source wherever |sin φ0| > 1/2. */
  lemma DD0DMWellConditioned(sphi0: real, cphi0: real, cx: real, cy: real, g: Vec3, q: real, dpx: real, dpy: real)
    requires sphi0 * sphi0 + cphi0 * cphi0 == 1.0 && q != 0.0
    ensures Abs(sphi0) <= 0.5 ==>
      Abs(cphi0) > 0.5 && DD0DM(sphi0, cphi0, cx, cy, g, q, dpx, dpy) == CosineFormD0(sphi0, cphi0, cy, g, q, dpx, dpy)
    ensures Abs(sphi0) > 0.5 ==> DD0DMAsWritten(sphi0, cphi0, cx, g, q, dpx, dpy) == Some(DD0DM(sphi0, cphi0, cx, cy, g, q, dpx, dpy))
  {
    if Abs(sphi0) <= 0.5 {
      CosineLarge(sphi0, cphi0);
    }
  }

  /** `dphi0_dM` of `dPardMLoc` (lines 219-221): the centre offset over its
      squared length, divided by the reduced charge. */
  function Phi0RowDM(cx: real, cy: real, q: real): Vec3
    requires cx * cx + cy * cy != 0.0 && q != 0.0
  {
    var r2 := cx * cx + cy * cy;
    Vec3(cx / r2 / q, cy / r2 / q, 0.0)
  }

  /** The centre offset (cx, cy) of `dPardMLoc` (lines 206-213): the
      position at azimuth `ang` (sine `sang`, cosine `cang`) minus the
      radius 1/ω along the momentum azimuth (sine `sphip`, cosine
      `cphip`). */
  function CentreOffset(sphi0: real, cphi0: real, sang: real, cang: real, omval: real, d0: real,
                        sphip: real, cphip: real): Vec3
    requires omval != 0.0
  {
    var rho := 1.0 / omval;
    var x := (sang - sphi0) / omval - d0 * sphi0;
    var y := -(cang - cphi0) / omval + d0 * cphi0;
    Vec3(x - rho * sphip, y + rho * cphip, 0.0)
  }

  /** The d0 row on a helix, (cos φ0 / Q − dρ/dPx, sin φ0 / Q − dρ/dPy, 0). */
  function HelixD0Row(sphi0: real, cphi0: real, q: real, dpx: real, dpy: real): Vec3
    requires q != 0.0
  {
    Vec3(cphi0 / q - dpx, sphi0 / q - dpy, 0.0)
  }

  /** When the momentum points along the azimuth reached (Q/ω > 0, as on
      every constructed helix), the centre offset is (ρ + d0)·(−sin φ0, cos φ0)
      whatever the time. */
  lemma CentreOnHelix(sphi0: real, cphi0: real, sang: real, cang: real, omval: real, d0: real)
    requires omval != 0.0
    ensures CentreOffset(sphi0, cphi0, sang, cang, omval, d0, sang, cang)
      == Vec3(-(1.0 / omval + d0) * sphi0, (1.0 / omval + d0) * cphi0, 0.0)
  {
    var rho := 1.0 / omval;
    assert (sang - sphi0) / omval == rho * sang - rho * sphi0;
    assert -(cang - cphi0) / omval == -(rho * cang) + rho * cphi0;
  }

  /** The squared length of (−R sin φ0, R cos φ0) is R². */
  lemma CircleRadius(s: real, c: real, r: real, cx: real, cy: real)
    requires s * s + c * c == 1.0 && cx == -r * s && cy == r * c
    ensures cx * cx + cy * cy == r * r
  {
    assert cx * cx + cy * cy == r * r * (s * s + c * c);
  }

  /** x·r = y·r with r ≠ 0 gives x = y. */
  lemma CancelRight(x: real, y: real, r: real)
    requires r != 0.0 && x * r == y * r
    ensures x == y
  {
    assert (x - y) * r == 0.0;
    ZeroProduct(x - y, r);
  }

  /** On a circle of radius R about the origin, R times the φ0 row is
      (−sin φ0, cos φ0, 0) / Q. */
  lemma Phi0RowOnCircle(s: real, c: real, r: real, q: real, cx: real, cy: real)
    requires s * s + c * c == 1.0 && r != 0.0 && q != 0.0 && cx == -r * s && cy == r * c
    ensures cx * cx + cy * cy != 0.0
    ensures r * Phi0RowDM(cx, cy, q).x == -s / q
    ensures r * Phi0RowDM(cx, cy, q).y == c / q
  {
    var n := cx * cx + cy * cy;
    Phi0RowShape(cx, cy, q, n);
    CircleRadius(s, c, r, cx, cy);
    ScaledQuotient(cx, n, r, -s, q);
    ScaledQuotient(cy, n, r, c, q);
  }

  /** r·(num / r² / q) = t / q when num = r·t. */
  lemma ScaledQuotient(num: real, n: real, r: real, t: real, q: real)
    requires n == r * r && r != 0.0 && q != 0.0 && num == r * t
    ensures n != 0.0 && r * (num / n / q) == t / q
  {
    var r2 := SquarePositive(r);
    var a := num / n;
    assert a * n == num;
    assert (r * a) * r == t * r;
    CancelRight(r * a, t, r);
    assert r * (a / q) == (r * a) / q;
  }

  /** The φ0 row with the squared length `n` named. */
  lemma Phi0RowShape(cx: real, cy: real, q: real, n: real)
    requires n == cx * cx + cy * cy && n != 0.0 && q != 0.0
    ensures Phi0RowDM(cx, cy, q) == Vec3(cx / n / q, cy / n / q, 0.0)
  {
  }

  /** The sine form at a centre (−R sin φ0, R cos φ0), with R·g = (−sin φ0, cos φ0)/Q. */
  lemma SineFormOnCircle(s: real, c: real, r: real, q: real, cx: real, g: Vec3, dpx: real, dpy: real)
    requires s * s + c * c == 1.0 && s != 0.0 && q != 0.0 && cx == -r * s
    requires r * g.x == -s / q && r * g.y == c / q
    ensures SineFormD0(s, c, cx, g, q, dpx, dpy) == HelixD0Row(s, c, q, dpx, dpy)
  {
    var k := cx * c / s;
    QuotientCancel(-r, s, c, cx, k);
    ScaledEntry(k, g.x, r, -s / q, -c);
    ScaledEntry(k, g.y, r, c / q, -c);
    SineEntries(s, c, q);
  }

  /** The cosine form at a centre (−R sin φ0, R cos φ0), with R·g = (−sin φ0, cos φ0)/Q. */
  lemma CosineFormOnCircle(s: real, c: real, r: real, q: real, cy: real, g: Vec3, dpx: real, dpy: real)
    requires s * s + c * c == 1.0 && c != 0.0 && q != 0.0 && cy == r * c
    requires r * g.x == -s / q && r * g.y == c / q
    ensures CosineFormD0(s, c, cy, g, q, dpx, dpy) == HelixD0Row(s, c, q, dpx, dpy)
  {
    var k := cy * s / c;
    QuotientCancel(r, c, s, cy, k);
    ScaledEntry(k, g.x, r, -s / q, s);
    ScaledEntry(k, g.y, r, c / q, s);
    CosineEntries(s, c, q);
  }

  /** (a·d)·e / d = e·a. */
  lemma QuotientCancel(a: real, d: real, e: real, num: real, k: real)
    requires d != 0.0 && num == a * d && k == num * e / d
    ensures k == e * a
  {
    assert num * e == (e * a) * d;
  }

  /** k·g = f·u when k = f·r and r·g = u. */
  lemma ScaledEntry(k: real, g: real, r: real, u: real, f: real)
    requires k == f * r && r * g == u
    ensures k * g == f * u
  {
    assert k * g == f * (r * g);
  }

  /** The entries of the sine form on the unit circle. */
  lemma SineEntries(s: real, c: real, q: real)
    requires s * s + c * c == 1.0 && s != 0.0 && q != 0.0
    ensures 1.0 / s * (-c * (-s / q)) == c / q
    ensures 1.0 / s * (-c * (c / q) + 1.0 / q) == s / q
  {
    assert -c * (-s / q) == s * (c / q);
    assert -c * (c / q) + 1.0 / q == (1.0 - c * c) / q;
    assert (1.0 - c * c) / q == s * (s / q);
  }

  /** The entries of the cosine form on the unit circle. */
  lemma CosineEntries(s: real, c: real, q: real)
    requires s * s + c * c == 1.0 && c != 0.0 && q != 0.0
    ensures 1.0 / c * (s * (-s / q) + 1.0 / q) == c / q
    ensures 1.0 / c * (s * (c / q)) == s / q
  {
    assert s * (-s / q) + 1.0 / q == (1.0 - s * s) / q;
    assert (1.0 - s * s) / q == c * (c / q);
    assert s * (c / q) == c * (s / q);
  }

  /** On every helix state (momentum along the azimuth reached, ρ + d0 ≠ 0)
      the sine form, the cosine form and the corrected row are one and the
      same row, so the discarded branch changes nothing where both forms
      are defined; the source's row fails only where it divides by
      sin φ0 = 0, where the corrected row is still defined. */
  lemma D0FormsAgreeOnHelix(sphi0: real, cphi0: real, sang: real, cang: real, omval: real, d0: real,
                            q: real, dpx: real, dpy: real)
    requires sphi0 * sphi0 + cphi0 * cphi0 == 1.0 && omval != 0.0 && q != 0.0 && 1.0 / omval + d0 != 0.0
    ensures var c := CentreOffset(sphi0, cphi0, sang, cang, omval, d0, sang, cang);
      && c.x * c.x + c.y * c.y != 0.0
      && (sphi0 != 0.0 ==>
            DD0DMAsWritten(sphi0, cphi0, c.x, Phi0RowDM(c.x, c.y, q), q, dpx, dpy) == Some(HelixD0Row(sphi0, cphi0, q, dpx, dpy)))
      && (cphi0 != 0.0 ==>
            CosineFormD0(sphi0, cphi0, c.y, Phi0RowDM(c.x, c.y, q), q, dpx, dpy) == HelixD0Row(sphi0, cphi0, q, dpx, dpy))
      && DD0DM(sphi0, cphi0, c.x, c.y, Phi0RowDM(c.x, c.y, q), q, dpx, dpy) == HelixD0Row(sphi0, cphi0, q, dpx, dpy)
  {
    var c := CentreOffset(sphi0, cphi0, sang, cang, omval, d0, sang, cang);
    D0RowsOnCircle(sphi0, cphi0, 1.0 / omval + d0, q, c.x, c.y, dpx, dpy) by {
      CentreOnHelix(sphi0, cphi0, sang, cang, omval, d0);
    }
  }

  /** The same with the centre offset (cx, cy) = R·(−sin φ0, cos φ0) given. */
  lemma D0RowsOnCircle(s: real, c: real, r: real, q: real, cx: real, cy: real, dpx: real, dpy: real)
    requires s * s + c * c == 1.0 && r != 0.0 && q != 0.0 && cx == -r * s && cy == r * c
    ensures cx * cx + cy * cy != 0.0
    ensures s != 0.0 ==> DD0DMAsWritten(s, c, cx, Phi0RowDM(cx, cy, q), q, dpx, dpy) == Some(HelixD0Row(s, c, q, dpx, dpy))
    ensures c != 0.0 ==> CosineFormD0(s, c, cy, Phi0RowDM(cx, cy, q), q, dpx, dpy) == HelixD0Row(s, c, q, dpx, dpy)
    ensures DD0DM(s, c, cx, cy, Phi0RowDM(cx, cy, q), q, dpx, dpy) == HelixD0Row(s, c, q, dpx, dpy)
  {
    Phi0RowOnCircle(s, c, r, q, cx, cy);
    var g := Phi0RowDM(cx, cy, q);
    if s != 0.0 {
      SineFormOnCircle(s, c, r, q, cx, g, dpx, dpy);
    }
    if c != 0.0 {
      CosineFormOnCircle(s, c, r, q, cy, g, dpx, dpy);
    }
    if Abs(s) <= 0.5 {
      CosineLarge(s, c);
    }
  }

  /** At φ0 = 0 the source's row divides by sin φ0 = 0 and has no value,
      while on the same helix the corrected row is (1/Q − dρ/dPx, −dρ/dPy, 0). */
  lemma DD0DMAsWrittenCounterexample(omval: real, d0: real, sang: real, cang: real, q: real, dpx: real, dpy: real)
    requires omval != 0.0 && q != 0.0 && 1.0 / omval + d0 != 0.0
    ensures var c := CentreOffset(0.0, 1.0, sang, cang, omval, d0, sang, cang);
      && c.x * c.x + c.y * c.y != 0.0
      && DD0DMAsWritten(0.0, 1.0, c.x, Phi0RowDM(c.x, c.y, q), q, dpx, dpy) == None
      && DD0DM(0.0, 1.0, c.x, c.y, Phi0RowDM(c.x, c.y, q), q, dpx, dpy) == Vec3(1.0 / q - dpx, -dpy, 0.0)
  {
    D0FormsAgreeOnHelix(0.0, 1.0, sang, cang, omval, d0, q, dpx, dpy);
  }
}
