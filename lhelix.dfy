/** The looping helix (KinKal/LHelix.hh), parametrised by the transverse
    radius, the longitudinal wavelength λ (both signed lengths in mm), the
    centre (cx, cy), the azimuth φ0 and the time t0, together with the
    particle's mass and charge, the reduced mass m̄ and the nominal field.
    `invertCT` updates the object in place, so it is a class here; the
    member functions are the header's one-line kinematic accessors. */
module LoopHelixTraj {
  import opened RealMath
  import opened Vectors
  import opened HelixCommon
  import ParamSpace

  const Rad: nat := 0
  const Lam: nat := 1
  const Cx: nat := 2
  const Cy: nat := 3
  const Phi0: nat := 4
  const T0: nat := 5

  class LHelix {
    var trange: TimeRange
    var pars: ParamSpace.PData
    var mass: real
    var charge: int
    var mbar: real
    var bnom: Vec3

    function rad(): real reads this { pars.parameters[Rad] }
    function lam(): real reads this { pars.parameters[Lam] }
    function cx(): real reads this { pars.parameters[Cx] }
    function cy(): real reads this { pars.parameters[Cy] }
    function phi0(): real reads this { pars.parameters[Phi0] }
    function t0(): real reads this { pars.parameters[T0] }

    /** `sign()`: the combined bending sign of charge and field, the sign of m̄. */
    function Sign(): real
      reads this
    {
      CopySign1(mbar)
    }

    /** `pbar2()`: the squared momentum in mm, rad² + λ², never negative. */
    function Pbar2(): (r: real)
      reads this
      ensures r >= 0.0
    {
      SumSquaresNonNegative(rad(), lam(), 0.0);
      rad() * rad() + lam() * lam()
    }

    /** `pbar()`: the momentum in mm. */
    function Pbar(m: MathFns): real
      reads this
    {
      m.sqrt(Pbar2())
    }

    /** `ebar2()`: the squared energy in mm, p̄² + m̄², at least p̄². */
    function Ebar2(): (r: real)
      reads this
      ensures r >= Pbar2()
    {
      SquareNonNegative(mbar);
      Pbar2() + mbar * mbar
    }

    /** `ebar()`: the energy in mm. */
    function Ebar(m: MathFns): real
      reads this
    {
      m.sqrt(Ebar2())
    }

    /** `Q()`: the reduced charge, mass over m̄. */
    function Q(): real
      reads this
      requires mbar != 0.0
    {
      mass / mbar
    }

    /** `omega()`: the angular velocity c·sign/ē, whose sign is the bending
        sign. */
    function Omega(m: MathFns): (w: real)
      reads this
      requires Ebar(m) != 0.0
      ensures Sound(m) ==> (w > 0.0 <==> Sign() > 0.0) && (w < 0.0 <==> Sign() < 0.0)
    {
      BendingSign(m, Sign(), Ebar2());
      CLight * Sign() / Ebar(m)
    }

    /** `beta()`: p̄/ē. */
    function Beta(m: MathFns): real
      reads this
      requires Ebar(m) != 0.0
    {
      Pbar(m) / Ebar(m)
    }

    /** `gamma()`: |ē/m̄|. */
    function Gamma(m: MathFns): real
      reads this
      requires mbar != 0.0
    {
      Abs(Ebar(m) / mbar)
    }

    /** `betaGamma()`: |p̄/m̄|. */
    function BetaGamma(m: MathFns): real
      reads this
      requires mbar != 0.0
    {
      Abs(Pbar(m) / mbar)
    }

    /** `dphi(t)`: the azimuth turned since t0, zero at t0. */
    function Dphi(m: MathFns, t: real): (r: real)
      reads this
      requires Ebar(m) != 0.0
      ensures t == t0() ==> r == 0.0
    {
      Omega(m) * (t - t0())
    }

    /** `phi(t)`: the azimuth at time t, φ0 at t0. */
    function Phi(m: MathFns, t: real): (r: real)
      reads this
      requires Ebar(m) != 0.0
      ensures t == t0() ==> r == phi0()
      ensures r - phi0() == Dphi(m, t)
    {
      Dphi(m, t) + phi0()
    }

    /** `ztime(z)`: the time at which the helix reaches height z, t0 at z = 0. */
    function ZTime(m: MathFns, z: real): (r: real)
      reads this
      requires Ebar(m) != 0.0 && Omega(m) * lam() != 0.0
      ensures z == 0.0 ==> r == t0()
    {
      t0() + z / (Omega(m) * lam())
    }

    /** `zphi(z)`: the azimuth at height z, φ0 at z = 0. */
    function ZPhi(z: real): (r: real)
      reads this
      requires lam() != 0.0
      ensures z == 0.0 ==> r == phi0()
      ensures (r - phi0()) * lam() == z
    {
      z / lam() + phi0()
    }

    /** `momentumMag(t)`: |mass · βγ|, never negative. */
    function MomentumMag(m: MathFns, t: real): (r: real)
      reads this
      requires mbar != 0.0
      ensures r >= 0.0
      ensures r == 0.0 <==> mass == 0.0 || BetaGamma(m) == 0.0
    {
      ZeroProductIff(mass, BetaGamma(m));
      Abs(mass * BetaGamma(m))
    }

    /** `energy(t)`: |mass · ē / m̄|, never negative. */
    function Energy(m: MathFns, t: real): (r: real)
      reads this
      requires mbar != 0.0
      ensures r >= 0.0
    {
      Abs(mass * Ebar(m) / mbar)
    }

    /** `speed(t)`: c · β. */
    function Speed(m: MathFns, t: real): real
      reads this
      requires Ebar(m) != 0.0
    {
      CLight * Beta(m)
    }

    /** `invertCT()`: flip the helix in time and charge. Only m̄, the charge
        and t0 change; rad, λ, the centre and φ0 stay, and so do p̄² and ē²,
        while the bending sign reverses. */
    method InvertCT()
      modifies this
      ensures mbar == -old(mbar) && charge == -old(charge)
      ensures pars.parameters == old(pars.parameters)[T0 := -old(pars.parameters[T0])]
      ensures rad() == old(rad()) && lam() == old(lam()) && cx() == old(cx()) && cy() == old(cy())
      ensures phi0() == old(phi0()) && t0() == -old(t0())
      ensures pars.covariance == old(pars.covariance)
      ensures trange == old(trange) && mass == old(mass) && bnom == old(bnom)
      ensures Pbar2() == old(Pbar2()) && Ebar2() == old(Ebar2())
      ensures old(mbar) != 0.0 ==> Sign() == -old(Sign())
    {
      mbar := -1.0 * mbar;
      charge := -1 * charge;
      pars := pars.(parameters := pars.parameters[T0 := -1.0 * pars.parameters[T0]]);
    }
  }

  /** c·s/sqrt(e2), for a sign s = ±1 and a non-zero root, has the sign
      of s. */
  lemma BendingSign(m: MathFns, s: real, e2: real)
    ensures Sound(m) && e2 >= 0.0 && m.sqrt(e2) != 0.0 && (s == 1.0 || s == -1.0) ==>
      (CLight * s / m.sqrt(e2) > 0.0 <==> s > 0.0) && (CLight * s / m.sqrt(e2) < 0.0 <==> s < 0.0)
  {
    if Sound(m) && e2 >= 0.0 && m.sqrt(e2) != 0.0 && (s == 1.0 || s == -1.0) {
      SqrtNonNegative(m, e2);
      PositiveQuotient(CLight, m.sqrt(e2));
      assert CLight * -1.0 == -CLight;
    }
  }

  /** The square root of a non-negative number is non-negative. */
  lemma SqrtNonNegative(m: MathFns, x: real)
    requires Sound(m) && x >= 0.0
    ensures m.sqrt(x) >= 0.0
  {
  }

  /** A product is zero exactly when a factor is. */
  lemma ZeroProductIff(a: real, b: real)
    ensures a * b == 0.0 <==> a == 0.0 || b == 0.0
  {
    if a != 0.0 && b != 0.0 {
      var p := PositiveProduct(Abs(a), Abs(b));
      AbsProduct(a, b);
    }
  }

  /** |a·b| = |a|·|b|. */
  lemma AbsProduct(a: real, b: real)
    ensures Abs(a * b) == Abs(a) * Abs(b)
  {
    if a >= 0.0 && b >= 0.0 {
      SquareNonNegative(0.0);
      if a > 0.0 && b > 0.0 { MulPositive(a, b); }
    } else if a >= 0.0 {
      assert Abs(a) * Abs(b) == -(a * b);
      if a > 0.0 { MulPositive(a, -b); }
    } else if b >= 0.0 {
      assert Abs(a) * Abs(b) == -(a * b);
      if b > 0.0 { MulPositive(-a, b); }
    } else {
      assert Abs(a) * Abs(b) == a * b;
      MulPositive(-a, -b);
    }
  }

  /** β = p̄/ē lies in [0, 1], strictly below 1 for a massive particle
      (m̄ ≠ 0), and γ = |ē/m̄| ≥ 1. */
  lemma KinematicRanges(h: LHelix, m: MathFns)
    requires Sound(m) && h.mbar != 0.0
    ensures h.Ebar(m) > 0.0
    ensures 0.0 <= h.Beta(m) < 1.0
    ensures h.Gamma(m) >= 1.0
  {
    BarredRatios(m, h.Pbar2(), h.mbar, h.Ebar2());
  }

  /** The scalar content of `KinematicRanges`: with p̄ = sqrt(p̄²) and
      ē = sqrt(p̄² + m̄²), m̄ ≠ 0, p̄/ē ∈ [0, 1) and |ē/m̄| ≥ 1. */
  lemma BarredRatios(m: MathFns, p2: real, mb: real, e2: real)
    requires Sound(m) && p2 >= 0.0 && mb != 0.0 && e2 == p2 + mb * mb
    ensures m.sqrt(e2) > 0.0
    ensures 0.0 <= m.sqrt(p2) / m.sqrt(e2) < 1.0
    ensures Abs(m.sqrt(e2) / mb) >= 1.0
  {
    var p := m.sqrt(p2);
    assert p >= 0.0 && p * p == p2;
    var e := EnergyBounds(m, p, mb);
    assert e == m.sqrt(e2);
    RatioAtMostOne(p, m.sqrt(e2));
    AbsQuotient(m.sqrt(e2), mb);
    RatioAtLeastOne(m.sqrt(e2), Abs(mb));
  }

  /** The bending sense reverses with m̄: ω has the sign of `sign()`, which
      is the sign of m̄. */
  lemma OmegaFollowsSign(h: LHelix, m: MathFns)
    requires Sound(m) && h.mbar != 0.0
    ensures h.Ebar(m) != 0.0
    ensures h.mbar > 0.0 ==> h.Omega(m) > 0.0
    ensures h.mbar < 0.0 ==> h.Omega(m) < 0.0
  {
    KinematicRanges(h, m);
  }
}
