/** What the helix parametrisations share: the azimuth wrapping of
    `deltaPhi` (identical in KinKal/CentralHelix.cc and KinKal/IPHelix.cc)
    and the consistency test at the end of their constructors. */
module HelixCommon {
  import opened RealMath
  import opened Wrappers

  /** An angle difference in the half-open interval (−π, π]. */
  predicate InPrincipalRange(dphi: real)
  {
    -Pi < dphi <= Pi
  }

  /** `k` whole turns, in radians. */
  function Turns(k: int): real
  {
    k as real * TwoPi
  }

  /** `a` and `b` differ by a whole number of turns. */
  ghost predicate SameDirection(a: real, b: real)
  {
    exists k: int :: a == b + Turns(k)
  }

  /** `deltaPhi(phi, refphi)`: bring `phi − refphi` into (−π, π] by whole
      turns, moving `phi` (a reference parameter in the source) along with
      it. Returns the difference and the new `phi`. */
  method DeltaPhi(phi: real, refphi: real) returns (dphi: real, phiOut: real)
    ensures InPrincipalRange(dphi)
    ensures phiOut - refphi == dphi
    ensures SameDirection(phiOut, phi)
    ensures InPrincipalRange(phi - refphi) ==> phiOut == phi
  {
    ghost var k: int := 0;
    dphi := phi - refphi;
    phiOut := phi;
    while dphi > Pi
      invariant phiOut - refphi == dphi
      invariant phiOut == phi + Turns(k)
      invariant InPrincipalRange(phi - refphi) ==> k == 0
      decreases dphi.Floor
    {
      dphi := dphi - TwoPi;
      phiOut := phiOut - TwoPi;
      k := k - 1;
    }
    while dphi <= -Pi
      invariant phiOut - refphi == dphi
      invariant phiOut == phi + Turns(k)
      invariant dphi <= Pi
      invariant InPrincipalRange(phi - refphi) ==> k == 0
      decreases (-dphi).Floor
    {
      dphi := dphi + TwoPi;
      phiOut := phiOut + TwoPi;
      k := k + 1;
    }
  }

  /** Two angles in (−π, π] that differ by whole turns are equal: the result
      of `DeltaPhi` is the unique representative of the difference. */
  lemma PrincipalRangeUnique(a: real, b: real, k: int)
    requires InPrincipalRange(a) && InPrincipalRange(b)
    requires a == b + Turns(k)
    ensures a == b && k == 0
  {
  }

  /** The message both helix constructors throw as `invalid_argument`. */
  const RotationError: string := "Rotation Error"

  /** Largest polar angle of the nominal field after rotation into the local
      frame. */
  const FieldAlignmentTolerance: real := 0.000001
  /** Largest distance between the constructor's inputs and the position and
      momentum the new helix gives back at the input time. */
  const RoundTripTolerance: real := 0.00001

  /** The constructor's two tests: the rotated field must lie along z, and
      position and momentum recomputed from the parameters must reproduce
      the inputs. `fieldTheta` is the polar angle of the rotated field,
      `dp` and `dm` are the lengths of the position and momentum mismatches. */
  function ConstructionCheck<H>(h: H, fieldTheta: real, dp: real, dm: real): (r: Result<H>)
    ensures r.Success? <==> Abs(fieldTheta) <= FieldAlignmentTolerance && dp <= RoundTripTolerance && dm <= RoundTripTolerance
    ensures r.Success? ==> r.value == h
    ensures r.Failure? ==> r.error == RotationError
  {
    if Abs(fieldTheta) > FieldAlignmentTolerance then Failure(RotationError)
    else if dp > RoundTripTolerance || dm > RoundTripTolerance then Failure(RotationError)
    else Success(h)
  }

  /** sqrt(1 + t²) ≥ 1: the secant of the dip angle, whose reciprocal is
      cos λ. */
  lemma SecantAtLeastOne(m: MathFns, t: real)
    requires Sound(m)
    ensures m.sqrt(1.0 + t * t) >= 1.0
    ensures m.sqrt(1.0 + t * t) * m.sqrt(1.0 + t * t) == 1.0 + t * t
  {
    SquareNonNegative(t);
    SqrtOfSquare(m, 1.0);
    SqrtMonotone(m, 1.0 * 1.0, 1.0 + t * t);
  }

  /** cos λ = 1 / sqrt(1 + tan²λ) lies in (0, 1]. */
  lemma SecantReciprocal(m: MathFns, t: real)
    requires Sound(m)
    ensures 0.0 < 1.0 / m.sqrt(1.0 + t * t) <= 1.0
  {
    SecantAtLeastOne(m, t);
    RatioAtMostOne(1.0, m.sqrt(1.0 + t * t));
  }

  /** The reduced energy e = sqrt(p² + m̄²) bounds the reduced momentum and
      the reduced mass, strictly bounding the momentum when m̄ ≠ 0. */
  lemma EnergyBounds(m: MathFns, p: real, mb: real) returns (e: real)
    requires Sound(m)
    ensures e == m.sqrt(p * p + mb * mb)
    ensures e >= Abs(p) && e >= Abs(mb)
    ensures mb != 0.0 ==> e > Abs(p) && e > 0.0
  {
    e := m.sqrt(p * p + mb * mb);
    SquareNonNegative(p);
    SquareNonNegative(mb);
    SqrtOfSquare(m, p);
    SqrtOfSquare(m, mb);
    SqrtMonotone(m, p * p, p * p + mb * mb);
    SqrtMonotone(m, mb * mb, p * p + mb * mb);
    if mb != 0.0 {
      var mb2 := SquarePositive(mb);
      assert e * e == p * p + mb * mb;
      assert Abs(p) * Abs(p) == p * p;
      if e <= Abs(p) {
        SquareNonNegative(e);
        if e < Abs(p) { SquareStrictMonotone(e, Abs(p)); }
      }
    }
  }

  /** A ratio of a non-negative number to a larger positive one lies in
      [0, 1], strictly below 1 when the numerator is strictly smaller. */
  lemma RatioAtMostOne(a: real, b: real)
    requires 0.0 <= a <= b && b > 0.0
    ensures 0.0 <= a / b <= 1.0
    ensures a < b ==> a / b < 1.0
  {
    assert a / b * b == a;
  }

  /** A ratio of a number to a positive one no larger than it is at least 1. */
  lemma RatioAtLeastOne(a: real, b: real)
    requires 0.0 < b <= a
    ensures a / b >= 1.0
  {
    assert a / b * b == a;
  }

  /** |a / b| = |a| / |b|. */
  lemma AbsQuotient(a: real, b: real)
    requires b != 0.0
    ensures Abs(a / b) == Abs(a) / Abs(b)
  {
    var q, r := a / b, Abs(a) / Abs(b);
    assert q * b == a;
    assert r * Abs(b) == Abs(a);
    assert Abs(q) * Abs(b) == Abs(a) by {
      if q >= 0.0 && b > 0.0 {
      } else if q >= 0.0 {
        assert Abs(q) * Abs(b) == q * (-b) == -(q * b);
        assert q * b <= 0.0 by { MulNonNegativeNonPositive(q, b); }
      } else if b > 0.0 {
        assert Abs(q) * Abs(b) == (-q) * b == -(q * b);
        assert q * b <= 0.0 by { MulNonNegativeNonPositive(b, q); }
      } else {
        assert Abs(q) * Abs(b) == (-q) * (-b) == q * b;
        assert q * b >= 0.0 by { var t := PositiveProduct(-q, -b); }
      }
    }
    assert (r - Abs(q)) * Abs(b) == 0.0;
    ZeroProduct(r - Abs(q), Abs(b));
  }

  lemma MulNonNegativeNonPositive(a: real, b: real)
    requires a >= 0.0 && b <= 0.0
    ensures a * b <= 0.0
  {
    if a > 0.0 && b < 0.0 {
      var t := PositiveProduct(a, -b);
    }
  }

  /** The energy in mm, sqrt(p̄² + m̄²), from the momentum and the mass in mm. */
  function ReducedEnergy(m: MathFns, p: real, mb: real): real
  {
    m.sqrt(p * p + mb * mb)
  }

  /** The relativistic factors computed from p̄ and m̄: with ē the reduced
      energy, β = |p̄/ē| ∈ [0, 1) and γ = |ē/m̄| ≥ 1 when m̄ ≠ 0. */
  lemma KinematicFactors(m: MathFns, p: real, mb: real)
    requires Sound(m) && mb != 0.0
    ensures ReducedEnergy(m, p, mb) > 0.0
    ensures 0.0 <= Abs(p / ReducedEnergy(m, p, mb)) < 1.0
    ensures Abs(ReducedEnergy(m, p, mb) / mb) >= 1.0
  {
    var e := EnergyBounds(m, p, mb);
    AbsQuotient(p, ReducedEnergy(m, p, mb));
    RatioAtMostOne(Abs(p), ReducedEnergy(m, p, mb));
    AbsQuotient(ReducedEnergy(m, p, mb), mb);
    RatioAtLeastOne(ReducedEnergy(m, p, mb), Abs(mb));
  }
}
