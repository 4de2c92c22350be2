/** Three-vectors, four-vectors, 3x3 matrices and time ranges (the ROOT
    GenVector / SMatrix types and TRange that the trajectory code uses). */
module Vectors {
  import opened RealMath

  datatype Vec3 = Vec3(x: real, y: real, z: real)

  /** A space-time point; `t` is the time component (ROOT's `T()`). */
  datatype Vec4 = Vec4(x: real, y: real, z: real, t: real)
  {
    function Vect(): Vec3 { Vec3(x, y, z) }
  }

  /** A four-momentum stored as (px, py, pz, mass), like ROOT's PxPyPzMVector. */
  datatype Mom4 = Mom4(px: real, py: real, pz: real, m: real)
  {
    function Vect(): Vec3 { Vec3(px, py, pz) }
  }

  const Zero3 := Vec3(0.0, 0.0, 0.0)
  const ZDir := Vec3(0.0, 0.0, 1.0)

  function Add(a: Vec3, b: Vec3): Vec3 { Vec3(a.x + b.x, a.y + b.y, a.z + b.z) }
  function Sub(a: Vec3, b: Vec3): Vec3 { Vec3(a.x - b.x, a.y - b.y, a.z - b.z) }
  function Scale(k: real, a: Vec3): Vec3 { Vec3(k * a.x, k * a.y, k * a.z) }
  function Dot(a: Vec3, b: Vec3): real { a.x * b.x + a.y * b.y + a.z * b.z }
  function Cross(a: Vec3, b: Vec3): Vec3
  {
    Vec3(a.y * b.z - a.z * b.y, a.z * b.x - a.x * b.z, a.x * b.y - a.y * b.x)
  }
  function Mag2(a: Vec3): real { Dot(a, a) }

  /** `R()`: the Euclidean length. */
  function Mag(m: MathFns, a: Vec3): real { m.sqrt(Mag2(a)) }

  /** `Rho()` / `Perp()`: the transverse (xy) length. */
  function Rho(m: MathFns, a: Vec3): real { m.sqrt(a.x * a.x + a.y * a.y) }

  /** `Unit()`: the vector divided by its length; ROOT returns the zero vector unchanged. */
  function Unit(m: MathFns, a: Vec3): Vec3
  {
    var r := Mag(m, a);
    if r == 0.0 then a else Scale(1.0 / r, a)
  }

  lemma Mag2NonNegative(a: Vec3)
    ensures Mag2(a) >= 0.0
  {
    SumSquaresNonNegative(a.x, a.y, a.z);
  }

  lemma MagNonNegative(m: MathFns, a: Vec3)
    requires Sound(m)
    ensures Mag(m, a) >= 0.0
  {
    Mag2NonNegative(a);
  }

  /** The unit vector of a non-zero vector has length one. */
  lemma UnitIsUnit(m: MathFns, a: Vec3)
    requires Sound(m)
    requires a != Zero3
    ensures Mag2(Unit(m, a)) == 1.0
  {
    var r := Mag(m, a);
    Mag2NonNegative(a);
    assert r * r == Mag2(a);
    Mag2Positive(a);
    assert r != 0.0;
    var k := 1.0 / r;
    assert k * k * (r * r) == 1.0;
    calc {
      Mag2(Unit(m, a));
      Mag2(Scale(k, a));
      k * k * Mag2(a);
      k * k * (r * r);
    }
  }

  lemma Mag2Positive(a: Vec3)
    requires a != Zero3
    ensures Mag2(a) > 0.0
  {
    var s := SumSquaresPositive(a.x, a.y, a.z);
  }

  /** A component of a unit vector lies in [−1, 1]. */
  lemma UnitComponentBound(d: Vec3)
    requires Mag2(d) == 1.0
    ensures -1.0 <= d.z <= 1.0
  {
    SquareNonNegative(d.x);
    SquareNonNegative(d.y);
    if d.z > 1.0 {
      SquareStrictMonotone(1.0, d.z);
    } else if d.z < -1.0 {
      SquareStrictMonotone(1.0, -d.z);
    }
  }

  lemma DotScaleLeft(k: real, a: Vec3, b: Vec3)
    ensures Dot(Scale(k, a), b) == k * Dot(a, b)
  {
  }

  lemma DotScaleRight(k: real, a: Vec3, b: Vec3)
    ensures Dot(a, Scale(k, b)) == k * Dot(a, b)
  {
  }

  /** Scaling perpendicular vectors keeps them perpendicular. */
  lemma DotScaledZero(j: real, a: Vec3, k: real, b: Vec3)
    requires Dot(a, b) == 0.0
    ensures Dot(Scale(j, a), Scale(k, b)) == 0.0
  {
    DotScaleLeft(j, a, Scale(k, b));
    DotScaleRight(k, a, b);
  }

  lemma Mag2Scale(k: real, a: Vec3)
    ensures Mag2(Scale(k, a)) == k * k * Mag2(a)
  {
    assert k * a.x * (k * a.x) == k * k * (a.x * a.x);
    assert k * a.y * (k * a.y) == k * k * (a.y * a.y);
    assert k * a.z * (k * a.z) == k * k * (a.z * a.z);
  }

  /** A 3x3 matrix, stored by rows. */
  datatype Mat3 = Mat3(r0: Vec3, r1: Vec3, r2: Vec3)

  const ZeroMat3 := Mat3(Zero3, Zero3, Zero3)
  const Identity3 := Mat3(Vec3(1.0, 0.0, 0.0), Vec3(0.0, 1.0, 0.0), Vec3(0.0, 0.0, 1.0))

  function Apply(a: Mat3, v: Vec3): Vec3 { Vec3(Dot(a.r0, v), Dot(a.r1, v), Dot(a.r2, v)) }

  /** The outer product u vᵀ. */
  function Outer3(u: Vec3, v: Vec3): Mat3
  {
    Mat3(Scale(u.x, v), Scale(u.y, v), Scale(u.z, v))
  }

  function AddMat3(a: Mat3, b: Mat3): Mat3
  {
    Mat3(Add(a.r0, b.r0), Add(a.r1, b.r1), Add(a.r2, b.r2))
  }

  /** The entries of p pᵀ + c cᵀ + u uᵀ. */
  lemma OuterSquaresSum(p: Vec3, c: Vec3, u: Vec3)
    ensures AddMat3(AddMat3(Outer3(p, p), Outer3(c, c)), Outer3(u, u))
      == Mat3(Vec3(p.x * p.x + c.x * c.x + u.x * u.x, p.x * p.y + c.x * c.y + u.x * u.y, p.x * p.z + c.x * c.z + u.x * u.z),
              Vec3(p.y * p.x + c.y * c.x + u.y * u.x, p.y * p.y + c.y * c.y + u.y * u.y, p.y * p.z + c.y * c.z + u.y * u.z),
              Vec3(p.z * p.x + c.z * c.x + u.z * u.x, p.z * p.y + c.z * c.y + u.z * u.y, p.z * p.z + c.z * c.z + u.z * u.z))
  {
    OuterSumRows(p, c, u);
    CombinationEntries(p.x, c.x, u.x, p, c, u);
    CombinationEntries(p.y, c.y, u.y, p, c, u);
    CombinationEntries(p.z, c.z, u.z, p, c, u);
  }

  /** Row i of p pᵀ + c cᵀ + u uᵀ is the combination pᵢ p + cᵢ c + uᵢ u. */
  lemma OuterSumRows(p: Vec3, c: Vec3, u: Vec3)
    ensures AddMat3(AddMat3(Outer3(p, p), Outer3(c, c)), Outer3(u, u))
      == Mat3(Add(Add(Scale(p.x, p), Scale(c.x, c)), Scale(u.x, u)),
              Add(Add(Scale(p.y, p), Scale(c.y, c)), Scale(u.y, u)),
              Add(Add(Scale(p.z, p), Scale(c.z, c)), Scale(u.z, u)))
  {
  }

  /** The entries of the combination a p + b c + k u. */
  lemma CombinationEntries(a: real, b: real, k: real, p: Vec3, c: Vec3, u: Vec3)
    ensures Add(Add(Scale(a, p), Scale(b, c)), Scale(k, u))
      == Vec3(a * p.x + b * c.x + k * u.x, a * p.y + b * c.y + k * u.y, a * p.z + b * c.z + k * u.z)
  {
  }

  lemma OuterZeroLeft(v: Vec3)
    ensures Outer3(Zero3, v) == ZeroMat3
  {
  }

  lemma OuterZeroRight(u: Vec3)
    ensures Outer3(u, Zero3) == ZeroMat3
  {
  }

  /** Scalar factors move from the left vector of an outer product to the
      right one: (k u)(l v)ᵀ = u (kl v)ᵀ. */
  lemma OuterScaled(k: real, l: real, u: Vec3, v: Vec3, kl: real)
    requires kl == k * l
    ensures Outer3(Scale(k, u), Scale(l, v)) == Outer3(u, Scale(kl, v))
  {
    var ku := Scale(k, u);
    MulAssociates(k, l, u.x); MulAssociates(k, l, u.y); MulAssociates(k, l, u.z);
    ScaleComposed(ku.x, l, u.x, kl, v);
    ScaleComposed(ku.y, l, u.y, kl, v);
    ScaleComposed(ku.z, l, u.z, kl, v);
    assert Outer3(ku, Scale(l, v)) == Mat3(Scale(ku.x, Scale(l, v)), Scale(ku.y, Scale(l, v)), Scale(ku.z, Scale(l, v)));
    assert Outer3(u, Scale(kl, v)) == Mat3(Scale(u.x, Scale(kl, v)), Scale(u.y, Scale(kl, v)), Scale(u.z, Scale(kl, v)));
  }

  lemma ScaleComposed(a: real, b: real, c: real, d: real, v: Vec3)
    requires a * b == c * d
    ensures Scale(a, Scale(b, v)) == Scale(c, Scale(d, v))
  {
    ScaleTwiceEntries(a, b, v);
    ScaleTwiceEntries(c, d, v);
    ScaleEntry(a, b, c, d, v.x);
    ScaleEntry(a, b, c, d, v.y);
    ScaleEntry(a, b, c, d, v.z);
  }

  lemma ScaleTwiceEntries(a: real, b: real, v: Vec3)
    ensures Scale(a, Scale(b, v)) == Vec3(a * (b * v.x), a * (b * v.y), a * (b * v.z))
  {
  }

  /** a·(b·x) = c·(d·x) when a·b = c·d. */
  lemma ScaleEntry(a: real, b: real, c: real, d: real, x: real)
    requires a * b == c * d
    ensures a * (b * x) == c * (d * x)
  {
    MulAssociates(a, b, x);
    MulAssociates(c, d, x);
  }

  lemma MulAssociates(a: real, b: real, x: real)
    ensures a * (b * x) == (a * b) * x
  {
  }

  /** A time interval [low, high] (TRange). */
  datatype TimeRange = TimeRange(low: real, high: real)
  {
    /** `range()`: the length of the interval. */
    function Length(): real { high - low }
    /** `forceRange(t)`: clamp a time into the interval. */
    function Force(t: real): real { if t < low then low else if t > high then high else t }
  }
}
