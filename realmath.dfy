/** Elementary real functions used by the trajectory code.
    The square root, cube root, sine, cosine and two-argument arctangent
    are evaluated by the platform's math library, which this model does not
    contain; they are passed around as a record of functions, and lemmas that
    need their defining properties state `Sound(m)` as a hypothesis. */
module RealMath {

  /** The math-library functions the source calls (`sqrt`, `std::cbrt`,
      `sin`, `cos`, `atan2`). */
  datatype MathFns = MathFns(
    sqrt: real -> real,
    cbrt: real -> real,
    sin: real -> real,
    cos: real -> real,
    atan2: (real, real) -> real)

  /** The properties of those functions that the proofs rely on. */
  ghost predicate Sound(m: MathFns)
  {
    && (forall x :: x >= 0.0 ==> m.sqrt(x) >= 0.0 && m.sqrt(x) * m.sqrt(x) == x)
    && (forall x :: m.cbrt(x) * m.cbrt(x) * m.cbrt(x) == x)
    && (forall a :: m.sin(a) * m.sin(a) + m.cos(a) * m.cos(a) == 1.0)
  }

  /** Sine and cosine as named functions, so that an angle's sine written
      in one member is recognisably the same term in another. */
  function Sin(m: MathFns, a: real): real { m.sin(a) }
  function Cos(m: MathFns, a: real): real { m.cos(a) }

  /** M_PI, as the C macro spells it. */
  const Pi: real := 3.14159265358979323846
  const TwoPi: real := 2.0 * Pi
  /** CLHEP::c_light in mm/ns. */
  const CLight: real := 299.792458
  /** BFieldUtils::cbar(): c_light/1000, converting Tesla to a bending radius in mm. */
  const CBar: real := CLight / 1000.0

  function Abs(x: real): (r: real)
    ensures r >= 0.0 && (r == x || r == -x)
  {
    if x < 0.0 then -x else x
  }

  /** `copysign(1.0, x)`: the unit carrying the sign of `x` (real numbers have no -0). */
  function CopySign1(x: real): (r: real)
    ensures r == 1.0 || r == -1.0
    ensures x > 0.0 ==> r == 1.0
    ensures x < 0.0 ==> r == -1.0
  {
    if x < 0.0 then -1.0 else 1.0
  }

  /** `std::min(a, b)`, which returns `a` unless `b < a`. */
  function Min(a: real, b: real): (r: real)
    ensures r <= a && r <= b && (r == a || r == b)
  {
    if b < a then b else a
  }

  /** The reciprocal, kept as a function so that proofs can name it. */
  function Inv(x: real): (r: real)
    requires x != 0.0
    ensures r * x == 1.0
  {
    1.0 / x
  }

  lemma SqrtPositive(m: MathFns, x: real)
    requires Sound(m)
    requires x > 0.0
    ensures m.sqrt(x) > 0.0
  {
    assert m.sqrt(x) * m.sqrt(x) == x;
  }

  lemma SqrtOfSquare(m: MathFns, a: real)
    requires Sound(m)
    ensures m.sqrt(a * a) == Abs(a)
  {
    var r, b := m.sqrt(a * a), Abs(a);
    assert r >= 0.0 && r * r == a * a;
    assert b * b == a * a;
    assert (r - b) * (r + b) == r * r - b * b == 0.0;
    ZeroProduct(r - b, r + b);
  }

  lemma ZeroProduct(a: real, b: real)
    requires a * b == 0.0
    ensures a == 0.0 || b == 0.0
  {
  }

  /* The strict-positivity lemmas below hand the product back in a ghost
     out-variable: the solver keeps a fact `s > 0.0` about a variable, whereas
     it rewrites a fact `x * x > 0.0` into `x != 0.0` and loses it. */

  lemma PositiveProduct(a: real, b: real) returns (s: real)
    requires a > 0.0 && b > 0.0
    ensures s == a * b && s > 0.0
  {
    s := a * b;
  }

  /** The same fact for two distinct factors, usable inside expressions. */
  lemma MulPositive(a: real, b: real)
    requires a > 0.0 && b > 0.0
    ensures a * b > 0.0
  {
  }

  /** A product of non-zero factors is non-zero. */
  lemma NonZeroProduct(a: real, b: real)
    requires a != 0.0 && b != 0.0
    ensures a * b != 0.0
  {
  }

  /** A product of non-negative factors is non-negative. */
  lemma NonNegativeProduct(a: real, b: real)
    requires a >= 0.0 && b >= 0.0
    ensures a * b >= 0.0
  {
    if a > 0.0 && b > 0.0 { MulPositive(a, b); }
  }

  lemma SquareNonNegative(a: real)
    ensures a * a >= 0.0
  {
  }

  lemma SquarePositive(a: real) returns (s: real)
    requires a != 0.0
    ensures s == a * a && s > 0.0
  {
    if a > 0.0 { s := PositiveProduct(a, a); } else { s := PositiveProduct(-a, -a); }
  }

  lemma SumSquaresNonNegative(x: real, y: real, z: real)
    ensures x * x + y * y + z * z >= 0.0
  {
    SquareNonNegative(x); SquareNonNegative(y); SquareNonNegative(z);
  }

  lemma SumSquaresPositive(x: real, y: real, z: real) returns (s: real)
    requires x != 0.0 || y != 0.0 || z != 0.0
    ensures s == x * x + y * y + z * z && s > 0.0
  {
    var a, b, c := x * x, y * y, z * z;
    SquareNonNegative(x); SquareNonNegative(y); SquareNonNegative(z);
    if x != 0.0 { a := SquarePositive(x); }
    else if y != 0.0 { b := SquarePositive(y); }
    else { c := SquarePositive(z); }
    s := a + b + c;
  }

  lemma SquareStrictMonotone(a: real, b: real)
    requires 0.0 <= a < b
    ensures a * a < b * b
  {
    var d := PositiveProduct(b - a, b + a);
  }

  lemma SqrtMonotone(m: MathFns, x: real, y: real)
    requires Sound(m)
    requires 0.0 <= x <= y
    ensures m.sqrt(x) <= m.sqrt(y)
  {
    var a, b := m.sqrt(x), m.sqrt(y);
    assert a >= 0.0 && b >= 0.0 && a * a == x && b * b == y;
    if a > b {
      SquareStrictMonotone(b, a);
    }
  }

  lemma CbrtPositive(m: MathFns, x: real)
    requires Sound(m)
    requires x > 0.0
    ensures m.cbrt(x) > 0.0
  {
    assert m.cbrt(x) * m.cbrt(x) * m.cbrt(x) == x;
  }

  /** A positive number divided by a positive one is positive. */
  lemma PositiveQuotient(a: real, b: real)
    requires a > 0.0 && b > 0.0
    ensures a / b > 0.0 && -a / b < 0.0
  {
    assert a / b * b == a;
    assert -a / b == -(a / b);
  }
}
