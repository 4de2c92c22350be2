/** Linear algebra on the 6-dimensional parameter space of a trajectory piece
    (KinKal's DVEC / DMAT, ROOT SVector<double,6> / SMatrix<double,6,6>), and
    the parameter-space fit data `PData` (parameters plus covariance). */
module ParamSpace {

  /** Number of parameters of every trajectory parametrisation in the fit. */
  const NParams: nat := 6

  const ZeroVec: seq<real> := [0.0, 0.0, 0.0, 0.0, 0.0, 0.0]
  const ZeroMat: seq<seq<real>> := [ZeroVec, ZeroVec, ZeroVec, ZeroVec, ZeroVec, ZeroVec]

  predicate IsSquare(m: seq<seq<real>>)
  {
    |m| == NParams && forall i :: 0 <= i < |m| ==> |m[i]| == NParams
  }

  type PVec = v: seq<real> | |v| == NParams witness ZeroVec
  type PMat = m: seq<seq<real>> | IsSquare(m) witness ZeroMat

  function Add(a: PVec, b: PVec): PVec
  {
    seq(NParams, i requires 0 <= i < NParams => a[i] + b[i])
  }

  function Sub(a: PVec, b: PVec): PVec
  {
    seq(NParams, i requires 0 <= i < NParams => a[i] - b[i])
  }

  function Scale(k: real, a: PVec): PVec
  {
    seq(NParams, i requires 0 <= i < NParams => k * a[i])
  }

  /** The scalar product, summed from the front; defined for any two
      sequences of equal length so that it can be reasoned about by induction. */
  function Dot(a: seq<real>, b: seq<real>): real
    requires |a| == |b|
  {
    if |a| == 0 then 0.0 else a[0] * b[0] + Dot(a[1..], b[1..])
  }

  function MatVec(m: PMat, v: PVec): PVec
  {
    seq(NParams, i requires 0 <= i < NParams => Dot(m[i], v))
  }

  function MAdd(a: PMat, b: PMat): PMat
  {
    seq(NParams, i requires 0 <= i < NParams =>
      seq(NParams, j requires 0 <= j < NParams => a[i][j] + b[i][j]))
  }

  function MSub(a: PMat, b: PMat): PMat
  {
    seq(NParams, i requires 0 <= i < NParams =>
      seq(NParams, j requires 0 <= j < NParams => a[i][j] - b[i][j]))
  }

  /** ROOT's `Similarity(d, [s])` for a 6x1 column `d` and a 1x1 matrix `[s]`:
      the rank-one matrix d s dᵀ. */
  function RankOne(d: PVec, s: real): PMat
  {
    seq(NParams, i requires 0 <= i < NParams =>
      seq(NParams, j requires 0 <= j < NParams => d[i] * s * d[j]))
  }

  /** ROOT's `Similarity(v, M)` for a vector: the quadratic form vᵀ M v. */
  function Quad(v: PVec, m: PMat): real
  {
    Dot(v, MatVec(m, v))
  }

  ghost predicate Symmetric(m: PMat)
  {
    forall i, j :: 0 <= i < NParams && 0 <= j < NParams ==> m[i][j] == m[j][i]
  }

  /** Parameter-space fit data: a parameter vector and its covariance. */
  datatype PData = PData(parameters: PVec, covariance: PMat)

  lemma {:induction false} DotSymmetric(a: seq<real>, b: seq<real>)
    requires |a| == |b|
    ensures Dot(a, b) == Dot(b, a)
  {
    if |a| > 0 { DotSymmetric(a[1..], b[1..]); }
  }

  lemma {:induction false} DotZero(a: seq<real>, z: seq<real>)
    requires |a| == |z|
    requires forall i :: 0 <= i < |z| ==> z[i] == 0.0
    ensures Dot(a, z) == 0.0
  {
    if |a| > 0 { DotZero(a[1..], z[1..]); }
  }

  /** The scalar product is additive in its second argument. */
  lemma {:induction false} DotSum(a: seq<real>, b: seq<real>, c: seq<real>, r: seq<real>)
    requires |a| == |b| == |c| == |r|
    requires forall i :: 0 <= i < |r| ==> r[i] == b[i] + c[i]
    ensures Dot(a, r) == Dot(a, b) + Dot(a, c)
  {
    if |a| > 0 { DotSum(a[1..], b[1..], c[1..], r[1..]); }
  }

  /** The scalar product is homogeneous in its second argument. */
  lemma {:induction false} DotScaled(a: seq<real>, b: seq<real>, k: real, r: seq<real>)
    requires |a| == |b| == |r|
    requires forall i :: 0 <= i < |r| ==> r[i] == k * b[i]
    ensures Dot(a, r) == k * Dot(a, b)
  {
    if |a| > 0 { DotScaled(a[1..], b[1..], k, r[1..]); }
  }

  lemma DotAdd(a: PVec, b: PVec, c: PVec)
    ensures Dot(a, Add(b, c)) == Dot(a, b) + Dot(a, c)
  {
    DotSum(a, b, c, Add(b, c));
  }

  lemma DotSub(a: PVec, b: PVec, c: PVec)
    ensures Dot(a, Sub(b, c)) == Dot(a, b) - Dot(a, c)
  {
    var mc := Scale(-1.0, c);
    DotScaled(a, c, -1.0, mc);
    DotSum(a, b, mc, Sub(b, c));
  }

  lemma DotScale(a: PVec, k: real, b: PVec)
    ensures Dot(a, Scale(k, b)) == k * Dot(a, b)
  {
    DotScaled(a, b, k, Scale(k, b));
  }

  /** A rank-one matrix applied to a vector: (d s dᵀ) w = (d·w) (s d). */
  lemma RankOneApply(d: PVec, s: real, w: PVec)
    ensures MatVec(RankOne(d, s), w) == Scale(Dot(d, w), Scale(s, d))
  {
    var lhs, rhs := MatVec(RankOne(d, s), w), Scale(Dot(d, w), Scale(s, d));
    forall i | 0 <= i < NParams
      ensures lhs[i] == rhs[i]
    {
      RankOneRow(d, s, w, i);
    }
    assert lhs == rhs;
  }

  lemma RankOneRow(d: PVec, s: real, w: PVec, i: nat)
    requires i < NParams
    ensures Dot(RankOne(d, s)[i], w) == Dot(d, w) * (s * d[i])
  {
    var row := RankOne(d, s)[i];
    DotScaled(w, d, d[i] * s, row);
    DotSymmetric(row, w);
    DotSymmetric(d, w);
    ProductOrder(d[i], s, Dot(d, w));
  }

  /** (a·b)·x = x·(b·a). */
  lemma ProductOrder(a: real, b: real, x: real)
    ensures (a * b) * x == x * (b * a)
  {
  }

  /** The quadratic form of d s dᵀ is s (d·p)². */
  lemma RankOneQuad(d: PVec, s: real, p: PVec, q: real)
    requires q == Dot(d, p)
    ensures Quad(p, RankOne(d, s)) == s * q * q
  {
    var sd := Scale(s, d);
    RankOneApply(d, s, p);
    assert MatVec(RankOne(d, s), p) == Scale(q, sd);
    DotScale(p, q, sd);
    var x := Dot(p, sd);
    assert Quad(p, RankOne(d, s)) == q * x;
    DotScale(p, s, d);
    DotSymmetric(p, d);
    assert x == s * q;
    Rearrange(q, s, x);
  }

  /** q·x = s·q·q when x = s·q. */
  lemma Rearrange(q: real, s: real, x: real)
    requires x == s * q
    ensures q * x == s * q * q
  {
  }

  lemma RankOneSymmetric(d: PVec, s: real)
    ensures Symmetric(RankOne(d, s))
  {
  }

  /** A rank-one matrix with a non-negative scale is positive semi-definite. */
  lemma RankOneNonNegative(d: PVec, s: real, p: PVec)
    requires s >= 0.0
    ensures Quad(p, RankOne(d, s)) >= 0.0
  {
    RankOneQuad(d, s, p, Dot(d, p));
    SquareScaledNonNegative(s, Dot(d, p));
  }

  lemma SquareScaledNonNegative(s: real, q: real)
    requires s >= 0.0
    ensures s * q * q >= 0.0
  {
    assert s * q * q == s * (q * q);
  }

  lemma MatVecAdd(a: PMat, b: PMat, v: PVec)
    ensures MatVec(MAdd(a, b), v) == Add(MatVec(a, v), MatVec(b, v))
  {
    forall i | 0 <= i < NParams
      ensures MatVec(MAdd(a, b), v)[i] == Add(MatVec(a, v), MatVec(b, v))[i]
    {
      DotSymmetric(MAdd(a, b)[i], v);
      DotSymmetric(a[i], v);
      DotSymmetric(b[i], v);
      DotSum(v, a[i], b[i], MAdd(a, b)[i]);
    }
  }

  /** The quadratic form is additive in the matrix. */
  lemma QuadAdd(v: PVec, a: PMat, b: PMat)
    ensures Quad(v, MAdd(a, b)) == Quad(v, a) + Quad(v, b)
  {
    MatVecAdd(a, b, v);
    DotAdd(v, MatVec(a, v), MatVec(b, v));
  }

  lemma QuadZero(v: PVec)
    ensures Quad(v, ZeroMat) == 0.0
  {
    assert MatVec(ZeroMat, v) == ZeroVec by {
      forall i | 0 <= i < NParams ensures MatVec(ZeroMat, v)[i] == 0.0 {
        DotSymmetric(ZeroMat[i], v);
        DotZero(v, ZeroMat[i]);
      }
    }
    DotZero(v, ZeroVec);
  }
}
