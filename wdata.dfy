/** Weight-space fit data (KinKal/WData.hh): the information form of a fit
    state, a weight vector and a weight (inverse covariance) matrix, which the
    fit combines by addition and removes by subtraction. */
module WeightData {
  import opened ParamSpace

  /** The vector/matrix payload (TData) that WData reinterprets as weights. */
  datatype TData = TData(vec: PVec, mat: PMat)

  /** A default-constructed payload: zero vector and zero matrix. */
  const Zero := TData(ZeroVec, ZeroMat)

  /** `TData::operator+=`, component-wise. */
  function Plus(a: TData, b: TData): TData
  {
    TData(Add(a.vec, b.vec), MAdd(a.mat, b.mat))
  }

  /** `TData::operator-=`, component-wise. */
  function Minus(a: TData, b: TData): TData
  {
    TData(Sub(a.vec, b.vec), MSub(a.mat, b.mat))
  }

  /** Fusing information does not depend on the order of the two terms. */
  lemma PlusCommutes(a: TData, b: TData)
    ensures Plus(a, b) == Plus(b, a)
  {
    assert Add(a.vec, b.vec) == Add(b.vec, a.vec);
    assert MAdd(a.mat, b.mat) == MAdd(b.mat, a.mat) by {
      forall i | 0 <= i < NParams ensures MAdd(a.mat, b.mat)[i] == MAdd(b.mat, a.mat)[i] { }
    }
  }

  /** Fusing three terms does not depend on the grouping. */
  lemma PlusAssociates(a: TData, b: TData, c: TData)
    ensures Plus(Plus(a, b), c) == Plus(a, Plus(b, c))
  {
    assert Add(Add(a.vec, b.vec), c.vec) == Add(a.vec, Add(b.vec, c.vec));
    assert MAdd(MAdd(a.mat, b.mat), c.mat) == MAdd(a.mat, MAdd(b.mat, c.mat)) by {
      forall i | 0 <= i < NParams
        ensures MAdd(MAdd(a.mat, b.mat), c.mat)[i] == MAdd(a.mat, MAdd(b.mat, c.mat))[i] { }
    }
  }

  /** Subtracting what was added restores the original information exactly. */
  lemma MinusUndoesPlus(a: TData, b: TData)
    ensures Minus(Plus(a, b), b) == a
  {
    assert Sub(Add(a.vec, b.vec), b.vec) == a.vec;
    assert MSub(MAdd(a.mat, b.mat), b.mat) == a.mat by {
      forall i | 0 <= i < NParams ensures MSub(MAdd(a.mat, b.mat), b.mat)[i] == a.mat[i] { }
    }
  }

  /** The default payload is the neutral element of fusion. */
  lemma ZeroIsNeutral(a: TData)
    ensures Plus(a, Zero) == a && Plus(Zero, a) == a
  {
    assert Add(a.vec, ZeroVec) == a.vec && Add(ZeroVec, a.vec) == a.vec;
    assert MAdd(a.mat, ZeroMat) == a.mat by {
      forall i | 0 <= i < NParams ensures MAdd(a.mat, ZeroMat)[i] == a.mat[i] { }
    }
    assert MAdd(ZeroMat, a.mat) == a.mat by {
      forall i | 0 <= i < NParams ensures MAdd(ZeroMat, a.mat)[i] == a.mat[i] { }
    }
  }

  /** Weight-space data; `+=` and `-=` update the payload in place. */
  class WData {
    var tdata: TData

    constructor (wvec: PVec, wmat: PMat)
      ensures tdata == TData(wvec, wmat)
    {
      tdata := TData(wvec, wmat);
    }

    /** Built from a vector alone: the matrix is default (zero). */
    constructor FromVec(wvec: PVec)
      ensures tdata == TData(wvec, ZeroMat)
    {
      tdata := TData(wvec, ZeroMat);
    }

    /** Default construction: no information. */
    constructor Empty()
      ensures tdata == Zero
    {
      tdata := Zero;
    }

    function WeightVec(): PVec
      reads this
    {
      tdata.vec
    }

    function WeightMat(): PMat
      reads this
    {
      tdata.mat
    }

    /** `operator+=`: `other` may be this same object. */
    method AddAssign(other: WData)
      modifies this
      ensures tdata == Plus(old(tdata), old(other.tdata))
    {
      tdata := Plus(tdata, other.tdata);
    }

    /** `operator-=`: `other` may be this same object. */
    method SubAssign(other: WData)
      modifies this
      ensures tdata == Minus(old(tdata), old(other.tdata))
    {
      tdata := Minus(tdata, other.tdata);
    }

    /** Assignment of a default-constructed WData (`w = WData()`). */
    method Clear()
      modifies this
      ensures tdata == Zero
    {
      tdata := Zero;
    }

    /** Assignment through the mutable `weightVec()` reference. */
    method SetWeightVec(v: PVec)
      modifies this
      ensures tdata == TData(v, old(tdata.mat))
    {
      tdata := TData(v, tdata.mat);
    }

    /** Assignment through the mutable `weightMat()` reference. */
    method SetWeightMat(m: PMat)
      modifies this
      ensures tdata == TData(old(tdata.vec), m)
    {
      tdata := TData(tdata.vec, m);
    }
  }

  /** `w += x; w -= x` leaves `w` as it was, for distinct objects `w` and `x`. */
  method AddThenSubtract(w: WData, x: WData)
    requires w != x
    modifies w
    ensures w.tdata == old(w.tdata)
  {
    w.AddAssign(x);
    w.SubAssign(x);
    MinusUndoesPlus(old(w.tdata), x.tdata);
  }
}
