/** The collaborators the Kalman-fit effects act on: the chain accumulator
    (KKData), the piecewise fit trajectory (PKTraj) and the per-direction
    processing status of an effect (KKEffBase). Their implementations are not
    part of this model; each is reduced to the state the effects read and the
    operations the effects call. */
module FitChain {
  import opened ParamSpace
  import opened WeightData
  import opened Vectors

  /** Processing direction along the chain. */
  datatype TDir = Forwards | Backwards

  /** An effect appended to the chain: information in weight space, or a
      change of parameters and covariance in parameter space. */
  datatype Effect = WeightEffect(w: TData) | ParamEffect(p: PData)

  /** Whether an effect has been processed in each direction; `updateStatus()`
      resets both to unprocessed. */
  datatype EffStatus = EffStatus(forwards: bool, backwards: bool)
  {
    function WasProcessed(tdir: TDir): bool
    {
      if tdir == Forwards then forwards else backwards
    }

    /** `setStatus(tdir, processed)`. */
    function SetProcessed(tdir: TDir): (s: EffStatus)
      ensures s.WasProcessed(tdir)
      ensures forall d :: d != tdir ==> s.WasProcessed(d) == WasProcessed(d)
    {
      if tdir == Forwards then EffStatus(true, backwards) else EffStatus(forwards, true)
    }
  }

  const Unprocessed := EffStatus(false, false)

  /** The chain accumulator. It carries the running weight-space state that
      effects read through `wData()`; `append` adds an effect. Appending a
      parameter-space effect changes the weight state through `transport`,
      the parameter/weight conversion done by matrix inversion, which is not
      modelled. `effects` records what was appended, in order. */
  class KKData {
    const transport: (TData, PData) -> TData
    const wdata: WData
    var effects: seq<Effect>

    constructor (transport: (TData, PData) -> TData, start: TData)
      ensures this.transport == transport && fresh(wdata)
      ensures wdata.tdata == start && effects == []
    {
      this.transport := transport;
      wdata := new WData(start.vec, start.mat);
      effects := [];
    }

    /** `append(WData)`: information adds to the running weight. */
    method AppendWeight(w: WData)
      modifies this, wdata
      ensures wdata.tdata == Plus(old(wdata.tdata), old(w.tdata))
      ensures effects == old(effects) + [WeightEffect(old(w.tdata))]
    {
      effects := effects + [WeightEffect(w.tdata)];
      wdata.tdata := Plus(wdata.tdata, w.tdata);
    }

    /** `append(PData)`: a parameter-space effect. */
    method AppendParams(p: PData)
      modifies this, wdata
      ensures wdata.tdata == transport(old(wdata.tdata), p)
      ensures effects == old(effects) + [ParamEffect(p)]
    {
      effects := effects + [ParamEffect(p)];
      wdata.tdata := transport(wdata.tdata, p);
    }
  }

  /** One piece of the piecewise trajectory: parameters valid over a time range. */
  datatype Piece = Piece(params: PData, range: TimeRange)

  /** The piecewise fit trajectory, a non-empty sequence of pieces in time order. */
  class PKTraj {
    var pieces: seq<Piece>

    ghost predicate Valid()
      reads this
    {
      |pieces| > 0
    }

    constructor (first: Piece)
      ensures Valid() && pieces == [first]
    {
      pieces := [first];
    }

    function Back(): Piece
      reads this
      requires Valid()
    {
      pieces[|pieces| - 1]
    }

    /** `range()`: from the start of the first piece to the end of the last. */
    function Range(): TimeRange
      reads this
      requires Valid()
    {
      TimeRange(pieces[0].range.low, Back().range.high)
    }

    /** `nearestPiece(t)`: the last piece that starts at or before `t`, or
        the first piece when `t` precedes them all. */
    function NearestPiece(t: real): (p: Piece)
      reads this
      requires Valid()
      ensures p in pieces
      ensures p == pieces[0] || p.range.low <= t
    {
      pieces[LastStartingBy(pieces, t)]
    }

    /** `append(piece)`: the new piece becomes the back of the trajectory. */
    method Append(p: Piece)
      requires Valid()
      modifies this
      ensures Valid() && pieces == old(pieces) + [p]
    {
      pieces := pieces + [p];
    }
  }

  /** The position of the last piece that starts at or before `t`, or 0
      when `t` precedes them all: every later piece starts after `t`. */
  function LastStartingBy(ps: seq<Piece>, t: real): (i: nat)
    requires |ps| > 0
    ensures i < |ps|
    ensures i == 0 || ps[i].range.low <= t
    ensures forall j :: i < j < |ps| ==> t < ps[j].range.low
  {
    if |ps| == 1 || ps[|ps| - 1].range.low <= t then |ps| - 1
    else LastStartingBy(ps[..|ps| - 1], t)
  }
}
