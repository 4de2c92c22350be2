/** The field-tolerance utilities of KinKal/BFieldUtils.hh: integrating the
    force left over when the true magnetic field differs from the nominal
    field a trajectory was built with, and estimating how long a
    trajectory stays within a position tolerance of the true motion.
    Both are templates over the trajectory type; here the trajectory and
    the field map are records of the functions the templates call. */
module FieldTolerance {
  import opened RealMath
  import opened Vectors

  /** The field map's two queries: the field at a point, and its rate of
      change along a velocity at a point. */
  datatype FieldMap = FieldMap(fieldVect: Vec3 -> Vec3, fieldDeriv: (Vec3, Vec3) -> Vec3)

  /** What the templates ask of a trajectory: position, velocity, nominal
      field, speed and momentum magnitude at a time, its charge and the
      upper end of its time range. */
  datatype TrajView = TrajView(
    position: real -> Vec3, velocity: real -> Vec3, bnom: real -> Vec3,
    speed: real -> real, momentumMag: real -> real, charge: int, rangeHigh: real)

  /** `integrate` takes this many samples. */
  const NSteps: nat := 10

  /** The i-th sample time: low + i·range/10. */
  function SampleTime(trange: TimeRange, i: nat): real
  {
    trange.low + i as real * (trange.Length() / NSteps as real)
  }

  /** The momentum change contributed by the sample at time t with step dt:
      c̄ · q · dt · (v × (B − B_nom)). */
  function Kick(bf: FieldMap, kt: TrajView, t: real, dt: real): Vec3
  {
    Scale(CBar * kt.charge as real * dt, Cross(kt.velocity(t), Sub(bf.fieldVect(kt.position(t)), kt.bnom(t))))
  }

  /** The sum of the first n samples' kicks. */
  function KickSum(bf: FieldMap, kt: TrajView, trange: TimeRange, n: nat): Vec3
  {
    if n == 0 then Zero3
    else Add(KickSum(bf, kt, trange, n - 1),
             Kick(bf, kt, SampleTime(trange, n - 1), trange.Length() / NSteps as real))
  }

  /** `integrate(bfield, ktraj, range)`: a fixed 10-step sum of the kicks,
      starting at the range's low end. */
  method Integrate(bf: FieldMap, kt: TrajView, trange: TimeRange) returns (dmom: Vec3)
    ensures dmom == KickSum(bf, kt, trange, NSteps)
  {
    dmom := Zero3;
    var istep := 0;
    while istep < NSteps
      invariant 0 <= istep <= NSteps
      invariant dmom == KickSum(bf, kt, trange, istep)
    {
      dmom := Add(dmom, Kick(bf, kt, SampleTime(trange, istep), trange.Length() / NSteps as real));
      istep := istep + 1;
    }
  }

  /** The samples lie in [low, high) for a non-empty range: the last one is
      a step short of the end point, which is never sampled. */
  lemma SamplesBeforeEnd(trange: TimeRange, i: nat)
    requires trange.low < trange.high && i < NSteps
    ensures trange.low <= SampleTime(trange, i) < trange.high
    ensures SampleTime(trange, NSteps - 1) == trange.high - trange.Length() / NSteps as real
  {
    var dt := trange.Length() / NSteps as real;
    assert dt * 10.0 == trange.Length();
    NonNegativeProduct(i as real, dt);
    NonNegativeProduct(9.0 - i as real, dt);
    assert (9.0 - i as real) * dt == 9.0 * dt - i as real * dt;
  }

  /** Cross product with the zero vector, and scaling it, give zero. */
  lemma CrossZero(a: Vec3, k: real)
    ensures Cross(a, Zero3) == Zero3
    ensures Scale(k, Zero3) == Zero3
  {
  }

  /** Where the true field equals the nominal one at every sample, there is
      no residual force and the integral is zero. */
  lemma {:induction false} KickSumZero(bf: FieldMap, kt: TrajView, trange: TimeRange, n: nat)
    requires forall i: nat :: i < n ==> bf.fieldVect(kt.position(SampleTime(trange, i))) == kt.bnom(SampleTime(trange, i))
    ensures KickSum(bf, kt, trange, n) == Zero3
  {
    if n > 0 {
      KickSumZero(bf, kt, trange, n - 1);
      var t := SampleTime(trange, n - 1);
      assert Sub(bf.fieldVect(kt.position(t)), kt.bnom(t)) == Zero3;
      CrossZero(kt.velocity(t), CBar * kt.charge as real * (trange.Length() / NSteps as real));
    }
  }

  /** The integral is zero when the field equals the nominal field along
      the trajectory. */
  lemma IntegrateNominalField(bf: FieldMap, kt: TrajView, trange: TimeRange)
    requires forall t :: bf.fieldVect(kt.position(t)) == kt.bnom(t)
    ensures KickSum(bf, kt, trange, NSteps) == Zero3
  {
    KickSumZero(bf, kt, trange, NSteps);
  }

  /** Scaling by −k is negating the scaling by k. */
  lemma ScaleNegated(k: real, a: Vec3, b: Vec3)
    ensures Scale(-k, a) == Scale(-1.0, Scale(k, a))
    ensures Add(Scale(-1.0, a), Scale(-1.0, b)) == Scale(-1.0, Add(a, b))
  {
  }

  /** One kick with the opposite charge is the opposite kick. */
  lemma KickCharge(bf: FieldMap, kt: TrajView, t: real, dt: real)
    ensures Kick(bf, kt.(charge := -kt.charge), t, dt) == Scale(-1.0, Kick(bf, kt, t, dt))
  {
    var k := CBar * kt.charge as real * dt;
    assert CBar * (-kt.charge) as real * dt == -k;
    ScaleNegated(k, Cross(kt.velocity(t), Sub(bf.fieldVect(kt.position(t)), kt.bnom(t))), Zero3);
  }

  /** The integral is linear in the charge: the opposite charge gives the
      opposite momentum change. */
  lemma {:induction false} KickSumCharge(bf: FieldMap, kt: TrajView, trange: TimeRange, n: nat)
    ensures KickSum(bf, kt.(charge := -kt.charge), trange, n) == Scale(-1.0, KickSum(bf, kt, trange, n))
  {
    if n > 0 {
      var flipped := kt.(charge := -kt.charge);
      var t, dt := SampleTime(trange, n - 1), trange.Length() / NSteps as real;
      var before, kick := KickSum(bf, kt, trange, n - 1), Kick(bf, kt, t, dt);
      assert KickSum(bf, kt, trange, n) == Add(before, kick);
      assert KickSum(bf, flipped, trange, n) == Add(KickSum(bf, flipped, trange, n - 1), Kick(bf, flipped, t, dt));
      KickSumCharge(bf, kt, trange, n - 1);
      KickCharge(bf, kt, t, dt);
      ScaleNegated(1.0, before, kick);
    }
  }

  /** The largest step `rangeInTolerance` takes. */
  const NominalStep: real := 0.1

  /** The field difference below which the static term is not used. */
  const FieldDifferenceFloor: real := 0.0001

  /** The scaling factor |c̄ · q · v² / p| at the start time. */
  function ScaleFactor(kt: TrajView, tstart: real): (sfac: real)
    requires kt.momentumMag(tstart) != 0.0
    ensures sfac >= 0.0
  {
    var spd := kt.speed(tstart);
    Abs(CBar * kt.charge as real * spd * spd / kt.momentumMag(tstart))
  }

  /** The step size from the scaling factor, the static field difference
      `db` and the rate of field change `dbdt`: the nominal 0.1, limited by
      the sagitta term 0.2·sqrt(tol/(sfac·db)) when db exceeds 1e-4 and by
      the cosine term 0.5·cbrt(tol/(sfac·dbdt)). A zero denominator makes
      the source's quotient +∞, which leaves the step unchanged; that case
      is written out here. The step is positive and at most 0.1. */
  function StepSize(m: MathFns, tol: real, sfac: real, db: real, dbdt: real): (s: real)
    requires Sound(m) && tol > 0.0 && sfac >= 0.0 && db >= 0.0 && dbdt >= 0.0
    ensures 0.0 < s <= NominalStep
  {
    var t1 := if db > FieldDifferenceFloor && sfac > 0.0 then
                (MulPositive(sfac, db); PositiveQuotient(tol, sfac * db); SqrtPositive(m, tol / (sfac * db));
                 Min(NominalStep, 0.2 * m.sqrt(tol / (sfac * db))))
              else NominalStep;
    if sfac > 0.0 && dbdt > 0.0 then
      (MulPositive(sfac, dbdt); PositiveQuotient(tol, sfac * dbdt); CbrtPositive(m, tol / (sfac * dbdt));
       Min(t1, 0.5 * m.cbrt(tol / (sfac * dbdt))))
    else t1
  }

  /** The step `rangeInTolerance` uses for a trajectory, a field and a
      start time: the field difference and its rate of change are taken at
      the trajectory's position at the start time. */
  function StepFor(m: MathFns, bf: FieldMap, kt: TrajView, tstart: real, tol: real): (s: real)
    requires Sound(m) && tol > 0.0 && kt.momentumMag(tstart) != 0.0
    ensures 0.0 < s <= NominalStep
  {
    var tpos := kt.position(tstart);
    MagNonNegative(m, Sub(bf.fieldVect(tpos), kt.bnom(tstart)));
    MagNonNegative(m, bf.fieldDeriv(tpos, kt.velocity(tstart)));
    StepSize(m, tol, ScaleFactor(kt, tstart), Mag(m, Sub(bf.fieldVect(tpos), kt.bnom(tstart))),
             Mag(m, bf.fieldDeriv(tpos, kt.velocity(tstart))))
  }

  /** The number of steps of size `tstep` left before `high` is reached
      from `tend`. */
  function StepsLeft(high: real, tend: real, tstep: real): int
    requires tstep > 0.0
  {
    if tend < high then ((high - tend) / tstep).Floor + 1 else 0
  }

  /** One step forward divides the remaining distance to `high`, measured
      in steps, into one step fewer. */
  lemma StepsRemaining(high: real, tend: real, tstep: real)
    requires tstep > 0.0
    ensures ((high - tend) / tstep).Floor == ((high - (tend + tstep)) / tstep).Floor + 1
  {
    var a, b := (high - tend) / tstep, (high - (tend + tstep)) / tstep;
    assert a * tstep == high - tend;
    assert b * tstep == high - tend - tstep;
    assert (a - b - 1.0) * tstep == 0.0;
    ZeroProduct(a - b - 1.0, tstep);
  }

  /** A step taken before `high` leaves fewer steps to go. */
  lemma StepsDecrease(high: real, tend: real, tstep: real)
    requires tstep > 0.0 && tend < high
    ensures 0 <= StepsLeft(high, tend + tstep, tstep) < StepsLeft(high, tend, tstep)
  {
    StepsRemaining(high, tend, tstep);
    assert (high - tend) / tstep > 0.0 by { PositiveQuotient(high - tend, tstep); }
  }

  /** The distortion added by one step, sfac·elapsed·tstep·db, never
      negative. */
  function Distortion(sfac: real, elapsed: real, tstep: real, dbv: real): (r: real)
    requires sfac >= 0.0 && elapsed >= 0.0 && tstep >= 0.0 && dbv >= 0.0
    ensures r >= 0.0
  {
    NonNegativeProduct(sfac, elapsed);
    NonNegativeProduct(sfac * elapsed, tstep);
    NonNegativeProduct(sfac * elapsed * tstep, dbv);
    sfac * elapsed * tstep * dbv
  }

  /** The end time after n steps of size `tstep` from tstart. */
  function EndTime(tstart: real, tstep: real, n: nat): real
  {
    tstart + n as real * tstep
  }

  /** One more step moves the end time by one step, and the end time is
      never before the start for a positive step. */
  lemma EndTimeStep(tstart: real, tstep: real, n: nat)
    requires tstep > 0.0
    ensures EndTime(tstart, tstep, n + 1) == EndTime(tstart, tstep, n) + tstep
    ensures EndTime(tstart, tstep, n) - tstart >= 0.0
  {
    NonNegativeProduct(n as real, tstep);
  }

  /** The distortion accumulated after n steps of size `tstep` from
      tstart: the sum over k = 1..n of the k-th step's distortion
      sfac·(k·tstep)·tstep·db, with the field difference taken at the k-th
      end time. */
  function Accumulated(sfac: real, tstart: real, tstep: real, db: real -> real, n: nat): (r: real)
    requires sfac >= 0.0 && tstep > 0.0
    requires forall t :: db(t) >= 0.0
    ensures r >= 0.0
  {
    if n == 0 then 0.0
    else
      EndTimeStep(tstart, tstep, n);
      Accumulated(sfac, tstart, tstep, db, n - 1)
        + Distortion(sfac, EndTime(tstart, tstep, n) - tstart, tstep, db(EndTime(tstart, tstep, n)))
  }

  /** The distortion never decreases from one step to a later one. */
  lemma {:induction false} AccumulatedMonotone(sfac: real, tstart: real, tstep: real, db: real -> real, j: nat, k: nat)
    requires sfac >= 0.0 && tstep > 0.0
    requires forall t :: db(t) >= 0.0
    requires j <= k
    ensures Accumulated(sfac, tstart, tstep, db, j) <= Accumulated(sfac, tstart, tstep, db, k)
  {
    if j < k {
      AccumulatedMonotone(sfac, tstart, tstep, db, j, k - 1);
    }
  }

  /** The loop condition after step k: the distortion is below the
      tolerance and the end time is before `high`. */
  ghost predicate Continues(sfac: real, tstart: real, tstep: real, tol: real, high: real, db: real -> real, k: nat)
    requires sfac >= 0.0 && tstep > 0.0
    requires forall t :: db(t) >= 0.0
  {
    Accumulated(sfac, tstart, tstep, db, k) < tol && EndTime(tstart, tstep, k) < high
  }

  /** The march stops after step n: n ≥ 1, the loop condition fails after
      step n, and it held after every earlier step. */
  ghost predicate ExitsAt(sfac: real, tstart: real, tstep: real, tol: real, high: real, db: real -> real, n: nat)
    requires sfac >= 0.0 && tstep > 0.0
    requires forall t :: db(t) >= 0.0
  {
    && n >= 1
    && !Continues(sfac, tstart, tstep, tol, high, db, n)
    && forall k: nat :: 1 <= k < n ==> Continues(sfac, tstart, tstep, tol, high, db, k)
  }

  /** The step at which the march stops is unique, so the end time and
      the distortion the march returns are determined by its inputs. */
  lemma ExitUnique(sfac: real, tstart: real, tstep: real, tol: real, high: real, db: real -> real, n1: nat, n2: nat)
    requires sfac >= 0.0 && tstep > 0.0
    requires forall t :: db(t) >= 0.0
    requires ExitsAt(sfac, tstart, tstep, tol, high, db, n1)
    requires ExitsAt(sfac, tstart, tstep, tol, high, db, n2)
    ensures n1 == n2
  {
  }

  /** The do-while march of `rangeInTolerance`, given the scaling factor,
      the step and the field difference |B − B_nom| along the trajectory as
      a function of time: advance the end time by one step, add
      sfac·(tend − tstart)·tstep·db(tend) to the distortion, and go on while
      the distortion is below the tolerance and the end time is before
      `high`. It stops after the first step n at which the loop condition
      fails, returning that step's end time and the distortion accumulated
      up to it. */
  method March(sfac: real, tstart: real, tstep: real, tol: real, high: real, db: real -> real)
    returns (tend: real, dx: real, ghost n: nat)
    requires sfac >= 0.0 && tstep > 0.0
    requires forall t :: db(t) >= 0.0
    ensures ExitsAt(sfac, tstart, tstep, tol, high, db, n)
    ensures tend == EndTime(tstart, tstep, n)
    ensures dx == Accumulated(sfac, tstart, tstep, db, n)
    ensures tend >= tstart + tstep
    ensures tstart < high ==> tend < high + tstep
    ensures tstart >= high ==> tend == tstart + tstep
  {
    tend := tstart;
    dx := 0.0;
    n := 0;
    var going := true;
    while going
      invariant tend == EndTime(tstart, tstep, n)
      invariant dx == Accumulated(sfac, tstart, tstep, db, n)
      invariant going ==> n == 0 || Continues(sfac, tstart, tstep, tol, high, db, n)
      invariant forall k: nat :: 1 <= k < n ==> Continues(sfac, tstart, tstep, tol, high, db, k)
      invariant !going ==> n >= 1 && !Continues(sfac, tstart, tstep, tol, high, db, n)
      invariant n > 0 ==> tend >= tstart + tstep
      invariant n > 0 && tstart < high ==> tend < high + tstep
      invariant !going && tstart >= high ==> n == 1
      decreases going, StepsLeft(high, tend, tstep)
    {
      ghost var before := tend;
      EndTimeStep(tstart, tstep, n);
      tend := tend + tstep;
      dx := dx + Distortion(sfac, tend - tstart, tstep, db(tend));
      n := n + 1;
      going := Abs(dx) < tol && tend < high;
      if going {
        StepsDecrease(high, before, tstep);
      }
    }
  }

  /** The field difference |B − B_nom| along the trajectory, as a function
      of time. */
  function FieldDifference(m: MathFns, bf: FieldMap, kt: TrajView): real -> real
  {
    t => Mag(m, Sub(bf.fieldVect(kt.position(t)), kt.bnom(t)))
  }

  /** `rangeInTolerance(tstart, bfield, ktraj, tol)`: march forward from
      tstart in fixed steps of the chosen size, accumulating the position
      distortion, until it reaches the tolerance or the end of the
      trajectory's range is reached; return the end time. The end time is
      the end of step n for the unique n at which the march stops. */
  method RangeInTolerance(m: MathFns, tstart: real, bf: FieldMap, kt: TrajView, tol: real) returns (tend: real, ghost n: nat)
    requires Sound(m) && tol > 0.0 && kt.momentumMag(tstart) != 0.0
    ensures forall t :: FieldDifference(m, bf, kt)(t) >= 0.0
    ensures ExitsAt(ScaleFactor(kt, tstart), tstart, StepFor(m, bf, kt, tstart, tol), tol, kt.rangeHigh, FieldDifference(m, bf, kt), n)
    ensures tend == EndTime(tstart, StepFor(m, bf, kt, tstart, tol), n)
    ensures tend >= tstart + StepFor(m, bf, kt, tstart, tol) > tstart
    ensures tstart < kt.rangeHigh ==> tend < kt.rangeHigh + StepFor(m, bf, kt, tstart, tol)
    ensures tstart >= kt.rangeHigh ==> tend == tstart + StepFor(m, bf, kt, tstart, tol)
  {
    var db := FieldDifference(m, bf, kt);
    forall t ensures db(t) >= 0.0 {
      MagNonNegative(m, Sub(bf.fieldVect(kt.position(t)), kt.bnom(t)));
    }
    var dx;
    tend, dx, n := March(ScaleFactor(kt, tstart), tstart, StepFor(m, bf, kt, tstart, tol), tol, kt.rangeHigh, db);
  }
}
