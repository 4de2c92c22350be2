/** The sensor line (KinKal/TLine.cc): a straight line traversed at constant
    speed, parametrised by its transverse distance to the z axis, azimuth,
    z and direction cosine at the reference point, and the reference time. */
module SensorLine {
  import opened RealMath
  import opened Vectors
  import opened Wrappers

  /** A line through `pos0` at time `t0` with unit direction `dir` and speed
      `speed`, valid over `trange`; `forceRange` clamps evaluation times into
      the range. The parameters d0, phi0, z0, cost and t0 are stored as the
      constructor computes them. */
  datatype TLine = TLine(
    trange: TimeRange, speed: real, pos0: Vec3, dir: Vec3, forceRange: bool,
    d0: real, phi0: real, z0: real, cost: real, t0: real)
  {
    /** `position(time)`: the reference point moved along the direction by
        speed × (time − t0), after clamping `time` when ranges are forced. */
    function Position(time: real): Vec3
    {
      var t := if forceRange then trange.Force(time) else time;
      Add(pos0, Scale((t - t0) * speed, dir))
    }

    /** `position(Vec4&)`: overwrite the spatial part, keep the time. */
    function Position4(p: Vec4): (q: Vec4)
      ensures q.t == p.t && q.Vect() == Position(p.t)
    {
      var pos3 := Position(p.t);
      Vec4(pos3.x, pos3.y, pos3.z, p.t)
    }

    /** `velocity(time)`: the same at every time. */
    function Velocity(time: real): Vec3
    {
      Scale(speed, dir)
    }

    /** `speed(time)`: the same at every time. */
    function Speed(time: real): real
    {
      speed
    }

    /** `TOCA(point)` as the source writes it: the time at which the line
        passes closest to `point`, but with the reference time subtracted. */
    function TOCA(point: Vec3): real
      requires speed != 0.0
    {
      Dot(Sub(point, pos0), dir) / speed - t0
    }

    /** The time of closest approach with the reference time added back,
        the inverse of `Position`. */
    function TOCACorrected(point: Vec3): real
      requires speed != 0.0
    {
      Dot(Sub(point, pos0), dir) / speed + t0
    }
  }

  /** The constructor from a position, a velocity and a measurement time:
      speed = |svel|, dir = svel/|svel|, cost = ẑ·dir, d0 = transverse
      distance of pos0, phi0 = its azimuth, z0 = its z and t0 = tmeas. */
  function MakeTLine(m: MathFns, pos0: Vec3, svel: Vec3, tmeas: real, range: TimeRange, forceRange: bool): TLine
  {
    var dir := Unit(m, svel);
    TLine(range, Mag(m, svel), pos0, dir, forceRange,
          Rho(m, pos0), m.atan2(pos0.y, pos0.x), pos0.z, Dot(ZDir, dir), tmeas)
  }

  /** The constructor from a space-time point: its spatial part and its time. */
  function MakeTLine4(m: MathFns, pos0: Vec4, svel: Vec3, range: TimeRange, forceRange: bool): TLine
  {
    MakeTLine(m, pos0.Vect(), svel, pos0.t, range, forceRange)
  }

  /** What the constructor stores: z0 and t0 copied, d0 and the speed
      non-negative, and for a non-zero velocity a unit direction whose
      z component is the direction cosine, which lies in [−1, 1]. */
  lemma ConstructorParameters(m: MathFns, pos0: Vec3, svel: Vec3, tmeas: real, range: TimeRange, forceRange: bool)
    requires Sound(m)
    ensures var l := MakeTLine(m, pos0, svel, tmeas, range, forceRange);
      && l.z0 == pos0.z && l.t0 == tmeas && l.d0 >= 0.0 && l.speed >= 0.0
      && l.cost == l.dir.z
      && (svel != Zero3 ==> Mag2(l.dir) == 1.0 && -1.0 <= l.cost <= 1.0)
  {
    var l := MakeTLine(m, pos0, svel, tmeas, range, forceRange);
    SquareNonNegative(pos0.x);
    SquareNonNegative(pos0.y);
    MagNonNegative(m, svel);
    if svel != Zero3 {
      UnitIsUnit(m, svel);
      UnitComponentBound(l.dir);
    }
  }

  /** Without range forcing the line passes through pos0 at t0. */
  lemma PositionAtReference(l: TLine)
    requires !l.forceRange
    ensures l.Position(l.t0) == l.pos0
  {
  }

  /** Without range forcing the position is affine in time, moving by the
      velocity per unit time. */
  lemma PositionIsAffine(l: TLine, t1: real, t2: real)
    requires !l.forceRange
    ensures Sub(l.Position(t2), l.Position(t1)) == Scale(t2 - t1, l.Velocity(t1))
  {
    var d, s := l.dir, l.speed;
    assert (t2 - l.t0) * s * d.x - (t1 - l.t0) * s * d.x == (t2 - t1) * (s * d.x);
    assert (t2 - l.t0) * s * d.y - (t1 - l.t0) * s * d.y == (t2 - t1) * (s * d.y);
    assert (t2 - l.t0) * s * d.z - (t1 - l.t0) * s * d.z == (t2 - t1) * (s * d.z);
  }

  /** For a unit direction the velocity's length is the speed. */
  lemma VelocityMagnitude(l: TLine, t: real)
    requires Mag2(l.dir) == 1.0
    ensures Mag2(l.Velocity(t)) == l.speed * l.speed
  {
    var d, s := l.dir, l.speed;
    assert Mag2(Scale(s, d)) == s * s * Mag2(d);
  }

  /** The source's `TOCA` undoes `position` only up to twice the reference
      time: TOCA(position(t)) = t − 2·t0, which differs from t whenever
      t0 ≠ 0. */
  lemma TOCAAsWritten(l: TLine, t: real)
    requires !l.forceRange && l.speed != 0.0 && Mag2(l.dir) == 1.0
    ensures l.TOCA(l.Position(t)) == t - 2.0 * l.t0
  {
    PositionProjection(l, t);
  }

  /** A concrete line on which the source's round trip fails: t0 = 1,
      TOCA(position(1)) = −1. */
  lemma TOCAAsWrittenCounterexample()
    ensures var l := TLine(TimeRange(0.0, 10.0), 1.0, Zero3, ZDir, false, 0.0, 0.0, 0.0, 1.0, 1.0);
      l.TOCA(l.Position(1.0)) == -1.0 != 1.0
  {
    var l := TLine(TimeRange(0.0, 10.0), 1.0, Zero3, ZDir, false, 0.0, 0.0, 0.0, 1.0, 1.0);
    TOCAAsWritten(l, 1.0);
  }

  /** With t0 added back, the time of closest approach inverts `position`. */
  lemma TOCACorrectedRoundTrip(l: TLine, t: real)
    requires !l.forceRange && l.speed != 0.0 && Mag2(l.dir) == 1.0
    ensures l.TOCACorrected(l.Position(t)) == t
  {
    PositionProjection(l, t);
  }

  /** The projection of position(t) − pos0 on the direction, over the speed,
      is the elapsed time t − t0. */
  lemma PositionProjection(l: TLine, t: real)
    requires !l.forceRange && l.speed != 0.0 && Mag2(l.dir) == 1.0
    ensures Dot(Sub(l.Position(t), l.pos0), l.dir) / l.speed == t - l.t0
  {
    var k := (t - l.t0) * l.speed;
    assert Sub(l.Position(t), l.pos0) == Scale(k, l.dir);
    DotScaleLeft(k, l.dir, l.dir);
    assert Dot(Scale(k, l.dir), l.dir) == k;
  }

  /** `paramNames_`: one name per parameter. */
  const ParamNames: seq<string> := ["D0", "Phi0", "Z0", "CTheta", "Time0"]

  /** `paramTitles_` as the source initialises it: a missing comma joins the
      second and third titles into one string, leaving four titles. */
  const ParamTitlesAsWritten: seq<string> :=
    ["Transverse DOCA to Z Axis", "Azimuth of POCA" + "Z at POCA", "Cos Theta", "Time at POCA"]

  /** `paramTitles_` with the separating comma: one title per parameter. */
  const ParamTitles: seq<string> :=
    ["Transverse DOCA to Z Axis", "Azimuth of POCA", "Z at POCA", "Cos Theta", "Time at POCA"]

  /** `paramTitle(index)` on the table as written: the last parameter index
      (t0) lies past the end of the table, reported here as no title. */
  function ParamTitleAsWritten(index: nat): (t: Option<string>)
    requires index < |ParamNames|
    ensures t.Some? <==> index < |ParamTitlesAsWritten|
  {
    if index < |ParamTitlesAsWritten| then Some(ParamTitlesAsWritten[index]) else None
  }

  /** `paramTitle(index)` on the corrected table: defined for every parameter. */
  function ParamTitle(index: nat): string
    requires index < |ParamNames|
  {
    ParamTitles[index]
  }

  /** As written, the table has one title fewer than there are names, so
      the t0 title is missing and the z0 title is merged into phi0's. */
  lemma ParamTitlesAsWrittenShort()
    ensures |ParamTitlesAsWritten| == 4 && |ParamNames| == 5
    ensures ParamTitleAsWritten(4).None?
    ensures ParamTitleAsWritten(1) == Some("Azimuth of POCAZ at POCA")
  {
    assert "Azimuth of POCA" + "Z at POCA" == "Azimuth of POCAZ at POCA";
  }

  /** Corrected, there is one title per name, and the table is the one
      as written with the merged entry split back into its two titles. */
  lemma ParamTitlesMatchNames()
    ensures |ParamTitles| == |ParamNames|
    ensures forall i :: 0 <= i < |ParamNames| ==> ParamTitle(i) == ParamTitles[i]
    ensures ParamTitles[0] == ParamTitlesAsWritten[0]
    ensures ParamTitles[1] + ParamTitles[2] == ParamTitlesAsWritten[1]
    ensures ParamTitles[3..] == ParamTitlesAsWritten[2..]
  {
  }
}
