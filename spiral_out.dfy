/**
 * 5/version1.py: after the turnaround the head winds outwards on the spiral
 * `r = r_initial + p·t/(2π)`; each trailing section is placed behind the one
 * in front along the angle stored for it, the per-step maximum speed over
 * all sections is recorded, and a scan over head speeds looks for the first
 * speed whose recorded maxima all stay within 2 m/s.
 *
 * `path_x` and `path_y` are one table of points; `angles` is a table of its
 * own, because the trailing rule reads the stored angle, not the position.
 */
module SpiralOut {
  import opened Wrappers
  import opened Geometry
  import opened PathModel
  import opened ChainResolver

  /** `r_initial = 4.5`, `p = 1.7`, `v_max_possible = 2.0`. */
  const InitialRadius: real := 4.5
  const Pitch: real := 1.7
  const MaxSpeed: real := 2.0

  /**
   * `calculate_position(t, r_initial, p, v_head)`: the point at polar angle
   * `t / r` on the widening spiral, and `r`. The head speed is not used.
   */
  function CalculatePosition(t: nat, rInitial: real, p: real, vHead: real, m: Trig): (Point, real)
    requires SpiralRadius(rInitial, p, t, Widening, m) != 0.0
  {
    var r := SpiralRadius(rInitial, p, t, Widening, m);
    (SpiralHead(r, t, m), r)
  }

  /**
   * With a positive start radius and a non-negative pitch the radius never
   * drops below the start radius, and the head is on the circle of that radius.
   */
  lemma HeadOnWideningSpiral(t: nat, rInitial: real, p: real, vHead: real, m: Trig)
    requires Lawful(m) && 0.0 < rInitial && 0.0 <= p
    ensures SpiralRadius(rInitial, p, t, Widening, m) != 0.0
    ensures var (pos, r) := CalculatePosition(t, rInitial, p, vHead, m);
      rInitial <= r && DistSq(pos, Origin) == r * r
  {
    HeadOnSpiral(SpiralRadius(rInitial, p, t, Widening, m), t, m);
  }

  /** The script's head at step `t`; its radius is at least 4.5, so it is always defined. */
  function Head(t: nat, m: Trig): Point {
    SpiralHead(SpiralRadius(InitialRadius, Pitch, t, Widening, m), t, m)
  }

  /** Where section `i` belongs at step `t`: the chain behind the head, link `i` of length `section_lengths[i]`. */
  function Expected(t: nat, i: nat, m: Trig): Point
    requires i < NumSections
  {
    ChainPoint(Head(t, m), Lengths, OwnIndex, i, m)
  }

  /** The tables of one run: `time_steps` rows of `num_sections` entries. */
  predicate Shaped(path: array2<Point>, angles: array2<real>, steps: nat) {
    && path.Length0 == steps && path.Length1 == NumSections
    && angles.Length0 == steps && angles.Length1 == NumSections
  }

  /** The angle the script stores for a point: `arctan2(y, x)`. */
  function AngleOf(q: Point, m: Trig): real {
    Atan2(m, q.y, q.x)
  }

  /**
   * `calculate_section_position(t, i, path_x[t], path_y[t], angles[t])`: the
   * entry `i - 1` of row `t` moved by `section_lengths[i]` in the direction
   * of its stored angle plus π. When that entry and its angle are the
   * expected ones, the result is the expected section `i`.
   */
  function CalculateSectionPosition(t: nat, i: nat, path: array2<Point>, angles: array2<real>, m: Trig): (q: Point)
    reads path, angles
    requires 1 <= i < NumSections
    requires t < path.Length0 && i - 1 < path.Length1 && t < angles.Length0 && i - 1 < angles.Length1
    ensures path[t, i - 1] == Expected(t, i - 1, m) && angles[t, i - 1] == AngleOf(path[t, i - 1], m)
            ==> q == Expected(t, i, m)
  {
    AngleStep(path[t, i - 1], angles[t, i - 1], Lengths[i], m)
  }

  /** Consecutive expected sections are `section_lengths[i]` apart, which is 2.20 for every link `i >= 1`. */
  lemma ExpectedLinkLength(t: nat, i: nat, m: Trig)
    requires Lawful(m) && 1 <= i < NumSections
    ensures Dist(Expected(t, i - 1, m), Expected(t, i, m), m) == LengthBody
  {
    ScriptLinkLengths(Head(t, m), i, m);
  }

  /** Row `t` holds the expected chain and, beside every entry, its angle. */
  ghost predicate RowDone(path: array2<Point>, angles: array2<real>, t: nat, m: Trig)
    reads path, angles
    requires Shaped(path, angles, path.Length0) && t < path.Length0
  {
    forall i :: 0 <= i < NumSections ==>
      path[t, i] == Expected(t, i, m) && angles[t, i] == AngleOf(path[t, i], m)
  }

  /**
   * The body of the time loop up to the velocity step: the head of row `t`
   * from `calculate_position`, then every trailing section from the one in
   * front, each followed by its angle. No other row changes.
   */
  method FillRow(path: array2<Point>, angles: array2<real>, vHead: real, t: nat, m: Trig)
    requires Shaped(path, angles, path.Length0) && t < path.Length0
    modifies path, angles
    ensures RowDone(path, angles, t, m)
    ensures forall s, i :: 0 <= s < path.Length0 && s != t && 0 <= i < NumSections ==>
              path[s, i] == old(path[s, i]) && angles[s, i] == old(angles[s, i])
    ensures forall s :: 0 <= s < path.Length0 && old(RowDone(path, angles, s, m)) ==> RowDone(path, angles, s, m)
  {
    var head := CalculatePosition(t, InitialRadius, Pitch, vHead, m).0;
    path[t, 0] := head;
    angles[t, 0] := AngleOf(head, m);
    var i := 1;
    while i < NumSections
      invariant 1 <= i <= NumSections
      invariant forall j :: 0 <= j < i ==>
                  path[t, j] == Expected(t, j, m) && angles[t, j] == AngleOf(path[t, j], m)
      invariant forall s, j :: 0 <= s < path.Length0 && s != t && 0 <= j < NumSections ==>
                  path[s, j] == old(path[s, j]) && angles[s, j] == old(angles[s, j])
    {
      path[t, i] := CalculateSectionPosition(t, i, path, angles, m);
      angles[t, i] := AngleOf(path[t, i], m);
      i := i + 1;
    }
  }

  /** The largest entry of a non-empty vector, `np.max`. */
  function Peak(speeds: seq<real>): (top: real)
    requires |speeds| > 0
    ensures forall k :: 0 <= k < |speeds| ==> speeds[k] <= top
    ensures exists k :: 0 <= k < |speeds| && speeds[k] == top
  {
    if |speeds| == 1 then speeds[0]
    else
      var front := Peak(speeds[..|speeds| - 1]);
      var last := speeds[|speeds| - 1];
      assert forall k :: 0 <= k < |speeds| - 1 ==> speeds[..|speeds| - 1][k] == speeds[k];
      if front < last then last else front
  }

  /** The vector `velocities` of step `t`: every section's displacement since the previous row. */
  function RowSpeeds(path: array2<Point>, t: nat, m: Trig): (speeds: seq<real>)
    reads path
    requires 0 < t < path.Length0 && path.Length1 == NumSections
    ensures |speeds| == NumSections
  {
    seq(NumSections, i requires 0 <= i < NumSections reads path => Dist(path[t - 1, i], path[t, i], m))
  }

  /** The expected speeds of step `t > 0`, from the expected chains of steps `t - 1` and `t`. */
  function ExpectedSpeeds(t: nat, m: Trig): (speeds: seq<real>)
    requires 0 < t
    ensures |speeds| == NumSections
  {
    seq(NumSections, i requires 0 <= i < NumSections => Dist(Expected(t - 1, i, m), Expected(t, i, m), m))
  }

  /** The entry `max_velocities[t]` should hold: 0 at the first step, the peak speed afterwards. */
  function RowPeak(t: nat, m: Trig): real {
    if t == 0 then 0.0 else Peak(ExpectedSpeeds(t, m))
  }

  /**
   * The recorded peak is positive at every step after the first: the head's
   * radius grows, so the head itself moves.
   */
  lemma RowPeakPositive(t: nat, m: Trig)
    requires Lawful(m) && 0 < t
    ensures 0.0 < RowPeak(t, m)
  {
    var r0 := SpiralRadius(InitialRadius, Pitch, t - 1, Widening, m);
    var r1 := SpiralRadius(InitialRadius, Pitch, t, Widening, m);
    RadiusStrictlyMonotone(InitialRadius, Pitch, t - 1, t, m);
    HeadOnSpiral(r0, t - 1, m);
    HeadOnSpiral(r1, t, m);
    SquareMonotone(r0, r1);
    var a, b := Expected(t - 1, 0, m), Expected(t, 0, m);
    assert a != b;
    DistProperties(a, b, m);
    assert ExpectedSpeeds(t, m)[0] == Dist(a, b, m);
  }

  /** Every recorded peak is at most the cap. */
  ghost predicate WithinCap(steps: nat, m: Trig) {
    forall t: nat :: t < steps ==> RowPeak(t, m) <= MaxSpeed
  }

  /** The tables `simulate_spiral_out` returns: `path_x`/`path_y` and `max_velocities`. */
  datatype Outcome = Outcome(path: array2<Point>, maxVelocities: array<real>)

  /**
   * `simulate_spiral_out(v_head, time_steps)` as written: the `return` is
   * inside the time loop, so the first pass (`t = 0`) fills row 0 and returns
   * with every later row still zero and the velocity step (guarded by
   * `t > 0`) never reached: `max_velocities` is all zero. With
   * `time_steps = 0` the loop body never runs and the function falls off its
   * end, returning `None`.
   */
  method SimulateSpiralOut(vHead: real, timeSteps: nat, m: Trig) returns (out: Option<Outcome>)
    ensures out.None? <==> timeSteps == 0
    ensures out.Some? ==> fresh(out.value.path) && fresh(out.value.maxVelocities)
    ensures out.Some? ==>
      var (path, maxVelocities) := (out.value.path, out.value.maxVelocities);
      && path.Length0 == timeSteps && path.Length1 == NumSections
      && maxVelocities.Length == timeSteps
      && (forall i :: 0 <= i < NumSections ==> path[0, i] == Expected(0, i, m))
      && (forall s, i :: 1 <= s < timeSteps && 0 <= i < NumSections ==> path[s, i] == Origin)
      && (forall s :: 0 <= s < timeSteps ==> maxVelocities[s] == 0.0)
  {
    if timeSteps == 0 {
      return None;
    }
    var path := new Point[timeSteps, NumSections](ZeroPoint);
    var angles := new real[timeSteps, NumSections](ZeroCell);
    var maxVelocities := new real[timeSteps](ZeroEntry);
    FillRow(path, angles, vHead, 0, m);
    return Some(Outcome(path, maxVelocities));
  }

  /**
   * The evidently intended simulation, with the `return` after the time
   * loop: every row holds the expected chain and `max_velocities[t]` is the
   * peak speed of step `t` (0 at the first step).
   */
  method SimulateAllSteps(vHead: real, timeSteps: nat, m: Trig) returns (out: Outcome)
    ensures fresh(out.path) && fresh(out.maxVelocities)
    ensures out.path.Length0 == timeSteps && out.path.Length1 == NumSections
    ensures out.maxVelocities.Length == timeSteps
    ensures forall s, i :: 0 <= s < timeSteps && 0 <= i < NumSections ==> out.path[s, i] == Expected(s, i, m)
    ensures forall s :: 0 <= s < timeSteps ==> out.maxVelocities[s] == RowPeak(s, m)
  {
    var path := new Point[timeSteps, NumSections](ZeroPoint);
    var angles := new real[timeSteps, NumSections](ZeroCell);
    var maxVelocities := new real[timeSteps](ZeroEntry);
    var t := 0;
    while t < timeSteps
      invariant 0 <= t <= timeSteps
      invariant forall s :: 0 <= s < t ==> RowDone(path, angles, s, m)
      invariant forall s :: 0 <= s < timeSteps ==> maxVelocities[s] == (if s < t then RowPeak(s, m) else 0.0)
    {
      SimulationPass(path, angles, maxVelocities, vHead, t, m);
      t := t + 1;
    }
    forall s, i | 0 <= s < timeSteps && 0 <= i < NumSections
      ensures path[s, i] == Expected(s, i, m)
    {
      assert RowDone(path, angles, s, m);
    }
    return Outcome(path, maxVelocities);
  }

  /**
   * One pass of the time loop: row `t` of the tables, then for `t > 0` the
   * peak speed of the step. The rows before `t` and their peaks stay as they
   * were, and the rows after `t` are not touched.
   */
  method SimulationPass(path: array2<Point>, angles: array2<real>, maxVelocities: array<real>,
                        vHead: real, t: nat, m: Trig)
    requires Shaped(path, angles, path.Length0) && t < path.Length0 && maxVelocities.Length == path.Length0
    requires forall s :: 0 <= s < t ==> RowDone(path, angles, s, m)
    requires forall s :: 0 <= s < maxVelocities.Length ==> maxVelocities[s] == (if s < t then RowPeak(s, m) else 0.0)
    modifies path, angles, maxVelocities
    ensures forall s :: 0 <= s <= t ==> RowDone(path, angles, s, m)
    ensures forall s :: 0 <= s < maxVelocities.Length ==> maxVelocities[s] == (if s <= t then RowPeak(s, m) else 0.0)
    ensures forall s, j :: t < s < path.Length0 && 0 <= j < path.Length1 ==>
              path[s, j] == old(path[s, j]) && angles[s, j] == old(angles[s, j])
  {
    FillRow(path, angles, vHead, t, m);
    if t > 0 {
      RecordPeak(path, angles, maxVelocities, t, m);
    }
  }

  /**
   * The velocity step of pass `t > 0`: the displacement vector of every
   * section since the previous row, and its maximum into `max_velocities[t]`.
   * With both rows filled that is the expected peak.
   */
  method RecordPeak(path: array2<Point>, angles: array2<real>, maxVelocities: array<real>, t: nat, m: Trig)
    requires Shaped(path, angles, path.Length0) && 0 < t < path.Length0 && maxVelocities.Length == path.Length0
    requires RowDone(path, angles, t - 1, m) && RowDone(path, angles, t, m)
    modifies maxVelocities
    ensures maxVelocities[t] == RowPeak(t, m)
    ensures forall s :: 0 <= s < maxVelocities.Length && s != t ==> maxVelocities[s] == old(maxVelocities[s])
  {
    var velocities := RowSpeeds(path, t, m);
    assert velocities == ExpectedSpeeds(t, m);
    maxVelocities[t] := Peak(velocities);
  }

  /** `np.all(max_velocities <= v_max_possible)`. */
  predicate AllAtMost(values: array<real>, cap: real)
    reads values
  {
    forall s :: 0 <= s < values.Length ==> values[s] <= cap
  }

  /** Which simulation the scan runs: the script's, or the one with the `return` after the loop. */
  datatype Version = AsWritten | AllSteps

  /** Whether the scan accepts a candidate; the simulation ignores the head speed, so all candidates agree. */
  ghost predicate Accepts(version: Version, timeSteps: nat, m: Trig) {
    version == AsWritten || WithinCap(timeSteps, m)
  }

  /**
   * `find_maximum_head_velocity(time_steps)` over the candidate speeds `grid`
   * (the script's is `np.arange(0.5, 3.0, 0.01)`): the first candidate whose
   * simulated `max_velocities` are all within 2 m/s, else `None`. Since no
   * candidate changes the simulation, that is the first candidate or nothing;
   * as written it is always the first candidate. With `time_steps = 0` the
   * script fails unpacking `None`, so at least one step is required.
   */
  method FindMaximumHeadVelocity(grid: seq<real>, timeSteps: nat, version: Version, m: Trig)
    returns (v: Option<real>)
    requires 0 < timeSteps
    ensures v == if |grid| > 0 && Accepts(version, timeSteps, m) then Some(grid[0]) else None
  {
    var k := 0;
    while k < |grid|
      invariant 0 <= k <= |grid|
      invariant 0 < k ==> !Accepts(version, timeSteps, m)
    {
      var maxVelocities;
      if version == AsWritten {
        var out := SimulateSpiralOut(grid[k], timeSteps, m);
        maxVelocities := out.value.maxVelocities;
      } else {
        var out := SimulateAllSteps(grid[k], timeSteps, m);
        maxVelocities := out.maxVelocities;
      }
      if AllAtMost(maxVelocities, MaxSpeed) {
        return Some(grid[k]);
      }
      k := k + 1;
    }
    return None;
  }

  /**
   * The discrepancy the early return causes: with two steps or more the
   * script reports a peak of 0 for step 1, while the head has moved.
   */
  lemma EarlyReturnHidesMotion(m: Trig)
    requires Lawful(m)
    ensures RowPeak(1, m) != 0.0
  {
    RowPeakPositive(1, m);
  }
}
