/**
 * The spiral engine shared by 1/version2.py, 1/version3-latest.py,
 * 2/version2.py and 2/version3-lezai.py: the global `positions` and
 * `velocities` tables, filled row by row (time step by time step), and in
 * the two scripts under 2/ an adjacent-pair collision scan after every row.
 *
 * The four scripts differ only in their constants and in which entry of
 * `section_lengths` separates two sections (`rule`); the table of
 * `positions[t, i, :]` is an `array2<Point>`.
 */
module SpiralRun {
  import opened Wrappers
  import opened Geometry
  import opened PathModel
  import opened ChainResolver
  import opened WriteOrder

  /** `p = 0.55` and `r_0 = 16 * p` in all four scripts; `width = 0.30` in the two under 2/. */
  const Pitch: real := 0.55
  const StartRadius: real := 16.0 * 0.55
  const Width: real := 0.30

  class ChainSimulation {
    const r0: real
    const pitch: real
    const lengths: seq<real>
    const tTotal: nat
    const width: real
    const rule: LengthRule
    const trig: Trig

    /** `positions[t, i]`: section `i` at step `t`; `velocities[t, i]`: its speed. */
    const positions: array2<Point>
    const velocities: array2<real>

    /** `collision_time` of the two scripts under 2/. */
    var collisionTime: Option<nat>

    /** The cells written so far, in the order they were written. */
    ghost var log: seq<Cell>

    ghost predicate Valid() {
      && 1 <= |lengths|
      && positions.Length0 == tTotal + 1 && positions.Length1 == |lengths|
      && velocities.Length0 == tTotal + 1 && velocities.Length1 == |lengths|
    }

    /** The zero-filled tables `np.zeros(...)` of a fresh run. */
    constructor (r0: real, pitch: real, lengths: seq<real>, tTotal: nat, width: real,
                 rule: LengthRule, trig: Trig)
      requires 1 <= |lengths|
      ensures Valid() && fresh(positions) && fresh(velocities)
      ensures this.r0 == r0 && this.pitch == pitch && this.lengths == lengths
      ensures this.tTotal == tTotal && this.width == width && this.rule == rule
      ensures this.trig == trig
      ensures RowsBlank(0) && collisionTime == None && log == []
    {
      this.r0, this.pitch, this.lengths, this.tTotal := r0, pitch, lengths, tTotal;
      this.width, this.rule, this.trig := width, rule, trig;
      positions := new Point[tTotal + 1, |lengths|](ZeroPoint);
      velocities := new real[tTotal + 1, |lengths|](ZeroCell);
      collisionTime := None;
      log := [];
    }

    /** The head's radius at step `t`: `r_0 + p * t / (2π)`. */
    function Radius(t: nat): real {
      SpiralRadius(r0, pitch, t, Widening, trig)
    }

    /** `theta = t / r` is defined at every step of the run. */
    predicate RadiusDefined() {
      forall t: nat :: t <= tTotal ==> Radius(t) != 0.0
    }

    /** Where section `i` belongs at step `t`: the chain behind the spiral head. */
    function Expected(t: nat, i: nat): Point
      requires Radius(t) != 0.0 && i < |lengths|
    {
      ChainPoint(SpiralHead(Radius(t), t, trig), lengths, rule, i, trig)
    }

    /** The speed section `i` should have at step `t`: its displacement over one step. */
    function ExpectedSpeed(t: nat, i: nat): real
      requires RadiusDefined() && t <= tTotal && i < |lengths|
    {
      if t == 0 then 0.0 else Dist(Expected(t - 1, i), Expected(t, i), trig)
    }

    /** With a positive start radius and a non-negative pitch, `theta = t / r` is always defined. */
    lemma RadiusDefinedForPositiveStart()
      requires 0.0 < r0 && 0.0 <= pitch
      ensures RadiusDefined()
    {
      forall t: nat | t <= tTotal
        ensures Radius(t) != 0.0
      {
        assert r0 <= Radius(t);
      }
    }

    /** The head is on the spiral: at distance `|r(t)|` from the origin. */
    lemma HeadOnCircle(t: nat)
      requires Lawful(trig) && Radius(t) != 0.0 && 1 <= |lengths|
      ensures DistSq(Expected(t, 0), Origin) == Radius(t) * Radius(t)
    {
      PathModel.HeadOnSpiral(Radius(t), t, trig);
    }

    /** Sections `i - 1` and `i` are the link length of `rule` apart. */
    lemma LinkLengthHolds(t: nat, i: nat)
      requires Lawful(trig) && Radius(t) != 0.0 && 1 <= i < |lengths|
      requires forall k :: 0 <= k < |lengths| ==> 0.0 <= lengths[k]
      ensures Dist(Expected(t, i - 1), Expected(t, i), trig) == LinkLength(lengths, rule, i)
    {
      LinkLengthInvariant(SpiralHead(Radius(t), t, trig), lengths, rule, i, trig);
    }

    /** Speeds are zero at the first step and never negative. */
    lemma SpeedNonNegative(t: nat, i: nat)
      requires Lawful(trig) && RadiusDefined() && t <= tTotal && i < |lengths|
      ensures t == 0 ==> ExpectedSpeed(t, i) == 0.0
      ensures 0.0 <= ExpectedSpeed(t, i)
    {
      if 0 < t {
        DistProperties(Expected(t - 1, i), Expected(t, i), trig);
      }
    }

    /** Until a section lands on the origin, every section is on the line through the origin and the head. */
    lemma ChainStraight(t: nat, i: nat)
      requires Lawful(trig) && Radius(t) != 0.0 && i < |lengths|
      requires forall k :: 0 <= k < i ==> Expected(t, k) != Origin
      ensures Cross(Expected(t, 0), Expected(t, i)) == 0.0
    {
      forall k | 0 <= k < i
        ensures ChainPoint(SpiralHead(Radius(t), t, trig), lengths, rule, k, trig) != Origin
      {
        assert Expected(t, k) != Origin;
      }
      ChainOnHeadRay(SpiralHead(Radius(t), t, trig), lengths, rule, i, trig);
    }

    /** Rows `0 .. upTo - 1` hold the expected positions and speeds. */
    ghost predicate RowsDone(upTo: nat)
      reads positions, velocities
      requires Valid() && RadiusDefined()
    {
      && (forall s: nat, i: nat {:trigger positions[s, i]} :: s < upTo && s <= tTotal && i < |lengths| ==>
            positions[s, i] == Expected(s, i))
      && (forall s: nat, i: nat {:trigger velocities[s, i]} :: s < upTo && s <= tTotal && i < |lengths| ==>
            velocities[s, i] == ExpectedSpeed(s, i))
    }

    /** Rows `from .. t_total` are still all zero. */
    ghost predicate RowsBlank(from: nat)
      reads positions, velocities
      requires Valid()
    {
      forall s: nat, i: nat :: from <= s <= tTotal && i < |lengths| ==>
        positions[s, i] == Origin && velocities[s, i] == 0.0
    }

    /**
     * `calculate_position(t, i)`: the head on the spiral, or the section in
     * front (read from the table) moved back by its link length.
     */
    function CalculatePosition(t: nat, i: nat): (p: Point)
      reads positions
      requires Valid() && t <= tTotal && i < |lengths| && Radius(t) != 0.0
      ensures i == 0 ==> p == Expected(t, 0)
      ensures 0 < i && positions[t, i - 1] == Expected(t, i - 1) ==> p == Expected(t, i)
    {
      if i == 0 then SpiralHead(Radius(t), t, trig)
      else Trail(positions[t, i - 1], LinkLength(lengths, rule, i), trig)
    }

    /**
     * `calculate_velocity(t, i)`: 0 at the first step, afterwards the distance
     * from the previous row's entry to this row's, never negative.
     */
    function CalculateVelocity(t: nat, i: nat): (v: real)
      reads positions
      requires Valid() && t <= tTotal && i < |lengths|
      ensures t == 0 ==> v == 0.0
      ensures (RadiusDefined() && 0 < t && positions[t - 1, i] == Expected(t - 1, i) &&
               positions[t, i] == Expected(t, i)) ==> v == ExpectedSpeed(t, i)
    {
      if t == 0 then 0.0
      else
        Dist(positions[t - 1, i], positions[t, i], trig)
    }

    /** Sections `i` and `i + 1` of row `t` are closer than the bench width. */
    predicate Clashes(t: nat, i: nat)
      reads positions
      requires Valid() && t <= tTotal && i + 1 < |lengths|
    {
      Dist(positions[t, i], positions[t, i + 1], trig) < width
    }

    /**
     * `check_collision(t)`: scans the adjacent pairs `(i, i + 1)`,
     * `0 <= i <= num_sections - 2`, of row `t` and reports the step at the first
     * pair closer than `width`; `first` is that pair's index.
     */
    method CheckCollision(t: nat) returns (hit: bool, when: Option<nat>, ghost first: nat)
      requires Valid() && t <= tTotal
      ensures hit <==> exists i :: 0 <= i < |lengths| - 1 && Clashes(t, i)
      ensures when == if hit then Some(t) else None
      ensures hit ==> first < |lengths| - 1 && Clashes(t, first)
                      && forall j :: 0 <= j < first ==> !Clashes(t, j)
    {
      var i := 0;
      while i < |lengths| - 1
        invariant 0 <= i <= |lengths| - 1
        invariant forall j :: 0 <= j < i ==> !Clashes(t, j)
      {
        if Dist(positions[t, i], positions[t, i + 1], trig) < width {
          assert Clashes(t, i);
          return true, Some(t), i;
        }
        i := i + 1;
      }
      return false, None, 0;
    }

    /**
     * The body of the inner loop for section `i` at step `t`: it reads only
     * cell `(t, i - 1)` of `positions` (for a trailing section) and cell
     * `(t - 1, i)` (for the speed), and with those in place it writes the
     * expected position and speed into cell `(t, i)` and nowhere else.
     */
    method WriteCell(t: nat, i: nat)
      requires Valid() && RadiusDefined() && t <= tTotal && i < |lengths|
      requires 0 < i ==> positions[t, i - 1] == Expected(t, i - 1)
      requires 0 < t ==> positions[t - 1, i] == Expected(t - 1, i)
      modifies positions, velocities, this`log
      ensures positions[t, i] == Expected(t, i) && velocities[t, i] == ExpectedSpeed(t, i)
      ensures forall s: nat, j: nat :: s <= tTotal && s != t && j < |lengths| ==>
                positions[s, j] == old(positions[s, j]) && velocities[s, j] == old(velocities[s, j])
      ensures forall j: nat :: j < |lengths| && j != i ==>
                positions[t, j] == old(positions[t, j]) && velocities[t, j] == old(velocities[t, j])
      ensures old(RowsDone(t)) ==> RowsDone(t)
      ensures old(RowsBlank(t + 1)) ==> RowsBlank(t + 1)
      ensures log == old(log) + [(t, i)]
    {
      positions[t, i] := CalculatePosition(t, i);
      velocities[t, i] := CalculateVelocity(t, i);
      log := log + [(t, i)];
    }

    /**
     * One pass of the inner loop, `for i in range(num_sections)`: writes row
     * `t` of both tables, section by section, and leaves every other row alone.
     */
    method FillRow(t: nat)
      requires Valid() && RadiusDefined() && t <= tTotal && RowsDone(t)
      modifies positions, velocities, this`log
      ensures RowsDone(t + 1)
      ensures old(RowsBlank(t + 1)) ==> RowsBlank(t + 1)
      ensures forall s: nat, j: nat :: t < s <= tTotal && j < |lengths| ==>
                positions[s, j] == old(positions[s, j]) && velocities[s, j] == old(velocities[s, j])
      ensures log == old(log) + RowCells(t, |lengths|)
    {
      var i := 0;
      while i < |lengths|
        invariant 0 <= i <= |lengths|
        invariant RowsDone(t)
        invariant old(RowsBlank(t + 1)) ==> RowsBlank(t + 1)
        invariant forall s: nat, j: nat :: t < s <= tTotal && j < |lengths| ==>
                    positions[s, j] == old(positions[s, j]) && velocities[s, j] == old(velocities[s, j])
        invariant forall j: nat :: j < i ==>
                    positions[t, j] == Expected(t, j) && velocities[t, j] == ExpectedSpeed(t, j)
        invariant log == old(log) + RowCells(t, i)
      {
        WriteCell(t, i);
        RowCellsGrow(t, i);
        i := i + 1;
      }
    }

    /** The fill loop of 1/version2.py and 1/version3-latest.py: every row, no collision check. */
    method Fill()
      requires Valid() && RadiusDefined()
      modifies positions, velocities, this`log
      ensures RowsDone(tTotal + 1)
      ensures log == old(log) + CellsBefore(tTotal + 1, |lengths|)
    {
      var t := 0;
      while t <= tTotal
        invariant 0 <= t <= tTotal + 1
        invariant RowsDone(t)
        invariant log == old(log) + CellsBefore(t, |lengths|)
      {
        FillRow(t);
        t := t + 1;
      }
    }

    /** Expected sections `i` and `i + 1` at step `t` are closer than `width`. */
    ghost predicate PairClashes(t: nat, i: nat)
      requires RadiusDefined() && t <= tTotal && i + 1 < |lengths|
    {
      Dist(Expected(t, i), Expected(t, i + 1), trig) < width
    }

    /** Some adjacent pair of the expected row `t` is closer than `width`. */
    ghost predicate RowClashes(t: nat)
      requires RadiusDefined() && t <= tTotal
    {
      exists i :: 0 <= i < |lengths| - 1 && PairClashes(t, i)
    }

    /**
     * Rows `0 .. t - 1` are filled, in the order of the nested loops, none of
     * them has a clash, and the rows from `t` on are still zero.
     */
    ghost predicate ClearUpTo(t: nat)
      reads this, positions, velocities
      requires Valid() && RadiusDefined()
    {
      && RowsDone(t) && RowsBlank(t)
      && (forall s: nat :: s < t && s <= tTotal ==> !RowClashes(s))
      && log == CellsBefore(t, |lengths|)
    }

    /**
     * Step `c` is the first step with a clash: it and the rows before it are
     * filled, the rows after it are still zero.
     */
    ghost predicate CollidedAt(c: nat)
      reads this, positions, velocities
      requires Valid() && RadiusDefined()
    {
      && c <= tTotal && RowClashes(c)
      && (forall s: nat :: s < c ==> !RowClashes(s))
      && RowsDone(c + 1) && RowsBlank(c + 1)
      && log == CellsBefore(c + 1, |lengths|)
    }

    /** What either collision-checking loop leaves behind. */
    ghost predicate Halted()
      reads this, positions, velocities
      requires Valid() && RadiusDefined()
    {
      match collisionTime
      case None => ClearUpTo(tTotal + 1)
      case Some(c) => CollidedAt(c)
    }

    /** The collision scan of a filled row answers for the expected row. */
    lemma ScanMeansRowClashes(t: nat)
      requires Valid() && RadiusDefined() && t <= tTotal && RowsDone(t + 1)
      ensures (exists i :: 0 <= i < |lengths| - 1 && Clashes(t, i)) <==> RowClashes(t)
    {
      if exists i :: 0 <= i < |lengths| - 1 && Clashes(t, i) {
        var i :| 0 <= i < |lengths| - 1 && Clashes(t, i);
        assert PairClashes(t, i);
      }
      if RowClashes(t) {
        var i :| 0 <= i < |lengths| - 1 && PairClashes(t, i);
        assert Clashes(t, i);
      }
    }

    /**
     * `check_collision(t)` on a filled row: it reports a hit exactly when the
     * expected row `t` has a clash, and it writes nothing.
     */
    method ScanRow(t: nat) returns (hit: bool, when: Option<nat>)
      requires Valid() && RadiusDefined() && t <= tTotal && RowsDone(t + 1)
      ensures hit <==> RowClashes(t)
      ensures when == if hit then Some(t) else None
    {
      ghost var first;
      hit, when, first := CheckCollision(t);
      ScanMeansRowClashes(t);
    }

    /**
     * One step of the collision-checking loops: fill row `t`, then scan it.
     * A hit means `t` is the first colliding step; otherwise the clear
     * prefix grows by one row.
     */
    method StepAndScan(t: nat) returns (hit: bool, when: Option<nat>)
      requires Valid() && RadiusDefined() && t <= tTotal && ClearUpTo(t)
      modifies positions, velocities, this`log
      ensures RowsDone(t + 1)
      ensures hit <==> RowClashes(t)
      ensures hit ==> CollidedAt(t)
      ensures !hit ==> ClearUpTo(t + 1)
      ensures when == if hit then Some(t) else None
    {
      FillRow(t);
      hit, when := ScanRow(t);
      RowFilled(t);
    }

    /** Filling row `t` after a clear prefix: the outcome depends only on the expected row. */
    lemma RowFilled(t: nat)
      requires Valid() && RadiusDefined() && t <= tTotal
      requires RowsDone(t + 1) && RowsBlank(t + 1) && log == CellsBefore(t + 1, |lengths|)
      requires forall s: nat :: s < t ==> !RowClashes(s)
      ensures RowClashes(t) ==> CollidedAt(t)
      ensures !RowClashes(t) ==> ClearUpTo(t + 1)
    {
    }

    /**
     * The main loop of 2/version3-lezai.py: fill a row, check it, and on the
     * first collision record the step and stop.
     */
    method Run()
      requires Valid() && RadiusDefined() && RowsBlank(0) && log == []
      modifies positions, velocities, this`log, this`collisionTime
      ensures Halted()
    {
      collisionTime := None;
      var t := 0;
      while t <= tTotal
        invariant 0 <= t <= tTotal + 1
        invariant ClearUpTo(t) && collisionTime == None
      {
        var hit, when := StepAndScan(t);
        if hit {
          collisionTime := when;
          return;
        }
        t := t + 1;
      }
    }

    /**
     * The main loop of 2/version2.py: `collision_time` takes the scan's second
     * result at every step (`None` while nothing collides), and the scan is
     * run a second time for the report line; the second scan agrees with the
     * first, since a scan writes nothing.
     */
    method RunRecheck()
      requires Valid() && RadiusDefined() && RowsBlank(0) && log == []
      modifies positions, velocities, this`log, this`collisionTime
      ensures Halted()
    {
      collisionTime := None;
      var t := 0;
      while t <= tTotal
        invariant 0 <= t <= tTotal + 1
        invariant ClearUpTo(t) && collisionTime == None
      {
        var hit, when := StepAndScan(t);
        // The report line's second scan reads only `positions`, so it is
        // stated here before the assignment it follows in the script.
        var again, againWhen := ScanRow(t);
        assert again == hit && againWhen == when;
        collisionTime := when;
        if hit {
          return;
        }
        t := t + 1;
      }
    }

    /** With the scripts' `r_0 = 16 * p` and `p = 0.55`, `theta = t / r` is defined at every step. */
    lemma ScriptRadiusDefined()
      requires r0 == StartRadius && pitch == Pitch
      ensures RadiusDefined()
    {
      RadiusDefinedForPositiveStart();
    }

    /**
     * With the scripts' own `section_lengths` and `width = 0.30`, adjacent
     * sections are always 3.41 or 2.20 apart, so no pair of any step is
     * closer than the width.
     */
    lemma NeverClashes(t: nat)
      requires Lawful(trig) && RadiusDefined() && t <= tTotal
      requires lengths == Lengths && width == Width
      ensures !RowClashes(t)
    {
      forall i | 0 <= i < |lengths| - 1
        ensures !PairClashes(t, i)
      {
        ScriptLinkLengths(SpiralHead(Radius(t), t, trig), i + 1, trig);
      }
    }

    /**
     * Either collision-checking loop, run with the scripts' lengths and
     * width, ends without a collision and with every row filled.
     */
    lemma ScriptRunsToEnd()
      requires Valid() && Lawful(trig) && RadiusDefined()
      requires lengths == Lengths && width == Width
      requires Halted()
      ensures collisionTime == None && RowsDone(tTotal + 1)
    {
      forall c: nat | c <= tTotal
        ensures !RowClashes(c)
      {
        NeverClashes(c);
      }
    }
  }
}
