/**
 * 2/1.py: a stand-alone script whose global state (the `positions` and
 * `speeds` tables, the running `angle` and `z`, and `end_time`) is updated
 * step by step. At step `t` the head has turned by `t·v/(p/2)` and moved
 * out to radius `z = t·v`; bench `i` sits on the same circle, `i·d/p`
 * behind the head in angle (`d = body_length / 100`). From step 2 on the
 * adjacent benches are checked, and the first pair closer than `d` stops
 * the run.
 *
 * The script runs with 223 benches, a body length of 220 cm (so
 * `d = 2.20` m), speed 1.0, pitch 0.55 (the variable named "pitch" in
 * Chinese) and a limit of 3000 steps; these are the arguments of
 * `BenchRun`'s constructor.
 */
module BenchLoop {
  import opened Wrappers
  import opened Geometry
  import opened PathModel

  class BenchRun {
    const numBench: nat
    const timeLimit: nat
    const speed: real
    const pitch: real
    const spacing: real
    const trig: Trig

    /** `positions[t, i, :]` and `speeds[t, i]`, `time_limit + 1` rows of `num_bench` entries. */
    const positions: array2<Point>
    const speeds: array2<real>

    /** The running polar angle and radius of the head, and `end_time`, unset until the run ends. */
    var angle: real
    var z: real
    var endTime: Option<nat>

    ghost predicate Valid() {
      && positions.Length0 == timeLimit + 1 && positions.Length1 == numBench
      && speeds.Length0 == timeLimit + 1 && speeds.Length1 == numBench
      && pitch != 0.0
    }

    /** The zeroed tables, `angle = 0`, `z = 0`; the head's entry of row 0 is set to `[0, 0]`, which it already is. */
    constructor (numBench: nat, timeLimit: nat, speed: real, pitch: real, spacing: real, trig: Trig)
      requires pitch != 0.0
      ensures Valid() && fresh(positions) && fresh(speeds)
      ensures this.numBench == numBench && this.timeLimit == timeLimit && this.speed == speed
      ensures this.pitch == pitch && this.spacing == spacing && this.trig == trig
      ensures RowsDone(1) && RowsBlank(1) && angle == 0.0 && z == 0.0 && endTime == None
    {
      this.numBench, this.timeLimit, this.speed := numBench, timeLimit, speed;
      this.pitch, this.spacing, this.trig := pitch, spacing, trig;
      positions := new Point[timeLimit + 1, numBench](ZeroPoint);
      speeds := new real[timeLimit + 1, numBench](ZeroCell);
      angle, z := 0.0, 0.0;
      endTime := None;
    }

    /** The head's polar angle after `t` steps: `t` increments of `v / (p / 2)`. */
    function AngleAt(t: nat): real
      requires pitch != 0.0
    {
      (t as real) * (speed / (pitch / 2.0))
    }

    /** The head's radius after `t` steps: `t` increments of `v`. */
    function ZAt(t: nat): real {
      (t as real) * speed
    }

    /** Where bench `i` is at step `t`: on the circle of radius `z`, at angle `angle - i·d/p`. */
    function BenchAt(t: nat, i: nat): Point
      requires pitch != 0.0
    {
      Polar(ZAt(t), AngleAt(t) - (i as real) * spacing / pitch, trig)
    }

    /** All benches of a step share the head's radius: bench `i` is at distance `|t·v|` from the origin. */
    lemma BenchOnCircle(t: nat, i: nat)
      requires Lawful(trig) && pitch != 0.0
      ensures DistSq(BenchAt(t, i), Origin) == ZAt(t) * ZAt(t)
    {
      PolarOnCircle(ZAt(t), AngleAt(t) - (i as real) * spacing / pitch, trig);
    }

    /** Row 0 is zero; rows `1 .. upTo - 1` hold the benches and the speed `v` of every bench. */
    ghost predicate RowsDone(upTo: nat)
      reads positions, speeds
      requires Valid()
    {
      && (forall i :: 0 <= i < numBench ==> positions[0, i] == Origin && speeds[0, i] == 0.0)
      && (forall s, i :: 1 <= s < upTo && s <= timeLimit && 0 <= i < numBench ==>
            positions[s, i] == BenchAt(s, i) && speeds[s, i] == speed)
    }

    /** Rows `from .. time_limit` are still zero. */
    ghost predicate RowsBlank(from: nat)
      reads positions, speeds
      requires Valid()
    {
      forall s, i :: from <= s <= timeLimit && 0 <= i < numBench ==>
        positions[s, i] == Origin && speeds[s, i] == 0.0
    }

    /**
     * The inner loop of step `t` and the speed update: with `angle` and `z`
     * already advanced, bench `i` goes to `(z cos θ, z sin θ)` for
     * `θ = angle - i·d/p`, then the whole speed row is set to `v`.
     */
    method FillRow(t: nat)
      requires Valid() && 1 <= t <= timeLimit && angle == AngleAt(t) && z == ZAt(t)
      requires RowsDone(t) && RowsBlank(t)
      modifies positions, speeds
      ensures RowsDone(t + 1) && RowsBlank(t + 1)
    {
      var i := 0;
      while i < numBench
        invariant 0 <= i <= numBench
        invariant RowsDone(t) && RowsBlank(t + 1)
        invariant forall j :: 0 <= j < i ==> positions[t, j] == BenchAt(t, j)
        invariant forall j :: 0 <= j < numBench ==> speeds[t, j] == 0.0
      {
        PlaceBench(t, i);
        i := i + 1;
      }
      forall j | 0 <= j < numBench {
        speeds[t, j] := speed;
      }
    }

    /** One pass of the inner loop: bench `i` of row `t` at `(z cos θ, z sin θ)`, nothing else written. */
    method PlaceBench(t: nat, i: nat)
      requires Valid() && 1 <= t <= timeLimit && i < numBench && angle == AngleAt(t) && z == ZAt(t)
      modifies positions
      ensures positions[t, i] == BenchAt(t, i)
      ensures forall s, j :: 0 <= s <= timeLimit && 0 <= j < numBench && (s != t || j != i) ==>
                positions[s, j] == old(positions[s, j])
      ensures old(RowsDone(t)) ==> RowsDone(t)
      ensures old(RowsBlank(t + 1)) ==> RowsBlank(t + 1)
    {
      var theta := angle - (i as real) * spacing / pitch;
      positions[t, i] := Point(z * Cos(trig, theta), z * Sin(trig, theta));
    }

    /** Benches `i` and `i + 1` of step `t` are closer than `d`. */
    ghost predicate PairClashes(t: nat, i: nat)
      requires pitch != 0.0
    {
      Dist(BenchAt(t, i), BenchAt(t, i + 1), trig) < spacing
    }

    /** Some adjacent pair of step `t` is closer than `d`. */
    ghost predicate RowClashes(t: nat)
      requires pitch != 0.0
    {
      exists i :: 0 <= i < numBench - 1 && PairClashes(t, i)
    }

    /** With a non-negative `d`, the script's test `norm < d` is the squared test. */
    lemma ClashSquared(t: nat, i: nat)
      requires Lawful(trig) && pitch != 0.0 && 0.0 <= spacing
      ensures PairClashes(t, i) <==> DistSq(BenchAt(t, i), BenchAt(t, i + 1)) < spacing * spacing
    {
      SqrtBelow(trig, DistSq(BenchAt(t, i), BenchAt(t, i + 1)), spacing);
    }

    /**
     * The collision loop of step `t`: over `i in range(num_bench - 1)`, stop
     * at the first pair whose distance is below `d`. It reports a hit exactly
     * when step `t` has a clashing pair.
     */
    method ScanRow(t: nat) returns (hit: bool)
      requires Valid() && 1 <= t <= timeLimit && RowsDone(t + 1)
      ensures hit <==> RowClashes(t)
    {
      var i := 0;
      while i < numBench - 1
        invariant 0 <= i && (i <= numBench - 1 || i == 0)
        invariant forall j :: 0 <= j < i ==> !PairClashes(t, j)
      {
        var distance := Dist(positions[t, i], positions[t, i + 1], trig);
        if distance < spacing {
          assert PairClashes(t, i);
          return true;
        }
        i := i + 1;
      }
      return false;
    }

    /**
     * The first half of a pass of the main loop: `angle += v / (p / 2)`,
     * `z += v * 1`, then row `t` of both tables. After `t` passes the running
     * values are `t` increments.
     */
    method Advance(t: nat)
      requires Valid() && 1 <= t <= timeLimit && angle == AngleAt(t - 1) && z == ZAt(t - 1)
      requires RowsDone(t) && RowsBlank(t)
      modifies this`angle, this`z, positions, speeds
      ensures angle == AngleAt(t) && z == ZAt(t)
      ensures RowsDone(t + 1) && RowsBlank(t + 1)
    {
      angle := angle + speed / (pitch / 2.0);
      z := z + speed * 1.0;
      FillRow(t);
    }

    /** Step `c` (from 2 on) is the first checked step with a clash: the run stops after filling it, with `end_time = c - 1`. */
    ghost predicate CollidedAt(c: nat)
      reads this, positions, speeds
      requires Valid()
    {
      && 2 <= c <= timeLimit && RowClashes(c)
      && (forall s :: 2 <= s < c ==> !RowClashes(s))
      && RowsDone(c + 1) && RowsBlank(c + 1)
      && angle == AngleAt(c) && z == ZAt(c)
      && endTime == Some(c - 1)
    }

    /** No checked step clashes: every row is filled and `end_time = time_limit`. */
    ghost predicate RanToLimit()
      reads this, positions, speeds
      requires Valid()
    {
      && (forall s :: 2 <= s <= timeLimit ==> !RowClashes(s))
      && RowsDone(timeLimit + 1)
      && angle == AngleAt(timeLimit) && z == ZAt(timeLimit)
      && endTime == Some(timeLimit)
    }

    /**
     * The main loop, `for t in range(1, time_limit + 1)` with its `else`
     * clause: advance `angle` and `z`, fill row `t`, and for `t > 1` scan it;
     * the first hit sets `end_time = t - 1` and leaves both loops, and a run
     * without a hit sets `end_time = time_limit`.
     */
    method Run()
      requires Valid() && RowsDone(1) && RowsBlank(1) && angle == 0.0 && z == 0.0
      modifies this, positions, speeds
      ensures endTime.Some? && endTime.value <= timeLimit
      ensures endTime.value < timeLimit ==> CollidedAt(endTime.value + 1)
      ensures endTime.value == timeLimit ==> RanToLimit()
    {
      var t := 1;
      while t <= timeLimit
        invariant 1 <= t <= timeLimit + 1
        invariant angle == AngleAt(t - 1) && z == ZAt(t - 1)
        invariant RowsDone(t) && RowsBlank(t)
        invariant forall s :: 2 <= s < t ==> !RowClashes(s)
      {
        Advance(t);
        if t > 1 {
          var hit := ScanRow(t);
          if hit {
            endTime := Some(t - 1);
            return;
          }
        }
        t := t + 1;
      }
      endTime := Some(timeLimit);
    }
  }
}
