/**
 * 4/version1.py: the turnaround. The head runs on a circle of radius `R1`
 * for the first half of the time steps and on a circle of radius `R2` for
 * the second half, starting from the last angle of the first half; each
 * trailing section is placed behind the one in front along an angle read
 * from the `angles` table, of which only the head's entries in the first
 * half are ever written.
 */
module Turnaround {
  import opened Geometry
  import opened PathModel
  import opened ChainResolver
  import opened WriteOrder

  /** `v_head = 1.0`, `R2 = 4.5`, `R1 = 2 * R2`, `time_steps = 200`. */
  const VHead: real := 1.0
  const R2: real := 4.5
  const R1: real := 2.0 * R2
  const TimeSteps: nat := 200

  /** `calculate_first_arc(t, R1, v_head, start_angle)`: the point at angle `v_head·t/R1 + start_angle` on the circle of radius `R1`, and that angle. */
  function CalculateFirstArc(t: nat, r1: real, vHead: real, startAngle: real, m: Trig): (Point, real)
    requires r1 != 0.0
  {
    var theta := vHead * (t as real) / r1 + startAngle;
    (Polar(r1, theta, m), theta)
  }

  /** `calculate_second_arc(t, R2, start_angle)`: the point at angle `t/R2 + start_angle` on the circle of radius `R2`. */
  function CalculateSecondArc(t: nat, r2: real, startAngle: real, m: Trig): Point
    requires r2 != 0.0
  {
    Polar(r2, (t as real) / r2 + startAngle, m)
  }

  /** The arguments of `simulate_turn_path(time_steps, R1, R2)`. */
  datatype Setup = Setup(timeSteps: nat, r1: real, r2: real)

  /**
   * The arguments with which the script runs: at least one step (with none,
   * `angles[time_steps // 2 - 1, 0]` indexes an empty table), `R2 != 0`
   * (the second arc always runs) and `R1 != 0` whenever the first arc runs.
   */
  predicate Runnable(s: Setup) {
    0 < s.timeSteps && s.r2 != 0.0 && (2 <= s.timeSteps ==> s.r1 != 0.0)
  }

  /** `time_steps // 2`: the first step of the second arc. */
  function Half(s: Setup): nat {
    s.timeSteps / 2
  }

  /** The row Python reads for index `t - 1`: `-1` wraps round to the last row. */
  function PreviousRow(t: nat, steps: nat): nat
    requires t < steps
  {
    if t == 0 then steps - 1 else t - 1
  }

  /**
   * The final `angles[t, i]`: the head's angle for the rows of the first
   * arc, 0 everywhere else (the table starts zeroed and nothing else writes it).
   */
  function StoredAngle(s: Setup, t: nat, i: nat, m: Trig): real
    requires Runnable(s)
  {
    if i == 0 && t < Half(s) then CalculateFirstArc(t, s.r1, VHead, 0.0, m).1 else 0.0
  }

  /** `start_angle = angles[time_steps // 2 - 1, 0]`. */
  function StartAngle(s: Setup, m: Trig): real
    requires Runnable(s)
  {
    StoredAngle(s, if Half(s) == 0 then s.timeSteps - 1 else Half(s) - 1, 0, m)
  }

  /** The head at step `t`: on the first arc from angle 0, then on the second from `start_angle`. */
  function Head(s: Setup, t: nat, m: Trig): Point
    requires Runnable(s) && t < s.timeSteps
  {
    if t < Half(s) then CalculateFirstArc(t, s.r1, VHead, 0.0, m).0
    else CalculateSecondArc(t - Half(s), s.r2, StartAngle(s, m), m)
  }

  /** The row of `angles` the sections of step `t` are steered by: `t` on the first arc, `t - 1` on the second. */
  function AngleRow(s: Setup, t: nat): nat
    requires t < s.timeSteps
  {
    if t < Half(s) then t else PreviousRow(t, s.timeSteps)
  }

  /** Where section `i` belongs at step `t`: section `i - 1` moved by `section_lengths[i]` along its stored angle plus π. */
  function Expected(s: Setup, t: nat, i: nat, m: Trig): Point
    requires Runnable(s) && t < s.timeSteps && i < NumSections
  {
    if i == 0 then Head(s, t, m)
    else AngleStep(Expected(s, t, i - 1, m), StoredAngle(s, AngleRow(s, t), i - 1, m), Lengths[i], m)
  }

  /** The head is on the circle of radius `R1` in the first half and of radius `R2` in the second. */
  lemma HeadOnArcs(s: Setup, t: nat, m: Trig)
    requires Lawful(m) && Runnable(s) && t < s.timeSteps
    ensures DistSq(Head(s, t, m), Origin) == if t < Half(s) then s.r1 * s.r1 else s.r2 * s.r2
  {
    if t < Half(s) {
      PolarOnCircle(s.r1, CalculateFirstArc(t, s.r1, VHead, 0.0, m).1, m);
    } else {
      PolarOnCircle(s.r2, (t - Half(s)) as real / s.r2 + StartAngle(s, m), m);
    }
  }

  /**
   * At the hand-off the head keeps its direction from the origin: the first
   * point of the second arc is the last point of the first arc rescaled by
   * `R2 / R1`, and the sections of that step are steered by the last angle
   * of the first arc.
   */
  lemma HandOff(s: Setup, m: Trig)
    requires Runnable(s) && 1 <= Half(s)
    ensures Head(s, Half(s), m) == Scale(Head(s, Half(s) - 1, m), s.r2 / s.r1)
    ensures StoredAngle(s, AngleRow(s, Half(s)), 0, m) == StoredAngle(s, Half(s) - 1, 0, m)
  {
    var theta := StartAngle(s, m);
    assert (0 as real) / s.r2 + theta == theta;
    SameAngleRescales(s.r1, s.r2, theta, m);
  }

  /**
   * The script's own call, with `time_steps = 200`, `R1 = 9` and `R2 = 4.5`:
   * it meets `Runnable`, hands off at step 100, and there the head moves
   * halfway in towards the origin.
   */
  lemma ScriptHandOff(m: Trig)
    ensures Runnable(Setup(TimeSteps, R1, R2)) && Half(Setup(TimeSteps, R1, R2)) == 100
    ensures Head(Setup(TimeSteps, R1, R2), 100, m) == Scale(Head(Setup(TimeSteps, R1, R2), 99, m), 0.5)
  {
    HandOff(Setup(TimeSteps, R1, R2), m);
  }

  /** Consecutive sections are `section_lengths[i]` apart, whatever angle steers them. */
  lemma TurnLinkLength(s: Setup, t: nat, i: nat, m: Trig)
    requires Lawful(m) && Runnable(s) && t < s.timeSteps && 1 <= i < NumSections
    ensures Dist(Expected(s, t, i - 1, m), Expected(s, t, i, m), m) == Lengths[i]
  {
    var prev := Expected(s, t, i - 1, m);
    StepLength(prev, Lengths[i], StoredAngle(s, AngleRow(s, t), i - 1, m) + m.pi, m);
  }

  /**
   * Behind section 1 every section is steered by a stored angle of 0, so the
   * tail is a horizontal line: section `i` is `(i - 1) · 2.20` to the left of
   * section 1, at the same height.
   */
  lemma {:induction false} TailHorizontal(s: Setup, t: nat, i: nat, m: Trig)
    requires Lawful(m) && Runnable(s) && t < s.timeSteps && 1 <= i < NumSections
    ensures Expected(s, t, i, m)
         == Point(Expected(s, t, 1, m).x - (i - 1) as real * LengthBody, Expected(s, t, 1, m).y)
  {
    if 2 <= i {
      TailHorizontal(s, t, i - 1, m);
      AngleStepFromZero(Expected(s, t, i - 1, m), Lengths[i], m);
    }
  }

  /** After the hand-off step the head's stored angle is 0 as well, so section 1 is `2.20` left of the head. */
  lemma SecondArcSectionOne(s: Setup, t: nat, m: Trig)
    requires Lawful(m) && Runnable(s) && Half(s) < t < s.timeSteps
    ensures Expected(s, t, 1, m) == Point(Head(s, t, m).x - LengthBody, Head(s, t, m).y)
  {
    AngleStepFromZero(Head(s, t, m), Lengths[1], m);
  }

  /** The tables of one run: `time_steps` rows of `num_sections` entries. */
  predicate Shaped(s: Setup, path: array2<Point>, angles: array2<real>) {
    && path.Length0 == s.timeSteps && path.Length1 == NumSections
    && angles.Length0 == s.timeSteps && angles.Length1 == NumSections
  }

  /** Row `t` of `path` holds the expected chain. */
  ghost predicate RowDone(s: Setup, path: array2<Point>, t: nat, m: Trig)
    reads path
    requires Runnable(s) && path.Length0 == s.timeSteps && path.Length1 == NumSections && t < s.timeSteps
  {
    forall i :: 0 <= i < NumSections ==> path[t, i] == Expected(s, t, i, m)
  }

  /** `angles` holds its final contents in rows `0 .. upTo - 1` and zeros in the rows after them. */
  ghost predicate AnglesUpTo(s: Setup, angles: array2<real>, upTo: nat, m: Trig)
    reads angles
    requires Runnable(s) && angles.Length0 == s.timeSteps && angles.Length1 == NumSections
  {
    forall u, i :: 0 <= u < s.timeSteps && 0 <= i < NumSections ==>
      angles[u, i] == if u < upTo then StoredAngle(s, u, i, m) else 0.0
  }

  /**
   * `calculate_section_position(t, i, path_x[t], path_y[t], angles[row])`:
   * entry `i - 1` of row `t` moved by `section_lengths[i]` along the angle
   * stored at `(row, i - 1)` plus π.
   */
  function CalculateSectionPosition(path: array2<Point>, angles: array2<real>, t: nat, row: nat, i: nat, m: Trig): Point
    reads path, angles
    requires 1 <= i < NumSections
    requires t < path.Length0 && i - 1 < path.Length1 && row < angles.Length0 && i - 1 < angles.Length1
  {
    AngleStep(path[t, i - 1], angles[row, i - 1], Lengths[i], m)
  }

  /**
   * The inner loop `for i in range(1, num_sections)` of step `t`, steered by
   * row `AngleRow(t)` of `angles`: with the head in place it writes the
   * expected chain into row `t` and leaves every other row alone. `log`
   * holds the cells written so far, ending with the head's cell `(t, 0)`
   * written just before; the loop extends it by the rest of row `t`.
   */
  method FillSections(s: Setup, path: array2<Point>, angles: array2<real>, t: nat, m: Trig,
                      ghost front: seq<Cell>, ghost log: seq<Cell>)
    returns (ghost log': seq<Cell>)
    requires Runnable(s) && Shaped(s, path, angles) && t < s.timeSteps
    requires path[t, 0] == Head(s, t, m)
    requires forall i :: 0 <= i < NumSections ==> angles[AngleRow(s, t), i] == StoredAngle(s, AngleRow(s, t), i, m)
    requires log == front + RowCells(t, 1)
    modifies path
    ensures RowDone(s, path, t, m)
    ensures forall u :: 0 <= u < s.timeSteps && u != t && old(RowDone(s, path, u, m)) ==> RowDone(s, path, u, m)
    ensures forall u, j :: 0 <= u < s.timeSteps && u != t && 0 <= j < NumSections ==> path[u, j] == old(path[u, j])
    ensures log' == front + RowCells(t, NumSections)
  {
    log' := log;
    var i := 1;
    while i < NumSections
      invariant 1 <= i <= NumSections
      invariant forall j :: 0 <= j < i ==> path[t, j] == Expected(s, t, j, m)
      invariant forall u, j :: 0 <= u < s.timeSteps && u != t && 0 <= j < NumSections ==> path[u, j] == old(path[u, j])
      invariant log' == front + RowCells(t, i)
    {
      log' := WriteSection(s, path, angles, t, i, m, log');
      RowCellsGrow(t, i);
      i := i + 1;
    }
  }

  /** One pass of the inner loop: section `i` of row `t` from section `i - 1` and the stored angle. */
  method WriteSection(s: Setup, path: array2<Point>, angles: array2<real>, t: nat, i: nat, m: Trig,
                      ghost log: seq<Cell>)
    returns (ghost log': seq<Cell>)
    requires Runnable(s) && Shaped(s, path, angles) && t < s.timeSteps && 1 <= i < NumSections
    requires path[t, i - 1] == Expected(s, t, i - 1, m)
    requires angles[AngleRow(s, t), i - 1] == StoredAngle(s, AngleRow(s, t), i - 1, m)
    modifies path
    ensures path[t, i] == Expected(s, t, i, m)
    ensures forall u, j :: 0 <= u < s.timeSteps && 0 <= j < NumSections && (u != t || j != i) ==>
              path[u, j] == old(path[u, j])
    ensures log' == log + [(t, i)]
  {
    path[t, i] := CalculateSectionPosition(path, angles, t, AngleRow(s, t), i, m);
    log' := log + [(t, i)];
  }

  /** One pass of the first loop: the head and its angle from `calculate_first_arc`, then the sections. */
  method FirstArcRow(s: Setup, path: array2<Point>, angles: array2<real>, t: nat, m: Trig, ghost log: seq<Cell>)
    returns (ghost log': seq<Cell>)
    requires Runnable(s) && Shaped(s, path, angles) && t < Half(s)
    requires AnglesUpTo(s, angles, t, m)
    modifies path, angles
    ensures RowDone(s, path, t, m) && AnglesUpTo(s, angles, t + 1, m)
    ensures forall u :: 0 <= u < s.timeSteps && u != t && old(RowDone(s, path, u, m)) ==> RowDone(s, path, u, m)
    ensures forall u, j :: 0 <= u < s.timeSteps && u != t && 0 <= j < NumSections ==> path[u, j] == old(path[u, j])
    ensures log' == log + RowCells(t, NumSections)
  {
    var (head, theta) := CalculateFirstArc(t, s.r1, VHead, 0.0, m);
    path[t, 0] := head;
    angles[t, 0] := theta;
    log' := FillSections(s, path, angles, t, m, log, log + [(t, 0)]);
  }

  /** One pass of the second loop: the head from `calculate_second_arc`, then the sections steered by row `t - 1`. */
  method SecondArcRow(s: Setup, path: array2<Point>, angles: array2<real>, t: nat, startAngle: real, m: Trig,
                      ghost log: seq<Cell>)
    returns (ghost log': seq<Cell>)
    requires Runnable(s) && Shaped(s, path, angles) && Half(s) <= t < s.timeSteps
    requires AnglesUpTo(s, angles, Half(s), m) && startAngle == StartAngle(s, m)
    modifies path
    ensures RowDone(s, path, t, m)
    ensures forall u :: 0 <= u < s.timeSteps && u != t && old(RowDone(s, path, u, m)) ==> RowDone(s, path, u, m)
    ensures forall u, j :: 0 <= u < s.timeSteps && u != t && 0 <= j < NumSections ==> path[u, j] == old(path[u, j])
    ensures log' == log + RowCells(t, NumSections)
  {
    path[t, 0] := CalculateSecondArc(t - Half(s), s.r2, startAngle, m);
    log' := FillSections(s, path, angles, t, m, log, log + [(t, 0)]);
  }

  /**
   * `simulate_turn_path(time_steps, R1, R2)`: the first loop over
   * `0 .. half - 1`, then the second over `half .. time_steps - 1`. Every
   * row ends up holding the expected chain; `angles` (also returned here,
   * so its final contents can be stated) holds the head's first-arc angles
   * and zeros; `log` lists the cells of `path` in the order they are
   * written, which is the row-major order of the nested loops.
   */
  method SimulateTurnPath(timeSteps: nat, r1: real, r2: real, m: Trig)
    returns (path: array2<Point>, angles: array2<real>, ghost log: seq<Cell>)
    requires Runnable(Setup(timeSteps, r1, r2))
    ensures fresh(path) && fresh(angles) && Shaped(Setup(timeSteps, r1, r2), path, angles)
    ensures forall t, i :: 0 <= t < timeSteps && 0 <= i < NumSections ==>
              path[t, i] == Expected(Setup(timeSteps, r1, r2), t, i, m)
    ensures forall t, i :: 0 <= t < timeSteps && 0 <= i < NumSections ==>
              angles[t, i] == StoredAngle(Setup(timeSteps, r1, r2), t, i, m)
    ensures log == CellsBefore(timeSteps, NumSections)
  {
    var s := Setup(timeSteps, r1, r2);
    path := new Point[timeSteps, NumSections](ZeroPoint);
    angles := new real[timeSteps, NumSections](ZeroCell);
    log := [];
    var half := timeSteps / 2;
    var t := 0;
    while t < half
      invariant 0 <= t <= half
      invariant forall u :: 0 <= u < t ==> RowDone(s, path, u, m)
      invariant AnglesUpTo(s, angles, t, m)
      invariant log == CellsBefore(t, NumSections)
    {
      log := FirstArcRow(s, path, angles, t, m, log);
      t := t + 1;
    }
    var startAngle := angles[if half == 0 then timeSteps - 1 else half - 1, 0];
    while t < timeSteps
      invariant half <= t <= timeSteps
      invariant forall u :: 0 <= u < t ==> RowDone(s, path, u, m)
      invariant AnglesUpTo(s, angles, half, m)
      invariant log == CellsBefore(t, NumSections)
    {
      log := SecondArcRow(s, path, angles, t, startAngle, m, log);
      t := t + 1;
    }
    forall t, i | 0 <= t < timeSteps && 0 <= i < NumSections
      ensures path[t, i] == Expected(s, t, i, m)
    {
      assert RowDone(s, path, t, m);
    }
    forall t, i | 0 <= t < timeSteps && 0 <= i < NumSections
      ensures angles[t, i] == StoredAngle(s, t, i, m)
    {
      assert AnglesUpTo(s, angles, half, m);
    }
  }
}
