# Bench-train kinematics in Dafny

A model of the Python scripts that simulate a "bench train": a chain of 223
rigid benches (a 3.41 m head and 2.20 m body benches). The head follows a
prescribed planar path, and every trailing bench is rebuilt from the one in
front at each integer time step. The model has these parts:

- **Coiling-in spiral** (`1/version2.py`, `1/version3-latest.py`,
  `2/version2.py`, `2/version3-lezai.py`): the head runs on
  `r = r0 + p·t/(2π)` at polar angle `t/r`. `2/version2.py`'s plot title
  calls this coiling in, yet the radius grows with `t`
  (`PathModel.SpiralRadius`): it is the same law as the coiling-out spiral
  of `5/version1.py`. Each trailing bench is one link length from the bench
  in front, pointed at the origin (`atan2(y, x) + π`). The scripts fill global
  `positions`/`velocities` tables row by row; those under `2/` also scan
  adjacent pairs for a clearance below the bench width and stop at the first
  clash. With the scripts' own lengths and `width = 0.30` that test cannot
  fire: adjacent benches are always 3.41 or 2.20 apart, so both loops run to
  `t_total` with `collision_time` left `None`
  (`SpiralRun.ChainSimulation.ScriptRunsToEnd`). Module `SpiralRun` is one
  class for the four scripts. It is parameterised by which entry of
  `section_lengths` separates two benches.
- **Pitch search** (`3/version2.py`): for pitches from a grid, the first pitch
  whose narrowing-spiral head reaches the 4.5 m turn-space circle within 500
  steps (module `PitchSearch`).
- **Outward spiral and head-speed search** (`5/version1.py`, module `SpiralOut`).
- **Two-arc turnaround** (`4/version1.py`, module `Turnaround`).
- **The cm-based bench loop** (`2/1.py`, module `BenchLoop`).

Shared modules:

- `Geometry`: points, distances, and the numpy primitives.
- `PathModel`: polar points and spiral radii.
- `ChainResolver`: the trailing-bench rule and the chain it builds.
- `WriteOrder`: the order in which nested loops write a table.

`np.cos`, `np.sin`, `np.arctan2`, `np.sqrt` and `np.pi` are the fields of a
`Geometry.Trig` record. The identities in `Geometry.Lawful` are assumed of
these primitives, not derived, and proofs use nothing else about them:

- `cos² + sin² = 1`;
- `cos π = -1` and `sin π = 0`;
- `sqrt` is the non-negative root;
- `atan2(0, 0) = 0`;
- `(cos, sin)(atan2(y, x) + π)`, scaled by the distance of `(x, y)` from the origin, is `(-x, -y)`.

Choices the model makes:

- The collision scan covers exactly the pairs `(i, i+1)` for `0 <= i <= N-2` that `range(num_sections - 1)` visits.
- The link between benches `i-1` and `i` follows each script. It is `section_lengths[i-1]` under `2/` and `section_lengths[i]` under `1/`, and `ChainResolver.LengthRule` selects between them.
- One spiral radius function serves every spiral script (`1/`, `2/version*`, `3/`, `5/`). The sign each script hard-codes (`+` in `1/`, `2/` and `5/`, `-` in `3/`) is passed as `PathModel.Winding`.

## Model

| member | source | states |
|---|---|---|
| Geometry.DistProperties | 1/version2.py:48 | the script's distance `sqrt(dx² + dy²)` is non-negative, squares to the squared distance, and is zero exactly when the points coincide |
| Geometry.SqrtBelow | 2/version3-lezai.py:51-53 | for a non-negative clearance, `sqrt(d) < w` holds exactly when `d < w²` |
| Geometry.SqrtOfSquare | 1/version2.py:48 | the root of `len²` is `len` for `len >= 0` |
| PathModel.PolarOnCircle | 1/version2.py:30-31 | `(r cos θ, r sin θ)` lies on the circle of radius `r` |
| PathModel.SpiralRadius | 1/version2.py:26 | the spiral radius is `r0` at step 0; for a non-negative pitch it is never below `r0` when widening and never above it when narrowing |
| PathModel.RadiusStrictlyMonotone | 3/version2.py:29 | for a positive pitch the widening radius strictly increases with time and the narrowing radius strictly decreases |
| PathModel.HeadOnSpiral | 1/version2.py:26-31 | the head at step `t` is at distance `|r(t)|` from the origin |
| PathModel.SameAngleRescales | 4/version1.py:59-61 | two polar points at the same angle are scalar multiples of each other, by the ratio of their radii |
| ChainResolver.SectionLengths | 1/version2.py:13 | the table has 223 entries: 3.41 first, then 2.20 |
| ChainResolver.StepLength | 1/version2.py:33-38 | a trailing bench is exactly its link length from the bench in front, whatever the direction |
| ChainResolver.TrailAlongRay | 1/version2.py:33-38 | a trailing bench lies on the line through the origin and the bench in front, `len` closer to the origin |
| ChainResolver.TrailFromOrigin | 1/version2.py:36 | a bench behind one at the origin goes to `(-len, 0)`, since `atan2(0, 0) = 0` |
| ChainResolver.AngleStepFromZero | 4/version1.py:39-41 | with a stored angle of 0 the trailing bench is `len` to the left of the one in front |
| ChainResolver.LinkLengthInvariant | 2/version2.py:35-39 | consecutive benches of a resolved chain are their link length apart, under either length rule |
| ChainResolver.ChainOnHeadRay | 1/version2.py:33-38 | until a bench lands on the origin, every bench is on the line through the origin and the head: the chain never bends |
| ChainResolver.TrailKeepsLine | 1/version2.py:36-38 | one trailing step keeps a bench on a line through the origin |
| ChainResolver.ScriptLinkLengths | 2/version2.py:36 | under `section_lengths[i-1]` the head link is 3.41 and the others 2.20; under `section_lengths[i]` every link is 2.20 |
| WriteOrder.CellsBeforeEnumerates | 1/version2.py:52-55 | the nested loops write exactly the cells of the table, in strictly increasing row-major order |
| WriteOrder.WrittenOnce | 1/version2.py:52-55 | no cell is written twice |
| SpiralRun.ChainSimulation.constructor | 1/version2.py:16-17 | fresh zero tables of `t_total + 1` rows, no collision yet, nothing written |
| SpiralRun.ChainSimulation.RadiusDefinedForPositiveStart | 1/version2.py:26-27 | with a positive start radius and a non-negative pitch, `theta = t / r` is defined at every step |
| SpiralRun.ChainSimulation.HeadOnCircle | 1/version2.py:26-31 | the head is on the spiral, at distance `|r(t)|` from the origin |
| SpiralRun.ChainSimulation.LinkLengthHolds | 1/version2.py:33-38 | benches `i-1` and `i` of a step are their link length apart |
| SpiralRun.ChainSimulation.SpeedNonNegative | 1/version2.py:42-49 | speeds are 0 at step 0 and never negative |
| SpiralRun.ChainSimulation.ChainStraight | 1/version2.py:33-38 | until a bench lands on the origin, every bench of a step lies on the line through the origin and the head |
| SpiralRun.ChainSimulation.CalculatePosition | 1/version2.py:24-39 | section 0 is the spiral head; a trailing section read from a correct front entry is the expected bench |
| SpiralRun.ChainSimulation.CalculateVelocity | 1/version2.py:42-49 | 0 at step 0; with both rows correct, the one-step displacement of the expected bench |
| SpiralRun.ChainSimulation.CheckCollision | 2/version3-lezai.py:49-55 | reports a hit exactly when some adjacent pair of row `t` is closer than the width, with `t` as its time, and the hit pair is the first one |
| SpiralRun.ChainSimulation.WriteCell | 1/version2.py:53-55 | writes the expected position and speed into cell `(t, i)` and changes no other cell |
| SpiralRun.ChainSimulation.FillRow | 1/version2.py:53-55 | after the inner loop row `t` holds the expected benches and speeds; the rows after `t` are untouched (so blank rows stay zero); the write log grows by row `t` |
| SpiralRun.ChainSimulation.Fill | 1/version2.py:52-55 | every row holds the expected benches and speeds, written in row-major order |
| SpiralRun.ChainSimulation.ScanMeansRowClashes | 2/version3-lezai.py:49-55 | on a filled row, the scan's condition is the clash of the expected chain |
| SpiralRun.ChainSimulation.ScanRow | 2/version3-lezai.py:49-55 | on a filled row, the scan hits exactly when the expected row has a clash |
| SpiralRun.ChainSimulation.StepAndScan | 2/version3-lezai.py:60-69 | fill then scan: a hit means this is the first colliding step; otherwise the clear prefix grows by one row |
| SpiralRun.ChainSimulation.RowFilled | 2/version3-lezai.py:60-69 | after a clear prefix and a filled row, the outcome depends only on whether the expected row clashes |
| SpiralRun.ChainSimulation.Run | 2/version3-lezai.py:58-69 | either no step clashes and every row is filled, or `collision_time` is the first clashing step, rows up to it are filled and the rest are zero |
| SpiralRun.ChainSimulation.RunRecheck | 2/version2.py:63-73 | the same outcome when `collision_time` is taken from every scan and the scan is repeated |
| SpiralRun.ChainSimulation.ScriptRadiusDefined | 2/version2.py:9-11 | with `p = 0.55` and `r_0 = 16·p`, `theta = t / r` is defined at every step |
| SpiralRun.ChainSimulation.NeverClashes | 2/version2.py:12-16 | with the scripts' `section_lengths` and `width = 0.30`, no adjacent pair of any step is closer than the width |
| SpiralRun.ChainSimulation.ScriptRunsToEnd | 2/version2.py:63-73 | with the scripts' lengths and width, either collision-checking loop ends with `collision_time = None` and every row filled |
| PitchSearch.HeadAtRadius | 3/version2.py:28-33 | the head is on the circle of the returned radius `r0 - p·t/(2π)` |
| PitchSearch.RadiusShrinks | 3/version2.py:29 | for a positive pitch the radius strictly decreases with time |
| PitchSearch.BodySectionsCoincide | 3/version2.py:36-44 | as written, every body section sits at the same point, 2.20 from the head, so two sections are at distance 0 |
| PitchSearch.ChainedLinkLength | 3/version2.py:36-44 | placed behind the previous section, consecutive sections are `section_lengths[i]` apart |
| PitchSearch.CheckTurnSpaceBoundary | 3/version2.py:47-51 | `(True, t)` exactly when the radius is at most 4.5, `(False, None)` otherwise |
| PitchSearch.ReachedStaysReached | 3/version2.py:29-51 | for a non-negative pitch, once the head is inside the turn space it stays inside |
| PitchSearch.ReachesWithinHorizon | 3/version2.py:56-60 | for a non-negative pitch some step up to 500 reaches the boundary exactly when step 500 does |
| PitchSearch.FirstHitUnique | 3/version2.py:57-63 | the pair (pitch, step) at which the nested search stops is unique |
| PitchSearch.HitOrNone | 3/version2.py:57-64 | a first hit and "no candidate reaches" exclude each other |
| PitchSearch.PitchSearcher.constructor | 3/version2.py:21 | `p_min` starts as `None` |
| PitchSearch.PitchSearcher.FindMinimumP | 3/version2.py:54-64 | returns the first grid pitch that reaches the boundary, paired with its first reaching step, or `(None, None)` when none does; `p_min` is set only on success |
| SpiralOut.HeadOnWideningSpiral | 5/version1.py:24-29 | the radius never drops below `r_initial`, and the head is on the circle of that radius |
| SpiralOut.CalculateSectionPosition | 5/version1.py:32-39 | from a correct front bench and its stored `atan2` angle, the result is the expected bench |
| SpiralOut.ExpectedLinkLength | 5/version1.py:32-39 | consecutive benches are `section_lengths[i]` = 2.20 apart |
| SpiralOut.FillRow | 5/version1.py:50-55 | row `t` holds the expected chain, each entry beside its `atan2` angle; other rows unchanged |
| SpiralOut.Peak | 5/version1.py:58 | `np.max` bounds every entry and is one of them |
| SpiralOut.RowPeakPositive | 5/version1.py:24-29 | after step 0 the peak speed is positive, because the head's radius grows |
| SpiralOut.RecordPeak | 5/version1.py:56-58 | `max_velocities[t]` becomes the peak one-step displacement of the expected chain |
| SpiralOut.SimulationPass | 5/version1.py:50-58 | one pass fills row `t` and, for `t > 0`, its peak; earlier rows and peaks are kept, and the rows after `t` of `path` and `angles` are untouched |
| SpiralOut.SimulateSpiralOut | 5/version1.py:42-60 | as written: `None` for 0 steps, otherwise row 0 filled, later rows zero, `max_velocities` all zero |
| SpiralOut.SimulateAllSteps | 5/version1.py:42-60 | with the return after the loop: every row holds the expected chain and every entry of `max_velocities` is its step's peak |
| SpiralOut.FindMaximumHeadVelocity | 5/version1.py:63-69 | the first candidate whose peaks are within 2.0, else `None`; since the speed does not affect the simulation, that is the first candidate or none, and as written always the first |
| SpiralOut.EarlyReturnHidesMotion | 5/version1.py:60 | the true peak at step 1 is not 0; that the as-written run records 0 for it comes from the ensures of `SpiralOut.SimulateSpiralOut` |
| Turnaround.HeadOnArcs | 4/version1.py:21-32 | the head is on the circle of radius `R1` in the first half and `R2` in the second |
| Turnaround.HandOff | 4/version1.py:59-61 | the first point of the second arc is the last point of the first arc rescaled by `R2/R1`, steered by the last first-arc angle |
| Turnaround.TurnLinkLength | 4/version1.py:35-42 | consecutive benches are `section_lengths[i]` apart |
| Turnaround.TailHorizontal | 4/version1.py:48-56 | behind bench 1 the tail is a horizontal line: bench `i` is `(i-1)·2.20` left of bench 1 |
| Turnaround.SecondArcSectionOne | 4/version1.py:59-65 | after the hand-off step, bench 1 is 2.20 left of the head |
| Turnaround.ScriptHandOff | 4/version1.py:11-18 | the script's call (200 steps, `R1 = 9`, `R2 = 4.5`) meets the run's preconditions, hands off at step 100, and there the head moves halfway in towards the origin |
| Turnaround.FillSections | 4/version1.py:55-56 | the inner loop writes the expected chain into row `t`, leaves every other row of `path` unchanged, and writes the cells `(t, 1) … (t, N-1)` in order |
| Turnaround.WriteSection | 4/version1.py:56 | one inner-loop pass writes the expected bench `i`, logs cell `(t, i)`, and changes nothing else |
| Turnaround.FirstArcRow | 4/version1.py:51-56 | a first-arc pass fills row `t`, stores the head angle, leaves every other row of `path` unchanged, and writes the cells of row `t` in order |
| Turnaround.SecondArcRow | 4/version1.py:60-65 | a second-arc pass fills row `t`, steered by row `t-1` of the angles, leaves every other row of `path` unchanged, and writes the cells of row `t` in order |
| Turnaround.SimulateTurnPath | 4/version1.py:45-67 | every row holds the expected chain; `angles` holds the first-arc head angles and zeros elsewhere; the cells of `path` are written in row-major order, each once (`WriteOrder.WrittenOnce`) |
| BenchLoop.BenchRun.constructor | 2/1.py:16-23 | zero tables of `time_limit + 1` rows; `angle = z = 0`; `end_time` unset |
| BenchLoop.BenchRun.BenchOnCircle | 2/1.py:32-37 | every bench of a step is at distance `|z|` from the origin |
| BenchLoop.BenchRun.PlaceBench | 2/1.py:34-37 | bench `i` goes to its polar point and no other entry changes |
| BenchLoop.BenchRun.FillRow | 2/1.py:32-40 | row `t` holds the benches, every speed of the row is `v`, row 0 and later rows stay zero |
| BenchLoop.BenchRun.Advance | 2/1.py:28-40 | after `t` passes, `angle = t·v/(p/2)` and `z = t·v`, and row `t` is filled |
| BenchLoop.BenchRun.ClashSquared | 2/1.py:45-46 | `norm < d` is the squared test for non-negative `d` |
| BenchLoop.BenchRun.ScanRow | 2/1.py:44-48 | hits exactly when some adjacent pair of step `t` is closer than `d` |
| BenchLoop.BenchRun.Run | 2/1.py:26-53 | either the first clashing step `c >= 2` gives `end_time = c - 1` with rows up to `c` filled and the rest zero, or no checked step clashes and `end_time = time_limit` with every row filled |

## Left out

- Plotting (matplotlib, font set-up), the pandas/Excel export and every `print`: these are output only.
- `calculate_angular_velocity` (1/version2.py:20, 1/version3-latest.py:28, 2/version2.py:24, 2/version3-lezai.py:21, 3/version2.py:24, 5/version1.py:20): defined and never called.
- Floating point: coordinates are exact reals, and the numpy primitives satisfy only the identities listed above. Concrete values, such as the step at which a given pitch reaches 4.5 m, are not derived.
- The candidate grids (`np.linspace(0.55, 0.1, 100)` and `np.arange(0.5, 3.0, 0.01)`) are given as sequences, because their floating-point values are not modelled.
- The scripts' top-level calls (the assignment of `find_minimum_p`'s result to `p_min`, the plotting calls) are entry-point wiring.
- SpiralRun.ChainSimulation.RunRecheck: the report line's second scan is placed before the assignment of `collision_time`; it writes nothing, so both orders agree. The debugging `print`s inside `check_collision` of `2/version2.py` are dropped.
- SpiralRun.ChainSimulation: `theta = t / r` divides by the radius, so every simulation requires a non-zero radius up to `t_total`. The scripts' constants meet this (`RadiusDefinedForPositiveStart`).
- PitchSearch.CalculatePosition: requires a non-zero radius for the same reason. `check_turn_space_boundary` looks at the radius alone, so the search needs no such condition.
- SpiralOut.FindMaximumHeadVelocity: requires at least one step. With `time_steps = 0` the script's simulation returns `None`, and unpacking it fails. `calculate_position` ignores its `v_head` argument, so no candidate changes the simulation; both versions inherit this.
- Turnaround.SimulateTurnPath: requires at least one step, because `angles[time_steps // 2 - 1, 0]` indexes an empty table otherwise. The `-1` row read for a single step wraps to the last row, as in Python. `calculate_first_arc` and `calculate_second_arc` have no contract of their own; `HeadOnArcs` and `HandOff` state what they compute.
- Turnaround.CalculateSectionPosition (4/version1.py:35-42): no contract of its own; `Turnaround.WriteSection` states what it computes, and `Turnaround.TurnLinkLength` states the link length.
- PitchSearch.CalculatePosition (3/version2.py:28-33): no contract of its own; `PitchSearch.HeadAtRadius` states where the head is, and `PitchSearch.RadiusShrinks` states how the radius moves.
- PitchSearch.SectionPosition (3/version2.py:36-44): no contract of its own, since it is the code as written; `PitchSearch.BodySectionsCoincide` states what it computes.
- SpiralOut.CalculatePosition (5/version1.py:24-29): no contract of its own; `SpiralOut.HeadOnWideningSpiral` states what it computes.
- ChainResolver.Trail (1/version2.py:33-38): no contract of its own; `ChainResolver.StepLength`, `ChainResolver.TrailAlongRay` and `ChainResolver.TrailFromOrigin` state what it computes.
- BenchLoop.BenchRun.Advance: the running angle is stated as the exact product `t·v/(p/2)`; floating-point rounding of the repeated addition is not modelled. The unused constants `head_length`, `width` and `hole_diameter` are left out.
- Turnaround.Runnable: requires `r1 != 0` (when a first-arc row exists) and `r2 != 0`, because `calculate_first_arc` and `calculate_second_arc` divide by `R1` and `R2` (4/version1.py:22, 29); the script's `ZeroDivisionError` for a zero radius is not modelled. The script's constants meet this (`ScriptHandOff`).
- BenchLoop.BenchRun.Valid: requires `pitch != 0`, because 2/1.py:28 and 34 divide by the pitch; the script's `ZeroDivisionError` for a zero pitch is not modelled.
- BenchLoop.BenchRun.FillRow: the vector assignment `speeds[t, :] = [v] * N` is a parallel `forall` statement.

## Findings

| source | as written | input that shows it | evidently intended | confidence | as-written member | corrected member |
|---|---|---|---|---|---|---|
| 5/version1.py:60 | `return` is inside the time loop, so only step 0 is simulated and `max_velocities` stays all zero | any `time_steps >= 2`: the true peak of step 1 is positive (`SpiralOut.EarlyReturnHidesMotion`), yet 0 is recorded and the scan accepts its first candidate, 0.5 | return after the loop, recording every step's peak | high; not executed | SpiralOut.SimulateSpiralOut | SpiralOut.SimulateAllSteps |
| 3/version2.py:39 | every body section is placed behind the head rather than behind the previous section | sections 1 and 2 at any step coincide and are 0 apart (`PitchSearch.BodySectionsCoincide`) | section `i` placed `section_lengths[i]` behind section `i - 1` | high; not executed | PitchSearch.BodySectionsCoincide | PitchSearch.ChainedLinkLength |
