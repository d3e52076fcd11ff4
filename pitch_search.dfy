/**
 * 3/version2.py: the head winds inwards on the spiral `r = r_0 - p·t/(2π)`,
 * and a grid search over the pitch `p` looks for the first pitch whose head
 * reaches the turn-space circle of radius 4.5 within 500 steps.
 */
module PitchSearch {
  import opened Wrappers
  import opened Geometry
  import opened PathModel
  import opened ChainResolver

  /** `r_0 = 16 * 0.55`, `r_turn_space = 4.5` and the search horizon `t_total = 500`. */
  const InitialRadius: real := 16.0 * 0.55
  const TurnSpaceRadius: real := 4.5
  const Horizon: nat := 500

  /** The head radius `r_0 - p·t/(2π)` at step `t` for pitch `p`. */
  function HeadRadius(t: nat, p: real, m: Trig): real {
    SpiralRadius(InitialRadius, p, t, Narrowing, m)
  }

  /** A point together with the radius the script returns beside it, `(x, y, r)`. */
  datatype Placed = Placed(pos: Point, r: real)

  /** `calculate_position(t, p)`: the head at polar angle `t / r`, which needs `r != 0`. */
  function CalculatePosition(t: nat, p: real, m: Trig): Placed
    requires HeadRadius(t, p, m) != 0.0
  {
    Placed(SpiralHead(HeadRadius(t, p, m), t, m), HeadRadius(t, p, m))
  }

  /** The head is on the circle of the radius returned beside it. */
  lemma HeadAtRadius(t: nat, p: real, m: Trig)
    requires Lawful(m) && HeadRadius(t, p, m) != 0.0
    ensures var h := CalculatePosition(t, p, m);
      DistSq(h.pos, Origin) == h.r * h.r && h.r == InitialRadius - p * (t as real) / (2.0 * m.pi)
  {
    HeadOnSpiral(HeadRadius(t, p, m), t, m);
  }

  /** For a positive pitch the radius strictly shrinks as time goes on. */
  lemma RadiusShrinks(p: real, t1: nat, t2: nat, m: Trig)
    requires 0.0 < p && t1 < t2
    ensures HeadRadius(t2, p, m) < HeadRadius(t1, p, m)
  {
    RadiusStrictlyMonotone(InitialRadius, p, t1, t2, m);
  }

  /**
   * `calculate_section_position(t, i, p)` as written: section 0 is the head;
   * every other section is placed `section_lengths[i]` behind the head
   * itself (its "previous" position is recomputed from the head), together
   * with its distance from the origin.
   */
  function SectionPosition(t: nat, i: nat, p: real, m: Trig): Placed
    requires HeadRadius(t, p, m) != 0.0 && i < NumSections
  {
    var head := CalculatePosition(t, p, m);
    if i == 0 then head
    else
      var q := Trail(head.pos, Lengths[i], m);
      Placed(q, Dist(q, Origin, m))
  }

  /**
   * As written, every body section sits at the same point, its own length
   * away from the head: sections 1 and 2 coincide although 2.20 should
   * separate them.
   */
  lemma BodySectionsCoincide(t: nat, i: nat, j: nat, p: real, m: Trig)
    requires Lawful(m) && HeadRadius(t, p, m) != 0.0
    requires 1 <= i < NumSections && 1 <= j < NumSections
    ensures SectionPosition(t, i, p, m) == SectionPosition(t, j, p, m)
    ensures Dist(CalculatePosition(t, p, m).pos, SectionPosition(t, i, p, m).pos, m) == LengthBody
    ensures Dist(SectionPosition(t, i, p, m).pos, SectionPosition(t, j, p, m).pos, m) == 0.0
  {
    assert Lengths[i] == LengthBody && Lengths[j] == LengthBody;
    var head := CalculatePosition(t, p, m).pos;
    StepLength(head, LengthBody, Atan2(m, head.y, head.x) + m.pi, m);
    DistProperties(SectionPosition(t, i, p, m).pos, SectionPosition(t, j, p, m).pos, m);
  }

  /**
   * The evidently intended placement: section `i` behind section `i - 1`,
   * i.e. the chain built from the head.
   */
  function ChainedSectionPosition(t: nat, i: nat, p: real, m: Trig): Placed
    requires HeadRadius(t, p, m) != 0.0 && i < NumSections
  {
    var q := ChainPoint(CalculatePosition(t, p, m).pos, Lengths, OwnIndex, i, m);
    if i == 0 then CalculatePosition(t, p, m) else Placed(q, Dist(q, Origin, m))
  }

  /** In the intended placement consecutive sections are `section_lengths[i]` apart. */
  lemma ChainedLinkLength(t: nat, i: nat, p: real, m: Trig)
    requires Lawful(m) && HeadRadius(t, p, m) != 0.0 && 1 <= i < NumSections
    ensures ChainedSectionPosition(t, 0, p, m) == CalculatePosition(t, p, m)
    ensures Dist(ChainedSectionPosition(t, i - 1, p, m).pos, ChainedSectionPosition(t, i, p, m).pos, m)
         == Lengths[i]
  {
    forall k | 0 <= k < |Lengths|
      ensures 0.0 <= Lengths[k]
    {
    }
    LinkLengthInvariant(CalculatePosition(t, p, m).pos, Lengths, OwnIndex, i, m);
  }

  /** The head has reached the turn space: `r <= r_turn_space`. */
  predicate Reaches(t: nat, p: real, m: Trig) {
    HeadRadius(t, p, m) <= TurnSpaceRadius
  }

  /**
   * `check_turn_space_boundary(t, p)`: `(True, t)` once the head radius is at
   * most 4.5, `(False, None)` before. Only the radius is used, so no `r != 0`
   * is needed.
   */
  function CheckTurnSpaceBoundary(t: nat, p: real, m: Trig): (result: (bool, Option<nat>))
    ensures result.0 <==> Reaches(t, p, m)
    ensures result.1 == if result.0 then Some(t) else None
  {
    if HeadRadius(t, p, m) <= TurnSpaceRadius then (true, Some(t)) else (false, None)
  }

  /** For a non-negative pitch, once the head is inside the turn space it stays inside. */
  lemma ReachedStaysReached(p: real, t1: nat, t2: nat, m: Trig)
    requires 0.0 <= p && t1 <= t2 && Reaches(t1, p, m)
    ensures Reaches(t2, p, m)
  {
    if 0.0 < p && t1 < t2 {
      RadiusShrinks(p, t1, t2, m);
    }
  }

  /** So for a non-negative pitch some step up to the horizon reaches iff the last one does. */
  lemma ReachesWithinHorizon(p: real, m: Trig)
    requires 0.0 <= p
    ensures (exists t: nat :: t <= Horizon && Reaches(t, p, m)) <==> Reaches(Horizon, p, m)
  {
    if exists t: nat :: t <= Horizon && Reaches(t, p, m) {
      var t: nat :| t <= Horizon && Reaches(t, p, m);
      ReachedStaysReached(p, t, Horizon, m);
    }
  }

  /**
   * `(k, t)` is what the nested search loops stop at: `grid[k]` reaches the
   * boundary at step `t`, no earlier candidate reaches it at any step up to
   * the horizon, and `grid[k]` reaches it at no earlier step.
   */
  ghost predicate IsFirstHit(grid: seq<real>, k: nat, t: nat, m: Trig) {
    && k < |grid| && t <= Horizon && Reaches(t, grid[k], m)
    && (forall k': nat, t': nat :: k' < k && t' <= Horizon ==> !Reaches(t', grid[k'], m))
    && (forall t': nat :: t' < t ==> !Reaches(t', grid[k], m))
  }

  /** No candidate reaches the boundary within the horizon. */
  ghost predicate NoneReaches(grid: seq<real>, m: Trig) {
    forall k: nat, t: nat :: k < |grid| && t <= Horizon ==> !Reaches(t, grid[k], m)
  }

  /** The first hit is unique, so the search result is determined by the grid. */
  lemma FirstHitUnique(grid: seq<real>, k1: nat, t1: nat, k2: nat, t2: nat, m: Trig)
    requires IsFirstHit(grid, k1, t1, m) && IsFirstHit(grid, k2, t2, m)
    ensures k1 == k2 && t1 == t2
  {
  }

  /** A first hit and "no candidate reaches" exclude each other. */
  lemma HitOrNone(grid: seq<real>, k: nat, t: nat, m: Trig)
    requires IsFirstHit(grid, k, t, m)
    ensures !NoneReaches(grid, m)
  {
    assert Reaches(t, grid[k], m);
  }

  /** The script's global `p_min` and the search that sets it. */
  class PitchSearcher {
    var pMin: Option<real>

    /** `p_min = None` at start-up. */
    constructor ()
      ensures pMin == None
    {
      pMin := None;
    }

    /**
     * `find_minimum_p`: for each pitch of `grid` in order (the script's grid
     * is `np.linspace(0.55, 0.1, 100)`), for `t = 0 .. 500`, stop at the
     * first step that reaches the boundary and return the pitch and the
     * step; `(None, None)` if none does. `p_min` is assigned only on success.
     */
    method FindMinimumP(grid: seq<real>, m: Trig) returns (p: Option<real>, boundaryTime: Option<nat>)
      modifies this
      ensures p.Some? <==> boundaryTime.Some?
      ensures p.Some? ==> exists k: nat :: IsFirstHit(grid, k, boundaryTime.value, m) && p.value == grid[k]
      ensures p.None? ==> NoneReaches(grid, m)
      ensures pMin == if p.Some? then p else old(pMin)
    {
      var k := 0;
      while k < |grid|
        invariant 0 <= k <= |grid|
        invariant pMin == old(pMin)
        invariant forall k': nat, t': nat :: k' < k && t' <= Horizon ==> !Reaches(t', grid[k'], m)
      {
        var t := 0;
        while t <= Horizon
          invariant 0 <= t <= Horizon + 1
          invariant pMin == old(pMin)
          invariant forall t': nat :: t' < t ==> !Reaches(t', grid[k], m)
        {
          var (reached, when) := CheckTurnSpaceBoundary(t, grid[k], m);
          if reached {
            pMin := Some(grid[k]);
            assert IsFirstHit(grid, k, t, m);
            return Some(grid[k]), when;
          }
          t := t + 1;
        }
        k := k + 1;
      }
      return None, None;
    }
  }
}
