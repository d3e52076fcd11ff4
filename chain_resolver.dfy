/**
 * The chain resolver: every trailing section is the section in front of it
 * moved by a fixed length in a given direction; in the spiral scripts that
 * direction is `atan2(prev_y, prev_x) + π`, straight at the origin.
 */
module ChainResolver {
  import opened Geometry

  /** The number of benches and their lengths (`section_lengths`). */
  const NumSections: nat := 223
  const LengthHead: real := 3.41
  const LengthBody: real := 2.20

  /** `[length_head] + [length_body] * (num_sections - 1)`. */
  function SectionLengths(n: nat): (lengths: seq<real>)
    requires 1 <= n
    ensures |lengths| == n && lengths[0] == LengthHead
    ensures forall i :: 1 <= i < n ==> lengths[i] == LengthBody
  {
    [LengthHead] + seq(n - 1, _ => LengthBody)
  }

  /** The scripts' `section_lengths`, for their 223 benches. */
  const Lengths: seq<real> := SectionLengths(NumSections)

  /** `from` moved by `len` in direction `dir` (the angle, in radians). */
  function Step(from: Point, len: real, dir: real, m: Trig): Point {
    Point(from.x + len * Cos(m, dir), from.y + len * Sin(m, dir))
  }

  lemma StepArithmetic(from: Point, len: real, c: real, s: real)
    ensures c * c + s * s == 1.0 ==>
      DistSq(from, Point(from.x + len * c, from.y + len * s)) == len * len
  {
    assert DistSq(from, Point(from.x + len * c, from.y + len * s))
        == (len * c) * (len * c) + (len * s) * (len * s);
    assert (len * c) * (len * c) + (len * s) * (len * s) == len * len * (c * c + s * s);
  }

  /**
   * The trailing-section rule of the spiral scripts: the section in front,
   * `prev`, moved by `len` in the direction `atan2(prev_y, prev_x) + π`.
   */
  function Trail(prev: Point, len: real, m: Trig): Point {
    Step(prev, len, Atan2(m, prev.y, prev.x) + m.pi, m)
  }

  /** A trailing section is exactly one link length from the section in front of it. */
  lemma StepLength(from: Point, len: real, dir: real, m: Trig)
    requires Lawful(m) && 0.0 <= len
    ensures Dist(from, Step(from, len, dir, m), m) == len
  {
    assert PythagorasAt(m, dir);
    StepDistSq(from, len, dir, m);
    SqrtOfSquare(m, len);
  }

  lemma StepDistSq(from: Point, len: real, dir: real, m: Trig)
    requires PythagorasAt(m, dir)
    ensures DistSq(from, Step(from, len, dir, m)) == len * len
  {
    StepArithmetic(from, len, Cos(m, dir), Sin(m, dir));
  }

  /**
   * Away from the origin, the rule moves a section along the line through
   * the origin and the section in front: scaled by its distance `s` from the
   * origin, the new
   * point is `prev * (s - len)`, i.e. `len` closer to the origin (or past it).
   */
  lemma TrailAlongRay(prev: Point, len: real, m: Trig)
    requires Lawful(m) && prev != Origin
    ensures 0.0 < Dist(prev, Origin, m)
    ensures Trail(prev, len, m).x * Dist(prev, Origin, m) == prev.x * (Dist(prev, Origin, m) - len)
    ensures Trail(prev, len, m).y * Dist(prev, Origin, m) == prev.y * (Dist(prev, Origin, m) - len)
  {
    DistProperties(prev, Origin, m);
    TowardOrigin(m, prev);
    TrailScaled(prev, len, m);
  }

  /** `TrailAlongRay` once the half-turn law is known at `prev`. */
  lemma TrailScaled(prev: Point, len: real, m: Trig)
    requires Cos(m, Atan2(m, prev.y, prev.x) + m.pi) * Dist(prev, Origin, m) == -prev.x
    requires Sin(m, Atan2(m, prev.y, prev.x) + m.pi) * Dist(prev, Origin, m) == -prev.y
    ensures Trail(prev, len, m).x * Dist(prev, Origin, m) == prev.x * (Dist(prev, Origin, m) - len)
    ensures Trail(prev, len, m).y * Dist(prev, Origin, m) == prev.y * (Dist(prev, Origin, m) - len)
  {
    var dir := Atan2(m, prev.y, prev.x) + m.pi;
    RayArithmetic(prev, len, Cos(m, dir), Sin(m, dir), Dist(prev, Origin, m));
  }

  lemma RayArithmetic(p: Point, len: real, c: real, sn: real, s: real)
    requires c * s == -p.x && sn * s == -p.y
    ensures (p.x + len * c) * s == p.x * (s - len)
    ensures (p.y + len * sn) * s == p.y * (s - len)
  {
    assert (p.x + len * c) * s == p.x * s + len * (c * s);
    assert (p.y + len * sn) * s == p.y * s + len * (sn * s);
  }

  /** At the origin `atan2(0, 0) = 0`, so the rule moves straight along the negative x axis. */
  lemma TrailFromOrigin(len: real, m: Trig)
    requires Lawful(m)
    ensures Trail(Origin, len, m) == Point(-len, 0.0)
  {
  }

  /**
   * The trailing-section rule of the turnaround and spiral-out scripts: the
   * section in front moved by `len` in the direction of the angle stored for
   * it, plus π.
   */
  function AngleStep(prev: Point, prevAngle: real, len: real, m: Trig): Point {
    Step(prev, len, prevAngle + m.pi, m)
  }

  /** With a stored angle of 0 (an entry never written), the step goes straight along -x. */
  lemma AngleStepFromZero(prev: Point, len: real, m: Trig)
    requires Lawful(m)
    ensures AngleStep(prev, 0.0, len, m) == Point(prev.x - len, prev.y)
  {
    assert 0.0 + m.pi == m.pi;
  }

  /** Which entry of `section_lengths` separates section `i - 1` from section `i`. */
  datatype LengthRule =
    | OwnIndex       // section_lengths[i]
    | PreviousIndex  // section_lengths[i - 1]

  function LinkLength(lengths: seq<real>, rule: LengthRule, i: nat): real
    requires 1 <= i < |lengths|
  {
    match rule
    case OwnIndex => lengths[i]
    case PreviousIndex => lengths[i - 1]
  }

  /**
   * The position of section `i` at one time step, built front to back from
   * the head position: the chain configuration the scripts write into row `t`.
   */
  function ChainPoint(head: Point, lengths: seq<real>, rule: LengthRule, i: nat, m: Trig): Point
    requires i < |lengths|
  {
    if i == 0 then head
    else Trail(ChainPoint(head, lengths, rule, i - 1, m), LinkLength(lengths, rule, i), m)
  }

  /** The link-length invariant: consecutive sections are their link length apart. */
  lemma LinkLengthInvariant(head: Point, lengths: seq<real>, rule: LengthRule, i: nat, m: Trig)
    requires Lawful(m) && 1 <= i < |lengths|
    requires forall k :: 0 <= k < |lengths| ==> 0.0 <= lengths[k]
    ensures Dist(ChainPoint(head, lengths, rule, i - 1, m), ChainPoint(head, lengths, rule, i, m), m)
         == LinkLength(lengths, rule, i)
  {
    var prev := ChainPoint(head, lengths, rule, i - 1, m);
    StepLength(prev, LinkLength(lengths, rule, i), Atan2(m, prev.y, prev.x) + m.pi, m);
  }

  lemma CrossArithmetic(h: Point, p: Point, q: Point, s: real, k: real)
    requires q.x * s == p.x * k && q.y * s == p.y * k
    ensures Cross(h, q) * s == Cross(h, p) * k
  {
    assert Cross(h, q) * s == h.x * (q.y * s) - h.y * (q.x * s);
  }

  /**
   * As long as no section lands exactly on the origin, every section lies on
   * the line through the origin and the head: the chain never bends.
   */
  lemma {:induction false} ChainOnHeadRay(head: Point, lengths: seq<real>, rule: LengthRule, i: nat, m: Trig)
    requires Lawful(m) && i < |lengths|
    requires forall k :: 0 <= k < i ==> ChainPoint(head, lengths, rule, k, m) != Origin
    ensures Cross(head, ChainPoint(head, lengths, rule, i, m)) == 0.0
  {
    if i > 0 {
      ChainOnHeadRay(head, lengths, rule, i - 1, m);
      TrailKeepsLine(head, ChainPoint(head, lengths, rule, i - 1, m), LinkLength(lengths, rule, i), m);
    }
  }

  /** One trailing step keeps a point on a line through the origin. */
  lemma TrailKeepsLine(head: Point, prev: Point, len: real, m: Trig)
    requires Lawful(m) && prev != Origin && Cross(head, prev) == 0.0
    ensures Cross(head, Trail(prev, len, m)) == 0.0
  {
    TrailAlongRay(prev, len, m);
    ScaledKeepsLine(head, prev, Trail(prev, len, m), Dist(prev, Origin, m), len);
  }

  /** A point `q` with `q * s == p * (s - len)`, `s > 0`, is on every origin line through `p`. */
  lemma ScaledKeepsLine(head: Point, p: Point, q: Point, s: real, len: real)
    requires 0.0 < s && Cross(head, p) == 0.0
    requires q.x * s == p.x * (s - len) && q.y * s == p.y * (s - len)
    ensures Cross(head, q) == 0.0
  {
    CrossArithmetic(head, p, q, s, s - len);
    ProductZero(Cross(head, q), s);
  }

  /**
   * With the scripts' lengths: under `PreviousIndex` the head is 3.41 from
   * section 1 and later links are 2.20; under `OwnIndex` every link,
   * including the head's, is 2.20.
   */
  lemma ScriptLinkLengths(head: Point, i: nat, m: Trig)
    requires Lawful(m) && 1 <= i < NumSections
    ensures Dist(ChainPoint(head, Lengths, PreviousIndex, i - 1, m),
                 ChainPoint(head, Lengths, PreviousIndex, i, m), m)
            == (if i == 1 then 3.41 else 2.20)
    ensures Dist(ChainPoint(head, Lengths, OwnIndex, i - 1, m),
                 ChainPoint(head, Lengths, OwnIndex, i, m), m)
            == 2.20
  {
    LinkLengthInvariant(head, Lengths, PreviousIndex, i, m);
    LinkLengthInvariant(head, Lengths, OwnIndex, i, m);
  }
}
