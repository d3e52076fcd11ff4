/**
 * The lead bench's path: the Archimedean spiral of the spiral scripts and
 * the circle arcs of the turnaround script, as closed forms of the time step.
 */
module PathModel {
  import opened Geometry

  /** Whether the spiral's radius grows or shrinks with time. */
  datatype Winding = Widening | Narrowing

  /** The point at polar `angle` on the circle of radius `radius`: `(r cos θ, r sin θ)`. */
  function Polar(radius: real, angle: real, m: Trig): Point {
    Point(radius * Cos(m, angle), radius * Sin(m, angle))
  }

  /** A polar point lies on the circle of its radius. */
  lemma PolarOnCircle(radius: real, angle: real, m: Trig)
    requires Lawful(m)
    ensures DistSq(Polar(radius, angle, m), Origin) == radius * radius
  {
    assert PythagorasAt(m, angle);
    PolarArithmetic(radius, Cos(m, angle), Sin(m, angle));
  }

  lemma PolarArithmetic(radius: real, c: real, s: real)
    ensures c * c + s * s == 1.0 ==>
      DistSq(Point(radius * c, radius * s), Origin) == radius * radius
  {
    assert DistSq(Point(radius * c, radius * s), Origin)
        == radius * radius * (c * c + s * s);
  }

  /**
   * The spiral radius `r0 + p·t/(2π)` (widening) or `r0 - p·t/(2π)`
   * (narrowing) at the integer time step `t`.
   */
  function SpiralRadius(r0: real, pitch: real, t: nat, w: Winding, m: Trig): (r: real)
    ensures t == 0 ==> r == r0
    ensures 0.0 <= pitch ==> (if w == Widening then r0 <= r else r <= r0)
  {
    var advance := pitch * (t as real) / (2.0 * m.pi);
    AdvanceNonNegative(pitch, t, m);
    if w == Widening then r0 + advance else r0 - advance
  }

  lemma AdvanceNonNegative(pitch: real, t: nat, m: Trig)
    ensures t == 0 ==> pitch * (t as real) / (2.0 * m.pi) == 0.0
    ensures 0.0 <= pitch ==> 0.0 <= pitch * (t as real) / (2.0 * m.pi)
  {
    if 0.0 <= pitch {
      assert 0.0 <= pitch * (t as real);
    }
  }

  lemma QuotientMonotone(a: real, b: real, c: real)
    requires a < b && 0.0 < c
    ensures a / c < b / c
  {
  }

  /**
   * For a positive pitch the widening radius strictly increases and the
   * narrowing radius strictly decreases with time.
   */
  lemma RadiusStrictlyMonotone(r0: real, pitch: real, t1: nat, t2: nat, m: Trig)
    requires 0.0 < pitch && t1 < t2
    ensures SpiralRadius(r0, pitch, t1, Widening, m) < SpiralRadius(r0, pitch, t2, Widening, m)
    ensures SpiralRadius(r0, pitch, t1, Narrowing, m) > SpiralRadius(r0, pitch, t2, Narrowing, m)
  {
    assert pitch * (t1 as real) < pitch * (t2 as real);
    QuotientMonotone(pitch * (t1 as real), pitch * (t2 as real), 2.0 * m.pi);
  }

  /**
   * The spiral head at time `t` for the radius `r` of that time: polar angle
   * `t / r`, which needs `r != 0`. It lies at distance `|r|` from the origin.
   */
  function SpiralHead(r: real, t: nat, m: Trig): Point
    requires r != 0.0
  {
    Polar(r, (t as real) / r, m)
  }

  /** The head at time `t` is on the circle of radius `|r|`. */
  lemma HeadOnSpiral(r: real, t: nat, m: Trig)
    requires Lawful(m) && r != 0.0
    ensures DistSq(SpiralHead(r, t, m), Origin) == r * r
  {
    PolarOnCircle(r, (t as real) / r, m);
  }

  /**
   * Two points at the same polar angle are scalar multiples of each other:
   * the turnaround's hand-off from one arc to the next keeps the direction
   * from the origin and changes only the radius.
   */
  lemma SameAngleRescales(r1: real, r2: real, angle: real, m: Trig)
    requires r1 != 0.0
    ensures Polar(r2, angle, m) == Scale(Polar(r1, angle, m), r2 / r1)
  {
    var c, s := Cos(m, angle), Sin(m, angle);
    assert r2 / r1 * (r1 * c) == r2 * c;
    assert r2 / r1 * (r1 * s) == r2 * s;
  }
}
