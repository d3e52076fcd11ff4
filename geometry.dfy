/**
 * Points of the plane and the numeric primitives the scripts take from numpy.
 *
 * Coordinates are exact reals. `np.cos`, `np.sin`, `np.arctan2`, `np.sqrt`
 * and `np.pi` are not computed: they are the fields of a `Trig` record, and
 * the proofs rely only on the identities collected in `Lawful`.
 */
module Geometry {

  datatype Point = Point(x: real, y: real)

  const Origin: Point := Point(0.0, 0.0)

  /** The initial entries of the scripts' `np.zeros` tables: points, numbers, and a one-dimensional table. */
  function ZeroPoint(t: nat, i: nat): Point { Origin }
  function ZeroCell(t: nat, i: nat): real { 0.0 }
  function ZeroEntry(t: nat): real { 0.0 }

  /** `v ** 2`: never negative, and positive unless `v` is zero. */
  function Square(v: real): real {
    v * v
  }

  lemma SquareSign(v: real)
    ensures 0.0 <= Square(v)
    ensures v != 0.0 ==> 0.0 < Square(v)
  {
    if Square(v) == 0.0 {
      ProductZero(v, v);
    }
  }

  /** Squared Euclidean distance; the scripts compare its square root. */
  function DistSq(a: Point, b: Point): (d: real)
    ensures d >= 0.0
  {
    SquareSign(a.x - b.x);
    SquareSign(a.y - b.y);
    Square(a.x - b.x) + Square(a.y - b.y)
  }

  lemma ProductZero(u: real, v: real)
    requires u * v == 0.0
    ensures u == 0.0 || v == 0.0
  {
  }

  lemma ProductPositive(u: real, v: real)
    requires 0.0 < u && 0.0 < v
    ensures 0.0 < u * v
  {
  }

  /** Squaring is strictly increasing on the non-negative reals. */
  lemma SquareMonotone(u: real, v: real)
    requires 0.0 <= u < v
    ensures u * u < v * v
  {
    ProductPositive(v - u, v + u);
  }

  /** The scalar multiple `k * a`. */
  function Scale(a: Point, k: real): Point {
    Point(k * a.x, k * a.y)
  }

  /** z-component of the cross product; zero iff `a`, `b` and the origin are collinear. */
  function Cross(a: Point, b: Point): real {
    a.x * b.y - a.y * b.x
  }

  /** The numpy primitives the scripts call. */
  datatype TrigOps = TrigOps(
    cos: real -> real,
    sin: real -> real,
    atan2: (real, real) -> real,   // atan2(y, x), argument order as in numpy
    sqrt: real -> real,
    pi: real)

  /** `np.pi` is positive, so `2 * np.pi` may be divided by. */
  type Trig = m: TrigOps | m.pi > 0.0
    witness TrigOps(a => 1.0, a => 0.0, (y, x) => 0.0, a => a, 1.0)

  /** `np.cos`, `np.sin`, `np.arctan2(y, x)` and `np.sqrt` of the record `m`. */
  function Cos(m: Trig, a: real): real { m.cos(a) }
  function Sin(m: Trig, a: real): real { m.sin(a) }
  function Atan2(m: Trig, y: real, x: real): real { m.atan2(y, x) }
  function Sqrt(m: Trig, v: real): real { m.sqrt(v) }

  /** cos²(a) + sin²(a) = 1. */
  ghost predicate PythagorasAt(m: Trig, a: real) {
    Cos(m, a) * Cos(m, a) + Sin(m, a) * Sin(m, a) == 1.0
  }

  /** The square root of a non-negative `v` is its non-negative root, positive when `v` is. */
  ghost predicate SqrtAt(m: Trig, v: real) {
    0.0 <= v ==>
      && 0.0 <= Sqrt(m, v) && Sqrt(m, v) * Sqrt(m, v) == v
      && (0.0 < v ==> 0.0 < Sqrt(m, v))
  }

  /** Euclidean distance as the scripts compute it: `np.sqrt(dx**2 + dy**2)`. */
  function Dist(a: Point, b: Point, m: Trig): real {
    Sqrt(m, DistSq(a, b))
  }

  /**
   * Away from the origin, the direction `atan2(y, x) + π` points from
   * `p = (x, y)` straight at the origin: its cosine and sine, scaled by the
   * distance of `p` from the origin, are `-x` and `-y`.
   */
  ghost predicate HalfTurnAt(m: Trig, p: Point) {
    p != Origin ==>
      && Cos(m, Atan2(m, p.y, p.x) + m.pi) * Dist(p, Origin, m) == -p.x
      && Sin(m, Atan2(m, p.y, p.x) + m.pi) * Dist(p, Origin, m) == -p.y
  }

  /**
   * The identities of the real functions that the proofs use: the three laws
   * above at every argument, cos π = -1 and sin π = 0, and atan2(0, 0) = 0
   * (numpy's value). Each law is stated through its own predicate, so a
   * proof meets an instance only where it names one.
   */
  ghost predicate Lawful(m: Trig) {
    && (forall a: real :: PythagorasAt(m, a))
    && Cos(m, m.pi) == -1.0 && Sin(m, m.pi) == 0.0
    && (forall v: real :: SqrtAt(m, v))
    && Atan2(m, 0.0, 0.0) == 0.0
    && (forall p: Point :: HalfTurnAt(m, p))
  }

  lemma SqrtNonNegative(m: Trig, v: real)
    requires Lawful(m) && 0.0 <= v
    ensures 0.0 <= Sqrt(m, v) && Sqrt(m, v) * Sqrt(m, v) == v
    ensures 0.0 < v ==> 0.0 < Sqrt(m, v)
    ensures v == 0.0 ==> Sqrt(m, v) == 0.0
  {
    assert SqrtAt(m, v);
    if v == 0.0 {
      ProductZero(Sqrt(m, v), Sqrt(m, v));
    }
  }

  /** The half-turn law of `Lawful`, for one point. */
  lemma TowardOrigin(m: Trig, p: Point)
    requires Lawful(m) && p != Origin
    ensures Cos(m, Atan2(m, p.y, p.x) + m.pi) * Dist(p, Origin, m) == -p.x
    ensures Sin(m, Atan2(m, p.y, p.x) + m.pi) * Dist(p, Origin, m) == -p.y
  {
    assert HalfTurnAt(m, p);
  }

  /** The root of a square is the non-negative base. */
  lemma SqrtOfSquare(m: Trig, len: real)
    requires Lawful(m) && 0.0 <= len
    ensures Sqrt(m, len * len) == len
  {
    var s := Sqrt(m, len * len);
    assert SqrtAt(m, len * len);
    assert (s - len) * (s + len) == 0.0;
    ProductZero(s - len, s + len);
  }

  /** The squared distance is zero exactly when the points coincide. */
  lemma DistSqZero(a: Point, b: Point)
    ensures DistSq(a, b) == 0.0 <==> a == b
  {
    SquareSign(a.x - b.x);
    SquareSign(a.y - b.y);
  }

  /** A distance is never negative, and it is zero exactly when the points coincide. */
  lemma DistProperties(a: Point, b: Point, m: Trig)
    requires Lawful(m)
    ensures Dist(a, b, m) >= 0.0
    ensures Dist(a, b, m) * Dist(a, b, m) == DistSq(a, b)
    ensures Dist(a, b, m) == 0.0 <==> a == b
  {
    SqrtNonNegative(m, DistSq(a, b));
    DistSqZero(a, b);
  }

  /**
   * For a non-negative clearance, the scripts' test `sqrt(d) < w` is the
   * squared test `d < w * w`.
   */
  lemma SqrtBelow(m: Trig, d: real, w: real)
    requires Lawful(m) && 0.0 <= d && 0.0 <= w
    ensures Sqrt(m, d) < w <==> d < w * w
  {
    var s := Sqrt(m, d);
    SqrtNonNegative(m, d);
    if s < w {
      SquareMonotone(s, w);
    } else if w < s {
      SquareMonotone(w, s);
    }
  }
}
