// The `v2` helper object of curve/curve.js: pure two-dimensional vector
// arithmetic over real numbers.
module Vec2 {
  import Scalar

  /** A 2D point, the JS pair [x, y]. */
  datatype Point2 = Point2(x: real, y: real)

  /** An argument of v2.mult: either a point or a plain number. */
  datatype Operand = Vec(point: Point2) | Num(value: real)

  /** Reference sum of a list of points (the origin for the empty list). */
  function Sum(args: seq<Point2>): (r: Point2)
  {
    if args == [] then Point2(0.0, 0.0)
    else
      var rest := Sum(args[1..]);
      Point2(args[0].x + rest.x, args[0].y + rest.y)
  }

  /** v2.add(a, ...args): copies `a`, then adds each argument in order. */
  function Add(a: Point2, args: seq<Point2>): (r: Point2)
    ensures r == Point2(a.x + Sum(args).x, a.y + Sum(args).y)
    decreases |args|
  {
    if args == [] then a
    else Add(Point2(a.x + args[0].x, a.y + args[0].y), args[1..])
  }

  /** v2.sub(a, ...args): copies `a`, then subtracts each argument in order. */
  function Sub(a: Point2, args: seq<Point2>): (r: Point2)
    ensures r == Point2(a.x - Sum(args).x, a.y - Sum(args).y)
    decreases |args|
  {
    if args == [] then a
    else Sub(Point2(a.x - args[0].x, a.y - args[0].y), args[1..])
  }

  /** Subtracting what was added gives back the starting point. */
  lemma SubUndoesAdd(a: Point2, args: seq<Point2>)
    ensures Sub(Add(a, args), args) == a
  {
  }

  /** v2.mult(a, s): when the second argument is a point the two are swapped,
      so a number may come first or second; two points multiply
      component-wise, a point and a number scale. Two numbers are not a
      meaningful call (the JS result is NaN) and are excluded. */
  function Mult(a: Operand, s: Operand): (r: Point2)
    requires a.Vec? || s.Vec?
    ensures a.Num? ==> r == Point2(s.point.x * a.value, s.point.y * a.value)
    ensures s.Num? ==> r == Point2(a.point.x * s.value, a.point.y * s.value)
    ensures a.Vec? && s.Vec? ==> r == Point2(a.point.x * s.point.x, a.point.y * s.point.y)
  {
    var (a', s') := if s.Vec? then (s, a) else (a, s);
    if s'.Vec? then Point2(a'.point.x * s'.point.x, a'.point.y * s'.point.y)
    else Point2(a'.point.x * s'.value, a'.point.y * s'.value)
  }

  /** Because of the swap, the order of the two arguments does not matter. */
  lemma MultCommutes(a: Operand, s: Operand)
    requires a.Vec? || s.Vec?
    ensures Mult(a, s) == Mult(s, a)
  {
  }

  /** v2.lerp(a, b, t): the point a + (b - a) * t, component by component. */
  function Lerp(a: Point2, b: Point2, t: real): (r: Point2)
    ensures r == Point2(Scalar.Lerp(a.x, b.x, t), Scalar.Lerp(a.y, b.y, t))
    ensures t == 0.0 ==> r == a
    ensures t == 1.0 ==> r == b
  {
    Point2(a.x + (b.x - a.x) * t, a.y + (b.y - a.y) * t)
  }

  /** v2.min: component-wise Math.min. */
  function Min(a: Point2, b: Point2): (r: Point2)
    ensures r.x <= a.x && r.x <= b.x && (r.x == a.x || r.x == b.x)
    ensures r.y <= a.y && r.y <= b.y && (r.y == a.y || r.y == b.y)
  {
    Point2(Scalar.Min(a.x, b.x), Scalar.Min(a.y, b.y))
  }

  /** v2.max: component-wise Math.max. */
  function Max(a: Point2, b: Point2): (r: Point2)
    ensures r.x >= a.x && r.x >= b.x && (r.x == a.x || r.x == b.x)
    ensures r.y >= a.y && r.y >= b.y && (r.y == a.y || r.y == b.y)
  {
    Point2(Scalar.Max(a.x, b.x), Scalar.Max(a.y, b.y))
  }

  /** v2.distanceSq: the squared Euclidean distance. */
  function DistanceSq(a: Point2, b: Point2): (r: real)
    ensures r >= 0.0
    ensures a == b ==> r == 0.0
  {
    var dx := a.x - b.x;
    var dy := a.y - b.y;
    dx * dx + dy * dy
  }

  /** The dot product (p - v) . (w - v), numerator of the projection. */
  function ProjectionNumerator(p: Point2, v: Point2, w: Point2): real
  {
    (p.x - v.x) * (w.x - v.x) + (p.y - v.y) * (w.y - v.y)
  }

  /** The projection parameter of p onto the line through v and w, clamped
      to [0, 1] with Math.max(0, Math.min(1, t)); only computed when the
      squared length l2 of the segment is not zero. */
  function SegmentParameter(p: Point2, v: Point2, w: Point2): (t: real)
    requires DistanceSq(v, w) != 0.0
    ensures 0.0 <= t <= 1.0
    ensures p == v ==> t == 0.0
    ensures p == w ==> t == 1.0
  {
    var l2 := DistanceSq(v, w);
    var t := ProjectionNumerator(p, v, w) / l2;
    assert p == w ==> t == 1.0 by {
      if p == w {
        assert ProjectionNumerator(p, v, w) == l2;
      }
    }
    Scalar.Max(0.0, Scalar.Min(1.0, t))
  }

  /** v2.distanceToSegmentSq(p, v, w): squared distance from p to the closest
      point of the segment [v, w]; a degenerate segment is the point v. */
  function DistanceToSegmentSq(p: Point2, v: Point2, w: Point2): (r: real)
    ensures r >= 0.0
    ensures v == w ==> r == DistanceSq(p, v)
    ensures p == v || p == w ==> r == 0.0
    ensures exists s :: 0.0 <= s <= 1.0 && r == DistanceSq(p, Lerp(v, w, s))
  {
    var l2 := DistanceSq(v, w);
    if l2 == 0.0 then
      assert Lerp(v, w, 0.0) == v;
      DistanceSq(p, v)
    else DistanceSq(p, Lerp(v, w, SegmentParameter(p, v, w)))
  }

  /** The quadratic dd - 2 u de + u^2 l2 in the parameter u. */
  function Quadratic(dd: real, de: real, l2: real, u: real): real
  {
    dd - 2.0 * u * de + u * u * l2
  }

  lemma DistanceSqCoordinates(a: Point2, b: Point2)
    ensures DistanceSq(a, b) == (a.x - b.x) * (a.x - b.x) + (a.y - b.y) * (a.y - b.y)
  {
  }

  /** The square of x = d - e u, as a quadratic in u. */
  lemma ExpandSquare(x: real, d: real, e: real, u: real)
    requires x == d - e * u
    ensures x * x == Quadratic(d * d, d * e, e * e, u)
  {
    assert x * x == d * d - d * (e * u) - (e * u) * d + (e * u) * (e * u);
    assert d * (e * u) == u * (d * e);
    assert (e * u) * (e * u) == u * u * (e * e);
  }

  /** One coordinate of DistanceAlongSegment: q is the coordinate of the
      point at parameter u between b and c. */
  lemma CoordinateAlongSegment(a: real, b: real, c: real, q: real, u: real)
    requires q == Scalar.Lerp(b, c, u)
    ensures (a - q) * (a - q) == Quadratic((a - b) * (a - b), (a - b) * (c - b), (b - c) * (b - c), u)
  {
    ExpandSquare(a - q, a - b, c - b, u);
    assert (c - b) * (c - b) == (b - c) * (b - c);
  }

  /** Two quadratics in u add up coefficient by coefficient. */
  lemma AddQuadratics(a1: real, b1: real, c1: real, a2: real, b2: real, c2: real, u: real)
    ensures Quadratic(a1, b1, c1, u) + Quadratic(a2, b2, c2, u) == Quadratic(a1 + a2, b1 + b2, c1 + c2, u)
  {
    assert 2.0 * u * (b1 + b2) == 2.0 * u * b1 + 2.0 * u * b2;
    assert u * u * (c1 + c2) == u * u * c1 + u * u * c2;
  }

  /** Both coordinates of DistanceAlongSegment. */
  lemma CoordinatesAlongSegment(p: Point2, v: Point2, w: Point2, u: real)
    ensures (p.x - Lerp(v, w, u).x) * (p.x - Lerp(v, w, u).x)
              == Quadratic((p.x - v.x) * (p.x - v.x), (p.x - v.x) * (w.x - v.x), (v.x - w.x) * (v.x - w.x), u)
    ensures (p.y - Lerp(v, w, u).y) * (p.y - Lerp(v, w, u).y)
              == Quadratic((p.y - v.y) * (p.y - v.y), (p.y - v.y) * (w.y - v.y), (v.y - w.y) * (v.y - w.y), u)
  {
    CoordinateAlongSegment(p.x, v.x, w.x, Lerp(v, w, u).x, u);
    CoordinateAlongSegment(p.y, v.y, w.y, Lerp(v, w, u).y, u);
  }

  /** The two coordinate quadratics of DistanceAlongSegment add up to the
      quadratic of the whole distance. */
  lemma AddCoordinateQuadratics(p: Point2, v: Point2, w: Point2, u: real)
    ensures Quadratic((p.x - v.x) * (p.x - v.x), (p.x - v.x) * (w.x - v.x), (v.x - w.x) * (v.x - w.x), u)
              + Quadratic((p.y - v.y) * (p.y - v.y), (p.y - v.y) * (w.y - v.y), (v.y - w.y) * (v.y - w.y), u)
            == Quadratic(DistanceSq(p, v), ProjectionNumerator(p, v, w), DistanceSq(v, w), u)
  {
    AddQuadratics((p.x - v.x) * (p.x - v.x), (p.x - v.x) * (w.x - v.x), (v.x - w.x) * (v.x - w.x),
                  (p.y - v.y) * (p.y - v.y), (p.y - v.y) * (w.y - v.y), (v.y - w.y) * (v.y - w.y), u);
    DistanceSqCoordinates(p, v);
    DistanceSqCoordinates(v, w);
  }

  /** The squared distance from p to the point at parameter u of [v, w],
      written as a quadratic in u. */
  lemma DistanceAlongSegment(p: Point2, v: Point2, w: Point2, u: real)
    ensures DistanceSq(p, Lerp(v, w, u))
              == Quadratic(DistanceSq(p, v), ProjectionNumerator(p, v, w), DistanceSq(v, w), u)
  {
    CoordinatesAlongSegment(p, v, w, u);
    AddCoordinateQuadratics(p, v, w, u);
    DistanceSqCoordinates(p, Lerp(v, w, u));
  }

  /** The quadratic in vertex form, around t0 = de / l2. */
  lemma VertexForm(dd: real, de: real, l2: real, u: real)
    requires l2 > 0.0
    ensures var t0 := de / l2;
            Quadratic(dd, de, l2, u) == (dd - t0 * t0 * l2) + l2 * ((u - t0) * (u - t0))
  {
    var t0 := de / l2;
    assert de == t0 * l2;
    assert (u - t0) * (u - t0) == u * u - 2.0 * u * t0 + t0 * t0;
  }

  lemma SquareMonotone(a: real, b: real)
    requires 0.0 <= a <= b
    ensures a * a <= b * b
  {
    assert a * a <= a * b;
    assert a * b <= b * b;
  }

  /** Over [0, 1] the quadratic with l2 > 0 is least at its vertex de / l2
      clamped to [0, 1]. */
  lemma ClampedVertexIsMinimal(dd: real, de: real, l2: real, s: real)
    requires l2 > 0.0 && 0.0 <= s <= 1.0
    ensures Quadratic(dd, de, l2, Scalar.Max(0.0, Scalar.Min(1.0, de / l2))) <= Quadratic(dd, de, l2, s)
  {
    var t0 := de / l2;
    var t := Scalar.Max(0.0, Scalar.Min(1.0, t0));
    // the clamped vertex is the point of [0, 1] nearest to t0
    if t0 <= 0.0 {
      SquareMonotone(-t0, s - t0);
      assert (t - t0) * (t - t0) <= (s - t0) * (s - t0);
    } else if t0 >= 1.0 {
      SquareMonotone(t0 - 1.0, t0 - s);
      assert (t - t0) * (t - t0) <= (s - t0) * (s - t0);
    } else {
      assert (t - t0) * (t - t0) == 0.0;
      assert (t - t0) * (t - t0) <= (s - t0) * (s - t0);
    }
    assert l2 * ((t - t0) * (t - t0)) <= l2 * ((s - t0) * (s - t0));
    VertexForm(dd, de, l2, s);
    VertexForm(dd, de, l2, t);
  }

  /** For a segment of non-zero length, distanceToSegmentSq is the least
      squared distance from p to any point of [v, w]: the clamped projection
      is the closest point. */
  lemma DistanceToSegmentIsMinimal(p: Point2, v: Point2, w: Point2, s: real)
    requires DistanceSq(v, w) != 0.0
    requires 0.0 <= s <= 1.0
    ensures DistanceToSegmentSq(p, v, w) <= DistanceSq(p, Lerp(v, w, s))
  {
    DistanceAlongSegment(p, v, w, s);
    DistanceAlongSegment(p, v, w, SegmentParameter(p, v, w));
    ClampedVertexIsMinimal(DistanceSq(p, v), ProjectionNumerator(p, v, w), DistanceSq(v, w), s);
  }

  /** Hence the segment distance never exceeds the distance to either end. */
  lemma DistanceToSegmentAtMostEndpoints(p: Point2, v: Point2, w: Point2)
    requires DistanceSq(v, w) != 0.0
    ensures DistanceToSegmentSq(p, v, w) <= DistanceSq(p, v)
    ensures DistanceToSegmentSq(p, v, w) <= DistanceSq(p, w)
  {
    DistanceToSegmentIsMinimal(p, v, w, 0.0);
    DistanceToSegmentIsMinimal(p, v, w, 1.0);
  }
}
