// Cubic Bezier segments of curve/curve.js: evaluation, the flatness
// estimate, de Casteljau subdivision and the adaptive flattening that
// turns a chain of segments into a polyline.
module Bezier {
  import opened Vec2
  import opened Wrappers
  import opened Polyline

  /** The point a + b + c + d, as v2.add(a, b, c, d) computes it. */
  lemma AddOfFour(a: Point2, b: Point2, c: Point2, d: Point2)
    ensures Add(a, [b, c, d]) == Point2(a.x + b.x + c.x + d.x, a.y + b.y + c.y + d.y)
  {
    assert [b, c, d][1..] == [c, d];
    assert [c, d][1..] == [d];
    assert [d][1..] == [];
    assert Sum([d]) == d;
    assert Sum([c, d]) == Point2(c.x + d.x, c.y + d.y);
    assert Sum([b, c, d]) == Point2(b.x + c.x + d.x, b.y + c.y + d.y);
  }

  /** getPointOnBezierCurve(points, offset, t): the cubic Bernstein blend of
      the four control points points[offset .. offset + 3]. */
  function PointOnBezierCurve(points: seq<Point2>, offset: nat, t: real): (r: Point2)
    requires offset + 3 < |points|
    ensures t == 0.0 ==> r == points[offset]
    ensures t == 1.0 ==> r == points[offset + 3]
  {
    var invT := 1.0 - t;
    var a := Mult(Vec(points[offset]), Num(invT * invT * invT));
    var b := Mult(Vec(points[offset + 1]), Num(3.0 * t * invT * invT));
    var c := Mult(Vec(points[offset + 2]), Num(3.0 * invT * t * t));
    var d := Mult(Vec(points[offset + 3]), Num(t * t * t));
    AddOfFour(a, b, c, d);
    Add(a, [b, c, d])
  }

  /** getPointsOnBezierCurve(points, offset, numPoints): numPoints samples at
      evenly spaced parameters i / (numPoints - 1). */
  method PointsOnBezierCurve(points: seq<Point2>, offset: nat, numPoints: nat) returns (cpoints: seq<Point2>)
    requires offset + 3 < |points|
    requires numPoints != 1
    ensures |cpoints| == numPoints
    ensures forall i :: 0 <= i < numPoints ==>
              cpoints[i] == PointOnBezierCurve(points, offset, i as real / (numPoints - 1) as real)
    ensures numPoints >= 2 ==> cpoints[0] == points[offset] && cpoints[numPoints - 1] == points[offset + 3]
  {
    cpoints := [];
    var i := 0;
    while i < numPoints
      invariant 0 <= i <= numPoints
      invariant |cpoints| == i
      invariant forall k :: 0 <= k < i ==>
                  cpoints[k] == PointOnBezierCurve(points, offset, k as real / (numPoints - 1) as real)
    {
      var t := i as real / (numPoints - 1) as real;
      cpoints := cpoints + [PointOnBezierCurve(points, offset, t)];
      i := i + 1;
    }
    if numPoints >= 2 {
      var last := (numPoints - 1) as real;
      assert last / last == 1.0;
    }
  }

  /** The square of x, never negative. */
  function Square(x: real): (r: real)
    ensures r >= 0.0
  {
    x * x
  }

  /** The four control points of one cubic segment. */
  datatype Cubic = Cubic(p1: Point2, p2: Point2, p3: Point2, p4: Point2)

  /** The segment whose control points are points[offset .. offset + 3]. */
  function SegmentAt(points: seq<Point2>, offset: nat): Cubic
    requires offset + 3 < |points|
  {
    Cubic(points[offset], points[offset + 1], points[offset + 2], points[offset + 3])
  }

  /** The segment as a four-element point array. */
  function ControlPoints(c: Cubic): (points: seq<Point2>)
    ensures |points| == 4 && SegmentAt(points, 0) == c
  {
    [c.p1, c.p2, c.p3, c.p4]
  }

  /** flatness(points, offset): an estimate of how far the segment strays from
      the chord between its end points; the larger of the two squared
      deviations, per coordinate, summed. */
  function Flatness(c: Cubic): (r: real)
    ensures r >= 0.0
  {
    var ux := Square(3.0 * c.p2.x - 2.0 * c.p1.x - c.p4.x);
    var uy := Square(3.0 * c.p2.y - 2.0 * c.p1.y - c.p4.y);
    var vx := Square(3.0 * c.p3.x - 2.0 * c.p4.x - c.p1.x);
    var vy := Square(3.0 * c.p3.y - 2.0 * c.p4.y - c.p1.y);
    (if ux < vx then vx else ux) + (if uy < vy then vy else uy)
  }

  /** Four control points p, p + d, p + 2d, p + 3d: a straight segment
      traversed at constant speed. */
  function EvenlySpaced(p: Point2, d: Point2): Cubic
  {
    Cubic(p, Point2(p.x + d.x, p.y + d.y), Point2(p.x + 2.0 * d.x, p.y + 2.0 * d.y), Point2(p.x + 3.0 * d.x, p.y + 3.0 * d.y))
  }

  /** Such a segment has flatness zero. */
  lemma EvenlySpacedIsFlat(p: Point2, d: Point2)
    ensures Flatness(EvenlySpaced(p, d)) == 0.0
  {
    var c := EvenlySpaced(p, d);
    assert 3.0 * c.p2.x - 2.0 * c.p1.x - c.p4.x == 0.0;
    assert 3.0 * c.p2.y - 2.0 * c.p1.y - c.p4.y == 0.0;
    assert 3.0 * c.p3.x - 2.0 * c.p4.x - c.p1.x == 0.0;
    assert 3.0 * c.p3.y - 2.0 * c.p4.y - c.p1.y == 0.0;
  }

  /** v2.lerp(a, b, 0.5), the midpoint of a and b. */
  function Midpoint(a: Point2, b: Point2): Point2
  {
    Point2(a.x + (b.x - a.x) * 0.5, a.y + (b.y - a.y) * 0.5)
  }

  lemma MidpointIsLerp(a: Point2, b: Point2)
    ensures Midpoint(a, b) == Lerp(a, b, 0.5)
  {
  }

  /** The de Casteljau split at t = 0.5: the segments [p1, q1, r1, red] and
      [red, r2, q3, p4], every new point a v2.lerp(.., 0.5). */
  function Subdivide(c: Cubic): (halves: (Cubic, Cubic))
    ensures halves.0.p1 == c.p1 && halves.1.p4 == c.p4
    ensures halves.0.p4 == halves.1.p1
  {
    var q1 := Midpoint(c.p1, c.p2);
    var q2 := Midpoint(c.p2, c.p3);
    var q3 := Midpoint(c.p3, c.p4);
    var r1 := Midpoint(q1, q2);
    var r2 := Midpoint(q2, q3);
    var red := Midpoint(r1, r2);
    (Cubic(c.p1, q1, r1, red), Cubic(red, r2, q3, c.p4))
  }

  /** The point where the two halves meet (`red`) is the point of the curve
      at t = 0.5. */
  lemma SubdivisionMeetsCurve(points: seq<Point2>, offset: nat)
    requires offset + 3 < |points|
    ensures Subdivide(SegmentAt(points, offset)).0.p4 == PointOnBezierCurve(points, offset, 0.5)
  {
    var p1, p2, p3, p4 := points[offset], points[offset + 1], points[offset + 2], points[offset + 3];
    var red := Subdivide(SegmentAt(points, offset)).0.p4;
    assert red.x == 0.125 * p1.x + 0.375 * p2.x + 0.375 * p3.x + 0.125 * p4.x;
    assert red.y == 0.125 * p1.y + 0.375 * p2.y + 0.375 * p3.y + 0.125 * p4.y;
    AddOfFour(Mult(Vec(p1), Num(0.125)), Mult(Vec(p2), Num(0.375)), Mult(Vec(p3), Num(0.375)), Mult(Vec(p4), Num(0.125)));
  }

  /** The adaptive subdivision scheme with its stopping test `isFlat`: one
      chord between the end points of a segment that passes the test,
      otherwise the chords of its two halves in order. The source recursion
      has no depth bound; `fuel` bounds it here and None stands for running
      out of fuel. */
  function Subdivided(c: Cubic, isFlat: Cubic -> bool, fuel: nat): Option<seq<Chord<Point2>>>
    decreases fuel
  {
    if isFlat(c) then Some([Chord(c.p1, c.p4)])
    else if fuel == 0 then None
    else
      var halves := Subdivide(c);
      var first := Subdivided(halves.0, isFlat, fuel - 1);
      var second := Subdivided(halves.1, isFlat, fuel - 1);
      if first.Some? && second.Some? then Some(first.value + second.value) else None
  }

  /** The stopping test of getPointsOnBezierCurveWithSplitting. */
  function FlatterThan(tolerance: real): Cubic -> bool
  {
    c => Flatness(c) < tolerance
  }

  /** The chords getPointsOnBezierCurveWithSplitting produces for segment c. */
  function Flattened(c: Cubic, tolerance: real, fuel: nat): Option<seq<Chord<Point2>>>
  {
    Subdivided(c, FlatterThan(tolerance), fuel)
  }

  /** One step of Flattened on a segment that is not flat enough. */
  lemma FlattenedStep(c: Cubic, tolerance: real, fuel: nat)
    requires Flatness(c) >= tolerance && fuel > 0
    ensures var halves := Subdivide(c);
            var first := Flattened(halves.0, tolerance, fuel - 1);
            var second := Flattened(halves.1, tolerance, fuel - 1);
            Flattened(c, tolerance, fuel) == if first.Some? && second.Some? then Some(first.value + second.value) else None
  {
  }

  /** The chords run from the segment's first control point to its last,
      each starting where the previous one ended (at the `red` points of
      the subdivisions). */
  lemma {:induction false} SubdividedIsConnected(c: Cubic, isFlat: Cubic -> bool, fuel: nat)
    requires Subdivided(c, isFlat, fuel).Some?
    ensures var r := Subdivided(c, isFlat, fuel).value;
            r != [] && r[0].from == c.p1 && r[|r| - 1].to == c.p4 && Connected(r)
    decreases fuel
  {
    if !isFlat(c) {
      var halves := Subdivide(c);
      SubdividedIsConnected(halves.0, isFlat, fuel - 1);
      SubdividedIsConnected(halves.1, isFlat, fuel - 1);
      ConnectedConcat(Subdivided(halves.0, isFlat, fuel - 1).value, Subdivided(halves.1, isFlat, fuel - 1).value);
    }
  }

  /** getPointsOnBezierCurveWithSplitting(points, offset, tolerance, outPoints):
      appends the flattened segment at `offset` to outPoints, two points per
      chord. With fuel to spare it appends exactly the chords of Flattened
      and reports true; when fuel runs out it reports false, having appended
      only a prefix. */
  method PointsOnBezierCurveWithSplitting(points: seq<Point2>, offset: nat, tolerance: real, outPoints: PointList, fuel: nat)
    returns (ok: bool)
    requires offset + 3 < |points|
    modifies outPoints
    ensures ok == Flattened(SegmentAt(points, offset), tolerance, fuel).Some?
    ensures ok ==> outPoints.items == old(outPoints.items) + Flat(Flattened(SegmentAt(points, offset), tolerance, fuel).value)
    ensures old(outPoints.items) <= outPoints.items
    decreases fuel
  {
    var c := SegmentAt(points, offset);
    if Flatness(c) < tolerance {
      // flat enough: one chord from p1 to p4
      outPoints.Push(points[offset]);
      outPoints.Push(points[offset + 3]);
      assert Flattened(c, tolerance, fuel) == Some([Chord(c.p1, c.p4)]);
      assert Flat([Chord(c.p1, c.p4)]) == [c.p1, c.p4];
      return true;
    }
    if fuel == 0 {
      return false;
    }
    // subdivide: [p1, q1, r1, red] and [red, r2, q3, p4]
    var halves := Subdivide(c);
    ghost var first := Flattened(halves.0, tolerance, fuel - 1);
    ghost var second := Flattened(halves.1, tolerance, fuel - 1);
    FlattenedStep(c, tolerance, fuel);
    ghost var before := outPoints.items;
    ok := PointsOnBezierCurveWithSplitting(ControlPoints(halves.0), 0, tolerance, outPoints, fuel - 1);
    if !ok {
      return;
    }
    ghost var middle := outPoints.items;
    ok := PointsOnBezierCurveWithSplitting(ControlPoints(halves.1), 0, tolerance, outPoints, fuel - 1);
    if ok {
      AppendFlatInTurn(before, middle, outPoints.items, first.value, second.value);
    }
  }

  /** Evenly spaced control points give one chord: exactly [p1, p4] is
      appended, for any positive tolerance. */
  lemma EvenlySpacedAppendsEndpoints(p: Point2, d: Point2, tolerance: real, fuel: nat)
    requires tolerance > 0.0
    ensures Flattened(EvenlySpaced(p, d), tolerance, fuel) == Some([Chord(p, Point2(p.x + 3.0 * d.x, p.y + 3.0 * d.y))])
  {
    EvenlySpacedIsFlat(p, d);
  }

  /** With a tolerance that is not positive no segment is ever flat enough, so
      the source recursion never ends: every fuel bound runs out. */
  lemma {:induction false} NonPositiveToleranceNeverEnds(c: Cubic, tolerance: real, fuel: nat)
    requires tolerance <= 0.0
    ensures Flattened(c, tolerance, fuel) == None
    decreases fuel
  {
    if fuel > 0 {
      NonPositiveToleranceNeverEnds(Subdivide(c).0, tolerance, fuel - 1);
    }
  }

  /** Once fuel suffices, more fuel changes nothing: the result is the one
      the unbounded recursion of the source produces. */
  lemma {:induction false} MoreFuelSameResult(c: Cubic, isFlat: Cubic -> bool, fuel: nat, more: nat)
    requires fuel <= more
    requires Subdivided(c, isFlat, fuel).Some?
    ensures Subdivided(c, isFlat, more) == Subdivided(c, isFlat, fuel)
    decreases fuel
  {
    if !isFlat(c) {
      var halves := Subdivide(c);
      MoreFuelSameResult(halves.0, isFlat, fuel - 1, more - 1);
      MoreFuelSameResult(halves.1, isFlat, fuel - 1, more - 1);
    }
  }

  /** A coarser tolerance needs no more depth and never yields more chords. */
  lemma {:induction false} CoarserToleranceFewerChords(c: Cubic, fine: real, coarse: real, fuel: nat)
    requires fine <= coarse
    requires Flattened(c, fine, fuel).Some?
    ensures Flattened(c, coarse, fuel).Some?
    ensures |Flattened(c, coarse, fuel).value| <= |Flattened(c, fine, fuel).value|
    decreases fuel
  {
    SubdividedIsConnected(c, FlatterThan(fine), fuel);
    if Flatness(c) >= coarse {
      var halves := Subdivide(c);
      CoarserToleranceFewerChords(halves.0, fine, coarse, fuel - 1);
      CoarserToleranceFewerChords(halves.1, fine, coarse, fuel - 1);
    }
  }

  /** The number of segments getPointsOnBezierCurves walks: (length - 1) / 3
      for a chain of 3k + 1 control points, none for an empty one. */
  function SegmentCount(points: seq<Point2>): (n: nat)
    requires |points| == 0 || |points| % 3 == 1
    ensures |points| == 0 || 3 * n + 1 == |points|
  {
    if |points| == 0 then 0 else (|points| - 1) / 3
  }

  /** The chords getPointsOnBezierCurves produces for the first `count`
      segments of a control-point chain: each segment's chords in turn. */
  function FlattenedCurve(points: seq<Point2>, tolerance: real, fuel: nat, count: nat): Option<seq<Chord<Point2>>>
    requires count == 0 || 3 * count < |points|
  {
    if count == 0 then Some([])
    else
      var init := FlattenedCurve(points, tolerance, fuel, count - 1);
      var last := Flattened(SegmentAt(points, 3 * (count - 1)), tolerance, fuel);
      if init.Some? && last.Some? then Some(init.value + last.value) else None
  }

  /** getPointsOnBezierCurves(points, tolerance): flattens every segment of
      the chain into one shared list. `ok` is false when some segment runs
      out of fuel. */
  method PointsOnBezierCurves(points: seq<Point2>, tolerance: real, fuel: nat) returns (ok: bool, newPoints: seq<Point2>)
    requires |points| == 0 || |points| % 3 == 1
    ensures ok == FlattenedCurve(points, tolerance, fuel, SegmentCount(points)).Some?
    ensures ok ==> newPoints == Flat(FlattenedCurve(points, tolerance, fuel, SegmentCount(points)).value)
  {
    var list := new PointList();
    var numSegments := SegmentCount(points);
    ok := true;
    for i := 0 to numSegments
      invariant ok == FlattenedCurve(points, tolerance, fuel, i).Some?
      invariant ok ==> list.items == Flat(FlattenedCurve(points, tolerance, fuel, i).value)
    {
      var offset := i * 3;
      ghost var before := list.items;
      var segmentOk := PointsOnBezierCurveWithSplitting(points, offset, tolerance, list, fuel);
      if ok && segmentOk {
        FlatConcat(FlattenedCurve(points, tolerance, fuel, i).value, Flattened(SegmentAt(points, offset), tolerance, fuel).value);
      }
      ok := ok && segmentOk;
    }
    newPoints := list.items;
  }

  /** The flattened chain runs from the first control point to the last,
      chord after chord without gaps. */
  lemma {:induction false} FlattenedCurveIsConnected(points: seq<Point2>, tolerance: real, fuel: nat, count: nat)
    requires count >= 1 && 3 * count < |points|
    requires FlattenedCurve(points, tolerance, fuel, count).Some?
    ensures var r := FlattenedCurve(points, tolerance, fuel, count).value;
            r != [] && r[0].from == points[0] && r[|r| - 1].to == points[3 * count] && Connected(r)
  {
    var c := SegmentAt(points, 3 * (count - 1));
    SubdividedIsConnected(c, FlatterThan(tolerance), fuel);
    if count > 1 {
      FlattenedCurveIsConnected(points, tolerance, fuel, count - 1);
      ConnectedConcat(FlattenedCurve(points, tolerance, fuel, count - 1).value, Flattened(c, tolerance, fuel).value);
    }
  }
}
