// simplifyPoints of curve/curve.js: Ramer-Douglas-Peucker simplification of
// a polyline, pushed into a shared list as one pair of end points per kept
// chord.
//
// The specification functions take the distance measure as a parameter
// `distSq`; simplifyPoints itself uses v2.distanceToSegmentSq, and every
// property proved here holds for any measure.
module Simplify {
  import opened Vec2
  import opened Polyline

  /** A squared distance from a point to the segment between two others. */
  type SegmentDistance = (Point2, Point2, Point2) -> real

  /** The squared distance from points[j] to the chord points[start] ..
      points[end - 1]. */
  function ChordDistanceSq(points: seq<Point2>, start: nat, end: nat, j: nat, distSq: SegmentDistance): real
    requires start < end <= |points| && j < |points|
  {
    distSq(points[j], points[start], points[end - 1])
  }

  /** The index the farthest-point scan stops before: end - 1, or start + 1
      when the range has fewer than three points. */
  function ScanLimit(start: nat, end: nat): (i: nat)
    requires start < end
    ensures start + 1 <= i <= end
  {
    if end >= start + 2 then end - 1 else start + 1
  }

  /** The state (maxDistSq, maxNdx) of the scan for the farthest point after
      the indices start + 1 .. i - 1. It starts at (0, 1) and moves only to a
      strictly larger distance: maxDistSq is the largest distance scanned (or
      0), maxNdx the first index that attains it, and maxNdx stays 1 while no
      distance is positive. */
  function Farthest(points: seq<Point2>, start: nat, end: nat, i: nat, distSq: SegmentDistance): (r: (real, int))
    requires start < end <= |points| && start + 1 <= i <= end
    ensures r.0 >= 0.0
    ensures r.0 == 0.0 ==> r.1 == 1
    ensures r.0 > 0.0 ==> start < r.1 < i && ChordDistanceSq(points, start, end, r.1, distSq) == r.0
    decreases i
  {
    if i == start + 1 then (0.0, 1)
    else
      var prev := Farthest(points, start, end, i - 1, distSq);
      var d := ChordDistanceSq(points, start, end, i - 1, distSq);
      if d > prev.0 then (d, i - 1) else prev
  }

  /** The scan finds the farthest point: no scanned distance exceeds
      maxDistSq, and every index before maxNdx lies strictly closer. */
  lemma {:induction false} FarthestIsMaximal(points: seq<Point2>, start: nat, end: nat, i: nat, distSq: SegmentDistance)
    requires start < end <= |points| && start + 1 <= i <= end
    ensures var r := Farthest(points, start, end, i, distSq);
            forall j :: start < j < i ==> ChordDistanceSq(points, start, end, j, distSq) <= r.0
    ensures var r := Farthest(points, start, end, i, distSq);
            r.0 > 0.0 ==> forall j :: start < j < r.1 ==> ChordDistanceSq(points, start, end, j, distSq) < r.0
    decreases i
  {
    if i > start + 1 {
      FarthestIsMaximal(points, start, end, i - 1, distSq);
    }
  }

  /** The test of the source, Math.sqrt(maxDistSq) > epsilon, for a
      non-negative maxDistSq. */
  predicate SourceSplits(maxDistSq: real, epsilon: real)
  {
    epsilon < 0.0 || maxDistSq > epsilon * epsilon
  }

  /** The split test of the model: the farthest point is off the chord and
      farther than epsilon from it. */
  predicate Splits(maxDistSq: real, epsilon: real)
  {
    maxDistSq > 0.0 && SourceSplits(maxDistSq, epsilon)
  }

  /** For every epsilon the source can meaningfully be given, the two tests
      agree. */
  lemma SplitsAsSource(maxDistSq: real, epsilon: real)
    requires maxDistSq >= 0.0 && epsilon >= 0.0
    ensures Splits(maxDistSq, epsilon) == SourceSplits(maxDistSq, epsilon)
  {
    assert epsilon * epsilon >= 0.0;
  }

  /** A two-point polyline on which the source test, with a negative
      epsilon, splits at maxNdx = 1 and recurses on the very range it was
      given: simplifyPoints(points, 0, 2, -1) never returns. */
  lemma NegativeEpsilonRepeatsRange()
    ensures var points := [Point2(0.0, 0.0), Point2(1.0, 0.0)];
            var (maxDistSq, maxNdx) := Farthest(points, 0, 2, ScanLimit(0, 2), DistanceToSegmentSq);
            SourceSplits(maxDistSq, -1.0) && (0, maxNdx + 1) == (0, 2)
  {
  }

  /** The chords, as index pairs, that simplifyPoints(points, start, end,
      epsilon) pushes: the chord of the whole range when no point lies
      farther than epsilon from it, otherwise the chords of the ranges up to
      and from the farthest point, which both contain it. Under the split
      test the farthest index is strictly inside the range, so both ranges
      are shorter. */
  function RdpChords(points: seq<Point2>, start: nat, end: nat, epsilon: real, distSq: SegmentDistance): (r: seq<Chord<nat>>)
    requires start < end <= |points|
    ensures r != [] && r[0].from == start && r[|r| - 1].to == end - 1
    decreases end - start
  {
    var (maxDistSq, maxNdx) := Farthest(points, start, end, ScanLimit(start, end), distSq);
    if Splits(maxDistSq, epsilon) then
      RdpChords(points, start, maxNdx + 1, epsilon, distSq) + RdpChords(points, maxNdx, end, epsilon, distSq)
    else
      [Chord(start, end - 1)]
  }

  /** One step of RdpChords, given the result of the scan. */
  lemma RdpChordsStep(points: seq<Point2>, start: nat, end: nat, epsilon: real, distSq: SegmentDistance, maxDistSq: real, maxNdx: int)
    requires start < end <= |points|
    requires (maxDistSq, maxNdx) == Farthest(points, start, end, ScanLimit(start, end), distSq)
    ensures Splits(maxDistSq, epsilon) ==>
              start < maxNdx < end - 1 &&
              RdpChords(points, start, end, epsilon, distSq)
                == RdpChords(points, start, maxNdx + 1, epsilon, distSq) + RdpChords(points, maxNdx, end, epsilon, distSq)
    ensures !Splits(maxDistSq, epsilon) ==> RdpChords(points, start, end, epsilon, distSq) == [Chord(start, end - 1)]
  {
  }

  /** Every chord runs forwards between indices lo and hi - 1. */
  predicate InRange(chords: seq<Chord<nat>>, lo: nat, hi: nat)
  {
    forall k :: 0 <= k < |chords| ==> lo <= chords[k].from <= chords[k].to < hi
  }

  lemma InRangeConcat(a: seq<Chord<nat>>, b: seq<Chord<nat>>, lo: nat, m: nat, hi: nat)
    requires InRange(a, lo, m + 1) && InRange(b, m, hi) && lo <= m < hi
    ensures InRange(a + b, lo, hi)
  {
    assert forall k :: 0 <= k < |a + b| ==> (a + b)[k] == if k < |a| then a[k] else b[k - |a|];
  }

  /** Every kept chord lies inside the range and runs forwards. */
  lemma {:induction false} RdpChordsInRange(points: seq<Point2>, start: nat, end: nat, epsilon: real, distSq: SegmentDistance)
    requires start < end <= |points|
    ensures InRange(RdpChords(points, start, end, epsilon, distSq), start, end)
    decreases end - start
  {
    var (maxDistSq, maxNdx) := Farthest(points, start, end, ScanLimit(start, end), distSq);
    if Splits(maxDistSq, epsilon) {
      RdpChordsInRange(points, start, maxNdx + 1, epsilon, distSq);
      RdpChordsInRange(points, maxNdx, end, epsilon, distSq);
      InRangeConcat(RdpChords(points, start, maxNdx + 1, epsilon, distSq), RdpChords(points, maxNdx, end, epsilon, distSq), start, maxNdx, end);
    }
  }

  /** The scan of simplifyPoints for the point farthest from the line formed
      by the end points of the range. */
  method FarthestPoint(points: seq<Point2>, start: nat, end: nat, distSq: SegmentDistance) returns (maxDistSq: real, maxNdx: int)
    requires start < end <= |points|
    ensures (maxDistSq, maxNdx) == Farthest(points, start, end, ScanLimit(start, end), distSq)
  {
    var s := points[start];
    var e := points[end - 1];
    maxDistSq := 0.0;
    maxNdx := 1;
    var i := start + 1;
    while i < end - 1
      invariant start + 1 <= i <= ScanLimit(start, end)
      invariant (maxDistSq, maxNdx) == Farthest(points, start, end, i, distSq)
    {
      var d := distSq(points[i], s, e);
      if d > maxDistSq {
        maxDistSq := d;
        maxNdx := i;
      }
      i := i + 1;
    }
  }

  /** The points simplifyPoints(points, start, end, epsilon) pushes: the two
      end points of the range when no point lies farther than epsilon from
      the chord between them, otherwise the points of the ranges up to and
      from the farthest point. */
  function Simplified(points: seq<Point2>, start: nat, end: nat, epsilon: real, distSq: SegmentDistance): (r: seq<Point2>)
    requires start < end <= |points|
    ensures |r| >= 2 && r[0] == points[start] && r[|r| - 1] == points[end - 1]
    decreases end - start
  {
    var (maxDistSq, maxNdx) := Farthest(points, start, end, ScanLimit(start, end), distSq);
    if Splits(maxDistSq, epsilon) then
      Simplified(points, start, maxNdx + 1, epsilon, distSq) + Simplified(points, maxNdx, end, epsilon, distSq)
    else
      [points[start], points[end - 1]]
  }

  /** simplifyPoints(points, start, end, epsilon, outPoints): appends the
      points of the simplified range to outPoints. The segment distance it
      measures with, v2.distanceToSegmentSq, is the parameter distSq. */
  method SimplifyPoints(points: seq<Point2>, start: nat, end: nat, epsilon: real, distSq: SegmentDistance, outPoints: PointList)
    requires start < end <= |points|
    modifies outPoints
    ensures outPoints.items == old(outPoints.items) + Simplified(points, start, end, epsilon, distSq)
    decreases end - start
  {
    var s := points[start];
    var e := points[end - 1];
    var maxDistSq, maxNdx := FarthestPoint(points, start, end, distSq);
    if Splits(maxDistSq, epsilon) {
      // too far: recurse on both sides of the farthest point
      ghost var before := outPoints.items;
      SimplifyPoints(points, start, maxNdx + 1, epsilon, distSq, outPoints);
      ghost var middle := outPoints.items;
      SimplifyPoints(points, maxNdx, end, epsilon, distSq, outPoints);
      AppendInTurn(before, middle, outPoints.items,
                   Simplified(points, start, maxNdx + 1, epsilon, distSq), Simplified(points, maxNdx, end, epsilon, distSq));
    } else {
      // close enough: keep only the chord from s to e
      outPoints.Push(s);
      outPoints.Push(e);
    }
  }

  /** One step of Simplified, given the result of the scan. */
  lemma SimplifiedStep(points: seq<Point2>, start: nat, end: nat, epsilon: real, distSq: SegmentDistance, maxDistSq: real, maxNdx: int)
    requires start < end <= |points|
    requires (maxDistSq, maxNdx) == Farthest(points, start, end, ScanLimit(start, end), distSq)
    ensures Splits(maxDistSq, epsilon) ==>
              start < maxNdx < end - 1 &&
              Simplified(points, start, end, epsilon, distSq)
                == Simplified(points, start, maxNdx + 1, epsilon, distSq) + Simplified(points, maxNdx, end, epsilon, distSq)
    ensures !Splits(maxDistSq, epsilon) ==> Simplified(points, start, end, epsilon, distSq) == [points[start], points[end - 1]]
  {
  }

  /** points as pushed for chords: the end points of the k-th chord at
      positions 2 * k and 2 * k + 1. */
  predicate PushedFor(points: seq<Point2>, chords: seq<Chord<nat>>, pushed: seq<Point2>)
  {
    |pushed| == 2 * |chords| &&
    forall k :: 0 <= k < |chords| ==>
      chords[k].from < |points| && chords[k].to < |points| &&
      pushed[2 * k] == points[chords[k].from] && pushed[2 * k + 1] == points[chords[k].to]
  }

  lemma PushedForConcat(points: seq<Point2>, a: seq<Chord<nat>>, b: seq<Chord<nat>>, pa: seq<Point2>, pb: seq<Point2>)
    requires PushedFor(points, a, pa) && PushedFor(points, b, pb)
    ensures PushedFor(points, a + b, pa + pb)
  {
    var c, p := a + b, pa + pb;
    forall k | 0 <= k < |c|
      ensures c[k].from < |points| && c[k].to < |points|
      ensures p[2 * k] == points[c[k].from] && p[2 * k + 1] == points[c[k].to]
    {
      if k < |a| {
        assert c[k] == a[k] && p[2 * k] == pa[2 * k] && p[2 * k + 1] == pa[2 * k + 1];
      } else {
        var k' := k - |a|;
        assert c[k] == b[k'] && p[2 * k] == pb[2 * k'] && p[2 * k + 1] == pb[2 * k' + 1];
      }
    }
  }

  /** The simplified points are the end points of the kept chords, in
      order. */
  lemma {:induction false} SimplifiedIsChordEnds(points: seq<Point2>, start: nat, end: nat, epsilon: real, distSq: SegmentDistance)
    requires start < end <= |points|
    ensures PushedFor(points, RdpChords(points, start, end, epsilon, distSq), Simplified(points, start, end, epsilon, distSq))
    decreases end - start, 1
  {
    var (maxDistSq, maxNdx) := Farthest(points, start, end, ScanLimit(start, end), distSq);
    if Splits(maxDistSq, epsilon) {
      SplitIsChordEnds(points, start, end, epsilon, distSq, maxDistSq, maxNdx);
    } else {
      SimplifiedStep(points, start, end, epsilon, distSq, maxDistSq, maxNdx);
      RdpChordsStep(points, start, end, epsilon, distSq, maxDistSq, maxNdx);
    }
  }

  /** The split case: both halves agree, and so do their concatenations. */
  lemma {:induction false} SplitIsChordEnds(points: seq<Point2>, start: nat, end: nat, epsilon: real, distSq: SegmentDistance, maxDistSq: real, maxNdx: int)
    requires start < end <= |points|
    requires (maxDistSq, maxNdx) == Farthest(points, start, end, ScanLimit(start, end), distSq)
    requires Splits(maxDistSq, epsilon)
    ensures PushedFor(points, RdpChords(points, start, end, epsilon, distSq), Simplified(points, start, end, epsilon, distSq))
    decreases end - start, 0
  {
    SimplifiedStep(points, start, end, epsilon, distSq, maxDistSq, maxNdx);
    RdpChordsStep(points, start, end, epsilon, distSq, maxDistSq, maxNdx);
    SimplifiedIsChordEnds(points, start, maxNdx + 1, epsilon, distSq);
    SimplifiedIsChordEnds(points, maxNdx, end, epsilon, distSq);
    PushedForConcat(points, RdpChords(points, start, maxNdx + 1, epsilon, distSq), RdpChords(points, maxNdx, end, epsilon, distSq),
                    Simplified(points, start, maxNdx + 1, epsilon, distSq), Simplified(points, maxNdx, end, epsilon, distSq));
  }

  /** The kept chords follow one another along the polyline, each starting
      at the index where the previous one ended. */
  lemma {:induction false} RdpChordsAreConnected(points: seq<Point2>, start: nat, end: nat, epsilon: real, distSq: SegmentDistance)
    requires start < end <= |points|
    ensures Connected(RdpChords(points, start, end, epsilon, distSq))
    decreases end - start
  {
    var (maxDistSq, maxNdx) := Farthest(points, start, end, ScanLimit(start, end), distSq);
    if Splits(maxDistSq, epsilon) {
      RdpChordsAreConnected(points, start, maxNdx + 1, epsilon, distSq);
      RdpChordsAreConnected(points, maxNdx, end, epsilon, distSq);
      ConnectedConcat(RdpChords(points, start, maxNdx + 1, epsilon, distSq), RdpChords(points, maxNdx, end, epsilon, distSq));
    }
  }

  /** Each chord ends no later than the next one starts. */
  predicate Ordered(chords: seq<Chord<nat>>)
  {
    forall i, j :: 0 <= i < j < |chords| ==> chords[i].to <= chords[j].from
  }

  lemma OrderedConcat(a: seq<Chord<nat>>, b: seq<Chord<nat>>, m: nat)
    requires Ordered(a) && Ordered(b)
    requires forall i :: 0 <= i < |a| ==> a[i].to <= m
    requires forall j :: 0 <= j < |b| ==> m <= b[j].from
    ensures Ordered(a + b)
  {
    var r := a + b;
    forall i, j | 0 <= i < j < |r|
      ensures r[i].to <= r[j].from
    {
      if j < |a| {
        assert r[i] == a[i] && r[j] == a[j];
      } else if i >= |a| {
        assert r[i] == b[i - |a|] && r[j] == b[j - |a|];
      } else {
        assert r[i] == a[i] && r[j] == b[j - |a|];
      }
    }
  }

  /** The source indices of the kept points never decrease. */
  lemma {:induction false} RdpChordsAreOrdered(points: seq<Point2>, start: nat, end: nat, epsilon: real, distSq: SegmentDistance)
    requires start < end <= |points|
    ensures Ordered(RdpChords(points, start, end, epsilon, distSq))
    decreases end - start, 1
  {
    var (maxDistSq, maxNdx) := Farthest(points, start, end, ScanLimit(start, end), distSq);
    RdpChordsStep(points, start, end, epsilon, distSq, maxDistSq, maxNdx);
    if Splits(maxDistSq, epsilon) {
      SplitOrdered(points, start, end, epsilon, distSq, maxDistSq, maxNdx);
    }
  }

  /** The split case: each half is ordered, the left one ends at the
      farthest point and the right one starts there. */
  lemma {:induction false} SplitOrdered(points: seq<Point2>, start: nat, end: nat, epsilon: real, distSq: SegmentDistance, maxDistSq: real, maxNdx: int)
    requires start < end <= |points|
    requires (maxDistSq, maxNdx) == Farthest(points, start, end, ScanLimit(start, end), distSq)
    requires Splits(maxDistSq, epsilon)
    ensures Ordered(RdpChords(points, start, maxNdx + 1, epsilon, distSq) + RdpChords(points, maxNdx, end, epsilon, distSq))
    decreases end - start, 0
  {
    RdpChordsAreOrdered(points, start, maxNdx + 1, epsilon, distSq);
    RdpChordsAreOrdered(points, maxNdx, end, epsilon, distSq);
    RdpChordsInRange(points, start, maxNdx + 1, epsilon, distSq);
    RdpChordsInRange(points, maxNdx, end, epsilon, distSq);
    OrderedConcat(RdpChords(points, start, maxNdx + 1, epsilon, distSq), RdpChords(points, maxNdx, end, epsilon, distSq), maxNdx);
  }

  /** Every point skipped by a kept chord lies within epsilon of it. */
  predicate WithinTolerance(points: seq<Point2>, chords: seq<Chord<nat>>, epsilon: real, distSq: SegmentDistance)
  {
    forall k, j :: 0 <= k < |chords| && chords[k].from < j < chords[k].to < |points| ==>
      distSq(points[j], points[chords[k].from], points[chords[k].to]) <= epsilon * epsilon
  }

  lemma WithinToleranceConcat(points: seq<Point2>, a: seq<Chord<nat>>, b: seq<Chord<nat>>, epsilon: real, distSq: SegmentDistance)
    requires WithinTolerance(points, a, epsilon, distSq) && WithinTolerance(points, b, epsilon, distSq)
    ensures WithinTolerance(points, a + b, epsilon, distSq)
  {
    var r := a + b;
    forall k, j | 0 <= k < |r| && r[k].from < j < r[k].to < |points|
      ensures distSq(points[j], points[r[k].from], points[r[k].to]) <= epsilon * epsilon
    {
      if k < |a| {
        assert r[k] == a[k];
      } else {
        assert r[k] == b[k - |a|];
      }
    }
  }

  /** For a non-negative epsilon, every point the simplification drops lies
      within epsilon of the kept chord that spans it. */
  lemma {:induction false} RdpChordsWithinTolerance(points: seq<Point2>, start: nat, end: nat, epsilon: real, distSq: SegmentDistance)
    requires start < end <= |points|
    requires epsilon >= 0.0
    ensures WithinTolerance(points, RdpChords(points, start, end, epsilon, distSq), epsilon, distSq)
    decreases end - start, 1
  {
    var (maxDistSq, maxNdx) := Farthest(points, start, end, ScanLimit(start, end), distSq);
    RdpChordsStep(points, start, end, epsilon, distSq, maxDistSq, maxNdx);
    if Splits(maxDistSq, epsilon) {
      SplitWithinTolerance(points, start, end, epsilon, distSq, maxDistSq, maxNdx);
    } else {
      UnsplitWithinTolerance(points, start, end, epsilon, distSq, maxDistSq, maxNdx);
    }
  }

  /** The split case: both halves are within tolerance. */
  lemma {:induction false} SplitWithinTolerance(points: seq<Point2>, start: nat, end: nat, epsilon: real, distSq: SegmentDistance, maxDistSq: real, maxNdx: int)
    requires start < end <= |points|
    requires epsilon >= 0.0
    requires (maxDistSq, maxNdx) == Farthest(points, start, end, ScanLimit(start, end), distSq)
    requires Splits(maxDistSq, epsilon)
    ensures WithinTolerance(points, RdpChords(points, start, maxNdx + 1, epsilon, distSq) + RdpChords(points, maxNdx, end, epsilon, distSq), epsilon, distSq)
    decreases end - start, 0
  {
    RdpChordsWithinTolerance(points, start, maxNdx + 1, epsilon, distSq);
    RdpChordsWithinTolerance(points, maxNdx, end, epsilon, distSq);
    WithinToleranceConcat(points, RdpChords(points, start, maxNdx + 1, epsilon, distSq), RdpChords(points, maxNdx, end, epsilon, distSq), epsilon, distSq);
  }

  /** The unsplit case: no scanned point is farther than epsilon from the
      chord of the whole range. */
  lemma UnsplitWithinTolerance(points: seq<Point2>, start: nat, end: nat, epsilon: real, distSq: SegmentDistance, maxDistSq: real, maxNdx: int)
    requires start < end <= |points|
    requires epsilon >= 0.0
    requires (maxDistSq, maxNdx) == Farthest(points, start, end, ScanLimit(start, end), distSq)
    requires !Splits(maxDistSq, epsilon)
    ensures WithinTolerance(points, [Chord(start, end - 1)], epsilon, distSq)
  {
    assert epsilon * epsilon >= 0.0;
    assert maxDistSq <= epsilon * epsilon;
    FarthestIsMaximal(points, start, end, ScanLimit(start, end), distSq);
    forall j | start < j < end - 1
      ensures distSq(points[j], points[start], points[end - 1]) <= epsilon * epsilon
    {
      assert ChordDistanceSq(points, start, end, j, distSq) <= maxDistSq;
    }
  }

  /** Every point of points[start..end] lies farther than epsilon from the
      chord between any two points around it. */
  predicate FarFromChords(points: seq<Point2>, start: nat, end: nat, epsilon: real, distSq: SegmentDistance)
    requires end <= |points|
  {
    forall a, j, b {:trigger distSq(points[j], points[a], points[b])} :: start <= a < j < b < end ==> distSq(points[j], points[a], points[b]) > epsilon * epsilon
  }

  lemma FarFromChordsInSubrange(points: seq<Point2>, start: nat, end: nat, start': nat, end': nat, epsilon: real, distSq: SegmentDistance)
    requires end <= |points| && start <= start' && end' <= end
    requires FarFromChords(points, start, end, epsilon, distSq)
    ensures FarFromChords(points, start', end', epsilon, distSq)
  {
  }

  /** A range of three or more such points is always split. */
  lemma FarPointsSplit(points: seq<Point2>, start: nat, end: nat, epsilon: real, distSq: SegmentDistance)
    requires start + 3 <= end <= |points| && epsilon >= 0.0
    requires FarFromChords(points, start, end, epsilon, distSq)
    ensures Splits(Farthest(points, start, end, ScanLimit(start, end), distSq).0, epsilon)
  {
    FarthestIsMaximal(points, start, end, ScanLimit(start, end), distSq);
    assert ChordDistanceSq(points, start, end, start + 1, distSq) > epsilon * epsilon;
    assert epsilon * epsilon >= 0.0;
  }

  /** Every chord joins neighbouring indices. */
  predicate Unit(chords: seq<Chord<nat>>)
  {
    forall k :: 0 <= k < |chords| ==> chords[k].to == chords[k].from + 1
  }

  lemma UnitConcat(a: seq<Chord<nat>>, b: seq<Chord<nat>>)
    requires Unit(a) && Unit(b)
    ensures Unit(a + b)
  {
    assert forall k :: 0 <= k < |a + b| ==> (a + b)[k] == if k < |a| then a[k] else b[k - |a|];
  }

  /** Connected unit chords advance one index each: the k-th starts k after
      the first. */
  lemma {:induction false} UnitChordsCount(chords: seq<Chord<nat>>)
    requires chords != [] && Connected(chords) && Unit(chords)
    ensures forall k :: 0 <= k < |chords| ==> chords[k] == Chord(chords[0].from + k, chords[0].from + k + 1)
    ensures chords[|chords| - 1].to == chords[0].from + |chords|
  {
    if |chords| > 1 {
      var rest := chords[1..];
      assert Connected(rest) && Unit(rest);
      UnitChordsCount(rest);
      assert forall k :: 1 <= k < |chords| ==> chords[k] == rest[k - 1];
    }
  }

  /** The unsplit case: only two points remain, joined by one chord. */
  lemma UnsplitFarPointsAreUnit(points: seq<Point2>, start: nat, end: nat, epsilon: real, distSq: SegmentDistance)
    requires start + 2 <= end <= |points| && epsilon >= 0.0
    requires FarFromChords(points, start, end, epsilon, distSq)
    requires !Splits(Farthest(points, start, end, ScanLimit(start, end), distSq).0, epsilon)
    ensures RdpChords(points, start, end, epsilon, distSq) == [Chord(start, start + 1)]
  {
    if end - start >= 3 {
      FarPointsSplit(points, start, end, epsilon, distSq);
      assert false;
    }
  }

  /** When every point lies farther than epsilon from the chords around it,
      every kept chord joins neighbouring points. */
  lemma {:induction false} FarPointsGiveUnitChords(points: seq<Point2>, start: nat, end: nat, epsilon: real, distSq: SegmentDistance)
    requires start + 2 <= end <= |points| && epsilon >= 0.0
    requires FarFromChords(points, start, end, epsilon, distSq)
    ensures Unit(RdpChords(points, start, end, epsilon, distSq))
    decreases end - start, 1
  {
    if Splits(Farthest(points, start, end, ScanLimit(start, end), distSq).0, epsilon) {
      SplitFarPointsAreUnit(points, start, end, epsilon, distSq);
    } else {
      UnsplitFarPointsAreUnit(points, start, end, epsilon, distSq);
    }
  }

  /** The split case: both halves hold unit chords. */
  lemma {:induction false} SplitFarPointsAreUnit(points: seq<Point2>, start: nat, end: nat, epsilon: real, distSq: SegmentDistance)
    requires start + 2 <= end <= |points| && epsilon >= 0.0
    requires FarFromChords(points, start, end, epsilon, distSq)
    requires Splits(Farthest(points, start, end, ScanLimit(start, end), distSq).0, epsilon)
    ensures Unit(RdpChords(points, start, end, epsilon, distSq))
    decreases end - start, 0
  {
    var (maxDistSq, maxNdx) := Farthest(points, start, end, ScanLimit(start, end), distSq);
    FarFromChordsInSubrange(points, start, end, start, maxNdx + 1, epsilon, distSq);
    FarFromChordsInSubrange(points, start, end, maxNdx, end, epsilon, distSq);
    FarPointsGiveUnitChords(points, start, maxNdx + 1, epsilon, distSq);
    FarPointsGiveUnitChords(points, maxNdx, end, epsilon, distSq);
    UnitConcat(RdpChords(points, start, maxNdx + 1, epsilon, distSq), RdpChords(points, maxNdx, end, epsilon, distSq));
  }

  /** Hence the k-th kept chord joins points start + k and start + k + 1. */
  lemma FarPointsKeepEveryChord(points: seq<Point2>, start: nat, end: nat, epsilon: real, distSq: SegmentDistance)
    requires start + 2 <= end <= |points| && epsilon >= 0.0
    requires FarFromChords(points, start, end, epsilon, distSq)
    ensures var r := RdpChords(points, start, end, epsilon, distSq);
            |r| == end - start - 1 &&
            forall k :: 0 <= k < |r| ==> r[k] == Chord(start + k, start + k + 1)
  {
    FarPointsGiveUnitChords(points, start, end, epsilon, distSq);
    RdpChordsAreConnected(points, start, end, epsilon, distSq);
    UnitChordsCount(RdpChords(points, start, end, epsilon, distSq));
  }

  /** So nothing is dropped: every point other than the two ends is pushed
      twice, and a range of n >= 2 points becomes the 2 * (n - 1) points
      p[start], p[start + 1], p[start + 1], ..., p[end - 2], p[end - 2],
      p[end - 1]. */
  lemma FarPointsAreAllKept(points: seq<Point2>, start: nat, end: nat, epsilon: real, distSq: SegmentDistance)
    requires start + 2 <= end <= |points| && epsilon >= 0.0
    requires FarFromChords(points, start, end, epsilon, distSq)
    ensures var r := Simplified(points, start, end, epsilon, distSq);
            |r| == 2 * (end - start - 1) &&
            forall i :: 0 <= i < |r| ==> r[i] == points[start + (i + 1) / 2]
  {
    FarPointsKeepEveryChord(points, start, end, epsilon, distSq);
    SimplifiedIsChordEnds(points, start, end, epsilon, distSq);
    PushedForConsecutive(points, RdpChords(points, start, end, epsilon, distSq), Simplified(points, start, end, epsilon, distSq), start);
  }

  /** Chords between neighbouring indices from start on push start, then
      every later index twice. */
  lemma PushedForConsecutive(points: seq<Point2>, chords: seq<Chord<nat>>, pushed: seq<Point2>, start: nat)
    requires PushedFor(points, chords, pushed)
    requires forall k :: 0 <= k < |chords| ==> chords[k] == Chord(start + k, start + k + 1)
    requires chords != []
    ensures |pushed| == 2 * |chords| && start + |chords| < |points|
    ensures forall i :: 0 <= i < |pushed| ==> pushed[i] == points[start + (i + 1) / 2]
  {
    assert chords[|chords| - 1] == Chord(start + |chords| - 1, start + |chords|);
    forall i | 0 <= i < |pushed|
      ensures pushed[i] == points[start + (i + 1) / 2]
    {
      var k := i / 2;
      assert chords[k] == Chord(start + k, start + k + 1);
      if i % 2 == 0 {
        assert i == 2 * k && (i + 1) / 2 == k;
      } else {
        assert i == 2 * k + 1 && (i + 1) / 2 == k + 1;
      }
    }
  }

  /** Three points whose middle one lies farther than epsilon from the chord
      come out as four: the middle point is pushed by both halves, so the
      output can be longer than the input. */
  lemma FarMiddlePointIsKept(points: seq<Point2>, epsilon: real, distSq: SegmentDistance)
    requires |points| == 3 && epsilon >= 0.0
    requires distSq(points[1], points[0], points[2]) > epsilon * epsilon
    ensures var r := Simplified(points, 0, 3, epsilon, distSq);
            |r| == 4 && r[0] == points[0] && r[1] == points[1] && r[2] == points[1] && r[3] == points[2]
  {
    MiddleIsFarthest(points, epsilon, distSq);
    TwoPointsAreKept(points, 0, epsilon, distSq);
    TwoPointsAreKept(points, 1, epsilon, distSq);
  }

  lemma MiddleIsFarthest(points: seq<Point2>, epsilon: real, distSq: SegmentDistance)
    requires |points| == 3 && epsilon >= 0.0
    requires distSq(points[1], points[0], points[2]) > epsilon * epsilon
    ensures var (maxDistSq, maxNdx) := Farthest(points, 0, 3, ScanLimit(0, 3), distSq);
            maxNdx == 1 && Splits(maxDistSq, epsilon)
  {
    assert ChordDistanceSq(points, 0, 3, 1, distSq) > epsilon * epsilon;
    assert epsilon * epsilon >= 0.0;
  }

  /** A range of two points has nothing to scan and is pushed as it is. */
  lemma TwoPointsAreKept(points: seq<Point2>, start: nat, epsilon: real, distSq: SegmentDistance)
    requires start + 2 <= |points|
    ensures Simplified(points, start, start + 2, epsilon, distSq) == [points[start], points[start + 1]]
  {
  }

  /** A worked case: the peak (1, 1) of (0, 0), (1, 1), (2, 0) projects onto
      (1, 0), the middle of the chord, at squared distance 1 > 0.5 * 0.5, so
      with epsilon = 0.5 it is kept and the three points come out as four. */
  lemma PeakDistance(p: Point2, v: Point2, w: Point2)
    requires p == Point2(1.0, 1.0) && v == Point2(0.0, 0.0) && w == Point2(2.0, 0.0)
    ensures DistanceToSegmentSq(p, v, w) == 1.0
    ensures DistanceToSegmentSq(p, v, w) > 0.5 * 0.5
  {
    var l2 := DistanceSq(v, w);
    assert l2 == 4.0;
    var n := ProjectionNumerator(p, v, w);
    assert n == 2.0;
    assert n / l2 == 0.5;
    var t := SegmentParameter(p, v, w);
    assert t == 0.5;
    assert Lerp(v, w, t) == Point2(1.0, 0.0);
  }
}
