// generateMesh of curve/curve.js without its WebGL half: flatten the Bezier
// chain, simplify the polyline, lathe it into a mesh and measure the mesh's
// extents. Uploading the buffers is not modelled.
module Pipeline {
  import opened Wrappers
  import opened Vec2
  import opened Polyline
  import Bezier
  import Simplify
  import Lathe
  import Extents

  /** The profile generateMesh lathes: the flattened curve, simplified, or
      None when flattening a segment runs out of fuel. */
  function Profile(curvePoints: seq<Point2>, tolerance: real, distance: real, fuel: nat)
    : (r: Option<seq<Point2>>)
    requires |curvePoints| >= 4 && |curvePoints| % 3 == 1
    ensures r.Some? ==> |r.value| >= 2
  {
    var count := Bezier.SegmentCount(curvePoints);
    var chords := Bezier.FlattenedCurve(curvePoints, tolerance, fuel, count);
    if chords.None? then None
    else
      Bezier.FlattenedCurveIsConnected(curvePoints, tolerance, fuel, count);
      var tempPoints := Flat(chords.value);
      Some(Simplify.Simplified(tempPoints, 0, |tempPoints|, distance, DistanceToSegmentSq))
  }

  /** The mesh of a profile and the extents of its positions. */
  function MeshWithExtents(points: seq<Point2>, startAngle: real, endAngle: real, divisions: nat, capStart: bool, capEnd: bool,
                           rotate: Lathe.Rotation): (Lathe.Mesh, Extents.Bounds)
    requires |points| >= 2 && divisions >= 1
  {
    var mesh := Lathe.LatheMesh(points, startAngle, endAngle, divisions, capStart, capEnd, rotate);
    Lathe.PositionsAreWholeVertices(points, startAngle, endAngle, divisions, capStart, capEnd, rotate, divisions + 1);
    (mesh, Extents.Extent(mesh.position))
  }

  /** What generateMesh computes before uploading the buffers. */
  function GeneratedMesh(curvePoints: seq<Point2>, tolerance: real, distance: real, startAngle: real, endAngle: real,
                         divisions: nat, capStart: bool, capEnd: bool, rotate: Lathe.Rotation, fuel: nat)
    : Option<(Lathe.Mesh, Extents.Bounds)>
    requires |curvePoints| >= 4 && |curvePoints| % 3 == 1 && divisions >= 1
  {
    var profile := Profile(curvePoints, tolerance, distance, fuel);
    if profile.None? then None
    else Some(MeshWithExtents(profile.value, startAngle, endAngle, divisions, capStart, capEnd, rotate))
  }

  /** The first two calls of generateMesh: getPointsOnBezierCurves, then
      simplifyPoints into a fresh list. */
  method SimplifiedCurve(curvePoints: seq<Point2>, tolerance: real, distance: real, fuel: nat)
    returns (points: Option<seq<Point2>>)
    requires |curvePoints| >= 4 && |curvePoints| % 3 == 1
    ensures points == Profile(curvePoints, tolerance, distance, fuel)
  {
    var ok, tempPoints := Bezier.PointsOnBezierCurves(curvePoints, tolerance, fuel);
    if !ok {
      return None;
    }
    Bezier.FlattenedCurveIsConnected(curvePoints, tolerance, fuel, Bezier.SegmentCount(curvePoints));
    var outPoints := new PointList();
    Simplify.SimplifyPoints(tempPoints, 0, |tempPoints|, distance, DistanceToSegmentSq, outPoints);
    assert outPoints.items == Simplify.Simplified(tempPoints, 0, |tempPoints|, distance, DistanceToSegmentSq);
    return Some(outPoints.items);
  }

  /** The last two calls of generateMesh: lathePoints, then getExtents on
      the positions. */
  method LatheWithExtents(points: seq<Point2>, startAngle: real, endAngle: real, divisions: nat, capStart: bool, capEnd: bool,
                          rotate: Lathe.Rotation) returns (arrays: Lathe.Mesh, extents: Extents.Bounds)
    requires |points| >= 2 && divisions >= 1
    ensures (arrays, extents) == MeshWithExtents(points, startAngle, endAngle, divisions, capStart, capEnd, rotate)
  {
    arrays := Lathe.LathePoints(points, startAngle, endAngle, divisions, capStart, capEnd, rotate);
    Lathe.PositionsAreWholeVertices(points, startAngle, endAngle, divisions, capStart, capEnd, rotate, divisions + 1);
    extents := Extents.GetExtents(arrays.position);
  }

  /** generateMesh(): the four calls in turn, on the curve, the tolerance,
      the simplification distance and the lathe settings it reads from its
      globals. */
  method GenerateMesh(curvePoints: seq<Point2>, tolerance: real, distance: real, startAngle: real, endAngle: real,
                      divisions: nat, capStart: bool, capEnd: bool, rotate: Lathe.Rotation, fuel: nat)
    returns (result: Option<(Lathe.Mesh, Extents.Bounds)>)
    requires |curvePoints| >= 4 && |curvePoints| % 3 == 1 && divisions >= 1
    ensures result == GeneratedMesh(curvePoints, tolerance, distance, startAngle, endAngle, divisions, capStart, capEnd, rotate, fuel)
  {
    var points := SimplifiedCurve(curvePoints, tolerance, distance, fuel);
    if points.None? {
      return None;
    }
    var arrays, extents := LatheWithExtents(points.value, startAngle, endAngle, divisions, capStart, capEnd, rotate);
    return Some((arrays, extents));
  }

  /** The profile exists exactly when every segment flattens within the
      fuel, and it runs from the first control point of the curve to the
      last. */
  lemma ProfileEndpoints(curvePoints: seq<Point2>, tolerance: real, distance: real, fuel: nat)
    requires |curvePoints| >= 4 && |curvePoints| % 3 == 1
    ensures Profile(curvePoints, tolerance, distance, fuel).Some? <==>
            Bezier.FlattenedCurve(curvePoints, tolerance, fuel, Bezier.SegmentCount(curvePoints)).Some?
    ensures var profile := Profile(curvePoints, tolerance, distance, fuel);
            profile.Some? ==>
              profile.value[0] == curvePoints[0] && profile.value[|profile.value| - 1] == curvePoints[|curvePoints| - 1]
  {
    var count := Bezier.SegmentCount(curvePoints);
    var chords := Bezier.FlattenedCurve(curvePoints, tolerance, fuel, count);
    if chords.Some? {
      Bezier.FlattenedCurveIsConnected(curvePoints, tolerance, fuel, count);
      var tempPoints := Flat(chords.value);
      assert tempPoints[0] == curvePoints[0];
      assert tempPoints[|tempPoints| - 1] == curvePoints[3 * count];
    }
  }

  /** The extents generateMesh computes bound every vertex of the lathed
      mesh on each axis. */
  lemma MeshWithExtentsBounds(points: seq<Point2>, startAngle: real, endAngle: real, divisions: nat, capStart: bool, capEnd: bool,
                              rotate: Lathe.Rotation)
    requires |points| >= 2 && divisions >= 1
    ensures var (mesh, extents) := MeshWithExtents(points, startAngle, endAngle, divisions, capStart, capEnd, rotate);
            && |extents.min| == 3 && |extents.max| == 3
            && forall v, k :: 0 <= v < |mesh.position| / 3 && 0 <= k < 3 ==>
                 extents.min[k] <= Extents.Coord(mesh.position, v, k) <= extents.max[k]
  {
    var mesh := Lathe.LatheMesh(points, startAngle, endAngle, divisions, capStart, capEnd, rotate);
    Lathe.LatheMeshShape(points, startAngle, endAngle, divisions, capStart, capEnd, rotate);
    Lathe.PositionsAreWholeVertices(points, startAngle, endAngle, divisions, capStart, capEnd, rotate, divisions + 1);
    Extents.ExtentIsTight(mesh.position);
  }
}
