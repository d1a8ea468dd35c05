# Curve lathe model

A model, in Dafny, of the geometry pipeline of the curve lathe demo
(`curve/curve.js`). A chain of cubic Bezier segments describes a 2D profile.
`generateMesh` turns it into a 3D mesh in four steps:

- It flattens every segment into chords with `getPointsOnBezierCurves`. The
  subdivision is adaptive: `getPointsOnBezierCurveWithSplitting` halves a
  segment until `flatness` is below the tolerance.
- It simplifies the polyline with the Ramer–Douglas–Peucker algorithm
  (`simplifyPoints`).
- It turns the profile around the Y axis with `lathePoints`. The result is a
  position buffer, a texture-coordinate buffer and a triangle index buffer.
- It measures the extents of the positions with `getExtents`.

The small vector library `v2` and the scalar helpers `lerp` and `clamp` are
modelled too.

The modules follow the source:

- `Scalar`: `lerp`, `clamp`, and `Math.min` / `Math.max`.
- `Vec2`: the `v2` library.
- `Polyline`: the shared output list `outPoints` / `newPoints`, modelled as
  the class `PointList`, plus chords and their flattening into points.
- `Bezier`: points on a segment, `flatness`, adaptive splitting, and
  flattening a whole chain.
- `Simplify`: `simplifyPoints`.
- `Lathe`: `lathePoints`.
- `Extents`: `getExtents`.
- `Pipeline`: the first four statements of `generateMesh`.

The loops of `getPointsOnBezierCurve`, `getPointsOnBezierCurves`,
`simplifyPoints`, `lathePoints` and `getExtents` are methods with loop
invariants. The recursion that shares one output list is a method that changes
a `PointList`. Each of these methods is proved equal to a specification
function: a recursive one, or, for `getPointsOnBezierCurve`, a quantified
`ensures` over the closed form `Bezier.PointOnBezierCurve`. The properties the
source promises are proved as lemmas about those functions. The small `forEach` folds of `v2.add` and
`v2.sub` only compute a value, so they are the recursive functions `Vec2.Add`
and `Vec2.Sub`. Coordinates are
`real`. Points are `Point2(x, y)` values and 3D vertices are `Point3`.

## Model

| member | source | states |
|---|---|---|
| Scalar.Min | curve/curve.js:111-113 | `Math.min` is at most both arguments and equals one of them |
| Scalar.Max | curve/curve.js:114-116 | `Math.max` is at least both arguments and equals one of them |
| Scalar.Clamp | curve/curve.js:427-429 | when min <= max the result lies in [min, max]: a value already in range is returned unchanged, a value below min gives min and a value above max gives max; when max < min the result is min |
| Scalar.Lerp | curve/curve.js:438-440 | lerp returns a at t = 0 and b at t = 1 |
| Vec2.Add | curve/curve.js:561-570 | add returns the first point plus the coordinate sums of all later arguments |
| Vec2.Sub | curve/curve.js:577-585 | sub returns the first point minus the coordinate sums of all later arguments |
| Vec2.SubUndoesAdd | curve/curve.js:561-585 | subtracting the same arguments undoes add |
| Vec2.Mult | curve/curve.js:592-607 | a scalar and a point in either order scale the point; two points multiply coordinate by coordinate |
| Vec2.MultCommutes | curve/curve.js:592-607 | because of the argument swap, mult gives the same result with its operands exchanged |
| Vec2.Lerp | curve/curve.js:609-614 | v2.lerp is the scalar lerp on each coordinate and returns a at t = 0 and b at t = 1 |
| Vec2.Min | curve/curve.js:616-621 | each coordinate is the smaller of the two and equals one of them |
| Vec2.Max | curve/curve.js:623-628 | each coordinate is the larger of the two and equals one of them |
| Vec2.DistanceSq | curve/curve.js:635-640 | the squared distance is non-negative and zero between equal points |
| Vec2.SegmentParameter | curve/curve.js:661-663 | the clamped projection parameter lies in [0, 1]; it is 0 at v and 1 at w |
| Vec2.DistanceToSegmentSq | curve/curve.js:654-666 | the distance is non-negative and is the squared distance from p to some point lerp(v, w, s), s in [0, 1], of the segment; for a degenerate segment it is the distance to v; it is 0 at either end point |
| Vec2.DistanceToSegmentIsMinimal | curve/curve.js:652-666 | distanceToSegmentSq is at most the squared distance to every point lerp(v, w, s) with s in [0, 1] of the segment |
| Vec2.DistanceToSegmentAtMostEndpoints | curve/curve.js:652-666 | the distance to a segment is at most the distance to either end point |
| Bezier.PointOnBezierCurve | curve/curve.js:132-139 | the Bernstein form returns the first control point at t = 0 and the last at t = 1 |
| Bezier.PointsOnBezierCurve | curve/curve.js:148-157 | it returns numPoints points; point i is the curve at t = i/(numPoints-1); the first and last are the segment's end points |
| Bezier.Flatness | curve/curve.js:165-192 | flatness (the sum of the larger squared x deviation and the larger squared y deviation) is non-negative |
| Bezier.EvenlySpacedIsFlat | curve/curve.js:165-192 | a segment whose control points are evenly spaced on a line has flatness 0 |
| Bezier.Subdivide | curve/curve.js:211-229 | de Casteljau halving at t = 0.5 keeps the outer end points, and the two halves meet at one point |
| Bezier.MidpointIsLerp | curve/curve.js:217-224 | the midpoints used are v2.lerp at t = 0.5 |
| Bezier.SubdivisionMeetsCurve | curve/curve.js:211-229 | the point where the halves meet is the curve point at t = 0.5 |
| Bezier.SubdividedIsConnected | curve/curve.js:202-233 | the chords of a segment start at its first control point, end at its last, and each chord starts where the previous one ends |
| Bezier.PointsOnBezierCurveWithSplitting | curve/curve.js:202-233 | the shared list keeps its old contents; when the recursion ends, exactly the end points of the segment's chords are appended, in order |
| Bezier.EvenlySpacedAppendsEndpoints | curve/curve.js:205-208 | with a positive tolerance a flat segment appends just its two end points |
| Bezier.NonPositiveToleranceNeverEnds | curve/curve.js:205 | with tolerance <= 0 the test `flatness < tolerance` never passes, so the recursion never ends |
| Bezier.MoreFuelSameResult | curve/curve.js:202-233 | once the recursion ends within some depth, any larger depth bound gives the same chords |
| Bezier.CoarserToleranceFewerChords | curve/curve.js:202-233 | a coarser tolerance also ends, with at most as many chords |
| Bezier.SegmentCount | curve/curve.js:243 | a chain of 3n+1 control points has n segments |
| Bezier.PointsOnBezierCurves | curve/curve.js:241-251 | the result is the chords of every segment, flattened in segment order; `ok` says whether every segment ended |
| Bezier.FlattenedCurveIsConnected | curve/curve.js:241-251 | the flattened chain starts at the first control point, ends at the last, and is connected |
| Simplify.Farthest | curve/curve.js:258-270 | maxDistSq is non-negative; when it is 0, maxNdx is the initial 1; otherwise maxNdx is an interior index whose distance is maxDistSq |
| Simplify.FarthestIsMaximal | curve/curve.js:263-270 | no interior point is farther than maxDistSq, and maxNdx is the first point at that distance (the test is strict `>`) |
| Simplify.FarthestPoint | curve/curve.js:257-270 | the scanning loop returns the maxDistSq and maxNdx of the specification |
| Simplify.SplitsAsSource | curve/curve.js:273 | for epsilon >= 0, the model's split test (`maxDistSq > 0`, and then the source test written as `epsilon < 0` or `maxDistSq > epsilon*epsilon`) agrees with `Math.sqrt(maxDistSq) > epsilon` |
| Simplify.NegativeEpsilonRepeatsRange | curve/curve.js:273-276 | with epsilon = -1 on two points, the source test splits and recurses on the same range (0, 2) |
| Simplify.RdpChords | curve/curve.js:254-283 | the chosen chords (as index pairs) start at `start` and end at `end - 1` |
| Simplify.RdpChordsStep | curve/curve.js:272-280 | when the farthest point is too far, the chords are those of [start, maxNdx] followed by those of [maxNdx, end - 1], and maxNdx is strictly inside; otherwise there is the one chord (start, end - 1) |
| Simplify.RdpChordsInRange | curve/curve.js:254-283 | every chord runs forward between indices in [start, end) |
| Simplify.RdpChordsAreConnected | curve/curve.js:254-283 | each chord starts at the index where the previous one ended |
| Simplify.RdpChordsAreOrdered | curve/curve.js:254-283 | each chord ends no later than every later chord starts, so the kept points appear in source order |
| Simplify.RdpChordsWithinTolerance | curve/curve.js:272-280 | every point of the range is within epsilon (squared) of the chord that covers it |
| Simplify.Simplified | curve/curve.js:254-283 | the output has at least two points; it starts with points[start] and ends with points[end - 1] |
| Simplify.SimplifyPoints | curve/curve.js:254-283 | the shared list keeps its old contents, and exactly the simplified points are appended |
| Simplify.SimplifiedStep | curve/curve.js:272-280 | the pushed points are those of the two recursive calls in turn, or just the pair (s, e) |
| Simplify.SimplifiedIsChordEnds | curve/curve.js:279 | the output is the end points of the chosen chords, pushed in pairs |
| Simplify.FarPointsAreAllKept | curve/curve.js:254-283 | when every point is farther than epsilon from every chord, no point is dropped: each interior point appears twice, once ending a chord and once starting the next |
| Simplify.FarMiddlePointIsKept | curve/curve.js:272-276 | on three points whose middle is too far, the output is s, middle, middle, e |
| Simplify.TwoPointsAreKept | curve/curve.js:278-279 | a range of two points is output unchanged |
| Simplify.PeakDistance | curve/curve.js:654-666 | distanceToSegmentSq((1,1), (0,0), (2,0)) = 1, so that point is kept with epsilon = 0.5 |
| Lathe.U | curve/curve.js:306 | u = division/numDivisions lies in [0, 1]; it is 0 for the first column and 1 for the last |
| Lathe.PushColumn | curve/curve.js:310-328 | one pass of the column loop appends exactly that column's positions (start cap, rotated profile, end cap) and texture coordinates to the buffers |
| Lathe.PushQuads | curve/curve.js:336-339 | the quad loop appends exactly the two triangles of each quad between the two columns, in order |
| Polyline.PointList.Push | curve/curve.js:207-208 | `outPoints.push(p)` appends p and keeps the earlier points |
| Lathe.LathePoints | curve/curve.js:295-347 | the three buffers equal the mesh specification |
| Lathe.GeneratePoints | curve/curve.js:304-329 | the generating loop produces the positions and texture coordinates of columns 0..numDivisions |
| Lathe.GenerateIndices | curve/curve.js:331-340 | the index loop produces the quads of columns 0..numDivisions-1 |
| Lathe.ColumnPositionsShape | curve/curve.js:310-328 | vertex j of a column is the start cap (0, y0, 0), a rotated profile point, or the end cap (0, yn, 0), in that order |
| Lathe.ColumnTexcoordsShape | curve/curve.js:313-327 | every texture coordinate of a column has this column's u; vertex j has v = j/quadsDown (the start cap has 0, the end cap 1) |
| Lathe.PositionsLength | curve/curve.js:305-329 | `columns` columns hold 3 * columns * pointsPerColumn position numbers |
| Lathe.PositionsAreWholeVertices | curve/curve.js:305-329 | the position buffer holds whole (x, y, z) vertices |
| Lathe.TexcoordsLength | curve/curve.js:305-329 | `columns` columns hold 2 * columns * pointsPerColumn texture numbers |
| Lathe.IndicesLength | curve/curve.js:331-340 | the index buffer holds 6 * numDivisions * quadsDown indices |
| Lathe.ColumnIndicesWithin | curve/curve.js:336-339 | the quads between two columns index only vertices of those columns |
| Lathe.IndicesInRange | curve/curve.js:331-340 | every index is a vertex of the mesh: 0 <= index < (numDivisions + 1) * pointsPerColumn |
| Lathe.PositionsColumn | curve/curve.js:305-329 | vertex d * pointsPerColumn + j is vertex j of column d, rotated by lerp(startAngle, endAngle, d/numDivisions) |
| Lathe.TexcoordsColumn | curve/curve.js:305-329 | the texture coordinate of vertex d * pointsPerColumn + j is (d/numDivisions, j/quadsDown) |
| Lathe.TexcoordsInUnit | curve/curve.js:305-329 | every texture coordinate lies in [0, 1] |
| Lathe.LatheMeshShape | curve/curve.js:295-347 | the buffer lengths are 3(n+1)ppc, 2(n+1)ppc and 6 * n * quadsDown; every index is below (n+1)ppc; every texture coordinate is in [0, 1] |
| Lathe.LatheMeshVertex | curve/curve.js:295-329 | vertex j of column d is the rotated profile point or cap, with texture coordinate (d/n, j/quadsDown) |
| Extents.GetExtents | curve/curve.js:106-123 | the loop returns the per-axis running Math.min / Math.max of the specification |
| Extents.AxisMinIsLowerBound | curve/curve.js:110-113 | min[k] is at most coordinate k of every vertex |
| Extents.AxisMinIsAttained | curve/curve.js:110-113 | min[k] is coordinate k of some vertex |
| Extents.AxisMaxIsUpperBound | curve/curve.js:114-116 | max[k] is at least coordinate k of every vertex |
| Extents.AxisMaxIsAttained | curve/curve.js:114-116 | max[k] is coordinate k of some vertex |
| Extents.ExtentIsTight | curve/curve.js:106-123 | a buffer shorter than one vertex (including an empty one) is returned as both min and max; otherwise both have three entries, every vertex lies in the box, and each face touches a vertex |
| Pipeline.Profile | curve/curve.js:355-356 | the profile that is lathed has at least two points |
| Pipeline.SimplifiedCurve | curve/curve.js:355-356 | flattening and then simplifying into a fresh list yields the specified profile |
| Pipeline.LatheWithExtents | curve/curve.js:357-358 | lathing and then measuring the positions yields the specified mesh and extents |
| Pipeline.GenerateMesh | curve/curve.js:354-358 | the four calls in turn compute the specified mesh and extents, or nothing when flattening does not end |
| Pipeline.ProfileEndpoints | curve/curve.js:355-356 | a profile exists exactly when every segment flattens; it runs from the first control point of the curve to the last |
| Pipeline.MeshWithExtentsBounds | curve/curve.js:357-358 | the extents of the mesh have three entries each and bound every vertex |

## Left out

- Floating point: coordinates are exact reals. IEEE rounding, NaN and infinities are not modelled.
- `Math.sqrt` is not modelled. `simplifyPoints` tests `Math.sqrt(maxDistSq) > epsilon`. The model's test (`Simplify.Splits`) is `maxDistSq > 0` together with the source test written without the root: `epsilon < 0` or `maxDistSq > epsilon * epsilon`. The two tests agree for epsilon >= 0 (`Simplify.SplitsAsSource`). `v2.distance` and `v2.distanceToSegment` are only square roots of modelled functions, so they are left out.
- The rotation `m4.transformPoint(m4.yRotation(angle), [x, y, 0])` is the parameter `rotate` of `Lathe.LathePoints`. The `m4` library is not part of this model, so no property of the rotation is claimed.
- Simplify.SimplifyPoints: for epsilon < 0 the model does not follow the source. It uses the corrected split test and returns, for example the two points unchanged for a two-point range. The source recurses forever there (see "## Findings"). `Pipeline.GenerateMesh` inherits this for a negative `distance`.
- In `Simplify` the distance function is a parameter `distSq`, so the lemmas hold for any distance. `Pipeline` passes `Vec2.DistanceToSegmentSq`, as `generateMesh` does with `v2.distanceToSegmentSq`. Its minimality is proved separately (`Vec2.DistanceToSegmentIsMinimal`).
- Bezier.PointsOnBezierCurveWithSplitting: the source recursion has no depth bound. The model takes a `fuel` depth and reports `ok = false` when it runs out. `Bezier.NonPositiveToleranceNeverEnds` shows the source does not end when the tolerance is <= 0.
- Bezier.PointsOnBezierCurves: it requires 3n+1 control points (or none). For other lengths the source reads past the end of the array and throws.
- Bezier.PointsOnBezierCurve: it requires numPoints != 1, because `i / (numPoints - 1)` is 0/0 (NaN) there.
- Extents.GetExtents: it requires a buffer of whole vertices, or one shorter than a vertex (which is returned as both min and max). With a partial vertex after the first (4, 5, 7, ... numbers) the loop reads past the end of the array, gets `undefined`, and `Math.min` / `Math.max` give NaN.
- Lathe.LathePoints: it requires a non-empty profile, numDivisions >= 1 and at least two vertices per column. Outside these the source does the following, which is not modelled:
  - an empty profile with a cap throws a TypeError at `points[0][1]` or `points[points.length - 1][1]`;
  - an empty profile without caps returns three empty buffers;
  - a single point without caps gives v = 0/0 (NaN);
  - numDivisions = 0 gives u = 0/0 (NaN);
  - a fractional numDivisions, which the source accepts, is not modelled (`numDivisions` is a `nat`). With 2.5 the point loop makes 3 columns, but the index loop joins 3 pairs of columns and so indexes a fourth column that does not exist. The program itself always passes the whole number 120.
- The two loops of `lathePoints` and the inner `points.forEach` are helper methods (`Lathe.GeneratePoints`, `Lathe.GenerateIndices`, `Lathe.PushColumn`, `Lathe.PushQuads`). Their bodies follow the source loops.
- `generateMesh` after `getExtents`: the WebGL buffer upload, the `console.log` and the returned `bufferInfo` are not modelled. The upload converts indices to a `Uint16Array`. Meshes with 65536 vertices or more therefore get wrapped indices; this is not modelled.
- `generateMesh` reads the curve and its settings from globals (`curvePoints`, `data`). In the model they are parameters.
- Rendering, the camera, mouse handling, texture loading, `isPowerOf2`, `update`, `render` and `main` are user interface and WebGL code. They are not modelled.

## Findings

| source | as written | input that shows it | evidently intended | confidence | as-written member | corrected member |
|---|---|---|---|---|---|---|
| curve/curve.js:273 | `Math.sqrt(maxDistSq) > epsilon` splits even when no point lies off the chord (maxDistSq = 0, maxNdx = 1) if epsilon < 0; the first recursive call then gets the same range again | `simplifyPoints([[0,0],[1,0]], 0, 2, -1)` recurses on (0, 2) forever | split only when some interior point lies farther than epsilon, so both sub-ranges shrink | not executed | Simplify.NegativeEpsilonRepeatsRange | Simplify.RdpChordsStep |
