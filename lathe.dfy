// lathePoints of curve/curve.js: turns a 2D profile polyline around the Y
// axis into a mesh of numDivisions + 1 columns, each holding one vertex per
// profile point plus the optional cap vertices on the axis, and joins
// neighbouring columns with two triangles per quad.
//
// The rotation m4.transformPoint(m4.yRotation(angle), [x, y, 0]) is the
// parameter `rotate`; everything else (counts, caps, texture coordinates,
// indices) is modelled as written.
module Lathe {
  import opened Vec2
  import Scalar

  datatype Point3 = Point3(x: real, y: real, z: real)

  /** Rotates a profile point (x, y, 0) about the Y axis by an angle. */
  type Rotation = (real, Point2) -> Point3

  /** The three flat buffers lathePoints returns. */
  datatype Mesh = Mesh(position: seq<real>, texcoord: seq<real>, indices: seq<int>)

  /** Vertices per column: the profile points and the caps. */
  function PointsPerColumn(numPoints: nat, capStart: bool, capEnd: bool): nat
  {
    numPoints + (if capStart then 1 else 0) + (if capEnd then 1 else 0)
  }

  /** The texture coordinate u of a column: division / numDivisions. */
  function U(division: nat, numDivisions: nat): (u: real)
    requires numDivisions >= 1
    ensures division <= numDivisions ==> 0.0 <= u <= 1.0
    ensures division == 0 ==> u == 0.0
    ensures division == numDivisions ==> u == 1.0
  {
    division as real / numDivisions as real
  }

  /** The rotation angle of a column: lerp(startAngle, endAngle, u). */
  function Angle(startAngle: real, endAngle: real, division: nat, numDivisions: nat): real
    requires numDivisions >= 1
  {
    Scalar.Lerp(startAngle, endAngle, U(division, numDivisions))
  }

  /** The positions of the first count profile points, rotated. */
  function RotatedPoints(points: seq<Point2>, count: nat, angle: real, rotate: Rotation): (r: seq<real>)
    requires count <= |points|
    ensures |r| == 3 * count
  {
    if count == 0 then []
    else
      var tp := rotate(angle, points[count - 1]);
      RotatedPoints(points, count - 1, angle, rotate) + [tp.x, tp.y, tp.z]
  }

  /** The cap vertex on the Y axis at the height of p. */
  function CapPosition(p: Point2): seq<real>
  {
    [0.0, p.y, 0.0]
  }

  /** The positions of one column: the start cap, the rotated profile, the
      end cap. */
  function ColumnPositions(points: seq<Point2>, angle: real, capStart: bool, capEnd: bool, rotate: Rotation): (r: seq<real>)
    requires points != []
    ensures |r| == 3 * PointsPerColumn(|points|, capStart, capEnd)
  {
    (if capStart then CapPosition(points[0]) else [])
    + RotatedPoints(points, |points|, angle, rotate)
    + (if capEnd then CapPosition(points[|points| - 1]) else [])
  }

  /** The texture coordinates (u, v) of the first count profile points, with
      v = (ndx + vOffset) / quadsDown. */
  function ProfileTexcoords(u: real, count: nat, vOffset: nat, quadsDown: nat): (r: seq<real>)
    requires quadsDown >= 1
    ensures |r| == 2 * count
  {
    if count == 0 then []
    else ProfileTexcoords(u, count - 1, vOffset, quadsDown) + [u, (count - 1 + vOffset) as real / quadsDown as real]
  }

  /** The texture coordinates of one column: (u, 0) for the start cap, the
      profile points, (u, 1) for the end cap. */
  function ColumnTexcoords(numPoints: nat, u: real, capStart: bool, capEnd: bool): (r: seq<real>)
    requires PointsPerColumn(numPoints, capStart, capEnd) >= 2
    ensures |r| == 2 * PointsPerColumn(numPoints, capStart, capEnd)
  {
    var quadsDown := PointsPerColumn(numPoints, capStart, capEnd) - 1;
    (if capStart then [u, 0.0] else [])
    + ProfileTexcoords(u, numPoints, if capStart then 1 else 0, quadsDown)
    + (if capEnd then [u, 1.0] else [])
  }

  /** The positions of the first columns columns. */
  function Positions(points: seq<Point2>, startAngle: real, endAngle: real, numDivisions: nat, capStart: bool, capEnd: bool,
                     rotate: Rotation, columns: nat): seq<real>
    requires points != [] && numDivisions >= 1
  {
    if columns == 0 then []
    else
      Positions(points, startAngle, endAngle, numDivisions, capStart, capEnd, rotate, columns - 1)
      + ColumnPositions(points, Angle(startAngle, endAngle, columns - 1, numDivisions), capStart, capEnd, rotate)
  }

  /** The texture coordinates of the first columns columns. */
  function Texcoords(numPoints: nat, numDivisions: nat, capStart: bool, capEnd: bool, columns: nat): seq<real>
    requires numDivisions >= 1 && PointsPerColumn(numPoints, capStart, capEnd) >= 2
  {
    if columns == 0 then []
    else
      Texcoords(numPoints, numDivisions, capStart, capEnd, columns - 1)
      + ColumnTexcoords(numPoints, U(columns - 1, numDivisions), capStart, capEnd)
  }

  /** The two triangles of a quad between columns starting at column1Offset
      and column2Offset. */
  function QuadIndices(column1Offset: int, column2Offset: int, quad: int): seq<int>
  {
    [column1Offset + quad, column1Offset + quad + 1, column2Offset + quad,
     column1Offset + quad + 1, column2Offset + quad + 1, column2Offset + quad]
  }

  /** The triangles of the first quads quads between two columns. */
  function ColumnIndices(column1Offset: int, column2Offset: int, quads: nat): seq<int>
  {
    if quads == 0 then []
    else ColumnIndices(column1Offset, column2Offset, quads - 1) + QuadIndices(column1Offset, column2Offset, quads - 1)
  }

  /** The triangles joining the first divisions columns to their right-hand
      neighbours. */
  function Indices(pointsPerColumn: nat, quadsDown: nat, divisions: nat): seq<int>
  {
    if divisions == 0 then []
    else
      var column1Offset := (divisions - 1) * pointsPerColumn;
      Indices(pointsPerColumn, quadsDown, divisions - 1) + ColumnIndices(column1Offset, column1Offset + pointsPerColumn, quadsDown)
  }

  /** The mesh lathePoints returns. */
  function LatheMesh(points: seq<Point2>, startAngle: real, endAngle: real, numDivisions: nat, capStart: bool, capEnd: bool,
                     rotate: Rotation): Mesh
    requires points != [] && numDivisions >= 1 && PointsPerColumn(|points|, capStart, capEnd) >= 2
  {
    var pointsPerColumn := PointsPerColumn(|points|, capStart, capEnd);
    Mesh(Positions(points, startAngle, endAngle, numDivisions, capStart, capEnd, rotate, numDivisions + 1),
         Texcoords(|points|, numDivisions, capStart, capEnd, numDivisions + 1),
         Indices(pointsPerColumn, pointsPerColumn - 1, numDivisions))
  }

  /** The columns grow by one column at a time. */
  lemma ColumnStep(points: seq<Point2>, startAngle: real, endAngle: real, numDivisions: nat, capStart: bool, capEnd: bool,
                   rotate: Rotation, division: nat)
    requires points != [] && numDivisions >= 1 && PointsPerColumn(|points|, capStart, capEnd) >= 2
    ensures Positions(points, startAngle, endAngle, numDivisions, capStart, capEnd, rotate, division + 1)
            == Positions(points, startAngle, endAngle, numDivisions, capStart, capEnd, rotate, division)
               + ColumnPositions(points, Angle(startAngle, endAngle, division, numDivisions), capStart, capEnd, rotate)
    ensures Texcoords(|points|, numDivisions, capStart, capEnd, division + 1)
            == Texcoords(|points|, numDivisions, capStart, capEnd, division)
               + ColumnTexcoords(|points|, U(division, numDivisions), capStart, capEnd)
  {
  }

  /** The rotated profile grows by one point at a time. */
  lemma RotatedPointsStep(points: seq<Point2>, count: nat, angle: real, rotate: Rotation)
    requires count < |points|
    ensures var tp := rotate(angle, points[count]);
            RotatedPoints(points, count + 1, angle, rotate) == RotatedPoints(points, count, angle, rotate) + [tp.x, tp.y, tp.z]
  {
  }

  /** The profile texture coordinates grow by one point at a time. */
  lemma ProfileTexcoordsStep(u: real, count: nat, vOffset: nat, quadsDown: nat)
    requires quadsDown >= 1
    ensures ProfileTexcoords(u, count + 1, vOffset, quadsDown)
            == ProfileTexcoords(u, count, vOffset, quadsDown) + [u, (count + vOffset) as real / quadsDown as real]
  {
  }

  /** The indices grow by the quads of one column pair at a time. */
  lemma IndicesStep(pointsPerColumn: nat, quadsDown: nat, division: nat)
    ensures Indices(pointsPerColumn, quadsDown, division + 1)
            == Indices(pointsPerColumn, quadsDown, division)
               + ColumnIndices(division * pointsPerColumn, division * pointsPerColumn + pointsPerColumn, quadsDown)
  {
  }

  /** lathePoints(points, startAngle, endAngle, numDivisions, capStart,
      capEnd). The source divides by numDivisions and by quadsDown and reads
      points[0] for the caps, so it needs numDivisions >= 1, a non-empty
      profile and at least two vertices per column. Its two loops are the
      methods GeneratePoints and GenerateIndices. */
  method LathePoints(points: seq<Point2>, startAngle: real, endAngle: real, numDivisions: nat, capStart: bool, capEnd: bool,
                     rotate: Rotation) returns (mesh: Mesh)
    requires points != [] && numDivisions >= 1 && PointsPerColumn(|points|, capStart, capEnd) >= 2
    ensures mesh == LatheMesh(points, startAngle, endAngle, numDivisions, capStart, capEnd, rotate)
  {
    var vOffset := if capStart then 1 else 0;
    var pointsPerColumn := |points| + vOffset + (if capEnd then 1 else 0);
    var quadsDown := pointsPerColumn - 1;

    var positions, texcoords := GeneratePoints(points, startAngle, endAngle, numDivisions, capStart, capEnd, rotate);
    assert pointsPerColumn == PointsPerColumn(|points|, capStart, capEnd);
    var indices := GenerateIndices(pointsPerColumn, quadsDown, numDivisions);
    mesh := Mesh(positions, texcoords, indices);
  }

  /** The first loop of lathePoints: the vertices and texture coordinates of
      numDivisions + 1 columns. */
  method GeneratePoints(points: seq<Point2>, startAngle: real, endAngle: real, numDivisions: nat, capStart: bool, capEnd: bool,
                        rotate: Rotation) returns (positions: seq<real>, texcoords: seq<real>)
    requires points != [] && numDivisions >= 1 && PointsPerColumn(|points|, capStart, capEnd) >= 2
    ensures positions == Positions(points, startAngle, endAngle, numDivisions, capStart, capEnd, rotate, numDivisions + 1)
    ensures texcoords == Texcoords(|points|, numDivisions, capStart, capEnd, numDivisions + 1)
  {
    positions, texcoords := [], [];
    var division := 0;
    while division <= numDivisions
      invariant division <= numDivisions + 1
      invariant positions == Positions(points, startAngle, endAngle, numDivisions, capStart, capEnd, rotate, division)
      invariant texcoords == Texcoords(|points|, numDivisions, capStart, capEnd, division)
    {
      var u := division as real / numDivisions as real;
      var angle := Scalar.Lerp(startAngle, endAngle, u);
      assert u == U(division, numDivisions) && angle == Angle(startAngle, endAngle, division, numDivisions);
      ColumnStep(points, startAngle, endAngle, numDivisions, capStart, capEnd, rotate, division);
      positions, texcoords := PushColumn(points, u, angle, capStart, capEnd, rotate, positions, texcoords);
      division := division + 1;
    }
  }

  /** The second loop of lathePoints: the triangles joining each of the
      first numDivisions columns to the next. */
  method GenerateIndices(pointsPerColumn: nat, quadsDown: nat, numDivisions: nat) returns (indices: seq<int>)
    ensures indices == Indices(pointsPerColumn, quadsDown, numDivisions)
  {
    indices := [];
    var division := 0;
    while division < numDivisions
      invariant division <= numDivisions
      invariant indices == Indices(pointsPerColumn, quadsDown, division)
    {
      var column1Offset := division * pointsPerColumn;
      var column2Offset := column1Offset + pointsPerColumn;
      IndicesStep(pointsPerColumn, quadsDown, division);
      indices := PushQuads(column1Offset, column2Offset, quadsDown, indices);
      division := division + 1;
    }
  }

  /** The body of the first loop of lathePoints: pushes the vertices of one
      column and their texture coordinates. */
  method PushColumn(points: seq<Point2>, u: real, angle: real, capStart: bool, capEnd: bool, rotate: Rotation,
                    positions: seq<real>, texcoords: seq<real>) returns (positions': seq<real>, texcoords': seq<real>)
    requires points != [] && PointsPerColumn(|points|, capStart, capEnd) >= 2
    ensures positions' == positions + ColumnPositions(points, angle, capStart, capEnd, rotate)
    ensures texcoords' == texcoords + ColumnTexcoords(|points|, u, capStart, capEnd)
  {
    var vOffset := if capStart then 1 else 0;
    var quadsDown := PointsPerColumn(|points|, capStart, capEnd) - 1;
    ghost var startPosition: seq<real>, startTexcoord: seq<real> := [], [];
    positions', texcoords' := positions, texcoords;
    if capStart {
      // the start cap lies on the Y axis at the height of the first point
      positions' := positions' + [0.0, points[0].y, 0.0];
      texcoords' := texcoords' + [u, 0.0];
      startPosition, startTexcoord := CapPosition(points[0]), [u, 0.0];
    }
    ghost var positions1, texcoords1 := positions', texcoords';

    var ndx := 0;
    while ndx < |points|
      invariant ndx <= |points|
      invariant positions' == positions1 + RotatedPoints(points, ndx, angle, rotate)
      invariant texcoords' == texcoords1 + ProfileTexcoords(u, ndx, vOffset, quadsDown)
    {
      var tp := rotate(angle, points[ndx]);
      RotatedPointsPush(positions1, positions', points, ndx, angle, rotate);
      positions' := positions' + [tp.x, tp.y, tp.z];
      var v := (ndx + vOffset) as real / quadsDown as real;
      ProfileTexcoordsPush(texcoords1, texcoords', u, ndx, vOffset, quadsDown);
      texcoords' := texcoords' + [u, v];
      ndx := ndx + 1;
    }

    ghost var endPosition: seq<real>, endTexcoord: seq<real> := [], [];
    if capEnd {
      // the end cap lies on the Y axis at the height of the last point
      positions' := positions' + [0.0, points[|points| - 1].y, 0.0];
      texcoords' := texcoords' + [u, 1.0];
      endPosition, endTexcoord := CapPosition(points[|points| - 1]), [u, 1.0];
    }
    ColumnPositionsParts(positions, positions', points, angle, capStart, capEnd, rotate, startPosition, endPosition);
    ColumnTexcoordsParts(texcoords, texcoords', |points|, u, capStart, capEnd, startTexcoord, endTexcoord);
  }

  /** Appending three parts in turn appends their concatenation. */
  lemma AppendInThree<T>(s: seq<T>, a: seq<T>, b: seq<T>, c: seq<T>, r: seq<T>)
    requires r == s + a + b + c
    ensures r == s + (a + b + c)
  {
    assert s + a + b + c == s + (a + b + c);
  }

  /** Pushing the next rotated point extends the rotated profile. */
  lemma RotatedPointsPush(before: seq<real>, r: seq<real>, points: seq<Point2>, count: nat, angle: real, rotate: Rotation)
    requires count < |points| && r == before + RotatedPoints(points, count, angle, rotate)
    ensures var tp := rotate(angle, points[count]);
            r + [tp.x, tp.y, tp.z] == before + RotatedPoints(points, count + 1, angle, rotate)
  {
    RotatedPointsStep(points, count, angle, rotate);
    var tp := rotate(angle, points[count]);
    assert before + RotatedPoints(points, count, angle, rotate) + [tp.x, tp.y, tp.z]
        == before + (RotatedPoints(points, count, angle, rotate) + [tp.x, tp.y, tp.z]);
  }

  /** Pushing the next (u, v) pair extends the profile texture coordinates. */
  lemma ProfileTexcoordsPush(before: seq<real>, r: seq<real>, u: real, count: nat, vOffset: nat, quadsDown: nat)
    requires quadsDown >= 1 && r == before + ProfileTexcoords(u, count, vOffset, quadsDown)
    ensures r + [u, (count + vOffset) as real / quadsDown as real] == before + ProfileTexcoords(u, count + 1, vOffset, quadsDown)
  {
    ProfileTexcoordsStep(u, count, vOffset, quadsDown);
    var uv := [u, (count + vOffset) as real / quadsDown as real];
    assert before + ProfileTexcoords(u, count, vOffset, quadsDown) + uv
        == before + (ProfileTexcoords(u, count, vOffset, quadsDown) + uv);
  }

  /** A column's positions pushed as start cap, rotated profile, end cap. */
  lemma ColumnPositionsParts(before: seq<real>, r: seq<real>, points: seq<Point2>, angle: real, capStart: bool, capEnd: bool,
                             rotate: Rotation, startCap: seq<real>, endCap: seq<real>)
    requires points != []
    requires startCap == (if capStart then CapPosition(points[0]) else [])
    requires endCap == (if capEnd then CapPosition(points[|points| - 1]) else [])
    requires r == before + startCap + RotatedPoints(points, |points|, angle, rotate) + endCap
    ensures r == before + ColumnPositions(points, angle, capStart, capEnd, rotate)
  {
    AppendInThree(before, startCap, RotatedPoints(points, |points|, angle, rotate), endCap, r);
  }

  /** A column's texture coordinates pushed as start cap, profile, end cap. */
  lemma ColumnTexcoordsParts(before: seq<real>, r: seq<real>, numPoints: nat, u: real, capStart: bool, capEnd: bool,
                             startCap: seq<real>, endCap: seq<real>)
    requires PointsPerColumn(numPoints, capStart, capEnd) >= 2
    requires startCap == (if capStart then [u, 0.0] else [])
    requires endCap == (if capEnd then [u, 1.0] else [])
    requires r == before + startCap
                  + ProfileTexcoords(u, numPoints, if capStart then 1 else 0, PointsPerColumn(numPoints, capStart, capEnd) - 1)
                  + endCap
    ensures r == before + ColumnTexcoords(numPoints, u, capStart, capEnd)
  {
    AppendInThree(before, startCap,
                  ProfileTexcoords(u, numPoints, if capStart then 1 else 0, PointsPerColumn(numPoints, capStart, capEnd) - 1),
                  endCap, r);
  }

  /** The body of the second loop of lathePoints: pushes the two triangles of
      every quad between two neighbouring columns. */
  method PushQuads(column1Offset: int, column2Offset: int, quadsDown: nat, indices: seq<int>) returns (indices': seq<int>)
    ensures indices' == indices + ColumnIndices(column1Offset, column2Offset, quadsDown)
  {
    indices' := indices;
    var quad := 0;
    while quad < quadsDown
      invariant quad <= quadsDown
      invariant indices' == indices + ColumnIndices(column1Offset, column2Offset, quad)
    {
      indices' := indices' + [column1Offset + quad, column1Offset + quad + 1, column2Offset + quad];
      indices' := indices' + [column1Offset + quad + 1, column2Offset + quad + 1, column2Offset + quad];
      quad := quad + 1;
    }
  }

  // ----- properties of the mesh -----

  /** The vertex j of a flat position buffer. */
  function VertexAt(positions: seq<real>, j: nat): Point3
    requires 3 * j + 2 < |positions|
  {
    Point3(positions[3 * j], positions[3 * j + 1], positions[3 * j + 2])
  }

  /** The texture coordinate u of vertex j of a flat texcoord buffer. */
  function TexU(texcoords: seq<real>, j: nat): real
    requires 2 * j + 1 < |texcoords|
  {
    texcoords[2 * j]
  }

  /** The texture coordinate v of vertex j of a flat texcoord buffer. */
  function TexV(texcoords: seq<real>, j: nat): real
    requires 2 * j + 1 < |texcoords|
  {
    texcoords[2 * j + 1]
  }

  /** Vertex j of a column: the start cap, the rotated profile point
      j - vOffset, or the end cap. */
  function ColumnVertex(points: seq<Point2>, angle: real, capStart: bool, capEnd: bool, rotate: Rotation, j: nat): Point3
    requires points != [] && j < PointsPerColumn(|points|, capStart, capEnd)
  {
    var vOffset := if capStart then 1 else 0;
    if capStart && j == 0 then Point3(0.0, points[0].y, 0.0)
    else if capEnd && j == |points| + vOffset then Point3(0.0, points[|points| - 1].y, 0.0)
    else rotate(angle, points[j - vOffset])
  }

  lemma {:induction false} RotatedPointsShape(points: seq<Point2>, count: nat, angle: real, rotate: Rotation)
    requires count <= |points|
    ensures forall i :: 0 <= i < count ==> VertexAt(RotatedPoints(points, count, angle, rotate), i) == rotate(angle, points[i])
  {
    if count > 0 {
      RotatedPointsShape(points, count - 1, angle, rotate);
      var r := RotatedPoints(points, count, angle, rotate);
      var prev := RotatedPoints(points, count - 1, angle, rotate);
      forall i | 0 <= i < count
        ensures VertexAt(r, i) == rotate(angle, points[i])
      {
        if i < count - 1 {
          assert VertexAt(r, i) == VertexAt(prev, i);
        }
      }
    }
  }

  /** Every vertex of a column is the cap on the axis or the rotated profile
      point it stands for. */
  lemma ColumnPositionsShape(points: seq<Point2>, angle: real, capStart: bool, capEnd: bool, rotate: Rotation)
    requires points != []
    ensures var r := ColumnPositions(points, angle, capStart, capEnd, rotate);
            forall j :: 0 <= j < PointsPerColumn(|points|, capStart, capEnd) ==>
              VertexAt(r, j) == ColumnVertex(points, angle, capStart, capEnd, rotate, j)
  {
    var r := ColumnPositions(points, angle, capStart, capEnd, rotate);
    var vOffset := if capStart then 1 else 0;
    var startCap: seq<real> := if capStart then CapPosition(points[0]) else [];
    var rotated := RotatedPoints(points, |points|, angle, rotate);
    RotatedPointsShape(points, |points|, angle, rotate);
    assert r == startCap + rotated + (if capEnd then CapPosition(points[|points| - 1]) else []);
    forall j | 0 <= j < PointsPerColumn(|points|, capStart, capEnd)
      ensures VertexAt(r, j) == ColumnVertex(points, angle, capStart, capEnd, rotate, j)
    {
      if capStart && j == 0 {
      } else if j < |points| + vOffset {
        assert VertexAt(r, j) == VertexAt(rotated, j - vOffset);
      }
    }
  }

  lemma {:induction false} ProfileTexcoordsShape(u: real, count: nat, vOffset: nat, quadsDown: nat)
    requires quadsDown >= 1
    ensures forall i :: 0 <= i < count ==> TexU(ProfileTexcoords(u, count, vOffset, quadsDown), i) == u
    ensures forall i :: 0 <= i < count ==>
              TexV(ProfileTexcoords(u, count, vOffset, quadsDown), i) == (i + vOffset) as real / quadsDown as real
  {
    if count > 0 {
      ProfileTexcoordsShape(u, count - 1, vOffset, quadsDown);
      var r := ProfileTexcoords(u, count, vOffset, quadsDown);
      var prev := ProfileTexcoords(u, count - 1, vOffset, quadsDown);
      forall i | 0 <= i < count
        ensures TexU(r, i) == u && TexV(r, i) == (i + vOffset) as real / quadsDown as real
      {
        if i < count - 1 {
          assert TexU(r, i) == TexU(prev, i) && TexV(r, i) == TexV(prev, i);
        } else {
          assert r == prev + [u, (i + vOffset) as real / quadsDown as real];
        }
      }
    }
  }

  /** Every vertex j of a column has the column's u and v = j / quadsDown:
      v runs from 0 at the first vertex to 1 at the last, whichever caps the
      column has. */
  lemma ColumnTexcoordsShape(numPoints: nat, u: real, capStart: bool, capEnd: bool)
    requires PointsPerColumn(numPoints, capStart, capEnd) >= 2
    ensures forall j :: 0 <= j < PointsPerColumn(numPoints, capStart, capEnd) ==>
              TexU(ColumnTexcoords(numPoints, u, capStart, capEnd), j) == u
    ensures forall j :: 0 <= j < PointsPerColumn(numPoints, capStart, capEnd) ==>
              TexV(ColumnTexcoords(numPoints, u, capStart, capEnd), j)
                == j as real / (PointsPerColumn(numPoints, capStart, capEnd) - 1) as real
  {
    var r := ColumnTexcoords(numPoints, u, capStart, capEnd);
    var quadsDown := PointsPerColumn(numPoints, capStart, capEnd) - 1;
    var vOffset := if capStart then 1 else 0;
    var startCap: seq<real> := if capStart then [u, 0.0] else [];
    var profile := ProfileTexcoords(u, numPoints, vOffset, quadsDown);
    ProfileTexcoordsShape(u, numPoints, vOffset, quadsDown);
    assert r == startCap + profile + (if capEnd then [u, 1.0] else []);
    forall j | 0 <= j <= quadsDown
      ensures TexU(r, j) == u && TexV(r, j) == j as real / quadsDown as real
    {
      if capStart && j == 0 {
      } else if j < numPoints + vOffset {
        assert TexU(r, j) == TexU(profile, j - vOffset) && TexV(r, j) == TexV(profile, j - vOffset);
      } else {
        assert j == quadsDown;
      }
    }
  }

  lemma {:induction false} PositionsLength(points: seq<Point2>, startAngle: real, endAngle: real, numDivisions: nat, capStart: bool,
                                           capEnd: bool, rotate: Rotation, columns: nat)
    requires points != [] && numDivisions >= 1
    ensures |Positions(points, startAngle, endAngle, numDivisions, capStart, capEnd, rotate, columns)|
            == 3 * (columns * PointsPerColumn(|points|, capStart, capEnd))
  {
    if columns > 0 {
      PositionsLength(points, startAngle, endAngle, numDivisions, capStart, capEnd, rotate, columns - 1);
      MulSucc(columns - 1, PointsPerColumn(|points|, capStart, capEnd));
    }
  }

  /** The position buffer holds whole vertices. */
  lemma PositionsAreWholeVertices(points: seq<Point2>, startAngle: real, endAngle: real, numDivisions: nat, capStart: bool,
                                  capEnd: bool, rotate: Rotation, columns: nat)
    requires points != [] && numDivisions >= 1
    ensures |Positions(points, startAngle, endAngle, numDivisions, capStart, capEnd, rotate, columns)| % 3 == 0
  {
    PositionsLength(points, startAngle, endAngle, numDivisions, capStart, capEnd, rotate, columns);
    TimesThree(columns * PointsPerColumn(|points|, capStart, capEnd));
  }

  lemma TimesThree(m: nat)
    ensures (3 * m) % 3 == 0
  {
  }

  lemma {:induction false} TexcoordsLength(numPoints: nat, numDivisions: nat, capStart: bool, capEnd: bool, columns: nat)
    requires numDivisions >= 1 && PointsPerColumn(numPoints, capStart, capEnd) >= 2
    ensures |Texcoords(numPoints, numDivisions, capStart, capEnd, columns)| == 2 * (columns * PointsPerColumn(numPoints, capStart, capEnd))
  {
    if columns > 0 {
      TexcoordsLength(numPoints, numDivisions, capStart, capEnd, columns - 1);
      MulSucc(columns - 1, PointsPerColumn(numPoints, capStart, capEnd));
    }
  }

  lemma {:induction false} ColumnIndicesLength(column1Offset: int, column2Offset: int, quads: nat)
    ensures |ColumnIndices(column1Offset, column2Offset, quads)| == 6 * quads
  {
    if quads > 0 {
      ColumnIndicesLength(column1Offset, column2Offset, quads - 1);
    }
  }

  lemma {:induction false} IndicesLength(pointsPerColumn: nat, quadsDown: nat, divisions: nat)
    ensures |Indices(pointsPerColumn, quadsDown, divisions)| == 6 * (divisions * quadsDown)
  {
    if divisions > 0 {
      IndicesLength(pointsPerColumn, quadsDown, divisions - 1);
      var column1Offset := (divisions - 1) * pointsPerColumn;
      ColumnIndicesLength(column1Offset, column1Offset + pointsPerColumn, quadsDown);
      MulSucc(divisions - 1, quadsDown);
    }
  }

  /** (a + 1) * b == a * b + b, and a * b grows with a. */
  lemma MulSucc(a: nat, b: nat)
    ensures (a + 1) * b == a * b + b
    ensures a * b <= (a + 1) * b
  {
  }

  /** Every index of the first divisions column pairs lies in [lo, hi). */
  predicate IndicesWithin(indices: seq<int>, lo: int, hi: int)
  {
    forall k :: 0 <= k < |indices| ==> lo <= indices[k] < hi
  }

  lemma {:induction false} ColumnIndicesWithin(column1Offset: int, column2Offset: int, quads: nat)
    requires column1Offset <= column2Offset
    ensures IndicesWithin(ColumnIndices(column1Offset, column2Offset, quads), column1Offset, column2Offset + quads + 1)
  {
    if quads > 0 {
      ColumnIndicesWithin(column1Offset, column2Offset, quads - 1);
    }
  }

  /** Every index the triangles of the first divisions column pairs use
      names one of the vertices of the first divisions + 1 columns. */
  lemma {:induction false} IndicesInRange(pointsPerColumn: nat, divisions: nat)
    requires pointsPerColumn >= 1
    ensures IndicesWithin(Indices(pointsPerColumn, pointsPerColumn - 1, divisions), 0, (divisions + 1) * pointsPerColumn)
  {
    if divisions > 0 {
      IndicesInRange(pointsPerColumn, divisions - 1);
      var column1Offset := (divisions - 1) * pointsPerColumn;
      ColumnIndicesWithin(column1Offset, column1Offset + pointsPerColumn, pointsPerColumn - 1);
      MulSucc(divisions - 1, pointsPerColumn);
      MulSucc(divisions, pointsPerColumn);
      var prev := Indices(pointsPerColumn, pointsPerColumn - 1, divisions - 1);
      var column := ColumnIndices(column1Offset, column1Offset + pointsPerColumn, pointsPerColumn - 1);
      var hi := (divisions + 1) * pointsPerColumn;
      forall k | 0 <= k < |prev + column|
        ensures 0 <= (prev + column)[k] < hi
      {
        if k < |prev| {
          assert 0 <= prev[k] < divisions * pointsPerColumn;
        } else {
          assert column1Offset <= column[k - |prev|] < column1Offset + 2 * pointsPerColumn;
        }
      }
    }
  }

  lemma VertexAtConcat(prev: seq<real>, column: seq<real>, base: nat, j: nat)
    requires |prev| == 3 * base && 3 * j + 2 < |column|
    ensures 3 * (base + j) + 2 < |prev + column|
    ensures VertexAt(prev + column, base + j) == VertexAt(column, j)
  {
  }

  lemma VertexAtPrefix(prev: seq<real>, column: seq<real>, i: nat)
    requires 3 * i + 2 < |prev|
    ensures VertexAt(prev + column, i) == VertexAt(prev, i)
  {
  }

  lemma TexcoordAtConcat(prev: seq<real>, column: seq<real>, base: nat, j: nat)
    requires |prev| == 2 * base && 2 * j + 1 < |column|
    ensures 2 * (base + j) + 1 < |prev + column|
    ensures TexU(prev + column, base + j) == TexU(column, j) && TexV(prev + column, base + j) == TexV(column, j)
  {
  }

  lemma TexcoordAtPrefix(prev: seq<real>, column: seq<real>, i: nat)
    requires 2 * i + 1 < |prev|
    ensures TexU(prev + column, i) == TexU(prev, i) && TexV(prev + column, i) == TexV(prev, i)
  {
  }

  /** Column d of columns columns starts at a non-negative vertex and ends
      within them. */
  lemma ColumnOffset(d: nat, columns: nat, pointsPerColumn: nat)
    requires d < columns
    ensures 0 <= d * pointsPerColumn && d * pointsPerColumn + pointsPerColumn <= columns * pointsPerColumn
  {
    MulMonotone(0, d, pointsPerColumn);
    MulMonotone(d + 1, columns, pointsPerColumn);
    MulSucc(d, pointsPerColumn);
  }

  lemma {:induction false} MulMonotone(a: nat, c: nat, b: nat)
    requires a <= c
    ensures a * b <= c * b
    decreases c - a
  {
    if a < c {
      MulMonotone(a, c - 1, b);
      MulSucc(c - 1, b);
    }
  }

  /** Vertex j of column d of the position buffer is vertex j of that
      column, turned by the column's angle. */
  lemma {:induction false} PositionsColumn(points: seq<Point2>, startAngle: real, endAngle: real, numDivisions: nat, capStart: bool,
                                           capEnd: bool, rotate: Rotation, columns: nat, d: nat, j: nat)
    requires points != [] && numDivisions >= 1
    requires d < columns && j < PointsPerColumn(|points|, capStart, capEnd)
    ensures 3 * (d * PointsPerColumn(|points|, capStart, capEnd) + j) + 2
            < |Positions(points, startAngle, endAngle, numDivisions, capStart, capEnd, rotate, columns)|
    ensures VertexAt(Positions(points, startAngle, endAngle, numDivisions, capStart, capEnd, rotate, columns),
                     d * PointsPerColumn(|points|, capStart, capEnd) + j)
            == ColumnVertex(points, Angle(startAngle, endAngle, d, numDivisions), capStart, capEnd, rotate, j)
  {
    var ppc := PointsPerColumn(|points|, capStart, capEnd);
    ColumnOffset(d, columns, ppc);
    var prev := Positions(points, startAngle, endAngle, numDivisions, capStart, capEnd, rotate, columns - 1);
    var column := ColumnPositions(points, Angle(startAngle, endAngle, columns - 1, numDivisions), capStart, capEnd, rotate);
    PositionsLength(points, startAngle, endAngle, numDivisions, capStart, capEnd, rotate, columns - 1);
    if d == columns - 1 {
      ColumnPositionsShape(points, Angle(startAngle, endAngle, d, numDivisions), capStart, capEnd, rotate);
      VertexAtConcat(prev, column, d * ppc, j);
    } else {
      PositionsColumn(points, startAngle, endAngle, numDivisions, capStart, capEnd, rotate, columns - 1, d, j);
      VertexAtPrefix(prev, column, d * ppc + j);
    }
  }

  /** Vertex j of column d has u = d / numDivisions and v = j / quadsDown. */
  lemma {:induction false} TexcoordsColumn(numPoints: nat, numDivisions: nat, capStart: bool, capEnd: bool, columns: nat, d: nat, j: nat)
    requires numDivisions >= 1 && PointsPerColumn(numPoints, capStart, capEnd) >= 2
    requires d < columns && j < PointsPerColumn(numPoints, capStart, capEnd)
    ensures 2 * (d * PointsPerColumn(numPoints, capStart, capEnd) + j) + 1 < |Texcoords(numPoints, numDivisions, capStart, capEnd, columns)|
    ensures TexU(Texcoords(numPoints, numDivisions, capStart, capEnd, columns), d * PointsPerColumn(numPoints, capStart, capEnd) + j)
            == U(d, numDivisions)
    ensures TexV(Texcoords(numPoints, numDivisions, capStart, capEnd, columns), d * PointsPerColumn(numPoints, capStart, capEnd) + j)
            == j as real / (PointsPerColumn(numPoints, capStart, capEnd) - 1) as real
  {
    var ppc := PointsPerColumn(numPoints, capStart, capEnd);
    ColumnOffset(d, columns, ppc);
    var prev := Texcoords(numPoints, numDivisions, capStart, capEnd, columns - 1);
    var column := ColumnTexcoords(numPoints, U(columns - 1, numDivisions), capStart, capEnd);
    TexcoordsLength(numPoints, numDivisions, capStart, capEnd, columns - 1);
    if d == columns - 1 {
      ColumnTexcoordsShape(numPoints, U(d, numDivisions), capStart, capEnd);
      TexcoordAtConcat(prev, column, d * ppc, j);
    } else {
      TexcoordsColumn(numPoints, numDivisions, capStart, capEnd, columns - 1, d, j);
      TexcoordAtPrefix(prev, column, d * ppc + j);
    }
  }

  /** Every number in the buffer lies in [0, 1]. */
  predicate InUnit(s: seq<real>)
  {
    forall k :: 0 <= k < |s| ==> 0.0 <= s[k] <= 1.0
  }

  lemma UnitFraction(a: nat, b: nat)
    requires a <= b && b >= 1
    ensures 0.0 <= a as real / b as real <= 1.0
  {
    assert (a as real / b as real) * b as real == a as real;
  }

  lemma ColumnTexcoordsInUnit(numPoints: nat, u: real, capStart: bool, capEnd: bool)
    requires PointsPerColumn(numPoints, capStart, capEnd) >= 2 && 0.0 <= u <= 1.0
    ensures InUnit(ColumnTexcoords(numPoints, u, capStart, capEnd))
  {
    var r := ColumnTexcoords(numPoints, u, capStart, capEnd);
    var quadsDown := PointsPerColumn(numPoints, capStart, capEnd) - 1;
    ColumnTexcoordsShape(numPoints, u, capStart, capEnd);
    forall k | 0 <= k < |r|
      ensures 0.0 <= r[k] <= 1.0
    {
      var j := k / 2;
      if k % 2 == 0 {
        assert r[k] == TexU(r, j);
      } else {
        assert r[k] == TexV(r, j);
        UnitFraction(j, quadsDown);
      }
    }
  }

  /** Every texture coordinate of the first columns columns lies in [0, 1]. */
  lemma {:induction false} TexcoordsInUnit(numPoints: nat, numDivisions: nat, capStart: bool, capEnd: bool, columns: nat)
    requires numDivisions >= 1 && PointsPerColumn(numPoints, capStart, capEnd) >= 2 && columns <= numDivisions + 1
    ensures InUnit(Texcoords(numPoints, numDivisions, capStart, capEnd, columns))
  {
    if columns > 0 {
      TexcoordsInUnit(numPoints, numDivisions, capStart, capEnd, columns - 1);
      ColumnTexcoordsInUnit(numPoints, U(columns - 1, numDivisions), capStart, capEnd);
      var prev := Texcoords(numPoints, numDivisions, capStart, capEnd, columns - 1);
      var column := ColumnTexcoords(numPoints, U(columns - 1, numDivisions), capStart, capEnd);
      assert forall k :: 0 <= k < |prev + column| ==> (prev + column)[k] == if k < |prev| then prev[k] else column[k - |prev|];
    }
  }

  /** The shape of the mesh lathePoints returns: numDivisions + 1 columns of
      pointsPerColumn vertices with a texture coordinate in [0, 1] each, two
      triangles per quad, and every triangle index naming a vertex. */
  lemma LatheMeshShape(points: seq<Point2>, startAngle: real, endAngle: real, numDivisions: nat, capStart: bool, capEnd: bool,
                       rotate: Rotation)
    requires points != [] && numDivisions >= 1 && PointsPerColumn(|points|, capStart, capEnd) >= 2
    ensures var mesh := LatheMesh(points, startAngle, endAngle, numDivisions, capStart, capEnd, rotate);
            var pointsPerColumn := PointsPerColumn(|points|, capStart, capEnd);
            && |mesh.position| == 3 * ((numDivisions + 1) * pointsPerColumn)
            && |mesh.texcoord| == 2 * ((numDivisions + 1) * pointsPerColumn)
            && |mesh.indices| == 6 * (numDivisions * (pointsPerColumn - 1))
            && IndicesWithin(mesh.indices, 0, (numDivisions + 1) * pointsPerColumn)
            && InUnit(mesh.texcoord)
  {
    var pointsPerColumn := PointsPerColumn(|points|, capStart, capEnd);
    PositionsLength(points, startAngle, endAngle, numDivisions, capStart, capEnd, rotate, numDivisions + 1);
    TexcoordsLength(|points|, numDivisions, capStart, capEnd, numDivisions + 1);
    IndicesLength(pointsPerColumn, pointsPerColumn - 1, numDivisions);
    IndicesInRange(pointsPerColumn, numDivisions);
    TexcoordsInUnit(|points|, numDivisions, capStart, capEnd, numDivisions + 1);
  }

  /** Vertex j of column d of the mesh: its position is vertex j of the
      profile column turned by lerp(startAngle, endAngle, d / numDivisions)
      (a cap stays on the axis), its u is d / numDivisions and its v is
      j / quadsDown, so the start cap has v = 0 and the end cap v = 1. */
  lemma LatheMeshVertex(points: seq<Point2>, startAngle: real, endAngle: real, numDivisions: nat, capStart: bool, capEnd: bool,
                        rotate: Rotation, d: nat, j: nat)
    requires points != [] && numDivisions >= 1 && PointsPerColumn(|points|, capStart, capEnd) >= 2
    requires d <= numDivisions && j < PointsPerColumn(|points|, capStart, capEnd)
    ensures var mesh := LatheMesh(points, startAngle, endAngle, numDivisions, capStart, capEnd, rotate);
            var pointsPerColumn := PointsPerColumn(|points|, capStart, capEnd);
            var vertex := d * pointsPerColumn + j;
            && 3 * vertex + 2 < |mesh.position| && 2 * vertex + 1 < |mesh.texcoord|
            && VertexAt(mesh.position, vertex) == ColumnVertex(points, Angle(startAngle, endAngle, d, numDivisions), capStart, capEnd, rotate, j)
            && TexU(mesh.texcoord, vertex) == d as real / numDivisions as real
            && TexV(mesh.texcoord, vertex) == j as real / (pointsPerColumn - 1) as real
  {
    PositionsColumn(points, startAngle, endAngle, numDivisions, capStart, capEnd, rotate, numDivisions + 1, d, j);
    TexcoordsColumn(|points|, numDivisions, capStart, capEnd, numDivisions + 1, d, j);
  }
}
