// getExtents of curve/curve.js: the per-axis bounding box of a flat
// position buffer x0, y0, z0, x1, y1, z1, ...
module Extents {
  import Scalar

  /** The { min, max } object getExtents returns: three numbers each, or
      none for an empty buffer. */
  datatype Bounds = Bounds(min: seq<real>, max: seq<real>)

  /** Coordinate k (0 = x, 1 = y, 2 = z) of vertex v. */
  function Coord(positions: seq<real>, v: nat, k: nat): real
    requires k < 3 && 3 * v + k < |positions|
  {
    positions[3 * v + k]
  }

  /** min[k] after the first count vertices: it starts as coordinate k of
      vertex 0 and takes Math.min with each later vertex in turn. */
  function AxisMin(positions: seq<real>, k: nat, count: nat): real
    requires k < 3 && 1 <= count && 3 * count <= |positions|
  {
    if count == 1 then positions[k]
    else Scalar.Min(positions[3 * (count - 1) + k], AxisMin(positions, k, count - 1))
  }

  /** max[k] after the first count vertices. */
  function AxisMax(positions: seq<real>, k: nat, count: nat): real
    requires k < 3 && 1 <= count && 3 * count <= |positions|
  {
    if count == 1 then positions[k]
    else Scalar.Max(positions[3 * (count - 1) + k], AxisMax(positions, k, count - 1))
  }

  /** The bounds getExtents returns for a buffer of whole vertices, or for
      a buffer shorter than one vertex, which slice(0, 3) returns whole as
      both min and max. */
  function Extent(positions: seq<real>): Bounds
    requires |positions| < 3 || |positions| % 3 == 0
  {
    if |positions| < 3 then Bounds(positions, positions)
    else
      var n := |positions| / 3;
      Bounds([AxisMin(positions, 0, n), AxisMin(positions, 1, n), AxisMin(positions, 2, n)],
             [AxisMax(positions, 0, n), AxisMax(positions, 1, n), AxisMax(positions, 2, n)])
  }

  /** getExtents(positions): min and max start as copies of the first
      vertex (positions.slice(0, 3)) and are updated in place, one vertex at
      a time. */
  method GetExtents(positions: seq<real>) returns (r: Bounds)
    requires |positions| < 3 || |positions| % 3 == 0
    ensures r == Extent(positions)
  {
    var first := if |positions| < 3 then |positions| else 3;
    var min := positions[..first];
    var max := positions[..first];
    ghost var count := 1;
    if |positions| >= 3 {
      assert min == [AxisMin(positions, 0, 1), AxisMin(positions, 1, 1), AxisMin(positions, 2, 1)];
      assert max == [AxisMax(positions, 0, 1), AxisMax(positions, 1, 1), AxisMax(positions, 2, 1)];
    }

    var i := 3;
    while i < |positions|
      invariant i == 3 * count && 1 <= count
      invariant |positions| >= 3 ==> i <= |positions|
      invariant |positions| < 3 ==> min == positions && max == positions
      invariant |positions| >= 3 ==>
                  min == [AxisMin(positions, 0, count), AxisMin(positions, 1, count), AxisMin(positions, 2, count)] &&
                  max == [AxisMax(positions, 0, count), AxisMax(positions, 1, count), AxisMax(positions, 2, count)]
    {
      min := min[0 := Scalar.Min(positions[i + 0], min[0])];
      min := min[1 := Scalar.Min(positions[i + 1], min[1])];
      min := min[2 := Scalar.Min(positions[i + 2], min[2])];
      max := max[0 := Scalar.Max(positions[i + 0], max[0])];
      max := max[1 := Scalar.Max(positions[i + 1], max[1])];
      max := max[2 := Scalar.Max(positions[i + 2], max[2])];
      i := i + 3;
      count := count + 1;
    }
    assert |positions| >= 3 ==> count == |positions| / 3;

    r := Bounds(min, max);
  }

  /** min[k] is at most coordinate k of every vertex seen. */
  lemma {:induction false} AxisMinIsLowerBound(positions: seq<real>, k: nat, count: nat)
    requires k < 3 && 1 <= count && 3 * count <= |positions|
    ensures forall v :: 0 <= v < count ==> AxisMin(positions, k, count) <= Coord(positions, v, k)
  {
    if count > 1 {
      AxisMinIsLowerBound(positions, k, count - 1);
    }
  }

  /** min[k] is coordinate k of some vertex seen. */
  lemma {:induction false} AxisMinIsAttained(positions: seq<real>, k: nat, count: nat)
    requires k < 3 && 1 <= count && 3 * count <= |positions|
    ensures exists v :: 0 <= v < count && AxisMin(positions, k, count) == Coord(positions, v, k)
  {
    if count == 1 {
      assert AxisMin(positions, k, count) == Coord(positions, 0, k);
    } else if AxisMin(positions, k, count) == Coord(positions, count - 1, k) {
    } else {
      AxisMinIsAttained(positions, k, count - 1);
    }
  }

  /** max[k] is at least coordinate k of every vertex seen. */
  lemma {:induction false} AxisMaxIsUpperBound(positions: seq<real>, k: nat, count: nat)
    requires k < 3 && 1 <= count && 3 * count <= |positions|
    ensures forall v :: 0 <= v < count ==> Coord(positions, v, k) <= AxisMax(positions, k, count)
  {
    if count > 1 {
      AxisMaxIsUpperBound(positions, k, count - 1);
    }
  }

  /** max[k] is coordinate k of some vertex seen. */
  lemma {:induction false} AxisMaxIsAttained(positions: seq<real>, k: nat, count: nat)
    requires k < 3 && 1 <= count && 3 * count <= |positions|
    ensures exists v :: 0 <= v < count && AxisMax(positions, k, count) == Coord(positions, v, k)
  {
    if count == 1 {
      assert AxisMax(positions, k, count) == Coord(positions, 0, k);
    } else if AxisMax(positions, k, count) == Coord(positions, count - 1, k) {
    } else {
      AxisMaxIsAttained(positions, k, count - 1);
    }
  }

  /** For a buffer of one or more whole vertices the bounds are a box that
      holds every vertex and touches the nearest and farthest vertex on each
      axis; a buffer shorter than one vertex is its own min and max. */
  lemma ExtentIsTight(positions: seq<real>)
    requires |positions| < 3 || |positions| % 3 == 0
    ensures var r := Extent(positions);
            |positions| < 3 ==> r.min == positions && r.max == positions
    ensures var r := Extent(positions);
            |positions| >= 3 ==>
              && |r.min| == 3 && |r.max| == 3
              && (forall v, k :: 0 <= v < |positions| / 3 && 0 <= k < 3 ==>
                    r.min[k] <= Coord(positions, v, k) <= r.max[k])
              && (forall k :: 0 <= k < 3 ==>
                    (exists v :: 0 <= v < |positions| / 3 && r.min[k] == Coord(positions, v, k)) &&
                    (exists v :: 0 <= v < |positions| / 3 && r.max[k] == Coord(positions, v, k)))
  {
    if |positions| >= 3 {
      var n := |positions| / 3;
      forall k | 0 <= k < 3
        ensures forall v :: 0 <= v < n ==> AxisMin(positions, k, n) <= Coord(positions, v, k) <= AxisMax(positions, k, n)
        ensures exists v :: 0 <= v < n && AxisMin(positions, k, n) == Coord(positions, v, k)
        ensures exists v :: 0 <= v < n && AxisMax(positions, k, n) == Coord(positions, v, k)
      {
        AxisMinIsLowerBound(positions, k, n);
        AxisMaxIsUpperBound(positions, k, n);
        AxisMinIsAttained(positions, k, n);
        AxisMaxIsAttained(positions, k, n);
      }
    }
  }
}
