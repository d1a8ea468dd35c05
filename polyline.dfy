// The growing point list that the flattening and simplification functions
// of curve/curve.js push into, and the shape of what they push: pairs of
// end points, one pair per chord.
module Polyline {
  import opened Vec2

  /** A JS array of points that callers share and extend with `push`. */
  class PointList {
    var items: seq<Point2>

    constructor ()
      ensures items == []
    {
      items := [];
    }

    /** outPoints.push(p) */
    method Push(p: Point2)
      modifies this
      ensures items == old(items) + [p]
    {
      items := items + [p];
    }
  }

  /** A chord between two end points, pushed as the two entries from, to. */
  datatype Chord<T> = Chord(from: T, to: T)

  /** The flat list the chords are pushed as: from, to, from, to, ... */
  function Flat<T>(chords: seq<Chord<T>>): (r: seq<T>)
    ensures |r| == 2 * |chords|
    ensures forall i :: 0 <= i < |chords| ==> r[2 * i] == chords[i].from && r[2 * i + 1] == chords[i].to
  {
    if chords == [] then [] else [chords[0].from, chords[0].to] + Flat(chords[1..])
  }

  /** Flattening distributes over concatenation. */
  lemma {:induction false} FlatConcat<T>(a: seq<Chord<T>>, b: seq<Chord<T>>)
    ensures Flat(a + b) == Flat(a) + Flat(b)
  {
    if a != [] {
      assert (a + b)[1..] == a[1..] + b;
      FlatConcat(a[1..], b);
      calc {
        Flat(a + b);
        [a[0].from, a[0].to] + Flat(a[1..] + b);
        [a[0].from, a[0].to] + (Flat(a[1..]) + Flat(b));
        ([a[0].from, a[0].to] + Flat(a[1..])) + Flat(b);
      }
    } else {
      assert a + b == b;
    }
  }

  /** Appending a and then b appends a + b. */
  lemma AppendInTurn<T>(before: seq<T>, middle: seq<T>, after: seq<T>, a: seq<T>, b: seq<T>)
    requires middle == before + a
    requires after == middle + b
    ensures after == before + (a + b)
  {
  }

  lemma AppendFlatInTurn<T>(before: seq<T>, middle: seq<T>, after: seq<T>, a: seq<Chord<T>>, b: seq<Chord<T>>)
    requires middle == before + Flat(a)
    requires after == middle + Flat(b)
    ensures after == before + Flat(a + b)
  {
    FlatConcat(a, b);
    AppendInTurn(before, middle, after, Flat(a), Flat(b));
  }

  /** Every chord starts where the previous one ended. */
  predicate Connected<T(==)>(chords: seq<Chord<T>>)
  {
    forall i :: 0 <= i < |chords| - 1 ==> chords[i].to == chords[i + 1].from
  }

  /** Two connected runs joined where the first ends and the second begins
      form one connected run. */
  lemma ConnectedConcat<T>(a: seq<Chord<T>>, b: seq<Chord<T>>)
    requires Connected(a) && Connected(b)
    requires a != [] && b != [] && a[|a| - 1].to == b[0].from
    ensures Connected(a + b)
  {
    var s := a + b;
    forall i | 0 <= i < |s| - 1
      ensures s[i].to == s[i + 1].from
    {
      if i + 1 < |a| {
        assert s[i] == a[i] && s[i + 1] == a[i + 1];
      } else if i + 1 == |a| {
        assert s[i] == a[|a| - 1] && s[i + 1] == b[0];
      } else {
        assert s[i] == b[i - |a|] && s[i + 1] == b[i + 1 - |a|];
      }
    }
  }
}
