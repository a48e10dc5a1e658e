/**
 Douglas-Peucker simplification of a route's line, over any non-negative point-to-chord distance.
 */
module Polyline {

  datatype Point = Point(x: real, y: real)

  // ---- simplification --------------------------------------------------------------------

  ghost predicate NonNegative(distance: (Point, Point, Point) -> real) {
    forall x, a, b :: distance(x, a, b) >= 0.0
  }

  /** `kept` lists, in order and with both ends, the positions of `r` in `points`. */
  ghost predicate Selects(points: seq<Point>, r: seq<Point>, kept: seq<nat>) {
    && |kept| == |r| && (points == [] <==> r == [])
    && (forall i :: 0 <= i < |r| ==> kept[i] < |points| && r[i] == points[kept[i]])
    && (forall i, j :: 0 <= i < j < |r| ==> kept[i] < kept[j])
    && (r != [] ==> kept[0] == 0 && kept[|r| - 1] == |points| - 1)
  }

  /** Every dropped point is within tolerance of the chord of its kept neighbours. */
  ghost predicate Within(points: seq<Point>, kept: seq<nat>, tolerance: real, distance: (Point, Point, Point) -> real) {
    forall i, j :: 0 <= i < |kept| - 1 && kept[i] < j < kept[i + 1] < |points| ==>
      distance(points[j], points[kept[i]], points[kept[i + 1]]) <= tolerance
  }

  /** The point at `k` is off the chord from `a` to `b`, and none between them is farther off. */
  ghost predicate SplitsAt(points: seq<Point>, a: nat, k: nat, b: nat, tolerance: real,
                           distance: (Point, Point, Point) -> real)
  {
    && a < k < b < |points| && distance(points[k], points[a], points[b]) > tolerance
    && forall j :: a < j < b ==> distance(points[j], points[a], points[b]) <= distance(points[k], points[a], points[b])
  }

  /** Some stretch between two kept points was split at the `i`-th kept point. */
  ghost predicate JustifiedAt(points: seq<Point>, kept: seq<nat>, i: nat, tolerance: real,
                              distance: (Point, Point, Point) -> real)
    requires i < |kept|
  {
    exists a: nat, b: nat :: a < i < b < |kept| && SplitsAt(points, kept[a], kept[i], kept[b], tolerance, distance)
  }

  /** No inner point is kept without need. */
  ghost predicate Justified(points: seq<Point>, kept: seq<nat>, tolerance: real, distance: (Point, Point,
                            Point) -> real) {
    forall i :: 0 < i < |kept| - 1 ==> JustifiedAt(points, kept, i, tolerance, distance)
  }

  /** `r` is a simplification of `points`. */
  ghost predicate Simplifies(points: seq<Point>, r: seq<Point>, tolerance: real, distance: (Point, Point,
                             Point) -> real) {
    exists kept :: Selects(points, r, kept) && Within(points, kept, tolerance, distance)
                   && Justified(points, kept, tolerance, distance)
  }

  /** Every inner point is within tolerance of the chord of the ends. */
  ghost predicate NearChord(points: seq<Point>, tolerance: real, distance: (Point, Point, Point) -> real) {
    forall j :: 1 <= j < |points| - 1 ==> distance(points[j], points[0], points[|points| - 1]) <= tolerance
  }

  /** The farthest inner point from the chord of the ends. */
  method Farthest(points: seq<Point>, distance: (Point, Point, Point) -> real) returns (maximum: real, split: nat)
    requires |points| > 2 && NonNegative(distance)
    ensures 1 <= split < |points| - 1
    ensures maximum == distance(points[split], points[0], points[|points| - 1])
    ensures forall j :: 1 <= j < |points| - 1 ==> distance(points[j], points[0], points[|points| - 1]) <= maximum
  {
    var start, end := points[0], points[|points| - 1];
    maximum, split := -1.0, 0;
    for index := 1 to |points| - 1
      invariant index == 1 ==> maximum == -1.0
      invariant index > 1 ==> 1 <= split < index && maximum == distance(points[split], start, end)
      invariant forall j :: 1 <= j < index ==> distance(points[j], start, end) <= maximum
    {
      var d := distance(points[index], start, end);
      if d > maximum {
        maximum, split := d, index;
      }
    }
  }

  /** Shift the right half's positions and join at the split point. */
  ghost function Joined(left: seq<nat>, right: seq<nat>, split: nat): seq<nat>
    requires left != []
  {
    left[..|left| - 1] + seq(|right|, i requires 0 <= i < |right| => right[i] + split)
  }

  lemma JoinSelects(points: seq<Point>, split: nat, l: seq<Point>, left: seq<nat>, r: seq<Point>, right: seq<nat>)
    requires 1 <= split < |points| - 1
    requires Selects(points[..split + 1], l, left) && Selects(points[split..], r, right)
    ensures Selects(points, l[..|l| - 1] + r, Joined(left, right, split))
  {
  }

  lemma JoinWithin(points: seq<Point>, split: nat, l: seq<Point>, left: seq<nat>, r: seq<Point>, right: seq<nat>,
                      tolerance: real, distance: (Point, Point, Point) -> real)
    requires 1 <= split < |points| - 1
    requires Selects(points[..split + 1], l, left) && Selects(points[split..], r, right)
    requires Within(points[..split + 1], left, tolerance, distance)
    requires Within(points[split..], right, tolerance, distance)
    ensures Within(points, Joined(left, right, split), tolerance, distance)
  {
    var kept := Joined(left, right, split);
    var n := |left| - 1;
    assert right[0] == 0 && left[n] == split;
    forall i, j | 0 <= i < |kept| - 1 && kept[i] < j < kept[i + 1] < |points|
      ensures distance(points[j], points[kept[i]], points[kept[i + 1]]) <= tolerance
    {
      if i < n {
        assert kept[i] == left[i] && kept[i + 1] == left[i + 1];
        assert points[..split + 1][j] == points[j];
      } else {
        assert kept[i] == right[i - n] + split && kept[i + 1] == right[i - n + 1] + split;
        assert points[split..][j - split] == points[j];
      }
    }
  }

  lemma JoinJustified(points: seq<Point>, split: nat, l: seq<Point>, left: seq<nat>, r: seq<Point>, right: seq<nat>,
                      tolerance: real, distance: (Point, Point, Point) -> real)
    requires points != [] && SplitsAt(points, 0, split, |points| - 1, tolerance, distance)
    requires Selects(points[..split + 1], l, left) && Selects(points[split..], r, right)
    requires Justified(points[..split + 1], left, tolerance, distance)
    requires Justified(points[split..], right, tolerance, distance)
    ensures Justified(points, Joined(left, right, split), tolerance, distance)
  {
    var kept, n := Joined(left, right, split), |left| - 1;
    assert right[0] == 0 && left[n] == split && left[0] == 0 && right[|right| - 1] == |points| - 1 - split;
    assert forall x :: 0 <= x < |left| ==> kept[x] == left[x];
    assert forall x :: 0 <= x < |right| ==> kept[n + x] == right[x] + split;
    assert SplitsAt(points, kept[0], kept[n], kept[|kept| - 1], tolerance, distance);
    forall i | 0 < i < |kept| - 1
      ensures JustifiedAt(points, kept, i, tolerance, distance)
    {
      if i < n {
        LiftLeft(points, split, left, i, kept, tolerance, distance);
      } else if i > n {
        LiftRight(points, split, right, i - n, kept, n, tolerance, distance);
      }
    }
  }

  /** A justification in a part of the line is one in the whole. */
  lemma LiftLeft(points: seq<Point>, split: nat, left: seq<nat>, i: nat, all: seq<nat>, tolerance: real,
                 distance: (Point, Point, Point) -> real)
    requires split < |points| && |left| <= |all| && forall x :: 0 <= x < |left| ==> all[x] == left[x]
    requires i < |left| && JustifiedAt(points[..split + 1], left, i, tolerance, distance)
    ensures JustifiedAt(points, all, i, tolerance, distance)
  {
    var part := points[..split + 1];
    var a: nat, b: nat :| a < i < b < |left| && SplitsAt(part, left[a], left[i], left[b], tolerance, distance);
    forall j | left[a] < j < left[b]
      ensures distance(points[j], points[left[a]], points[left[b]])
           <= distance(points[left[i]], points[left[a]], points[left[b]])
    {
      assert part[j] == points[j];
    }
    assert SplitsAt(points, all[a], all[i], all[b], tolerance, distance);
  }

  lemma LiftRight(points: seq<Point>, split: nat, right: seq<nat>, i: nat, all: seq<nat>, n: nat, tolerance: real,
                  distance: (Point, Point, Point) -> real)
    requires split < |points| && n + |right| <= |all| && forall x :: 0 <= x < |right| ==> all[n + x] == right[x] + split
    requires i < |right| && JustifiedAt(points[split..], right, i, tolerance, distance)
    ensures JustifiedAt(points, all, n + i, tolerance, distance)
  {
    var part := points[split..];
    var a: nat, b: nat :| a < i < b < |right| && SplitsAt(part, right[a], right[i], right[b], tolerance, distance);
    var from, at, to := right[a] + split, right[i] + split, right[b] + split;
    forall j | from < j < to
      ensures distance(points[j], points[from], points[to]) <= distance(points[at], points[from], points[to])
    {
      assert part[j - split] == points[j];
    }
    assert SplitsAt(points, all[n + a], all[n + i], all[n + b], tolerance, distance);
  }

  /**
   Douglas-Peucker, for any points, tolerance and non-negative distance: a subsequence with both
   ends kept, every dropped point within tolerance of the chord it was replaced by, and every kept
   point a farthest one, beyond tolerance, of a stretch between two kept points.
   */
  method DouglasPeucker(points: seq<Point>, tolerance: real, distance: (Point, Point, Point) -> real)
    returns (r: seq<Point>, ghost kept: seq<nat>)
    requires NonNegative(distance)
    ensures Selects(points, r, kept) && Within(points, kept, tolerance, distance)
    ensures Justified(points, kept, tolerance, distance)
    ensures |points| > 2 ==> (|r| == 2 <==> NearChord(points, tolerance, distance))
    decreases |points|
  {
    if |points| <= 2 {
      return points, seq(|points|, i => i);
    }
    var maximum, split := Farthest(points, distance);
    if maximum <= tolerance {
      return [points[0], points[|points| - 1]], [0, |points| - 1];
    }
    var l, left := DouglasPeucker(points[..split + 1], tolerance, distance);
    var rest, right := DouglasPeucker(points[split..], tolerance, distance);
    JoinSelects(points, split, l, left, rest, right);
    JoinWithin(points, split, l, left, rest, right, tolerance, distance);
    JoinJustified(points, split, l, left, rest, right, tolerance, distance);
    r, kept := l[..|l| - 1] + rest, Joined(left, right, split);
  }

  /** What a caller sees of it. */
  method Simplify(points: seq<Point>, tolerance: real, distance: (Point, Point, Point) -> real) returns (r: seq<Point>)
    requires NonNegative(distance)
    ensures Simplifies(points, r, tolerance, distance)
    ensures |points| > 2 ==> (r == [points[0], points[|points| - 1]] <==> NearChord(points, tolerance, distance))
  {
    ghost var kept;
    r, kept := DouglasPeucker(points, tolerance, distance);
  }
}
