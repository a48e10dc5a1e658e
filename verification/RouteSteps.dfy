/**
 Grouping a route's edges into steps.  The instruction pass and the map-point pass group
 independently and both collapse the middle of a long list; they must agree.
 */
module RouteSteps {
  import opened Polyline

  /** One edge of a found route: its stripped name, its road class and where it ends. */
  datatype RouteEdge = RouteEdge(name: string, highway: string, length: real, at: Point)

  type Key = (string, string)

  datatype Group = Group(key: Key, distance: real, start: Point, end: Point)

  const MAX_STEPS: nat := 30
  const KEPT: nat := 14
  const PLANNED: Key := ("planned route", "mixed")

  function KeyOf(e: RouteEdge): Key {
    (e.name, if e.name != "" then "" else e.highway)
  }

  /** Where the route is after its first edges. */
  function Reached(edges: seq<RouteEdge>, start: Point): Point {
    if edges == [] then start else edges[|edges| - 1].at
  }

  /** The groups of a route: maximal runs of edges with one key. */
  ghost function Groups(edges: seq<RouteEdge>, start: Point): seq<Group> {
    if edges == [] then []
    else
      var before, e := edges[..|edges| - 1], edges[|edges| - 1];
      AddEdge(Groups(before, start), e, Reached(before, start))
  }

  function AddEdge(groups: seq<Group>, e: RouteEdge, here: Point): seq<Group> {
    if groups != [] && groups[|groups| - 1].key == KeyOf(e) then
      var last := groups[|groups| - 1];
      groups[|groups| - 1 := last.(distance := last.distance + e.length, end := e.at)]
    else
      groups + [Group(KeyOf(e), e.length, here, e.at)]
  }

  function Total(groups: seq<Group>): real {
    if groups == [] then 0.0 else Total(groups[..|groups| - 1]) + groups[|groups| - 1].distance
  }

  ghost function RouteLength(edges: seq<RouteEdge>): real {
    if edges == [] then 0.0 else RouteLength(edges[..|edges| - 1]) + edges[|edges| - 1].length
  }

  /** Steps join end to start, begin at the route's start and end where it ends. */
  ghost predicate Joins(groups: seq<Group>, start: Point, end: Point) {
    && groups != [] && groups[0].start == start && groups[|groups| - 1].end == end
    && forall i, j :: 0 <= i && j == i + 1 < |groups| ==> groups[i].end == groups[j].start
  }

  function Collapse(groups: seq<Group>): seq<Group> {
    if |groups| <= MAX_STEPS then groups
    else
      var middle := groups[KEPT..|groups| - KEPT];
      groups[..KEPT]
      + [Group(PLANNED, Total(middle), middle[0].start, middle[|middle| - 1].end)]
      + groups[|groups| - KEPT..]
  }

  function CollapsePoints(points: seq<(Key, Point)>): seq<(Key, Point)> {
    if |points| <= MAX_STEPS then points
    else points[..KEPT] + [points[KEPT]] + points[|points| - KEPT..]
  }

  // ---- the groups conserve the route -----------------------------------------------------

  lemma {:induction false} GroupsConserve(edges: seq<RouteEdge>, start: Point)
    requires edges != []
    ensures Joins(Groups(edges, start), start, edges[|edges| - 1].at)
    ensures Total(Groups(edges, start)) == RouteLength(edges)
    decreases |edges|
  {
    var before, e := edges[..|edges| - 1], edges[|edges| - 1];
    if before != [] {
      GroupsConserve(before, start);
    }
    AddTotal(Groups(before, start), e, Reached(before, start));
    AddJoins(Groups(before, start), e, start, Reached(before, start));
  }

  lemma AddTotal(groups: seq<Group>, e: RouteEdge, here: Point)
    ensures Total(AddEdge(groups, e, here)) == Total(groups) + e.length
  {
    var now := AddEdge(groups, e, here);
    assert now[..|now| - 1] == if |now| == |groups| then groups[..|groups| - 1] else groups;
  }

  lemma AddJoins(groups: seq<Group>, e: RouteEdge, start: Point, here: Point)
    requires if groups == [] then here == start else Joins(groups, start, here)
    ensures Joins(AddEdge(groups, e, here), start, e.at)
  {
  }

  /** Grouping is maximal: neighbouring groups have different keys. */
  lemma {:induction false} GroupsMaximal(edges: seq<RouteEdge>, start: Point)
    ensures forall i, j :: 0 <= i && j == i + 1 < |Groups(edges, start)| ==>
              Groups(edges, start)[i].key != Groups(edges, start)[j].key
    decreases |edges|
  {
    if edges != [] {
      GroupsMaximal(edges[..|edges| - 1], start);
    }
  }

  /** The same road: the same name, or both without a name and of the same class. */
  predicate SameRoad(e: RouteEdge, f: RouteEdge) {
    e.name == f.name && (e.name != "" || e.highway == f.highway)
  }

  lemma KeyIff(e: RouteEdge, f: RouteEdge)
    ensures KeyOf(e) == KeyOf(f) <==> SameRoad(e, f)
  {
  }

  /** Group `g` is the edges from `from` up to `to`, all of one road, with their length and ends. */
  ghost predicate IsGroup(edges: seq<RouteEdge>, start: Point, g: Group, from: nat, to: nat) {
    match g
    case Group(key, distance, at, end) =>
      && from < to <= |edges|
      && (forall x :: from <= x < to ==> KeyOf(edges[x]) == key)
      && distance == RouteLength(edges[from..to])
      && at == Reached(edges[..from], start) && end == edges[to - 1].at
  }

  ghost predicate IsCutInto(edges: seq<RouteEdge>, start: Point, groups: seq<Group>, cuts: seq<nat>) {
    && |cuts| == |groups| + 1 && cuts[0] == 0 && cuts[|groups|] == |edges|
    && forall g :: 0 <= g < |groups| ==> IsGroup(edges, start, groups[g], cuts[g], cuts[g + 1])
  }

  /** The groups divide the route: every edge is in exactly one, in order. */
  lemma {:induction false} GroupsDivide(edges: seq<RouteEdge>, start: Point) returns (cuts: seq<nat>)
    ensures IsCutInto(edges, start, Groups(edges, start), cuts)
    decreases |edges|
  {
    if edges == [] {
      cuts := [0];
    } else {
      var before := edges[..|edges| - 1];
      cuts := GroupsDivide(before, start);
      cuts := EdgeDivides(edges, start, Groups(before, start), cuts);
    }
  }

  /** One more edge extends the last group or starts one. */
  lemma EdgeDivides(edges: seq<RouteEdge>, start: Point, groups: seq<Group>, earlier: seq<nat>)
    returns (cuts: seq<nat>)
    requires edges != [] && IsCutInto(edges[..|edges| - 1], start, groups, earlier)
    ensures var n := |edges| - 1;
            IsCutInto(edges, start, AddEdge(groups, edges[n], Reached(edges[..n], start)), cuts)
  {
    var n, k := |edges| - 1, |groups| - 1;
    forall g | 0 <= g < |groups|
      ensures IsGroup(edges, start, groups[g], earlier[g], earlier[g + 1])
    {
      GroupStays(edges, start, groups[g], earlier[g], earlier[g + 1]);
    }
    if groups != [] && groups[k].key == KeyOf(edges[n]) {
      GroupExtends(edges, start, groups[k], earlier[k]);
      cuts := earlier[k + 1 := n + 1];
    } else {
      GroupStarts(edges, start);
      cuts := earlier + [n + 1];
    }
  }

  lemma GroupStays(edges: seq<RouteEdge>, start: Point, g: Group, from: nat, to: nat)
    requires edges != [] && IsGroup(edges[..|edges| - 1], start, g, from, to)
    ensures IsGroup(edges, start, g, from, to)
  {
    var before := edges[..|edges| - 1];
    assert before[from..to] == edges[from..to] && before[..from] == edges[..from];
  }

  lemma GroupExtends(edges: seq<RouteEdge>, start: Point, g: Group, from: nat)
    requires edges != [] && IsGroup(edges[..|edges| - 1], start, g, from, |edges| - 1)
    requires g.key == KeyOf(edges[|edges| - 1])
    ensures var e := edges[|edges| - 1];
            IsGroup(edges, start, g.(distance := g.distance + e.length, end := e.at), from, |edges|)
  {
    var n := |edges| - 1;
    var before := edges[..n];
    assert edges[from..|edges|][..n - from] == before[from..n] && before[..from] == edges[..from];
  }

  lemma GroupStarts(edges: seq<RouteEdge>, start: Point)
    requires edges != []
    ensures var n := |edges| - 1;
            var g := Group(KeyOf(edges[n]), edges[n].length, Reached(edges[..n], start), edges[n].at);
            IsGroup(edges, start, g, n, |edges|)
  {
    var n := |edges| - 1;
    assert edges[n..|edges|][..0] == [] && edges[n..|edges|] == [edges[n]];
  }

  /** Up to 30 groups stay as they are; of more, the first and the last 14 do, with one in between. */
  lemma CollapseKeepsEnds(groups: seq<Group>)
    ensures |groups| <= 30 ==> Collapse(groups) == groups
    ensures |groups| > 30 ==>
              var c := Collapse(groups);
              |c| == 29 && c[..14] == groups[..14] && c[15..] == groups[|groups| - 14..] && c[14].key == PLANNED
  {
  }

  lemma {:induction false} TotalConcat(a: seq<Group>, b: seq<Group>)
    ensures Total(a + b) == Total(a) + Total(b)
    decreases |b|
  {
    if b == [] {
      assert a + b == a;
    } else {
      TotalConcat(a, b[..|b| - 1]);
      assert (a + b)[..|a + b| - 1] == a + b[..|b| - 1];
    }
  }

  /** Collapsing the middle keeps the joins and the total distance. */
  lemma CollapseConserves(groups: seq<Group>, start: Point, end: Point)
    requires Joins(groups, start, end)
    ensures Joins(Collapse(groups), start, end) && Total(Collapse(groups)) == Total(groups)
    ensures |Collapse(groups)| <= MAX_STEPS
  {
    if |groups| > MAX_STEPS {
      var head, middle, tail := groups[..KEPT], groups[KEPT..|groups| - KEPT], groups[|groups| - KEPT..];
      assert groups == head + middle + tail;
      CollapseJoins(groups, start, end);
      CollapseTotal(head, middle, tail, Group(PLANNED, Total(middle), middle[0].start, middle[|middle| - 1].end));
    }
  }

  lemma CollapseJoins(groups: seq<Group>, start: Point, end: Point)
    requires Joins(groups, start, end)
    ensures Joins(Collapse(groups), start, end)
  {
  }

  lemma CollapseTotal(head: seq<Group>, middle: seq<Group>, tail: seq<Group>, one: Group)
    requires one.distance == Total(middle)
    ensures Total(head + [one] + tail) == Total(head + middle + tail)
  {
    TotalConcat(head + [one], tail);
    TotalConcat(head, [one]);
    TotalConcat(head + middle, tail);
    TotalConcat(head, middle);
    assert [one][..0] == [];
  }

  // ---- the two passes --------------------------------------------------------------------

  /** The i-th point is where the i-th group starts, with the same key. */
  ghost predicate SameStarts(groups: seq<Group>, points: seq<(Key, Point)>) {
    |groups| == |points| && forall i :: 0 <= i < |groups| ==> points[i] == (groups[i].key, groups[i].start)
  }

  /** Both collapses keep the same starts: the middle point is the middle step's start. */
  lemma CollapseSameStarts(groups: seq<Group>, points: seq<(Key, Point)>)
    requires SameStarts(groups, points)
    ensures |Collapse(groups)| == |CollapsePoints(points)|
    ensures forall i :: 0 <= i < |Collapse(groups)| ==> CollapsePoints(points)[i].1 == Collapse(groups)[i].start
  {
  }

  lemma AddSameStarts(groups: seq<Group>, points: seq<(Key, Point)>, e: RouteEdge, here: Point)
    requires SameStarts(groups, points)
    ensures points == [] || points[|points| - 1].0 != KeyOf(e)
            ==> SameStarts(AddEdge(groups, e, here), points + [(KeyOf(e), here)])
    ensures points != [] && points[|points| - 1].0 == KeyOf(e) ==> SameStarts(AddEdge(groups, e, here), points)
  {
  }

  datatype Steps = Arrived | Along(groups: seq<Group>)

  /** `_route_steps`, up to the wording: steps of at most 30 groups that conserve the route. */
  method MakeSteps(edges: seq<RouteEdge>, start: Point) returns (steps: Steps)
    ensures edges == [] ==> steps.Arrived?
    ensures edges != [] ==> steps.Along? && steps.groups == Collapse(Groups(edges, start))
    ensures edges != [] ==> |steps.groups| <= MAX_STEPS && Joins(steps.groups, start, edges[|edges| - 1].at)
    ensures edges != [] ==> Total(steps.groups) == RouteLength(edges)
  {
    if edges == [] {
      return Arrived;
    }
    var groups: seq<Group>, here := [], start;
    for i := 0 to |edges|
      invariant groups == Groups(edges[..i], start) && here == Reached(edges[..i], start)
    {
      var e := edges[i];
      assert edges[..i + 1][..i] == edges[..i];
      if groups != [] && groups[|groups| - 1].key == KeyOf(e) {
        var last := groups[|groups| - 1];
        groups := groups[|groups| - 1 := last.(distance := last.distance + e.length, end := e.at)];
      } else {
        groups := groups + [Group(KeyOf(e), e.length, here, e.at)];
      }
      here := e.at;
    }
    assert edges[..|edges|] == edges;
    GroupsConserve(edges, start);
    CollapseConserves(groups, start, edges[|edges| - 1].at);
    steps := Along(Collapse(groups));
  }

  /** `_route_step_points`: its own loop over the edges. */
  method MakePoints(edges: seq<RouteEdge>, start: Point) returns (points: seq<Point>)
    ensures |points| <= MAX_STEPS && |points| == |Collapse(Groups(edges, start))|
    ensures forall i :: 0 <= i < |points| ==> points[i] == Collapse(Groups(edges, start))[i].start
  {
    var groups: seq<(Key, Point)>, here := [], start;
    for i := 0 to |edges|
      invariant SameStarts(Groups(edges[..i], start), groups) && here == Reached(edges[..i], start)
    {
      var e := edges[i];
      assert edges[..i + 1][..i] == edges[..i];
      AddSameStarts(Groups(edges[..i], start), groups, e, here);
      if groups == [] || groups[|groups| - 1].0 != KeyOf(e) {
        groups := groups + [(KeyOf(e), here)];
      }
      here := e.at;
    }
    assert edges[..|edges|] == edges;
    CollapseSameStarts(Groups(edges, start), groups);
    var kept := CollapsePoints(groups);
    points := seq(|kept|, i requires 0 <= i < |kept| => kept[i].1);
  }

  /** The two passes agree: one point per step, and it is where the step starts. */
  method StepsAndPoints(edges: seq<RouteEdge>, start: Point) returns (steps: Steps, points: seq<Point>)
    ensures edges != [] ==> steps.Along? && |points| == |steps.groups| <= MAX_STEPS
    ensures edges != [] ==> forall i :: 0 <= i < |points| ==> points[i] == steps.groups[i].start
    ensures edges == [] ==> steps.Arrived? && points == []
  {
    steps := MakeSteps(edges, start);
    points := MakePoints(edges, start);
  }
}
