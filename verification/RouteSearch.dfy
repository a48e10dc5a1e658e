/**
 The A* route search: a binary heap with stale entries, a closed set that is never reopened, and
 an early stop at the goal.  Arithmetic is over `real`; the distance is any metric.
 */
module RouteSearch {
  import opened OsmObjects
  import opened RouteGraph

  datatype Pos = Pos(lat: real, lon: real)
  datatype Road = Road(source: Id, target: Id, length: real, forward: Modes, backward: Modes,
                       highway: string, speedKph: real)

  /** The route tables, and the distance function of the service. */
  datatype Graph = Graph(roads: seq<Road>, nodes: map<Id, Pos>, dist: (Pos, Pos) -> real)
  {
    /** What the builder stores and a metric gives: non-negative triangle distances that no road
        undercuts, and both ends of every road present. */
    ghost predicate Valid() {
      && (forall a, b :: dist(a, b) >= 0.0)
      && (forall a, b, c :: dist(a, c) <= dist(a, b) + dist(b, c))
      && (forall r :: r in roads ==>
            && r.source in nodes && r.target in nodes
            && dist(nodes[r.source], nodes[r.target]) <= r.length
            && dist(nodes[r.target], nodes[r.source]) <= r.length)
    }
  }

  /** One row of the neighbour query: leave `from` along `road`, arrive at `to`. */
  datatype Hop = Hop(from: Id, to: Id, road: Road)

  // ---- speeds ----------------------------------------------------------------------------

  function DefaultKph(highway: string): real {
    if highway == "motorway" then 100.0
    else if highway == "trunk" then 80.0
    else if highway == "primary" then 60.0
    else if highway == "secondary" then 50.0
    else if highway == "tertiary" then 40.0
    else if highway == "residential" then 30.0
    else if highway == "living_street" then 15.0
    else if highway == "service" then 20.0
    else 30.0
  }

  function EdgeSpeed(mode: Mode, highway: string, speedKph: real): real {
    match mode
    case Walking => if highway == "steps" then 0.75 else 1.33
    case Cycling =>
      if highway == "cycleway" then 5.6
      else if highway == "path" then 4.2
      else if highway == "track" then 3.5
      else if highway == "steps" then 0.8
      else 4.5
    case Driving =>
      var effective := if speedKph == 0.0 then DefaultKph(highway) else speedKph;
      var capped := (if effective < 130.0 then effective else 130.0) / 3.6;
      if capped < 2.0 then 2.0 else capped
  }

  function TopSpeed(mode: Mode): real {
    match mode
    case Walking => 1.6
    case Cycling => 9.0
    case Driving => 36.2
  }

  /** No edge is faster than the heuristic assumes, and none is infinitely slow. */
  lemma SpeedBounded(mode: Mode, highway: string, speedKph: real)
    ensures 0.0 < EdgeSpeed(mode, highway, speedKph) <= TopSpeed(mode)
  {
  }

  function Duration(mode: Mode, h: Hop): real {
    SpeedBounded(mode, h.road.highway, h.road.speedKph);
    h.road.length / EdgeSpeed(mode, h.road.highway, h.road.speedKph)
  }

  lemma DurationIs(mode: Mode, h: Hop)
    ensures Duration(mode, h) * EdgeSpeed(mode, h.road.highway, h.road.speedKph) == h.road.length
  {
    SpeedBounded(mode, h.road.highway, h.road.speedKph);
  }

  /** Driving with a posted limit: the limit is driven, but not above 130 km/h nor below 2 m/s. */
  lemma PostedLimit(h: Hop)
    requires h.road.speedKph != 0.0
    ensures 7.2 <= h.road.speedKph <= 130.0 ==> Duration(Driving, h) * h.road.speedKph == 3.6 * h.road.length
    ensures h.road.speedKph > 130.0 ==> Duration(Driving, h) * 130.0 == 3.6 * h.road.length
    ensures h.road.speedKph < 7.2 ==> Duration(Driving, h) * 2.0 == h.road.length
  {
    var kph := h.road.speedKph;
    DurationIs(Driving, h);
    var v := EdgeSpeed(Driving, h.road.highway, kph);
    assert 7.2 <= kph <= 130.0 ==> v == kph / 3.6;
    assert kph > 130.0 ==> v == 130.0 / 3.6;
    if 7.2 <= kph <= 130.0 {
      Scale(Duration(Driving, h), kph, h.road.length);
    } else if kph > 130.0 {
      Scale(Duration(Driving, h), 130.0, h.road.length);
    }
  }

  lemma Scale(d: real, kph: real, length: real)
    requires d * (kph / 3.6) == length
    ensures d * kph == 3.6 * length
  {
    var v := kph / 3.6;
    assert kph == 3.6 * v;
    assert d * (3.6 * v) == 3.6 * (d * v);
  }

  /** The kilometres per hour assumed on a road without a posted limit; 30 on all others. */
  const UNPOSTED: seq<(string, real)> := [
    ("motorway", 100.0), ("trunk", 80.0), ("primary", 60.0), ("secondary", 50.0), ("tertiary", 40.0),
    ("residential", 30.0), ("service", 20.0), ("living_street", 15.0)]

  lemma UnpostedTable(i: nat)
    requires i < 8
    ensures DefaultKph(UNPOSTED[i].0) == UNPOSTED[i].1 && 7.2 <= UNPOSTED[i].1 <= 130.0
  {
  }

  lemma UnpostedOther(highway: string)
    requires forall i :: 0 <= i < 8 ==> UNPOSTED[i].0 != highway
    ensures DefaultKph(highway) == 30.0
  {
    assert UNPOSTED[0].0 != highway && UNPOSTED[1].0 != highway && UNPOSTED[2].0 != highway && UNPOSTED[3].0 != highway;
    assert UNPOSTED[4].0 != highway && UNPOSTED[5].0 != highway && UNPOSTED[6].0 != highway && UNPOSTED[7].0 != highway;
  }

  /** Driving without a posted limit: by the class of the road. */
  lemma UnpostedLimit(h: Hop, kph: real)
    requires h.road.speedKph == 0.0
    requires (exists i: nat :: i < 8 && UNPOSTED[i] == (h.road.highway, kph))
          || ((forall i :: 0 <= i < 8 ==> UNPOSTED[i].0 != h.road.highway) && kph == 30.0)
    ensures Duration(Driving, h) * kph == 3.6 * h.road.length
  {
    if i: nat :| i < 8 && UNPOSTED[i] == (h.road.highway, kph) {
      UnpostedTable(i);
    } else {
      UnpostedOther(h.road.highway);
    }
    DurationIs(Driving, h);
    Scale(Duration(Driving, h), kph, h.road.length);
  }

  lemma UnpostedClass(h: Hop, i: nat, kph: real, length: real)
    requires i < 8 && UNPOSTED[i] == (h.road.highway, kph) && h.road.speedKph == 0.0 && h.road.length == length
    ensures Duration(Driving, h) * kph == 3.6 * length && kph > 0.0
  {
    UnpostedTable(i);
    UnpostedLimit(h, kph);
  }

  /** Of two unposted roads of the same length, the one of the higher class is driven faster. */
  lemma ClassOrder(g: Hop, h: Hop, i: nat, j: nat)
    requires i < j < 8 && g.road.highway == UNPOSTED[i].0 && h.road.highway == UNPOSTED[j].0
    requires g.road.speedKph == h.road.speedKph == 0.0 && g.road.length == h.road.length > 0.0
    ensures Duration(Driving, g) < Duration(Driving, h)
  {
    var v, w := UNPOSTED[i].1, UNPOSTED[j].1;
    UnpostedClass(g, i, v, g.road.length);
    UnpostedClass(h, j, w, g.road.length);
    TableFalls(i, j);
    Faster(Duration(Driving, g), v, Duration(Driving, h), w);
  }

  lemma TableFalls(i: nat, j: nat)
    requires i < j < 8
    ensures UNPOSTED[i].1 > UNPOSTED[j].1
  {
  }

  lemma Faster(a: real, v: real, b: real, w: real)
    requires a * v == b * w > 0.0 && v > w > 0.0
    ensures a < b
  {
    if a >= b {
      Times(a, b, v);
    }
  }

  lemma Times(a: real, b: real, v: real)
    requires a >= b && v > 0.0
    ensures a * v >= b * v
  {
  }

  /** Walking and cycling ignore posted limits; each class has its metres per second. */
  lemma OwnPace(h: Hop)
    ensures Duration(Walking, h) * (if h.road.highway == "steps" then 0.75 else 1.33) == h.road.length
    ensures h.road.highway == "cycleway" ==> Duration(Cycling, h) * 5.6 == h.road.length
    ensures h.road.highway == "path" ==> Duration(Cycling, h) * 4.2 == h.road.length
    ensures h.road.highway == "track" ==> Duration(Cycling, h) * 3.5 == h.road.length
    ensures h.road.highway == "steps" ==> Duration(Cycling, h) * 0.8 == h.road.length
    ensures h.road.highway !in ["cycleway", "path", "track", "steps"] ==> Duration(Cycling, h) * 4.5 == h.road.length
  {
    DurationIs(Walking, h);
    DurationIs(Cycling, h);
  }

  function Heuristic(g: Graph, mode: Mode, n: Id, goalAt: Pos): real
    requires n in g.nodes
  {
    g.dist(g.nodes[n], goalAt) / TopSpeed(mode)
  }

  lemma DivideAntitone(a: real, b: real, c: real)
    requires a >= 0.0 && 0.0 < b <= c
    ensures 0.0 <= a / c <= a / b
  {
    var x, y := a / b, a / c;
    assert x * b == a && y * c == a;
    if y > x {
      assert y * c >= y * b > x * b;
    }
  }

  lemma DivideMonotone(a: real, b: real, c: real)
    requires a <= b && c > 0.0
    ensures a / c <= b / c
  {
    assert b / c == a / c + (b - a) / c;
  }

  lemma DivideAdd(a: real, b: real, c: real)
    requires c > 0.0
    ensures (a + b) / c == a / c + b / c
  {
  }

  // ---- hops and paths --------------------------------------------------------------------

  ghost predicate IsHop(g: Graph, mode: Mode, h: Hop) {
    && h.road in g.roads && h.to in g.nodes
    && ((h.from == h.road.source && h.to == h.road.target && h.road.forward.Has(mode))
        || (h.from == h.road.target && h.to == h.road.source && h.road.backward.Has(mode)))
  }

  /** The two halves of the `UNION ALL` query. */
  function ForwardHops(g: Graph, mode: Mode, node: Id, roads: seq<Road>): seq<Hop> {
    if roads == [] then []
    else
      var rest, r := ForwardHops(g, mode, node, roads[..|roads| - 1]), roads[|roads| - 1];
      if r.source == node && r.forward.Has(mode) && r.target in g.nodes
      then rest + [Hop(node, r.target, r)] else rest
  }

  function BackwardHops(g: Graph, mode: Mode, node: Id, roads: seq<Road>): seq<Hop> {
    if roads == [] then []
    else
      var rest, r := BackwardHops(g, mode, node, roads[..|roads| - 1]), roads[|roads| - 1];
      if r.target == node && r.backward.Has(mode) && r.source in g.nodes
      then rest + [Hop(node, r.source, r)] else rest
  }

  function HopsFrom(g: Graph, mode: Mode, node: Id): seq<Hop> {
    ForwardHops(g, mode, node, g.roads) + BackwardHops(g, mode, node, g.roads)
  }

  lemma {:induction false} ForwardHopsIff(g: Graph, mode: Mode, node: Id, roads: seq<Road>, h: Hop)
    ensures h in ForwardHops(g, mode, node, roads) <==>
            h.road in roads && h.from == node == h.road.source && h.to == h.road.target
            && h.road.forward.Has(mode) && h.to in g.nodes
    decreases |roads|
  {
    if roads != [] {
      ForwardHopsIff(g, mode, node, roads[..|roads| - 1], h);
      assert roads == roads[..|roads| - 1] + [roads[|roads| - 1]];
    }
  }

  lemma {:induction false} BackwardHopsIff(g: Graph, mode: Mode, node: Id, roads: seq<Road>, h: Hop)
    ensures h in BackwardHops(g, mode, node, roads) <==>
            h.road in roads && h.from == node == h.road.target && h.to == h.road.source
            && h.road.backward.Has(mode) && h.to in g.nodes
    decreases |roads|
  {
    if roads != [] {
      BackwardHopsIff(g, mode, node, roads[..|roads| - 1], h);
      assert roads == roads[..|roads| - 1] + [roads[|roads| - 1]];
    }
  }

  /** The query returns exactly the permitted hops out of a node. */
  lemma HopsFromIff(g: Graph, mode: Mode, node: Id, h: Hop)
    ensures h in HopsFrom(g, mode, node) <==> IsHop(g, mode, h) && h.from == node
  {
    ForwardHopsIff(g, mode, node, g.roads, h);
    BackwardHopsIff(g, mode, node, g.roads, h);
  }

  /** A chain of mode-permitted hops. */
  ghost predicate IsPath(g: Graph, mode: Mode, a: Id, p: seq<Hop>, b: Id) {
    if p == [] then a == b
    else
      && p[0].from == a && p[|p| - 1].to == b
      && (forall i :: 0 <= i < |p| ==> IsHop(g, mode, p[i]))
      && (forall i, j :: 0 <= i && j == i + 1 < |p| ==> p[i].to == p[j].from)
  }

  ghost predicate Minimal(g: Graph, mode: Mode, start: Id, goal: Id, duration: real) {
    forall p :: IsPath(g, mode, start, p, goal) ==> duration <= Cost(mode, p)
  }

  function Cost(mode: Mode, p: seq<Hop>): real {
    if p == [] then 0.0 else Cost(mode, p[..|p| - 1]) + Duration(mode, p[|p| - 1])
  }

  function Length(p: seq<Hop>): real {
    if p == [] then 0.0 else Length(p[..|p| - 1]) + p[|p| - 1].road.length
  }

  lemma HopCost(g: Graph, mode: Mode, h: Hop)
    requires g.Valid() && IsHop(g, mode, h)
    ensures h.from in g.nodes && Duration(mode, h) >= g.dist(g.nodes[h.from], g.nodes[h.to]) / TopSpeed(mode) >= 0.0
  {
    var d := g.dist(g.nodes[h.from], g.nodes[h.to]);
    SpeedBounded(mode, h.road.highway, h.road.speedKph);
    DivideAntitone(h.road.length, EdgeSpeed(mode, h.road.highway, h.road.speedKph), TopSpeed(mode));
    DivideMonotone(d, h.road.length, TopSpeed(mode));
    DivideMonotone(0.0, d, TopSpeed(mode));
  }

  /** The heuristic is consistent: it drops along a hop by at most the hop's duration. */
  lemma Consistent(g: Graph, mode: Mode, h: Hop, goalAt: Pos)
    requires g.Valid() && IsHop(g, mode, h)
    ensures h.from in g.nodes
    ensures Heuristic(g, mode, h.from, goalAt) <= Duration(mode, h) + Heuristic(g, mode, h.to, goalAt)
  {
    HopCost(g, mode, h);
    var t := TopSpeed(mode);
    var near, far := g.dist(g.nodes[h.to], goalAt), g.dist(g.nodes[h.from], goalAt);
    var step := g.dist(g.nodes[h.from], g.nodes[h.to]);
    DivideMonotone(far, step + near, t);
    DivideAdd(step, near, t);
  }

  /** ... and along a whole path. */
  lemma {:induction false} ConsistentPath(g: Graph, mode: Mode, a: Id, p: seq<Hop>, b: Id, goalAt: Pos)
    requires g.Valid() && IsPath(g, mode, a, p, b) && a in g.nodes && b in g.nodes
    ensures Heuristic(g, mode, a, goalAt) <= Cost(mode, p) + Heuristic(g, mode, b, goalAt)
    ensures Cost(mode, p) >= 0.0
    decreases |p|
  {
    if p != [] {
      var last := p[|p| - 1];
      Prefix(g, mode, a, p, b, |p| - 1);
      HopCost(g, mode, last);
      ConsistentPath(g, mode, a, p[..|p| - 1], last.from, goalAt);
      Consistent(g, mode, last, goalAt);
    }
  }

  /** The node a path has reached after `i` hops. */
  ghost function At(a: Id, p: seq<Hop>, i: nat): Id
    requires i <= |p|
  {
    if i == 0 then a else p[i - 1].to
  }

  lemma Prefix(g: Graph, mode: Mode, a: Id, p: seq<Hop>, b: Id, i: nat)
    requires IsPath(g, mode, a, p, b) && i <= |p|
    ensures IsPath(g, mode, a, p[..i], At(a, p, i)) && IsPath(g, mode, At(a, p, i), p[i..], b)
    ensures i < |p| ==> p[i].from == At(a, p, i)
  {
  }

  lemma {:induction false} CostSplit(mode: Mode, p: seq<Hop>, i: nat)
    requires i <= |p|
    ensures Cost(mode, p) == Cost(mode, p[..i]) + Cost(mode, p[i..])
    decreases |p|
  {
    if i == |p| {
      assert p[..i] == p && p[i..] == [];
    } else {
      var q := p[..|p| - 1];
      CostSplit(mode, q, i);
      assert q[..i] == p[..i] && p[i..][..|p[i..]| - 1] == q[i..];
    }
  }

  // ---- the search state ------------------------------------------------------------------

  datatype Entry = Entry(f: real, cost: real, node: Id)

  /** The variables of the loop; `rank` is proof state, the order in which nodes were closed. */
  datatype Search = Search(
    best: map<Id, real>, pred: map<Id, Hop>, closed: set<Id>, queue: seq<Entry>)

  datatype Problem = Problem(g: Graph, mode: Mode, start: Id, goalAt: Pos)
  {
    ghost predicate Valid() {
      g.Valid() && start in g.nodes
    }

    function Key(cost: real, n: Id): real
      requires n in g.nodes
    {
      if n == start then 0.0 else cost + Heuristic(g, mode, n, goalAt)
    }
  }

  /** `pred` is a tree of hops rooted at the start, with the costs of `best`. */
  ghost predicate Tree(q: Problem, s: Search, rank: map<Id, nat>) {
    && q.start in s.best && s.best[q.start] == 0.0 && q.start !in s.pred
    && s.best.Keys == s.pred.Keys + {q.start} && s.best.Keys <= q.g.nodes.Keys
    && s.closed <= s.best.Keys && rank.Keys == s.closed
    && forall n :: n in s.pred ==> Branch(q, s, rank, n)
  }

  ghost predicate Branch(q: Problem, s: Search, rank: map<Id, nat>, n: Id)
    requires n in s.pred
  {
    var h := s.pred[n];
    && h.to == n && IsHop(q.g, q.mode, h) && h.from in s.closed && h.from in s.best && n in s.best
    && s.best[n] == s.best[h.from] + Duration(q.mode, h)
    && (n in s.closed ==> n in rank && h.from in rank && rank[h.from] < rank[n])
  }

  /** Closed nodes have their final, minimal cost. */
  ghost predicate Optimal(q: Problem, s: Search) {
    forall n, p :: n in s.closed && n in s.best && IsPath(q.g, q.mode, q.start, p, n) ==> s.best[n] <= Cost(q.mode, p)
  }

  /** Every hop out of `done` has been used. */
  ghost predicate Relaxed(q: Problem, s: Search, done: set<Id>) {
    forall h :: IsHop(q.g, q.mode, h) && h.from in done ==> HopUsed(q, s, h)
  }

  ghost predicate HopUsed(q: Problem, s: Search, h: Hop) {
    h.from in s.best && h.to in s.best && s.best[h.to] <= s.best[h.from] + Duration(q.mode, h)
  }

  /** Every open node has its current entry in the queue; stale entries may remain beside it. */
  ghost predicate Queued(q: Problem, s: Search) {
    && (forall n :: n in s.best && n !in s.closed ==>
          n in q.g.nodes && Entry(q.Key(s.best[n], n), s.best[n], n) in s.queue)
    && (forall x :: x in s.queue ==> x.node in s.best && x.node in q.g.nodes && x.f == q.Key(x.cost, x.node))
    && (q.start !in s.closed ==> s.closed == {} && s.best.Keys == {q.start})
  }

  ghost predicate Inv(q: Problem, s: Search, rank: map<Id, nat>, done: set<Id>) {
    Tree(q, s, rank) && Optimal(q, s) && Relaxed(q, s, done) && Queued(q, s)
  }

  // ---- consequences ----------------------------------------------------------------------

  /** The cost of a closed node is the cost of an actual path. */
  lemma {:induction false} ClosedHasPath(q: Problem, s: Search, rank: map<Id, nat>, n: Id) returns (p: seq<Hop>)
    requires Tree(q, s, rank) && n in s.closed
    ensures IsPath(q.g, q.mode, q.start, p, n) && Cost(q.mode, p) == s.best[n]
    decreases rank[n]
  {
    if n == q.start {
      p := [];
    } else {
      var h := s.pred[n];
      assert Branch(q, s, rank, n);
      var before := ClosedHasPath(q, s, rank, h.from);
      p := before + [h];
      Extend(q, before, h);
    }
  }

  lemma Extend(q: Problem, p: seq<Hop>, h: Hop)
    requires IsPath(q.g, q.mode, q.start, p, h.from) && IsHop(q.g, q.mode, h)
    ensures IsPath(q.g, q.mode, q.start, p + [h], h.to)
    ensures Cost(q.mode, p + [h]) == Cost(q.mode, p) + Duration(q.mode, h)
    ensures Length(p + [h]) == Length(p) + h.road.length
  {
    assert (p + [h])[..|p|] == p;
  }

  /** The first node on a path that is not closed, if the path leaves the closed set. */
  lemma FirstOpen(q: Problem, s: Search, p: seq<Hop>, n: Id) returns (i: nat)
    requires IsPath(q.g, q.mode, q.start, p, n) && n !in s.closed
    ensures i <= |p| && At(q.start, p, i) !in s.closed
    ensures forall j: nat :: j < i ==> At(q.start, p, j) in s.closed
  {
    assert At(q.start, p, |p|) == n;
    i := 0;
    while At(q.start, p, i) in s.closed
      invariant i <= |p|
      invariant forall j: nat :: j < i ==> At(q.start, p, j) in s.closed
      decreases |p| - i
    {
      i := i + 1;
    }
  }

  lemma PathHop(g: Graph, mode: Mode, a: Id, p: seq<Hop>, b: Id, i: nat)
    requires IsPath(g, mode, a, p, b) && i < |p|
    ensures IsHop(g, mode, p[i]) && p[i].from == At(a, p, i) && p[i].to == At(a, p, i + 1)
    ensures Cost(mode, p[..i + 1]) == Cost(mode, p[..i]) + Duration(mode, p[i])
  {
    assert p[..i + 1][..i] == p[..i];
  }

  /** Where a path leaves the closed set, the open node already costs no more than the path so far. */
  lemma Frontier(q: Problem, s: Search, p: seq<Hop>, n: Id) returns (i: nat)
    requires q.start in s.closed && Optimal(q, s) && Relaxed(q, s, s.closed) && s.closed <= s.best.Keys
    requires IsPath(q.g, q.mode, q.start, p, n) && n !in s.closed
    ensures i <= |p| && At(q.start, p, i) !in s.closed && At(q.start, p, i) in s.best
    ensures s.best[At(q.start, p, i)] <= Cost(q.mode, p[..i])
  {
    i := FirstOpen(q, s, p, n);
    PathHop(q.g, q.mode, q.start, p, n, i - 1);
    Prefix(q.g, q.mode, q.start, p, n, i - 1);
    assert At(q.start, p, i - 1) in s.closed;
    assert HopUsed(q, s, p[i - 1]);
  }

  /** The step that carries A*: a popped current entry has the minimal cost of its node. */
  lemma PoppedIsMinimal(q: Problem, s: Search, rank: map<Id, nat>, x: Entry, p: seq<Hop>)
    requires q.Valid() && Inv(q, s, rank, s.closed)
    requires x in s.queue && forall y :: y in s.queue ==> x.f <= y.f
    requires x.node !in s.closed && x.cost == s.best[x.node]
    requires IsPath(q.g, q.mode, q.start, p, x.node)
    ensures s.best[x.node] <= Cost(q.mode, p)
  {
    if q.start !in s.closed {
      ConsistentPath(q.g, q.mode, q.start, p, x.node, q.goalAt);
    } else {
      var i := Frontier(q, s, p, x.node);
      var y := At(q.start, p, i);
      assert Entry(q.Key(s.best[y], y), s.best[y], y) in s.queue;
      BeyondFrontier(q, p, x.node, i);
    }
  }

  lemma BeyondFrontier(q: Problem, p: seq<Hop>, n: Id, i: nat)
    requires q.Valid() && IsPath(q.g, q.mode, q.start, p, n) && i <= |p|
    requires n in q.g.nodes && At(q.start, p, i) in q.g.nodes
    ensures Cost(q.mode, p[..i]) + Heuristic(q.g, q.mode, At(q.start, p, i), q.goalAt)
         <= Cost(q.mode, p) + Heuristic(q.g, q.mode, n, q.goalAt)
  {
    Prefix(q.g, q.mode, q.start, p, n, i);
    CostSplit(q.mode, p, i);
    ConsistentPath(q.g, q.mode, At(q.start, p, i), p[i..], n, q.goalAt);
  }

  /** Once nothing is open, everything reachable is closed. */
  lemma {:induction false} AllReached(q: Problem, s: Search, rank: map<Id, nat>, p: seq<Hop>, n: Id)
    requires Inv(q, s, rank, s.closed) && s.queue == []
    requires IsPath(q.g, q.mode, q.start, p, n)
    ensures n in s.closed
    decreases |p|
  {
    if p != [] {
      var h := p[|p| - 1];
      Prefix(q.g, q.mode, q.start, p, n, |p| - 1);
      AllReached(q, s, rank, p[..|p| - 1], h.from);
      assert HopUsed(q, s, h);
    }
  }

  // ---- the steps of the loop -------------------------------------------------------------

  ghost predicate RankedBelow(rank: map<Id, nat>, clock: nat) {
    forall n :: n in rank ==> rank[n] < clock
  }

  /** Discarding a stale entry. */
  lemma DiscardKeeps(q: Problem, s: Search, rank: map<Id, nat>, i: nat)
    requires Inv(q, s, rank, s.closed) && i < |s.queue|
    requires s.queue[i].node in s.closed || s.queue[i].cost != s.best[s.queue[i].node]
    ensures Inv(q, Without(s, i), rank, s.closed)
  {
    var x, t := s.queue[i], Without(s, i);
    WithoutKeeps(s.queue, i);
    forall n | n in t.pred
      ensures Branch(q, t, rank, n)
    {
      assert Branch(q, s, rank, n);
    }
    SameCosts(q, s, t, s.closed);
    forall n | n in t.best && n !in t.closed
      ensures Entry(q.Key(t.best[n], n), t.best[n], n) in t.queue
    {
      assert Entry(q.Key(s.best[n], n), s.best[n], n) != x;
    }
  }

  function Without(s: Search, i: nat): Search
    requires i < |s.queue|
  {
    s.(queue := s.queue[..i] + s.queue[i + 1..])
  }

  lemma WithoutKeeps(queue: seq<Entry>, i: nat)
    requires i < |queue|
    ensures forall y :: y in queue && y != queue[i] ==> y in queue[..i] + queue[i + 1..]
    ensures forall y :: y in queue[..i] + queue[i + 1..] ==> y in queue
  {
    assert queue == queue[..i] + [queue[i]] + queue[i + 1..];
  }

  /** Closing the popped node: its cost is final, its hops are still to be used. */
  lemma CloseKeeps(q: Problem, s: Search, rank: map<Id, nat>, clock: nat, i: nat)
    requires q.Valid() && Inv(q, s, rank, s.closed) && RankedBelow(rank, clock) && i < |s.queue|
    requires forall y :: y in s.queue ==> s.queue[i].f <= y.f
    requires s.queue[i].node !in s.closed && s.queue[i].cost == s.best[s.queue[i].node]
    ensures var n := s.queue[i].node;
            Inv(q, Without(s, i).(closed := s.closed + {n}), rank[n := clock], s.closed)
  {
    var x := s.queue[i];
    var n := x.node;
    var t, later := Without(s, i).(closed := s.closed + {n}), rank[n := clock];
    CloseTree(q, s, t, rank, clock, n);
    PoppedGoal(q, s, rank, x);
    CloseOptimal(q, s, t, n);
    SameCosts(q, s, t, s.closed);
    CloseQueued(q, s, i);
  }

  lemma CloseTree(q: Problem, s: Search, t: Search, rank: map<Id, nat>, clock: nat, n: Id)
    requires Tree(q, s, rank) && RankedBelow(rank, clock) && n in s.best && n !in s.closed
    requires t.best == s.best && t.pred == s.pred && t.closed == s.closed + {n}
    ensures Tree(q, t, rank[n := clock])
  {
    assert rank[n := clock].Keys == t.closed;
    forall m | m in t.pred
      ensures Branch(q, t, rank[n := clock], m)
    {
      CloseBranch(q, s, t, rank, clock, n, m);
    }
  }

  lemma CloseBranch(q: Problem, s: Search, t: Search, rank: map<Id, nat>, clock: nat, n: Id, m: Id)
    requires m in s.pred && Branch(q, s, rank, m) && RankedBelow(rank, clock) && rank.Keys == s.closed && n !in s.closed
    requires t.best == s.best && t.pred == s.pred && t.closed == s.closed + {n}
    ensures Branch(q, t, rank[n := clock], m)
  {
  }

  lemma SameCosts(q: Problem, s: Search, t: Search, done: set<Id>)
    requires Relaxed(q, s, done) && t.best == s.best
    ensures Relaxed(q, t, done)
  {
    forall h | IsHop(q.g, q.mode, h) && h.from in done
      ensures HopUsed(q, t, h)
    {
      assert HopUsed(q, s, h);
    }
  }

  lemma PoppedGoal(q: Problem, s: Search, rank: map<Id, nat>, x: Entry)
    requires q.Valid() && Inv(q, s, rank, s.closed)
    requires x in s.queue && forall y :: y in s.queue ==> x.f <= y.f
    requires x.node !in s.closed && x.cost == s.best[x.node]
    ensures Minimal(q.g, q.mode, q.start, x.node, s.best[x.node])
  {
    forall p | IsPath(q.g, q.mode, q.start, p, x.node)
      ensures s.best[x.node] <= Cost(q.mode, p)
    {
      PoppedIsMinimal(q, s, rank, x, p);
    }
  }

  lemma CloseOptimal(q: Problem, s: Search, t: Search, n: Id)
    requires Optimal(q, s) && n in s.best && Minimal(q.g, q.mode, q.start, n, s.best[n])
    requires t.best == s.best && t.closed == s.closed + {n}
    ensures Optimal(q, t)
  {
  }

  lemma CloseQueued(q: Problem, s: Search, i: nat)
    requires Queued(q, s) && i < |s.queue| && s.closed <= s.best.Keys
    requires s.queue[i].node !in s.closed
    ensures Queued(q, Without(s, i).(closed := s.closed + {s.queue[i].node}))
  {
    var x := s.queue[i];
    var t := Without(s, i).(closed := s.closed + {x.node});
    WithoutKeeps(s.queue, i);
    forall m | m in t.best && m !in t.closed
      ensures Entry(q.Key(t.best[m], m), t.best[m], m) in t.queue
    {
      assert Entry(q.Key(s.best[m], m), s.best[m], m) != x;
    }
    if q.start !in s.closed {
      assert x.node in s.best;
    }
  }

  /** A hop into a closed node cannot improve it. */
  lemma ClosedHopUsed(q: Problem, s: Search, rank: map<Id, nat>, h: Hop)
    requires Tree(q, s, rank) && Optimal(q, s) && IsHop(q.g, q.mode, h) && h.from in s.closed && h.to in s.closed
    ensures HopUsed(q, s, h)
  {
    var p := ClosedHasPath(q, s, rank, h.from);
    Extend(q, p, h);
  }

  function Improve(q: Problem, s: Search, h: Hop, candidate: real): Search
    requires h.to in q.g.nodes
  {
    Search(s.best[h.to := candidate], s.pred[h.to := h], s.closed,
           s.queue + [Entry(candidate + Heuristic(q.g, q.mode, h.to, q.goalAt), candidate, h.to)])
  }

  /** Using a hop that improves an open node. */
  lemma ImproveKeeps(q: Problem, s: Search, rank: map<Id, nat>, done: set<Id>, h: Hop, candidate: real)
    requires Inv(q, s, rank, done) && done <= s.closed
    requires IsHop(q.g, q.mode, h) && h.from in s.closed && h.to !in s.closed
    requires candidate == s.best[h.from] + Duration(q.mode, h)
    requires h.to in s.best ==> candidate < s.best[h.to]
    ensures Inv(q, Improve(q, s, h, candidate), rank, done)
    ensures HopUsed(q, Improve(q, s, h, candidate), h)
    ensures forall k: Hop :: k.from in s.closed && HopUsed(q, s, k) ==> HopUsed(q, Improve(q, s, h, candidate), k)
  {
    assert q.start in s.closed;
    ImproveTree(q, s, rank, h, candidate);
    ImproveUsed(q, s, h, candidate);
    forall k | IsHop(q.g, q.mode, k) && k.from in done
      ensures HopUsed(q, Improve(q, s, h, candidate), k)
    {
      assert HopUsed(q, s, k);
    }
    ImproveQueued(q, s, h, candidate);
  }

  lemma ImproveTree(q: Problem, s: Search, rank: map<Id, nat>, h: Hop, candidate: real)
    requires Tree(q, s, rank) && q.start in s.closed
    requires IsHop(q.g, q.mode, h) && h.from in s.closed && h.to !in s.closed
    requires candidate == s.best[h.from] + Duration(q.mode, h)
    ensures Tree(q, Improve(q, s, h, candidate), rank)
  {
    var t := Improve(q, s, h, candidate);
    forall m | m in t.pred
      ensures Branch(q, t, rank, m)
    {
      if m != h.to {
        assert Branch(q, s, rank, m);
      }
    }
  }

  lemma ImproveUsed(q: Problem, s: Search, h: Hop, candidate: real)
    requires h.to in q.g.nodes && h.from in s.closed && h.to !in s.closed && h.from in s.best
    requires candidate == s.best[h.from] + Duration(q.mode, h)
    requires h.to in s.best ==> candidate < s.best[h.to]
    ensures HopUsed(q, Improve(q, s, h, candidate), h)
    ensures forall k: Hop :: k.from in s.closed && HopUsed(q, s, k) ==> HopUsed(q, Improve(q, s, h, candidate), k)
  {
  }

  lemma ImproveQueued(q: Problem, s: Search, h: Hop, candidate: real)
    requires Queued(q, s) && q.start in s.closed && h.to in q.g.nodes && h.to !in s.closed
    ensures Queued(q, Improve(q, s, h, candidate))
  {
    var t := Improve(q, s, h, candidate);
    forall x | x in t.queue
      ensures x.node in t.best && x.node in q.g.nodes && x.f == q.Key(x.cost, x.node)
    {
    }
  }

  // ---- the search ------------------------------------------------------------------------

  datatype Route =
    | Found(nodes: seq<Id>, hops: seq<Hop>, distance: real, duration: real, expansions: nat)
    | NotFound
    | Limited(expansions: nat)

  /** Tuple order of the heap entries. */
  predicate Before(x: Entry, y: Entry) {
    x.f < y.f || (x.f == y.f && (x.cost < y.cost || (x.cost == y.cost && x.node < y.node)))
  }

  /** Where the heap's least entry is. */
  method LeastEntry(queue: seq<Entry>) returns (i: nat)
    requires queue != []
    ensures i < |queue|
    ensures forall y :: y in queue ==> !Before(y, queue[i]) && queue[i].f <= y.f
  {
    i := 0;
    for j := 1 to |queue|
      invariant i < |queue|
      invariant forall k :: 0 <= k < j ==> !Before(queue[k], queue[i])
    {
      if Before(queue[j], queue[i]) {
        i := j;
      }
    }
  }

  /** Use every hop out of the node just closed. */
  method Expand(q: Problem, s0: Search, ghost rank: map<Id, nat>, node: Id) returns (s: Search)
    requires node in s0.closed && Inv(q, s0, rank, s0.closed - {node})
    ensures Inv(q, s, rank, s.closed) && s.closed == s0.closed
  {
    s := s0;
    var hops := HopsFrom(q.g, q.mode, node);
    ghost var done := s0.closed - {node};
    for i := 0 to |hops|
      invariant s.closed == s0.closed && Inv(q, s, rank, done)
      invariant forall k :: 0 <= k < i ==> HopUsed(q, s, hops[k])
    {
      var h := hops[i];
      HopsFromIff(q.g, q.mode, node, h);
      if h.to in s.closed {
        ClosedHopUsed(q, s, rank, h);
      } else {
        var candidate := s.best[node] + Duration(q.mode, h);
        if h.to !in s.best || candidate < s.best[h.to] {
          forall k | 0 <= k < i
            ensures hops[k].from in s.closed
          {
            HopsFromIff(q.g, q.mode, node, hops[k]);
          }
          ImproveKeeps(q, s, rank, done, h, candidate);
          s := Improve(q, s, h, candidate);
        }
      }
    }
    forall h | IsHop(q.g, q.mode, h) && h.from in s.closed
      ensures HopUsed(q, s, h)
    {
      if h.from == node {
        HopsFromIff(q.g, q.mode, node, h);
      }
    }
  }

  lemma InitialInv(q: Problem)
    requires q.Valid()
    ensures Inv(q, Search(map[q.start := 0.0], map[], {}, [Entry(0.0, 0.0, q.start)]), map[], {})
  {
  }

  lemma Exhausted(q: Problem, s: Search, rank: map<Id, nat>, goal: Id)
    requires Inv(q, s, rank, s.closed) && s.queue == [] && goal !in s.closed
    ensures goal !in s.pred && forall p :: !IsPath(q.g, q.mode, q.start, p, goal)
  {
    forall p
      ensures !IsPath(q.g, q.mode, q.start, p, goal)
    {
      if IsPath(q.g, q.mode, q.start, p, goal) {
        AllReached(q, s, rank, p, goal);
      }
    }
  }

  ghost predicate Reachable(g: Graph, mode: Mode, start: Id, n: Id) {
    exists p :: IsPath(g, mode, start, p, n)
  }

  /** `seen` are that many nodes that the search had to expand: reachable ones, and not the goal. */
  ghost predicate Expanded(g: Graph, mode: Mode, start: Id, goal: Id, seen: set<Id>, expansions: nat) {
    Size(seen) == expansions && goal !in seen && forall n :: n in seen ==> Reachable(g, mode, start, n)
  }

  /** The closed nodes and the one popped next. */
  lemma ExpandedNodes(q: Problem, s: Search, rank: map<Id, nat>, n: Id, goal: Id)
    requires Tree(q, s, rank) && n in s.best && n !in s.closed && n != goal && goal !in s.closed
    ensures Expanded(q.g, q.mode, q.start, goal, s.closed + {n}, Size(s.closed) + 1)
  {
    SizeIsCard(s.closed);
    SizeIsCard(s.closed + {n});
    forall m | m in s.closed + {n}
      ensures Reachable(q.g, q.mode, q.start, m)
    {
      if m in s.closed {
        var p := ClosedHasPath(q, s, rank, m);
      } else if n == q.start {
        assert IsPath(q.g, q.mode, q.start, [], n);
      } else {
        assert n in s.pred && Branch(q, s, rank, n);
        var h := s.pred[n];
        var p := ClosedHasPath(q, s, rank, h.from);
        Extend(q, p, h);
      }
    }
  }

  /** What the least entry of the heap is: outdated, the goal, or a node to close. */
  datatype Popped = Stale(i: nat) | AtGoal | Open(i: nat)

  method Pop(q: Problem, s: Search, ghost rank: map<Id, nat>, goal: Id) returns (r: Popped)
    requires q.Valid() && Inv(q, s, rank, s.closed) && s.queue != []
    ensures r.Stale? ==> r.i < |s.queue| && Inv(q, Without(s, r.i), rank, s.closed)
    ensures r.AtGoal? ==> goal in s.best && Minimal(q.g, q.mode, q.start, goal, s.best[goal]) && (goal != q.start ==>
      goal in s.pred)
    ensures r.Open? ==> Closable(q, s, r.i) && s.queue[r.i].node != goal
  {
    var i := LeastEntry(s.queue);
    var x := s.queue[i];
    if x.node in s.closed || x.cost != s.best[x.node] {
      DiscardKeeps(q, s, rank, i);
      return Stale(i);
    }
    if x.node == goal {
      PoppedGoal(q, s, rank, x);
      return AtGoal;
    }
    r := Open(i);
  }

  /** The least entry, not outdated, of a node that is still open. */
  ghost predicate Closable(q: Problem, s: Search, i: nat) {
    && i < |s.queue| && (forall y :: y in s.queue ==> s.queue[i].f <= y.f)
    && s.queue[i].node in q.g.nodes && s.queue[i].node !in s.closed
    && s.queue[i].node in s.best && s.queue[i].cost == s.best[s.queue[i].node]
  }

  /** Close the node of the least entry and use its hops. */
  method Process(q: Problem, s0: Search, ghost rank0: map<Id, nat>, ghost clock: nat, i: nat)
    returns (s: Search, ghost rank: map<Id, nat>)
    requires q.Valid() && Inv(q, s0, rank0, s0.closed) && RankedBelow(rank0, clock) && Closable(q, s0, i)
    ensures Inv(q, s, rank, s.closed) && RankedBelow(rank, clock + 1) && s.closed == s0.closed + {s0.queue[i].node}
  {
    var node := s0.queue[i].node;
    CloseKeeps(q, s0, rank0, clock, i);
    s := Without(s0, i).(closed := s0.closed + {node});
    rank := rank0[node := clock];
    assert s0.closed + {node} - {node} == s0.closed;
    s := Expand(q, s, rank, node);
  }

  /** The loop: until the goal is popped, the queue is empty or a limit is hit. */
  method Explore(q: Problem, goal: Id, maxExpansions: nat, timeUp: nat -> bool)
    returns (s: Search, ghost rank: map<Id, nat>, ghost clock: nat, expansions: nat, limited: bool, ghost seen: set<Id>)
    requires q.Valid() && goal != q.start
    ensures limited ==> expansions == maxExpansions + 1 || timeUp(expansions)
    ensures limited ==> Expanded(q.g, q.mode, q.start, goal, seen, expansions)
    ensures expansions <= |q.g.nodes| && (!limited ==> expansions <= maxExpansions)
    ensures Tree(q, s, rank) && RankedBelow(rank, clock)
    ensures !limited && goal in s.pred ==> goal in s.best && Minimal(q.g, q.mode, q.start, goal, s.best[goal])
    ensures !limited && goal !in s.pred ==> forall p :: !IsPath(q.g, q.mode, q.start, p, goal)
  {
    s := Search(map[q.start := 0.0], map[], {}, [Entry(0.0, 0.0, q.start)]);
    rank := map[];
    expansions, limited := 0, false;
    clock := 0;
    InitialInv(q);
    var arrived := false;
    seen := {};
    ghost var total := |q.g.nodes|;
    while s.queue != [] && !arrived && !limited
      invariant Inv(q, s, rank, s.closed) && RankedBelow(rank, clock) && goal !in s.closed
      invariant s.closed <= q.g.nodes.Keys && expansions == Size(s.closed) + (if limited then 1 else 0) <= total
      invariant !limited ==> expansions <= maxExpansions
      invariant limited ==> expansions == maxExpansions + 1 || timeUp(expansions)
      invariant limited ==> Expanded(q.g, q.mode, q.start, goal, seen, expansions)
      invariant arrived ==> goal in s.best && goal in s.pred && Minimal(q.g, q.mode, q.start, goal, s.best[goal])
      decreases total - expansions, |s.queue|, !arrived
    {
      var popped := Pop(q, s, rank, goal);
      if popped.Stale? {
        s := Without(s, popped.i);
      } else if popped.AtGoal? {
        arrived := true;
      } else {
        ghost var n := s.queue[popped.i].node;
        expansions := expansions + 1;
        CountClosed(q.g.nodes, s.closed, n);
        ExpandedNodes(q, s, rank, n, goal);
        seen := s.closed + {n};
        limited := expansions > maxExpansions || timeUp(expansions);
        if !limited {
          s, rank := Process(q, s, rank, clock, popped.i);
          clock := clock + 1;
        }
      }
    }
    if !arrived && !limited {
      Exhausted(q, s, rank, goal);
    }
  }

  /** Closing a node counts one more of the graph's nodes. */
  lemma CountClosed(nodes: map<Id, Pos>, closed: set<Id>, n: Id)
    requires closed <= nodes.Keys && n in nodes && n !in closed
    ensures Size(closed + {n}) == Size(closed) + 1 <= |nodes|
  {
    SizeIsCard(closed);
    SizeIsCard(closed + {n});
    Subset(closed + {n}, nodes.Keys);
    assert |nodes| == |nodes.Keys|;
  }

  lemma {:induction false} Subset<T>(a: set<T>, b: set<T>)
    requires a <= b
    ensures |a| <= |b|
  {
    if a != {} {
      var x :| x in a;
      Subset(a - {x}, b - {x});
    }
  }

  ghost predicate Visits(start: Id, p: seq<Hop>, nodes: seq<Id>) {
    |nodes| == |p| + 1 && nodes[0] == start && forall i :: 0 <= i < |p| ==> nodes[i + 1] == p[i].to
  }

  lemma {:induction false} LengthSplit(p: seq<Hop>, i: nat)
    requires i <= |p|
    ensures Length(p) == Length(p[..i]) + Length(p[i..])
    decreases |p|
  {
    if i == |p| {
      assert p[..i] == p && p[i..] == [];
    } else {
      var r := p[..|p| - 1];
      LengthSplit(r, i);
      assert r[..i] == p[..i] && p[i..][..|p[i..]| - 1] == r[i..];
    }
  }

  lemma Prepend(q: Problem, h: Hop, p: seq<Hop>, b: Id)
    requires IsHop(q.g, q.mode, h) && IsPath(q.g, q.mode, h.to, p, b)
    ensures IsPath(q.g, q.mode, h.from, [h] + p, b)
    ensures Cost(q.mode, [h] + p) == Duration(q.mode, h) + Cost(q.mode, p)
    ensures Length([h] + p) == h.road.length + Length(p)
  {
    var r := [h] + p;
    assert r[..1] == [h] && r[1..] == p;
    CostSplit(q.mode, r, 1);
    LengthSplit(r, 1);
    assert [h][..0] == [];
  }

  /** Follow the predecessors back from the goal. */
  method Retrace(q: Problem, s: Search, ghost rank: map<Id, nat>, ghost clock: nat, goal: Id)
    returns (nodes: seq<Id>, hops: seq<Hop>, distance: real)
    requires Tree(q, s, rank) && RankedBelow(rank, clock) && goal in s.pred
    ensures IsPath(q.g, q.mode, q.start, hops, goal)
    ensures Cost(q.mode, hops) == s.best[goal] && Length(hops) == distance
    ensures Visits(q.start, hops, nodes)
  {
    nodes, hops, distance := [goal], [], 0.0;
    var current := goal;
    while current != q.start
      invariant current in s.best && IsPath(q.g, q.mode, current, hops, goal)
      invariant Cost(q.mode, hops) == s.best[goal] - s.best[current] && Length(hops) == distance
      invariant Visits(current, hops, nodes)
      decreases if current in rank then rank[current] else clock
    {
      var h := s.pred[current];
      assert Branch(q, s, rank, current);
      Prepend(q, h, hops, goal);
      nodes, hops, distance := [h.from] + nodes, [h] + hops, h.road.length + distance;
      current := h.from;
    }
  }

  /**
   The route search.  A found route is a chain of permitted hops from start to goal, listed with
   its nodes and length, whose duration no other path beats; `NotFound` means no path exists;
   `Limited` is the bounded-resource error: time was up, or more reachable nodes than the limit
   were expanded, none of them the goal.  With a limit of at least the number of nodes and no time
   limit the search decides.
   */
  method FindRoute(g: Graph, start: Id, goal: Id, goalAt: Pos, mode: Mode, maxExpansions: nat, timeUp: nat -> bool)
    returns (r: Route)
    requires g.Valid() && start in g.nodes
    ensures r.Found? ==> IsPath(g, mode, start, r.hops, goal) && Visits(start, r.hops, r.nodes)
    ensures r.Found? ==> r.duration == Cost(mode, r.hops) && r.distance == Length(r.hops)
    ensures r.Found? ==> Minimal(g, mode, start, goal, r.duration)
    ensures r.NotFound? ==> forall p :: !IsPath(g, mode, start, p, goal)
    ensures r.Found? ==> r.expansions <= maxExpansions && r.expansions <= |g.nodes|
    ensures r.Limited? ==> (r.expansions == maxExpansions + 1 || timeUp(r.expansions)) && r.expansions <= |g.nodes|
    ensures r.Limited? ==> exists seen :: Expanded(g, mode, start, goal, seen, r.expansions)
    ensures maxExpansions >= |g.nodes| && (forall j: nat :: !timeUp(j)) ==> !r.Limited?
  {
    var q := Problem(g, mode, start, goalAt);
    if start == goal {
      forall p | IsPath(g, mode, start, p, goal)
        ensures 0.0 <= Cost(mode, p)
      {
        ConsistentPath(g, mode, start, p, goal, goalAt);
      }
      return Found([start], [], 0.0, 0.0, 0);
    }
    var s, rank, clock, expansions, limited, seen := Explore(q, goal, maxExpansions, timeUp);
    if limited {
      return Limited(expansions);
    }
    if goal !in s.pred {
      return NotFound;
    }
    var nodes, hops, distance := Retrace(q, s, rank, clock, goal);
    r := Found(nodes, hops, distance, s.best[goal], expansions);
  }
}
