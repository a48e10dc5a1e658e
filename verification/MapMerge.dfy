/**
 What `merge_delta` does to the derived map: replace the rows of the objects in scope, and patch
 the route graph around the ways in scope.  This module is the meaning; `MapDatabase` is the code.
 */
module MapMerge {
  import opened OsmObjects
  import opened Invalidation
  import opened RouteGraph
  import opened FullBuild

  // ---- route graph -----------------------------------------------------------------------

  /** The delta's route tables, as the delta builder wrote them. */
  datatype RouteDelta = RouteDelta(edges: EdgeTable, nodes: NodeTable)

  function EdgesOf(edges: EdgeTable, ways: set<Id>): EdgeTable {
    map k | k in edges && k.0 in ways :: edges[k]
  }

  function EdgesNotOf(edges: EdgeTable, ways: set<Id>): EdgeTable {
    map k | k in edges && k.0 !in ways :: edges[k]
  }

  function MergedEdges(edges: EdgeTable, ways: set<Id>, d: RouteDelta): EdgeTable {
    EdgesNotOf(edges, ways) + d.edges
  }

  /** `touched_nodes` when the old nodes are counted, and when the modes are recomputed. */
  function TouchedBefore(edges: EdgeTable, ways: set<Id>): set<Id> {
    Endpoints(EdgesOf(edges, ways))
  }

  function Touched(edges: EdgeTable, ways: set<Id>, d: RouteDelta): set<Id> {
    TouchedBefore(edges, ways) + Endpoints(d.edges) + d.nodes.Keys
  }

  /** `route_nodes` once positions are upserted, touched modes recomputed and loose nodes dropped. */
  function NodesAfter(after: EdgeTable, nodes: NodeTable, touched: set<Id>, delta: NodeTable): NodeTable {
    map n | n in nodes.Keys + delta.Keys && (n in touched ==> n in Endpoints(after)) ::
      RouteNode(if n in delta then delta[n].lat else nodes[n].lat,
                if n in delta then delta[n].lon else nodes[n].lon,
                if n in touched then ModesAt(after, n)
                else if n in nodes then nodes[n].modes else delta[n].modes)
  }

  function MergedNodes(edges: EdgeTable, nodes: NodeTable, ways: set<Id>, d: RouteDelta): NodeTable {
    NodesAfter(MergedEdges(edges, ways, d), nodes, Touched(edges, ways, d), d.nodes)
  }

  /** The builder assumption for the route part: only edges of the ways in scope, with their ends. */
  ghost predicate RouteDeltaOk(ways: set<Id>, d: RouteDelta) {
    (forall k :: k in d.edges ==> k.0 in ways) && Endpoints(d.edges) <= d.nodes.Keys
  }

  lemma TouchesEnd(edges: EdgeTable, k: EdgeKey, n: Id)
    requires k in edges && edges[k].Touches(n)
    ensures n in Endpoints(edges)
  {
  }

  /** A node outside `touched` has the same edges before and after. */
  lemma UntouchedEdges(edges: EdgeTable, ways: set<Id>, d: RouteDelta, n: Id)
    requires RouteDeltaOk(ways, d) && n !in Touched(edges, ways, d)
    ensures ModesAt(MergedEdges(edges, ways, d), n) == ModesAt(edges, n)
    ensures n in Endpoints(MergedEdges(edges, ways, d)) <==> n in Endpoints(edges)
  {
    var after := MergedEdges(edges, ways, d);
    forall k | k in edges && edges[k].Touches(n)
      ensures k in after && after[k] == edges[k]
    {
      if k.0 in ways {
        TouchesEnd(EdgesOf(edges, ways), k, n);
      }
    }
    forall k | k in after && after[k].Touches(n)
      ensures k in edges && after[k] == edges[k]
    {
      if k in d.edges {
        TouchesEnd(d.edges, k, n);
      }
    }
    SameEdgesAt(edges, after, n);
  }

  lemma SameEdgesAt(a: EdgeTable, b: EdgeTable, n: Id)
    requires forall k :: k in a && a[k].Touches(n) ==> k in b && b[k] == a[k]
    requires forall k :: k in b && b[k].Touches(n) ==> k in a && b[k] == a[k]
    ensures ModesAt(a, n) == ModesAt(b, n)
    ensures n in Endpoints(a) <==> n in Endpoints(b)
  {
    assert forall m :: HasMode(a, n, m) <==> HasMode(b, n, m);
    if n in Endpoints(a) {
      var k := EndpointEdge(a, n);
      TouchesEnd(b, k, n);
    }
    if n in Endpoints(b) {
      var k := EndpointEdge(b, n);
      TouchesEnd(a, k, n);
    }
  }

  /** An endpoint after the merge is already a node, or is one of the delta's. */
  lemma EndpointKnown(edges: EdgeTable, nodes: NodeTable, ways: set<Id>, d: RouteDelta, n: Id)
    requires nodes.Keys == Endpoints(edges) && RouteDeltaOk(ways, d)
    requires n in Endpoints(MergedEdges(edges, ways, d))
    ensures n in nodes || n in d.nodes
  {
    var k := EndpointEdge(MergedEdges(edges, ways, d), n);
    if k in d.edges {
      TouchesEnd(d.edges, k, n);
    } else {
      TouchesEnd(edges, k, n);
    }
  }

  /** The route-graph invariant survives every merge, whatever the delta's modes say. */
  lemma MergeKeepsGraph(edges: EdgeTable, nodes: NodeTable, ways: set<Id>, d: RouteDelta)
    requires GraphOk(edges, nodes) && RouteDeltaOk(ways, d)
    ensures GraphOk(MergedEdges(edges, ways, d), MergedNodes(edges, nodes, ways, d))
  {
    var after, now := MergedEdges(edges, ways, d), MergedNodes(edges, nodes, ways, d);
    forall n
      ensures n in now <==> n in Endpoints(after)
      ensures n in now ==> now[n].modes == ModesAt(after, n)
    {
      if n !in Touched(edges, ways, d) {
        UntouchedEdges(edges, ways, d, n);
      }
      if n in Endpoints(after) {
        EndpointKnown(edges, nodes, ways, d, n);
      }
    }
  }

  /** The delta is exactly the graph rows of the ways in scope, positions included. */
  ghost predicate IsRouteDelta(rules: RoadRules, t: Store, ways: set<Id>, d: RouteDelta) {
    d.edges == EdgesOf(FullEdges(rules, t), ways) && d.nodes.Keys == Endpoints(d.edges) && Placed(t, d.nodes)
  }

  ghost predicate WaysCovered(s: Store, t: Store, ways: set<Id>) {
    forall w :: WayOf(s, w) != WayOf(t, w) ==> w in ways
  }

  lemma MergedEdgesRebuilt(rules: RoadRules, s: Store, t: Store, ways: set<Id>, d: RouteDelta)
    requires WaysCovered(s, t, ways) && IsRouteDelta(rules, t, ways, d)
    ensures MergedEdges(FullEdges(rules, s), ways, d) == FullEdges(rules, t)
  {
    forall k
      ensures SameEntry(MergedEdges(FullEdges(rules, s), ways, d), FullEdges(rules, t), k)
    {
      EdgeRebuilt(rules, s, t, ways, d, k);
    }
    SameTables(MergedEdges(FullEdges(rules, s), ways, d), FullEdges(rules, t));
  }

  lemma EdgeRebuilt(rules: RoadRules, s: Store, t: Store, ways: set<Id>, d: RouteDelta, k: EdgeKey)
    requires WaysCovered(s, t, ways) && IsRouteDelta(rules, t, ways, d)
    ensures SameEntry(MergedEdges(FullEdges(rules, s), ways, d), FullEdges(rules, t), k)
  {
    if k.0 !in ways {
      assert WayOf(s, k.0) == WayOf(t, k.0);
      assert k.0 in s.ways <==> k.0 in t.ways;
      FullEdgeIff(rules, s, k);
      FullEdgeIff(rules, t, k);
    }
  }

  /** A node of a way whose content did not change has not moved. */
  lemma EdgeNodeKept(rules: RoadRules, s: Store, t: Store, w: Id, i: nat, n: Id)
    requires WayOf(s, w) == WayOf(t, w)
    requires i in WayEdges(rules, WayOf(t, w)) && WayEdges(rules, WayOf(t, w))[i].Touches(n)
    ensures n in s.nodes && n in t.nodes && s.nodes[n] == t.nodes[n]
  {
    var at := Located(WayOf(t, w).nodes);
    var p := if at[i].0 == n then at[i] else at[i + 1];
    assert p in at;
    WayNodeRow(s, w, p);
    WayNodeRow(t, w, p);
  }

  lemma MergedNodesPlaced(rules: RoadRules, s: Store, t: Store, nodes: NodeTable, ways: set<Id>, d: RouteDelta)
    requires WaysCovered(s, t, ways) && IsRouteDelta(rules, t, ways, d)
    requires Placed(s, nodes) && GraphOk(FullEdges(rules, s), nodes)
    requires MergedEdges(FullEdges(rules, s), ways, d) == FullEdges(rules, t)
    requires GraphOk(FullEdges(rules, t), MergedNodes(FullEdges(rules, s), nodes, ways, d))
    ensures Placed(t, MergedNodes(FullEdges(rules, s), nodes, ways, d))
  {
    var now := MergedNodes(FullEdges(rules, s), nodes, ways, d);
    forall n | n in now
      ensures n in t.nodes && now[n].lat == t.nodes[n].lat && now[n].lon == t.nodes[n].lon
    {
      if n !in d.nodes {
        UndeltaedNode(rules, s, t, ways, d, n);
      }
    }
  }

  /** An endpoint that the delta does not carry lies on a way that did not change. */
  lemma UndeltaedNode(rules: RoadRules, s: Store, t: Store, ways: set<Id>, d: RouteDelta, n: Id)
    requires WaysCovered(s, t, ways) && IsRouteDelta(rules, t, ways, d)
    requires n in Endpoints(FullEdges(rules, t)) && n !in d.nodes
    ensures n in s.nodes && n in t.nodes && s.nodes[n] == t.nodes[n]
  {
    var k := EndpointEdge(FullEdges(rules, t), n);
    FullEdgeIff(rules, t, k);
    if k.0 in ways {
      TouchesEnd(d.edges, k, n);
    } else {
      EdgeNodeKept(rules, s, t, k.0, k.1, n);
    }
  }

  /** Incremental equals rebuild, for the whole route graph. */
  lemma RouteMergeIsRebuild(rules: RoadRules, s: Store, t: Store, edges: EdgeTable, nodes: NodeTable,
                            ways: set<Id>, d: RouteDelta)
    requires IsGraphOf(rules, s, edges, nodes)
    requires WaysCovered(s, t, ways) && IsRouteDelta(rules, t, ways, d)
    ensures IsGraphOf(rules, t, MergedEdges(edges, ways, d), MergedNodes(edges, nodes, ways, d))
  {
    MergedEdgesRebuilt(rules, s, t, ways, d);
    assert RouteDeltaOk(ways, d);
    MergeKeepsGraph(edges, nodes, ways, d);
    MergedNodesPlaced(rules, s, t, nodes, ways, d);
  }

  // ---- the node counter ------------------------------------------------------------------

  /** The counter formula of the code: old and new counts use different touched sets. */
  ghost function NextNodeCount(count: int, edges: EdgeTable, nodes: NodeTable, ways: set<Id>, d: RouteDelta): int {
    count - Size(nodes.Keys * TouchedBefore(edges, ways))
          + Size(MergedNodes(edges, nodes, ways, d).Keys * Touched(edges, ways, d))
  }

  /** One merge adds to the counter's error exactly the present nodes that only the delta touches. */
  lemma NodeCountDrift(count: int, edges: EdgeTable, nodes: NodeTable, ways: set<Id>, d: RouteDelta)
    requires GraphOk(edges, nodes) && RouteDeltaOk(ways, d)
    ensures NextNodeCount(count, edges, nodes, ways, d) - |MergedNodes(edges, nodes, ways, d)|
         == count - |nodes| + |nodes.Keys * (Touched(edges, ways, d) - TouchedBefore(edges, ways))|
  {
    var now := MergedNodes(edges, nodes, ways, d).Keys;
    var touched, before := Touched(edges, ways, d), TouchedBefore(edges, ways);
    forall n | n !in touched
      ensures n in now <==> n in nodes
    {
    }
    Drift(now, nodes.Keys, touched, before);
    SizeIsCard(nodes.Keys * before);
    SizeIsCard(now * touched);
  }

  lemma Drift<T(!new)>(now: set<T>, nodes: set<T>, touched: set<T>, before: set<T>)
    requires forall n :: n !in touched ==> (n in now <==> n in nodes)
    requires before <= touched
    ensures |now * touched| - |nodes * before| - |now| == |nodes * (touched - before)| - |nodes|
  {
    assert now - touched == nodes - touched;
    Split(now, touched);
    Split(nodes, touched);
    Split(nodes * touched, before);
    assert nodes * touched * before == nodes * before;
    assert nodes * touched - before == nodes * (touched - before);
  }

  lemma Split<T>(a: set<T>, b: set<T>)
    ensures |a| == |a * b| + |a - b|
  {
    assert a == (a * b) + (a - b);
  }

  /** The counter stays exact over a merge exactly when the delta touches no node that is already
      present and was not touched by a removed edge. */
  lemma NodeCountExactIff(edges: EdgeTable, nodes: NodeTable, ways: set<Id>, d: RouteDelta)
    requires GraphOk(edges, nodes) && RouteDeltaOk(ways, d)
    ensures NextNodeCount(|nodes|, edges, nodes, ways, d) == |MergedNodes(edges, nodes, ways, d)|
       <==> nodes.Keys * (Touched(edges, ways, d) - TouchedBefore(edges, ways)) == {}
  {
    NodeCountDrift(|nodes|, edges, nodes, ways, d);
  }

  lemma OneEdge(k: EdgeKey, e: Edge)
    ensures Endpoints(map[k := e]) == {e.source, e.target}
    ensures ModesAt(map[k := e], e.source) == ModesAt(map[k := e], e.target) == e.Both()
  {
    var t: EdgeTable := map[k := e];
    assert k in t && t[k] == e;
    assert forall m :: HasMode(t, e.source, m) <==> e.Both().Has(m);
    assert forall m :: HasMode(t, e.target, m) <==> e.Both().Has(m);
  }

  /** The drift is real: a new one-edge way at an existing junction counts the junction twice. */
  lemma NewRoadDrift(edges: EdgeTable, nodes: NodeTable, way: Id, e: Edge, d: RouteDelta)
    requires GraphOk(edges, nodes) && forall k :: k in edges ==> k.0 != way
    requires d.edges == map[(way, 0) := e] && d.nodes.Keys == {e.source, e.target}
    requires e.source in nodes && e.target !in nodes
    ensures NextNodeCount(|nodes|, edges, nodes, {way}, d) == |MergedNodes(edges, nodes, {way}, d)| + 1
  {
    NewRoadTouched(edges, way, e, d);
    NodeCountDrift(|nodes|, edges, nodes, {way}, d);
    OneCommon(nodes.Keys, Touched(edges, {way}, d), TouchedBefore(edges, {way}), e.source, e.target);
  }

  lemma NewRoadTouched(edges: EdgeTable, way: Id, e: Edge, d: RouteDelta)
    requires forall k :: k in edges ==> k.0 != way
    requires d.edges == map[(way, 0) := e] && d.nodes.Keys == {e.source, e.target}
    ensures TouchedBefore(edges, {way}) == {} && Touched(edges, {way}, d) == {e.source, e.target}
    ensures RouteDeltaOk({way}, d)
  {
    OneEdge((way, 0), e);
    assert EdgesOf(edges, {way}) == map[];
  }

  lemma OneCommon<T>(nodes: set<T>, touched: set<T>, before: set<T>, a: T, b: T)
    requires touched == {a, b} && before == {} && a in nodes && b !in nodes
    ensures |nodes * (touched - before)| == 1
  {
    assert nodes * (touched - before) == {a};
  }

  datatype RouteState = RouteState(edges: EdgeTable, nodes: NodeTable, count: int)

  ghost function MergeStep(r: RouteState, ways: set<Id>, d: RouteDelta): RouteState {
    RouteState(MergedEdges(r.edges, ways, d), MergedNodes(r.edges, r.nodes, ways, d),
               NextNodeCount(r.count, r.edges, r.nodes, ways, d))
  }

  ghost function MergeRun(r: RouteState, run: seq<(set<Id>, RouteDelta)>): RouteState
    decreases |run|
  {
    if run == [] then r else MergeRun(MergeStep(r, run[0].0, run[0].1), run[1..])
  }

  /** Over every run of merges: nodes are exactly the endpoints with their OR-ed modes, and the
      node counter never falls below the truth by more than it started. */
  lemma {:induction false} GraphOverRuns(r: RouteState, run: seq<(set<Id>, RouteDelta)>)
    requires GraphOk(r.edges, r.nodes)
    requires forall i :: 0 <= i < |run| ==> RouteDeltaOk(run[i].0, run[i].1)
    ensures GraphOk(MergeRun(r, run).edges, MergeRun(r, run).nodes)
    ensures MergeRun(r, run).count - |MergeRun(r, run).nodes| >= r.count - |r.nodes|
    decreases |run|
  {
    if run != [] {
      assert RouteDeltaOk(run[0].0, run[0].1);
      MergeKeepsGraph(r.edges, r.nodes, run[0].0, run[0].1);
      NodeCountDrift(r.count, r.edges, r.nodes, run[0].0, run[0].1);
      GraphOverRuns(MergeStep(r, run[0].0, run[0].1), run[1..]);
    }
  }

  // ---- features and areas ----------------------------------------------------------------

  /** A row of `features` or `render_areas`; (owner, kind) is its unique key. */
  datatype MapRow = MapRow(owner: Obj, kind: string, payload: string)

  /** The row derivation of the builder: any function of the expanded content. */
  datatype RowRules = RowRules(derive: (Obj, Content) -> set<MapRow>, depth: nat)
  {
    /** Rows belong to the object they are derived from, and an object has one row of a kind. */
    ghost predicate Valid() {
      && (forall o, c, r :: r in derive(o, c) ==> r.owner == o)
      && (forall o, c, r, q :: r in derive(o, c) && q in derive(o, c) && r.kind == q.kind ==> r == q)
    }

    function Derived(s: Store, o: Obj): set<MapRow> {
      derive(o, Expand(s, o, depth))
    }
  }

  ghost predicate Deferred(o: Obj, stale: set<Id>) {
    o.RelationObj? && o.id in stale
  }

  /** The table holds exactly the derived rows of `o`. */
  ghost predicate FreshAt(rules: RowRules, rows: set<MapRow>, s: Store, o: Obj) {
    forall r: MapRow :: r.owner == o ==> (r in rows <==> r in rules.Derived(s, o))
  }

  /** ... of every object but the relations in `stale`. */
  ghost predicate UpToDate(rules: RowRules, rows: set<MapRow>, s: Store, stale: set<Id>) {
    forall o :: !Deferred(o, stale) ==> FreshAt(rules, rows, s, o)
  }

  function Pruned(scope: Scope, pruned: set<Id>): Scope {
    scope.(relations := scope.relations - pruned)
  }

  /** The builder assumption: the delta is the derived rows of the objects in scope. */
  ghost predicate IsRowDelta(rules: RowRules, t: Store, scope: Scope, delta: set<MapRow>) {
    forall r: MapRow :: r in delta <==> scope.Has(r.owner) && r in rules.Derived(t, r.owner)
  }

  function MergedRows(rows: set<MapRow>, scope: Scope, delta: set<MapRow>): set<MapRow> {
    (set r | r in rows && !scope.Has(r.owner)) + delta
  }

  /** The relations left out of date by a merge. */
  function NextStale(stale: set<Id>, scope: Scope, pruned: set<Id>): set<Id> {
    (stale - (scope.relations - pruned)) + pruned
  }

  /** Incremental equals rebuild for every object that was neither pruned now nor left stale. */
  lemma RowMergeIsRebuild(rules: RowRules, s: Store, t: Store, rows: set<MapRow>, stale: set<Id>,
                          scope: Scope, pruned: set<Id>, delta: set<MapRow>)
    requires UpToDate(rules, rows, s, stale)
    requires Covers(scope, s, t, rules.depth)
    requires IsRowDelta(rules, t, Pruned(scope, pruned), delta)
    ensures UpToDate(rules, MergedRows(rows, Pruned(scope, pruned), delta), t, NextStale(stale, scope, pruned))
  {
    var small := Pruned(scope, pruned);
    var now := MergedRows(rows, small, delta);
    forall o | !Deferred(o, NextStale(stale, scope, pruned))
      ensures FreshAt(rules, now, t, o)
    {
      if !small.Has(o) {
        assert !scope.Has(o);
        assert Expand(s, o, rules.depth) == Expand(t, o, rules.depth);
        assert FreshAt(rules, rows, s, o);
      }
    }
  }

  /** A pruned relation keeps exactly the rows it had. */
  lemma PrunedRowsKept(rules: RowRules, t: Store, rows: set<MapRow>, scope: Scope, pruned: set<Id>,
                       delta: set<MapRow>, r: MapRow)
    requires IsRowDelta(rules, t, Pruned(scope, pruned), delta)
    requires Deferred(r.owner, pruned)
    ensures r in MergedRows(rows, Pruned(scope, pruned), delta) <==> r in rows
  {
    assert !Pruned(scope, pruned).Has(r.owner);
  }

  /** `UpToDate` fixes the rows of every object that is not stale. */
  lemma UpToDateUnique(rules: RowRules, a: set<MapRow>, b: set<MapRow>, s: Store, stale: set<Id>, r: MapRow)
    requires UpToDate(rules, a, s, stale) && UpToDate(rules, b, s, stale)
    requires !Deferred(r.owner, stale)
    ensures r in a <==> r in b
  {
    assert FreshAt(rules, a, s, r.owner) && FreshAt(rules, b, s, r.owner);
  }
}
