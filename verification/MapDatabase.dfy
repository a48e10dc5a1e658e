/**
 `merge_delta` as the code runs it: table statements in order, with the triggers that keep the
 RTree and full-text rows beside their base rows, and the counter metadata.
 */
module MapDatabase {
  import opened OsmObjects
  import opened RouteGraph
  import opened FullBuild
  import opened MapMerge

  /** What the RTree and full-text tables hold for one row. */
  datatype IndexEntry = IndexEntry(box: string, text: string)

  // ---- features and render_areas ---------------------------------------------------------

  ghost predicate UniqueKeys(rows: map<nat, MapRow>) {
    forall i, j :: i in rows && j in rows && rows[i].owner == rows[j].owner && rows[i].kind == rows[j].kind ==> i == j
  }

  ghost predicate DistinctKeys(delta: seq<MapRow>) {
    forall i, j :: 0 <= i < j < |delta| ==> delta[i].owner != delta[j].owner || delta[i].kind != delta[j].kind
  }

  function HitIds(rows: map<nat, MapRow>, scope: Scope): set<nat> {
    set id | id in rows && scope.Has(rows[id].owner)
  }

  ghost function RowSet(rows: map<nat, MapRow>): set<MapRow> {
    set id | id in rows :: rows[id]
  }

  ghost function Appended(rows: map<nat, MapRow>, first: nat, delta: seq<MapRow>): map<nat, MapRow> {
    if delta == [] then rows
    else
      var n := |delta| - 1;
      Appended(rows, first, delta[..n])[first + n := delta[n]]
  }

  lemma {:induction false} AppendedRows(rows: map<nat, MapRow>, first: nat, delta: seq<MapRow>)
    requires forall id :: id in rows ==> id < first
    ensures var now := Appended(rows, first, delta);
            && (forall id :: id in now <==> id in rows || first <= id < first + |delta|)
            && (forall id :: id in rows ==> now[id] == rows[id])
            && (forall id :: first <= id < first + |delta| ==> now[id] == delta[id - first])
    decreases |delta|
  {
    if delta != [] {
      AppendedRows(rows, first, delta[..|delta| - 1]);
    }
  }

  lemma AppendedUnique(rows: map<nat, MapRow>, first: nat, delta: seq<MapRow>)
    requires forall id :: id in rows ==> id < first
    requires UniqueKeys(rows) && DistinctKeys(delta)
    requires forall id, j :: id in rows && 0 <= j < |delta| ==> rows[id].owner != delta[j].owner
    ensures UniqueKeys(Appended(rows, first, delta))
  {
    AppendedRows(rows, first, delta);
  }

  class MirroredTable {
    var rows: map<nat, MapRow>
    var index: map<nat, IndexEntry>
    var nextId: nat
    var count: int
    var kindCounts: map<string, int>
    const entry: MapRow -> IndexEntry

    /** Index rows mirror base rows, ids are fresh, and (owner, kind) is a key. */
    ghost predicate Mirrored()
      reads this`rows, this`index, this`nextId
    {
      && index.Keys == rows.Keys
      && (forall id :: id in rows ==> index[id] == entry(rows[id]))
      && (forall id :: id in rows ==> id < nextId)
      && UniqueKeys(rows)
    }

    /** ... and the counters in the metadata equal the true row counts. */
    ghost predicate Valid()
      reads this
    {
      Mirrored() && count == Size(rows.Keys) && KindsCounted(kindCounts, rows)
    }

    constructor (entry: MapRow -> IndexEntry, kinds: set<string>)
      ensures Valid() && rows == map[] && kindCounts.Keys == kinds
    {
      this.entry := entry;
      rows, index, nextId, count := map[], map[], 0, 0;
      kindCounts := map kind | kind in kinds :: 0;
      new;
      assert forall kind :: IdsOfKind(rows, kind) == {};
      assert rows.Keys == {};
    }

    /** Delete the rows of the objects in scope; the delete trigger drops their index rows. */
    method DeleteScope(scope: Scope)
      requires Mirrored()
      modifies this`rows, this`index
      ensures Mirrored()
      ensures rows == old(rows) - HitIds(old(rows), scope)
    {
      var hits := HitIds(rows, scope);
      var todo := hits;
      while todo != {}
        invariant todo <= hits
        invariant rows == old(rows) - (hits - todo) && index == old(index) - (hits - todo)
        decreases |todo|
      {
        var id :| id in todo;
        rows := rows - {id};
        index := index - {id};
        todo := todo - {id};
        assert old(rows) - (hits - todo) == rows;
        assert old(index) - (hits - todo) == index;
      }
    }

    /** Insert the delta's rows; the insert trigger adds their index rows. */
    method InsertAll(delta: seq<MapRow>)
      requires Mirrored() && DistinctKeys(delta)
      requires forall id, j :: id in rows && 0 <= j < |delta| ==> rows[id].owner != delta[j].owner
      modifies this`rows, this`index, this`nextId
      ensures Mirrored()
      ensures rows == Appended(old(rows), old(nextId), delta)
    {
      for n := 0 to |delta|
        invariant nextId == old(nextId) + n
        invariant rows == Appended(old(rows), old(nextId), delta[..n])
        invariant index.Keys == rows.Keys
        invariant forall id :: id in rows ==> index[id] == entry(rows[id])
      {
        rows := rows[nextId := delta[n]];
        index := index[nextId := entry(delta[n])];
        nextId := nextId + 1;
        assert delta[..n + 1][..n] == delta[..n];
      }
      assert delta[..|delta|] == delta;
      AppendedRows(old(rows), old(nextId), delta);
      AppendedUnique(old(rows), old(nextId), delta);
    }

    /** One table's part of the merge: count the hits, delete, insert, move the counters. */
    method Replace(scope: Scope, delta: seq<MapRow>)
      requires Valid() && RowsInScope(delta, scope)
      modifies this
      ensures Valid() && kindCounts.Keys == old(kindCounts.Keys)
      ensures RowSet(rows) == MergedRows(old(RowSet(rows)), scope, set r | r in delta)
    {
      var before := rows;
      MergedRowSet(before, scope, nextId, delta);
      ReplaceRows(scope, delta);
      MoveCounters(before, old(nextId), scope, delta);
    }

    method MoveCounters(before: map<nat, MapRow>, ghost first: nat, scope: Scope, delta: seq<MapRow>)
      requires count == Size(before.Keys) && KindsCounted(kindCounts, before)
      requires (forall id :: id in before ==> id < first) && rows == ReplacedRows(before, first, scope, delta)
      modifies this`count, this`kindCounts
      ensures count == Size(rows.Keys) && KindsCounted(kindCounts, rows) && kindCounts.Keys == old(kindCounts.Keys)
    {
      RowCountsExact(kindCounts, before, first, scope, delta);
      SizeIsCard(before.Keys);
      SizeIsCard(rows.Keys);
      count := count - |HitIds(before, scope)| + |delta|;
      kindCounts := NextKindCounts(kindCounts, before, scope, delta);
    }

    method ReplaceRows(scope: Scope, delta: seq<MapRow>)
      requires Mirrored() && RowsInScope(delta, scope)
      modifies this`rows, this`index, this`nextId
      ensures Mirrored()
      ensures rows == ReplacedRows(old(rows), old(nextId), scope, delta)
    {
      DeleteScope(scope);
      InsertAll(delta);
    }
  }

  /** A delete of the scope followed by the insert is `MergedRows` on the row sets. */
  lemma MergedRowSet(rows: map<nat, MapRow>, scope: Scope, first: nat, delta: seq<MapRow>)
    requires forall id :: id in rows ==> id < first
    ensures RowSet(ReplacedRows(rows, first, scope, delta))
         == MergedRows(RowSet(rows), scope, set r | r in delta)
  {
    var kept := rows - HitIds(rows, scope);
    var now := Appended(kept, first, delta);
    AppendedRows(kept, first, delta);
    forall r | r in RowSet(now)
      ensures r in MergedRows(RowSet(rows), scope, set r | r in delta)
    {
      var id :| id in now && now[id] == r;
    }
    forall r | r in MergedRows(RowSet(rows), scope, set r | r in delta)
      ensures r in RowSet(now)
    {
      if r in delta {
        var j :| 0 <= j < |delta| && delta[j] == r;
        assert first + j in now && now[first + j] == r;
      } else {
        var id :| id in rows && rows[id] == r;
        assert id in now && now[id] == r;
      }
    }
  }

  // ---- counters --------------------------------------------------------------------------

  function IdsOfKind(rows: map<nat, MapRow>, kind: string): set<nat> {
    set id | id in rows && rows[id].kind == kind
  }

  function CountInDelta(delta: seq<MapRow>, kind: string): nat {
    if delta == [] then 0
    else CountInDelta(delta[..|delta| - 1], kind) + if delta[|delta| - 1].kind == kind then 1 else 0
  }

  lemma {:induction false} AppendedSize(rows: map<nat, MapRow>, first: nat, delta: seq<MapRow>)
    requires forall id :: id in rows ==> id < first
    ensures |Appended(rows, first, delta)| == |rows| + |delta|
    decreases |delta|
  {
    if delta != [] {
      var n := |delta| - 1;
      AppendedSize(rows, first, delta[..n]);
      AppendedRows(rows, first, delta[..n]);
      OneMore(Appended(rows, first, delta[..n]), first + n, delta[n]);
    }
  }

  lemma {:induction false} AppendedKind(rows: map<nat, MapRow>, first: nat, delta: seq<MapRow>, kind: string)
    requires forall id :: id in rows ==> id < first
    ensures Size(IdsOfKind(Appended(rows, first, delta), kind))
         == Size(IdsOfKind(rows, kind)) + CountInDelta(delta, kind)
    decreases |delta|
  {
    if delta != [] {
      var n := |delta| - 1;
      AppendedKind(rows, first, delta[..n], kind);
      AppendedRows(rows, first, delta[..n]);
      OneMoreOfKind(Appended(rows, first, delta[..n]), first + n, delta[n], kind);
    }
  }

  lemma OneMore(rows: map<nat, MapRow>, id: nat, row: MapRow)
    requires id !in rows
    ensures |rows[id := row]| == |rows| + 1
  {
    assert rows[id := row].Keys == rows.Keys + {id};
  }

  lemma OneMoreOfKind(rows: map<nat, MapRow>, id: nat, row: MapRow, kind: string)
    requires id !in rows
    ensures Size(IdsOfKind(rows[id := row], kind)) == Size(IdsOfKind(rows, kind)) + if row.kind == kind then 1 else 0
  {
    var now := IdsOfKind(rows[id := row], kind);
    if row.kind == kind {
      assert now == IdsOfKind(rows, kind) + {id};
      SizeIsCard(now);
      SizeIsCard(IdsOfKind(rows, kind));
    } else {
      assert now == IdsOfKind(rows, kind);
    }
  }

  lemma HitsRemoved(rows: map<nat, MapRow>, hits: set<nat>, kind: string)
    requires hits <= rows.Keys
    ensures |rows - hits| == |rows| - |hits|
    ensures Size(IdsOfKind(rows - hits, kind)) == Size(IdsOfKind(rows, kind)) - |IdsOfKind(rows, kind) * hits|
  {
    assert (rows - hits).Keys == rows.Keys - hits;
    SizeMinus(rows.Keys, hits);
    assert IdsOfKind(rows - hits, kind) == IdsOfKind(rows, kind) - hits;
    SizeMinus(IdsOfKind(rows, kind), hits);
    SizeIsCard(IdsOfKind(rows, kind));
    SizeIsCard(IdsOfKind(rows, kind) - hits);
  }

  lemma SizeMinus<T>(a: set<T>, b: set<T>)
    ensures |a - b| == |a| - |a * b|
    ensures b <= a ==> |a - b| == |a| - |b|
  {
    assert a == (a - b) + (a * b);
    assert b <= a ==> a * b == b;
  }

  // ---- route_edges and route_nodes -------------------------------------------------------

  /** `raw_node_modes`: one row per edge end at a touched node. */
  function RawModes(edges: EdgeTable, touched: set<Id>): set<(Id, Modes)> {
    (set k | k in edges && edges[k].source in touched :: (edges[k].source, edges[k].Both()))
    + (set k | k in edges && edges[k].target in touched :: (edges[k].target, edges[k].Both()))
  }

  /** `max(modes & bit)` over the rows of one node. */
  function MaxAnd(raw: set<(Id, Modes)>, n: Id, m: Mode): bv8 {
    if exists r :: r in raw && r.0 == n && r.1.Mask() & Bit(m) != 0 then Bit(m) else 0
  }

  function FromMask(mask: bv8): Modes {
    Modes(mask & 1 != 0, mask & 2 != 0, mask & 4 != 0)
  }

  /** The grouped aggregate `max(modes&1)+max(modes&2)+max(modes&4)`. */
  function Aggregate(raw: set<(Id, Modes)>, n: Id): Modes {
    FromMask(MaxAnd(raw, n, Walking) + MaxAnd(raw, n, Cycling) + MaxAnd(raw, n, Driving))
  }

  lemma MaskSum(x: bool, y: bool, z: bool)
    ensures FromMask((if x then 1 else 0) + (if y then 2 else 0) + (if z then 4 else 0)) == Modes(x, y, z)
  {
  }

  ghost predicate RawHas(raw: set<(Id, Modes)>, n: Id, m: Mode) {
    exists r :: r in raw && r.0 == n && r.1.Has(m)
  }

  lemma MaxAndIff(raw: set<(Id, Modes)>, n: Id, m: Mode)
    ensures MaxAnd(raw, n, m) == if RawHas(raw, n, m) then Bit(m) else 0
  {
    forall r | r in raw
      ensures r.1.Mask() & Bit(m) != 0 <==> r.1.Has(m)
    {
      MaskLaws(r.1, r.1, m);
    }
  }

  lemma AggregateIsHas(raw: set<(Id, Modes)>, n: Id)
    ensures Aggregate(raw, n) == Modes(RawHas(raw, n, Walking), RawHas(raw, n, Cycling), RawHas(raw, n, Driving))
  {
    MaxAndIff(raw, n, Walking);
    MaxAndIff(raw, n, Cycling);
    MaxAndIff(raw, n, Driving);
    MaskSum(RawHas(raw, n, Walking), RawHas(raw, n, Cycling), RawHas(raw, n, Driving));
  }

  lemma RawHasIff(edges: EdgeTable, touched: set<Id>, n: Id, m: Mode)
    requires n in touched
    ensures RawHas(RawModes(edges, touched), n, m) <==> HasMode(edges, n, m)
  {
    var raw := RawModes(edges, touched);
    if HasMode(edges, n, m) {
      var k :| k in edges && edges[k].Touches(n) && edges[k].Both().Has(m);
      assert (n, edges[k].Both()) in raw;
    }
  }

  /** The mask arithmetic is the OR of the edges at the node. */
  lemma AggregateIsOr(edges: EdgeTable, touched: set<Id>, n: Id)
    requires n in touched
    ensures Aggregate(RawModes(edges, touched), n) == ModesAt(edges, n)
    ensures (exists r :: r in RawModes(edges, touched) && r.0 == n) <==> n in Endpoints(edges)
  {
    AggregateIsHas(RawModes(edges, touched), n);
    RawHasIff(edges, touched, n, Walking);
    RawHasIff(edges, touched, n, Cycling);
    RawHasIff(edges, touched, n, Driving);
    if n in Endpoints(edges) {
      var k := EndpointEdge(edges, n);
      assert (n, edges[k].Both()) in RawModes(edges, touched);
    }
  }

  function Positions(nodes: NodeTable): map<Id, (int, int)> {
    map n | n in nodes :: (nodes[n].lat, nodes[n].lon)
  }

  class RouteTables {
    var edges: EdgeTable
    var nodes: NodeTable
    var nodeIndex: map<Id, (int, int)>
    var edgeCount: int
    var nodeCount: int

    /** `route_nodes_rtree` mirrors `route_nodes`. */
    ghost predicate Indexed()
      reads this`nodes, this`nodeIndex
    {
      nodeIndex == Positions(nodes)
    }

    /** ... and the edge counter is the number of edges. */
    ghost predicate Valid()
      reads this
    {
      Indexed() && edgeCount == Size(edges.Keys)
    }

    constructor (edges: EdgeTable, nodes: NodeTable, nodeCount: int)
      ensures Valid() && this.edges == edges && this.nodes == nodes && this.nodeCount == nodeCount
    {
      this.edges, this.nodes, this.edgeCount, this.nodeCount := edges, nodes, |edges.Keys|, nodeCount;
      SizeIsCard(edges.Keys);
      nodeIndex := Positions(nodes);
    }

    /** `INSERT ... ON CONFLICT(id) DO UPDATE SET lat, lon`: an existing node keeps its modes.
        The insert and update triggers write the position into the index. */
    method UpsertPositions(delta: NodeTable)
      requires Indexed()
      modifies this`nodes, this`nodeIndex
      ensures Indexed()
      ensures nodes == Positioned(old(nodes), delta)
    {
      nodes := nodes + map n | n in delta ::
        RouteNode(delta[n].lat, delta[n].lon, if n in nodes then nodes[n].modes else delta[n].modes);
      nodeIndex := nodeIndex + map n | n in delta :: (delta[n].lat, delta[n].lon);
    }

    /** `UPDATE route_nodes SET modes` fires no trigger. */
    method UpdateModes(noded: set<Id>, raw: set<(Id, Modes)>)
      requires Indexed()
      modifies this`nodes
      ensures Indexed()
      ensures nodes == Remoded(old(nodes), noded, raw)
    {
      nodes := map n | n in nodes :: if n in noded then nodes[n].(modes := Aggregate(raw, n)) else nodes[n];
    }

    method DeleteNodes(gone: set<Id>)
      requires Indexed()
      modifies this`nodes, this`nodeIndex
      ensures Indexed()
      ensures nodes == old(nodes) - gone
    {
      nodes := nodes - gone;
      nodeIndex := nodeIndex - gone;
    }

    /** The route part of the merge, statement by statement. */
    method Merge(ways: set<Id>, d: RouteDelta)
      requires Valid() && RouteDeltaOk(ways, d)
      modifies this
      ensures Valid()
      ensures edges == MergedEdges(old(edges), ways, d)
      ensures nodes == MergedNodes(old(edges), old(nodes), ways, d)
      ensures nodeCount == NextNodeCount(old(nodeCount), old(edges), old(nodes), ways, d)
    {
      var before := TouchedBefore(edges, ways);
      ReplaceEdges(ways, d);
      PatchNodes(before, before + Endpoints(d.edges) + d.nodes.Keys, d.nodes);
    }

    method ReplaceEdges(ways: set<Id>, d: RouteDelta)
      requires edgeCount == Size(edges.Keys) && RouteDeltaOk(ways, d)
      modifies this`edges, this`edgeCount
      ensures edges == MergedEdges(old(edges), ways, d) && edgeCount == Size(edges.Keys)
    {
      SizeIsCard(edges.Keys);
      SizeIsCard(MergedEdges(edges, ways, d).Keys);
      EdgeCountExact(edges, ways, d);
      edgeCount := edgeCount - |EdgesOf(edges, ways)| + |d.edges|;
      edges := EdgesNotOf(edges, ways) + d.edges;
    }

    /** The node statements between the old count over `before` and the new count over `touched`. */
    method PatchNodes(before: set<Id>, touched: set<Id>, delta: NodeTable)
      requires Indexed()
      modifies this`nodes, this`nodeIndex, this`nodeCount
      ensures Indexed()
      ensures nodes == NodesAfter(edges, old(nodes), touched, delta)
      ensures nodeCount == old(nodeCount) - Size(old(nodes.Keys) * before) + Size(nodes.Keys * touched)
    {
      SizeIsCard(nodes.Keys * before);
      var oldCount := |nodes.Keys * before|;
      UpdateNodes(touched, delta);
      SizeIsCard(nodes.Keys * touched);
      nodeCount := nodeCount - oldCount + |nodes.Keys * touched|;
    }

    method UpdateNodes(touched: set<Id>, delta: NodeTable)
      requires Indexed()
      modifies this`nodes, this`nodeIndex
      ensures Indexed()
      ensures nodes == NodesAfter(edges, old(nodes), touched, delta)
    {
      StatementsMerge(edges, nodes, touched, delta);
      UpsertPositions(delta);
      var raw := RawModes(edges, touched);
      var noded := set r | r in raw :: r.0;
      UpdateModes(noded, raw);
      DeleteNodes(touched - noded);
    }
  }

  function Positioned(nodes: NodeTable, delta: NodeTable): NodeTable {
    map n | n in nodes.Keys + delta.Keys ::
      if n !in delta then nodes[n]
      else RouteNode(delta[n].lat, delta[n].lon, if n in nodes then nodes[n].modes else delta[n].modes)
  }

  function Remoded(nodes: NodeTable, noded: set<Id>, raw: set<(Id, Modes)>): NodeTable {
    map n | n in nodes :: if n in noded then nodes[n].(modes := Aggregate(raw, n)) else nodes[n]
  }

  function Patched(edges: EdgeTable, nodes: NodeTable, touched: set<Id>, delta: NodeTable): NodeTable {
    var raw := RawModes(edges, touched);
    var noded := set r | r in raw :: r.0;
    Remoded(Positioned(nodes, delta), noded, raw) - (touched - noded)
  }

  /** What the node statements leave in `route_nodes`, without the mask arithmetic. */
  lemma StatementsMerge(edges: EdgeTable, nodes: NodeTable, touched: set<Id>, delta: NodeTable)
    ensures Patched(edges, nodes, touched, delta) == NodesAfter(edges, nodes, touched, delta)
  {
    forall n
      ensures SameNode(Patched(edges, nodes, touched, delta), NodesAfter(edges, nodes, touched, delta), n)
    {
      NodedIff(edges, touched, n);
    }
    SameNodes(Patched(edges, nodes, touched, delta), NodesAfter(edges, nodes, touched, delta));
  }

  ghost predicate SameNode(a: NodeTable, b: NodeTable, n: Id) {
    (n in a <==> n in b) && (n in a ==> a[n] == b[n])
  }

  lemma SameNodes(a: NodeTable, b: NodeTable)
    requires forall n :: SameNode(a, b, n)
    ensures a == b
  {
    assert forall n :: n in a ==> SameNode(a, b, n);
    assert forall n :: n in b ==> SameNode(a, b, n);
  }

  lemma NodedIff(edges: EdgeTable, touched: set<Id>, n: Id)
    ensures var noded := set r | r in RawModes(edges, touched) :: r.0;
            n in noded <==> n in touched && n in Endpoints(edges)
    ensures n in touched ==> Aggregate(RawModes(edges, touched), n) == ModesAt(edges, n)
  {
    if n in touched {
      AggregateIsOr(edges, touched, n);
    }
  }

  function NextEdgeCount(count: int, edges: EdgeTable, ways: set<Id>, d: RouteDelta): int {
    count - |EdgesOf(edges, ways)| + |d.edges|
  }

  /** The edge counter stays equal to the number of edges. */
  lemma EdgeCountExact(edges: EdgeTable, ways: set<Id>, d: RouteDelta)
    requires RouteDeltaOk(ways, d)
    ensures NextEdgeCount(|edges|, edges, ways, d) == |MergedEdges(edges, ways, d)|
  {
    var kept, gone := EdgesNotOf(edges, ways), EdgesOf(edges, ways);
    EdgeKeys(edges, ways, d);
    Disjoint(edges.Keys, kept.Keys, gone.Keys);
    Disjoint(MergedEdges(edges, ways, d).Keys, kept.Keys, d.edges.Keys);
  }

  lemma EdgeKeys(edges: EdgeTable, ways: set<Id>, d: RouteDelta)
    requires RouteDeltaOk(ways, d)
    ensures edges.Keys == EdgesNotOf(edges, ways).Keys + EdgesOf(edges, ways).Keys
    ensures EdgesNotOf(edges, ways).Keys !! EdgesOf(edges, ways).Keys
    ensures MergedEdges(edges, ways, d).Keys == EdgesNotOf(edges, ways).Keys + d.edges.Keys
    ensures EdgesNotOf(edges, ways).Keys !! d.edges.Keys
  {
  }

  lemma Disjoint<T>(all: set<T>, a: set<T>, b: set<T>)
    requires all == a + b && a !! b
    ensures |all| == |a| + |b|
  {
  }

  // ---- the whole merge -------------------------------------------------------------------

  datatype MapDelta = MapDelta(features: seq<MapRow>, areas: seq<MapRow>, route: RouteDelta)

  const FEATURE_KINDS: set<string> := {"address", "boundary", "line", "place", "poi", "road"}

  /** The delta holds rows of objects in scope only, and no key twice. */
  ghost predicate RowsInScope(delta: seq<MapRow>, scope: Scope) {
    DistinctKeys(delta) && forall j :: 0 <= j < |delta| ==> scope.Has(delta[j].owner)
  }

  ghost predicate DeltaInScope(delta: MapDelta, scope: Scope) {
    && RowsInScope(delta.features, scope) && RowsInScope(delta.areas, scope)
    && RouteDeltaOk(scope.ways, delta.route)
  }

  /** A table after its part of the merge. */
  ghost function ReplacedRows(rows: map<nat, MapRow>, first: nat, scope: Scope, delta: seq<MapRow>): map<nat, MapRow> {
    Appended(rows - HitIds(rows, scope), first, delta)
  }

  lemma ReplacedCount(rows: map<nat, MapRow>, first: nat, scope: Scope, delta: seq<MapRow>, kind: string)
    requires forall id :: id in rows ==> id < first
    ensures |ReplacedRows(rows, first, scope, delta)| == |rows| - |HitIds(rows, scope)| + |delta|
    ensures Size(IdsOfKind(ReplacedRows(rows, first, scope, delta), kind))
         == Size(IdsOfKind(rows, kind)) - |IdsOfKind(rows, kind) * HitIds(rows, scope)| + CountInDelta(delta, kind)
  {
    HitsRemoved(rows, HitIds(rows, scope), kind);
    AppendedSize(rows - HitIds(rows, scope), first, delta);
    AppendedKind(rows - HitIds(rows, scope), first, delta, kind);
  }

  ghost predicate KindsCounted(counts: map<string, int>, rows: map<nat, MapRow>) {
    forall kind :: kind in counts ==> counts[kind] == Size(IdsOfKind(rows, kind))
  }

  class MapTables {
    const features: MirroredTable
    const areas: MirroredTable
    const route: RouteTables
    var sequence: nat

    ghost predicate Valid()
      reads this, features, areas, route
    {
      && features != areas && features.Valid() && areas.Valid() && route.Valid()
      && features.kindCounts.Keys == FEATURE_KINDS && areas.kindCounts.Keys == {}
    }

    /** A new map database before any row was written. */
    constructor (entry: MapRow -> IndexEntry)
      ensures Valid() && fresh(features) && fresh(areas) && fresh(route)
      ensures features.rows == map[] && areas.rows == map[] && route.edges == map[] && route.nodes == map[]
    {
      features := new MirroredTable(entry, FEATURE_KINDS);
      areas := new MirroredTable(entry, {});
      route := new RouteTables(map[], map[], 0);
      sequence := 0;
    }

    /** One committed merge transaction. */
    method MergeDelta(scope: Scope, delta: MapDelta, target: nat)
      requires Valid() && DeltaInScope(delta, scope)
      modifies this, features, areas, route
      ensures Valid() && sequence == target
      ensures RowSet(features.rows) == MergedRows(old(RowSet(features.rows)), scope, set r | r in delta.features)
      ensures RowSet(areas.rows) == MergedRows(old(RowSet(areas.rows)), scope, set r | r in delta.areas)
      ensures route.edges == MergedEdges(old(route.edges), scope.ways, delta.route)
      ensures route.nodes == MergedNodes(old(route.edges), old(route.nodes), scope.ways, delta.route)
      ensures route.nodeCount == NextNodeCount(old(route.nodeCount), old(route.edges), old(route.nodes),
                                               scope.ways, delta.route)
    {
      features.Replace(scope, delta.features);
      areas.Replace(scope, delta.areas);
      route.Merge(scope.ways, delta.route);
      sequence := target;
    }
  }

  function NextCount(count: int, rows: map<nat, MapRow>, scope: Scope, delta: seq<MapRow>): int {
    count - |HitIds(rows, scope)| + |delta|
  }

  function NextKindCounts(counts: map<string, int>, rows: map<nat, MapRow>, scope: Scope, delta: seq<MapRow>)
    : map<string, int>
  {
    map kind | kind in counts ::
      counts[kind] - |IdsOfKind(rows, kind) * HitIds(rows, scope)| + CountInDelta(delta, kind)
  }

  /** The feature, per-kind and area counters stay equal to the true row counts. */
  lemma RowCountsExact(counts: map<string, int>, rows: map<nat, MapRow>, first: nat, scope: Scope, delta: seq<MapRow>)
    requires forall id :: id in rows ==> id < first
    ensures NextCount(|rows|, rows, scope, delta) == |ReplacedRows(rows, first, scope, delta)|
    ensures KindsCounted(counts, rows) ==>
              KindsCounted(NextKindCounts(counts, rows, scope, delta), ReplacedRows(rows, first, scope, delta))
  {
    ReplacedCount(rows, first, scope, delta, "");
    forall kind | kind in counts
      ensures counts[kind] == Size(IdsOfKind(rows, kind)) ==>
                NextKindCounts(counts, rows, scope, delta)[kind]
                == Size(IdsOfKind(ReplacedRows(rows, first, scope, delta), kind))
    {
      ReplacedCount(rows, first, scope, delta, kind);
    }
  }
}
