/**
 The full builder's route import: rows are collected in batch lists and upserted on flush,
 a node's modes being OR-ed into what is already there.  Whatever the batch size and the order
 of the ways, the tables end as the graph of the store.
 */
module FullBuild {
  import opened OsmObjects
  import opened Invalidation
  import opened RouteGraph

  datatype NodeUpsert = NodeUpsert(id: Id, lat: int, lon: int, modes: Modes)
  type EdgeUpsert = (EdgeKey, Edge)
  type NodeTable = map<Id, RouteNode>
  type EdgeTable = map<EdgeKey, Edge>

  function UpsertNode(t: NodeTable, r: NodeUpsert): NodeTable {
    t[r.id := RouteNode(r.lat, r.lon, if r.id in t then t[r.id].modes.Or(r.modes) else r.modes)]
  }

  ghost function UpsertNodes(t: NodeTable, rows: seq<NodeUpsert>): NodeTable {
    if rows == [] then t else UpsertNode(UpsertNodes(t, rows[..|rows| - 1]), rows[|rows| - 1])
  }

  ghost function UpsertEdges(t: EdgeTable, rows: seq<EdgeUpsert>): EdgeTable {
    if rows == [] then t
    else UpsertEdges(t, rows[..|rows| - 1])[rows[|rows| - 1].0 := rows[|rows| - 1].1]
  }

  lemma {:induction false} UpsertNodesConcat(t: NodeTable, a: seq<NodeUpsert>, b: seq<NodeUpsert>)
    ensures UpsertNodes(t, a + b) == UpsertNodes(UpsertNodes(t, a), b)
    decreases |b|
  {
    if b == [] {
      assert a + b == a;
    } else {
      UpsertNodesConcat(t, a, b[..|b| - 1]);
      assert (a + b)[..|a + b| - 1] == a + b[..|b| - 1];
    }
  }

  lemma {:induction false} UpsertEdgesConcat(t: EdgeTable, a: seq<EdgeUpsert>, b: seq<EdgeUpsert>)
    ensures UpsertEdges(t, a + b) == UpsertEdges(UpsertEdges(t, a), b)
    decreases |b|
  {
    if b == [] {
      assert a + b == a;
    } else {
      UpsertEdgesConcat(t, a, b[..|b| - 1]);
      assert (a + b)[..|a + b| - 1] == a + b[..|b| - 1];
    }
  }

  /** The rows one way contributes up to position `n`. */
  function WayNodeRows(rules: RoadRules, tags: Tags, at: seq<(Id, NodeRow)>, n: nat): seq<NodeUpsert>
    requires n <= |at| - 1 || n == 0
  {
    if n == 0 then []
    else
      var rest := WayNodeRows(rules, tags, at, n - 1);
      if !Emits(rules, tags, at, n - 1) then rest
      else
        var both := rules.forward(tags).Or(rules.backward(tags));
        rest + [NodeUpsert(at[n - 1].0, at[n - 1].1.lat, at[n - 1].1.lon, both),
                NodeUpsert(at[n].0, at[n].1.lat, at[n].1.lon, both)]
  }

  function WayEdgeRows(rules: RoadRules, way: Id, tags: Tags, at: seq<(Id, NodeRow)>, n: nat): seq<EdgeUpsert>
    requires n <= |at| - 1 || n == 0
  {
    if n == 0 then []
    else
      var rest := WayEdgeRows(rules, way, tags, at, n - 1);
      if Emits(rules, tags, at, n - 1) then rest + [((way, n - 1), EdgeFrom(rules, tags, at, n - 1))] else rest
  }

  function Gaps(at: seq<(Id, NodeRow)>): nat { if at == [] then 0 else |at| - 1 }

  ghost function NodeRows(rules: RoadRules, ways: seq<(Id, Content)>): seq<NodeUpsert> {
    if ways == [] then []
    else
      var (_, c) := ways[|ways| - 1];
      var rest := NodeRows(rules, ways[..|ways| - 1]);
      if c.WayContent?
      then rest + WayNodeRows(rules, c.tags, Located(c.nodes), Gaps(Located(c.nodes)))
      else rest
  }

  ghost function EdgeRows(rules: RoadRules, ways: seq<(Id, Content)>): seq<EdgeUpsert> {
    if ways == [] then []
    else
      var (w, c) := ways[|ways| - 1];
      var rest := EdgeRows(rules, ways[..|ways| - 1]);
      if c.WayContent?
      then rest + WayEdgeRows(rules, w, c.tags, Located(c.nodes), Gaps(Located(c.nodes)))
      else rest
  }

  class RouteImport {
    var nodes: NodeTable
    var edges: EdgeTable
    var pendingNodes: seq<NodeUpsert>
    var pendingEdges: seq<EdgeUpsert>
    /** How many feature rows wait; a full feature list flushes everything. */
    var pendingFeatures: nat
    const batchSize: nat

    /** The tables once everything pending is flushed. */
    ghost function AllNodes(): NodeTable reads this { UpsertNodes(nodes, pendingNodes) }
    ghost function AllEdges(): EdgeTable reads this { UpsertEdges(edges, pendingEdges) }

    constructor (batchSize: nat)
      ensures nodes == map[] && edges == map[] && pendingNodes == [] && pendingEdges == []
    {
      nodes, edges, pendingNodes, pendingEdges, pendingFeatures := map[], map[], [], [], 0;
      this.batchSize := batchSize;
    }

    method Flush()
      modifies this
      ensures nodes == old(AllNodes()) && edges == old(AllEdges())
      ensures pendingNodes == [] && pendingEdges == [] && pendingFeatures == 0
    {
      FlushNodes();
      FlushEdges();
      pendingFeatures := 0;
    }

    /** Feature rows of a node, an area or a way. */
    method Features(count: nat)
      modifies this
      ensures AllNodes() == old(AllNodes()) && AllEdges() == old(AllEdges())
    {
      pendingFeatures := pendingFeatures + count;
      FlushIfFull();
    }

    method FlushIfFull()
      modifies this
      ensures AllNodes() == old(AllNodes()) && AllEdges() == old(AllEdges())
    {
      if pendingFeatures >= batchSize || |pendingEdges| >= batchSize || |pendingNodes| / 2 >= batchSize {
        Flush();
      }
    }

    method FlushNodes()
      modifies this`nodes, this`pendingNodes
      ensures nodes == old(AllNodes()) && pendingNodes == []
    {
      for i := 0 to |pendingNodes|
        invariant pendingNodes == old(pendingNodes)
        invariant nodes == UpsertNodes(old(nodes), pendingNodes[..i])
      {
        nodes := UpsertNode(nodes, pendingNodes[i]);
        assert pendingNodes[..i + 1][..i] == pendingNodes[..i];
      }
      assert pendingNodes[..|pendingNodes|] == pendingNodes;
      pendingNodes := [];
    }

    method FlushEdges()
      modifies this`edges, this`pendingEdges
      ensures edges == old(AllEdges()) && pendingEdges == []
    {
      for i := 0 to |pendingEdges|
        invariant pendingEdges == old(pendingEdges)
        invariant edges == UpsertEdges(old(edges), pendingEdges[..i])
      {
        edges := edges[pendingEdges[i].0 := pendingEdges[i].1];
        assert pendingEdges[..i + 1][..i] == pendingEdges[..i];
      }
      assert pendingEdges[..|pendingEdges|] == pendingEdges;
      pendingEdges := [];
    }

    /** Emit one way's features, edges and their end nodes, flushing when a list is full. */
    method Way(rules: RoadRules, way: Id, tags: Tags, at: seq<(Id, NodeRow)>, features: nat)
      modifies this
      ensures AllNodes() == UpsertNodes(old(AllNodes()), WayNodeRows(rules, tags, at, Gaps(at)))
      ensures AllEdges() == UpsertEdges(old(AllEdges()), WayEdgeRows(rules, way, tags, at, Gaps(at)))
    {
      var n := 0;
      while n < Gaps(at)
        invariant n <= Gaps(at) && nodes == old(nodes) && edges == old(edges)
        invariant pendingNodes == old(pendingNodes) + WayNodeRows(rules, tags, at, n)
        invariant pendingEdges == old(pendingEdges) + WayEdgeRows(rules, way, tags, at, n)
      {
        if Emits(rules, tags, at, n) {
          var both := rules.forward(tags).Or(rules.backward(tags));
          pendingNodes := pendingNodes + [NodeUpsert(at[n].0, at[n].1.lat, at[n].1.lon, both),
                                          NodeUpsert(at[n + 1].0, at[n + 1].1.lat, at[n + 1].1.lon, both)];
          pendingEdges := pendingEdges + [((way, n), EdgeFrom(rules, tags, at, n))];
        }
        n := n + 1;
      }
      UpsertNodesConcat(nodes, old(pendingNodes), WayNodeRows(rules, tags, at, n));
      UpsertEdgesConcat(edges, old(pendingEdges), WayEdgeRows(rules, way, tags, at, n));
      pendingFeatures := pendingFeatures + features;
      FlushIfFull();
    }

    /** Import every way; before way `i` come `between(i)` feature rows of nodes and areas, and the way
        has `own(i)`.  The result mentions neither these nor the batch size. */
    method Import(rules: RoadRules, ways: seq<(Id, Content)>, between: nat -> nat, own: nat -> nat)
      modifies this
      ensures nodes == UpsertNodes(old(AllNodes()), NodeRows(rules, ways))
      ensures edges == UpsertEdges(old(AllEdges()), EdgeRows(rules, ways))
    {
      for i := 0 to |ways|
        invariant AllNodes() == UpsertNodes(old(AllNodes()), NodeRows(rules, ways[..i]))
        invariant AllEdges() == UpsertEdges(old(AllEdges()), EdgeRows(rules, ways[..i]))
      {
        var (w, c) := ways[i];
        Features(between(i));
        assert ways[..i + 1][..i] == ways[..i];
        if c.WayContent? {
          var at := Located(c.nodes);
          UpsertNodesConcat(old(AllNodes()), NodeRows(rules, ways[..i]), WayNodeRows(rules, c.tags, at, Gaps(at)));
          UpsertEdgesConcat(old(AllEdges()), EdgeRows(rules, ways[..i]), WayEdgeRows(rules, w, c.tags, at, Gaps(at)));
          Way(rules, w, c.tags, at, own(i));
        }
      }
      assert ways[..|ways|] == ways;
      Flush();
    }
  }

  // ---- what the folds denote -------------------------------------------------------------

  ghost predicate RowFor(rows: seq<NodeUpsert>, n: Id) {
    exists r :: r in rows && r.id == n
  }

  ghost predicate RowWith(rows: seq<NodeUpsert>, n: Id, m: Mode) {
    exists r :: r in rows && r.id == n && r.modes.Has(m)
  }

  lemma RowsSnoc(rows: seq<NodeUpsert>, last: NodeUpsert, n: Id, m: Mode)
    ensures RowFor(rows + [last], n) <==> RowFor(rows, n) || last.id == n
    ensures RowWith(rows + [last], n, m) <==> RowWith(rows, n, m) || (last.id == n && last.modes.Has(m))
  {
    assert forall r :: r in rows + [last] <==> r in rows || r == last;
  }

  /** The OR-upsert fold from an empty table, at one node and one mode. */
  lemma {:induction false} FoldedNode(rows: seq<NodeUpsert>, n: Id, m: Mode)
    ensures n in UpsertNodes(map[], rows) <==> RowFor(rows, n)
    ensures n in UpsertNodes(map[], rows) ==>
              (UpsertNodes(map[], rows)[n].modes.Has(m) <==> RowWith(rows, n, m))
    decreases |rows|
  {
    if rows != [] {
      var before, last := rows[..|rows| - 1], rows[|rows| - 1];
      FoldedNode(before, n, m);
      assert rows == before + [last];
      RowsSnoc(before, last, n, m);
      if !RowFor(before, n) {
        assert !RowWith(before, n, m);
      }
    }
  }

  ghost predicate RowsPlaced(s: Store, rows: seq<NodeUpsert>) {
    forall r :: r in rows ==> r.id in s.nodes && r.lat == s.nodes[r.id].lat && r.lon == s.nodes[r.id].lon
  }

  lemma {:induction false} FoldedPlaced(s: Store, rows: seq<NodeUpsert>)
    requires RowsPlaced(s, rows)
    ensures Placed(s, UpsertNodes(map[], rows))
    decreases |rows|
  {
    if rows != [] {
      var before, last := rows[..|rows| - 1], rows[|rows| - 1];
      assert last in rows && forall r :: r in before ==> r in rows;
      FoldedPlaced(s, before);
    }
  }

  lemma {:induction false} FoldedEdges(rows: seq<EdgeUpsert>, all: EdgeTable)
    requires forall r :: r in rows ==> r.0 in all && all[r.0] == r.1
    ensures var t := UpsertEdges(map[], rows);
            && (forall k :: k in t <==> exists r :: r in rows && r.0 == k)
            && (forall k :: k in t ==> k in all && t[k] == all[k])
    decreases |rows|
  {
    if rows != [] {
      var before, last := rows[..|rows| - 1], rows[|rows| - 1];
      FoldedEdges(before, all);
      assert rows == before + [last];
      forall k
        ensures k in UpsertEdges(map[], rows) <==> exists r :: r in rows && r.0 == k
      {
        assert (exists r :: r in rows && r.0 == k) <==> (exists r :: r in before && r.0 == k) || last.0 == k;
      }
    }
  }

  // ---- the import is the graph -----------------------------------------------------------

  /** `ways` lists the ways of `s`, in any order, each with its content. */
  ghost predicate Lists(s: Store, ways: seq<(Id, Content)>) {
    && (forall i :: 0 <= i < |ways| ==> ways[i].0 in s.ways && ways[i].1 == WayOf(s, ways[i].0))
    && (forall w :: w in s.ways ==> (w, WayOf(s, w)) in ways)
  }

  lemma {:induction false} WayNodeRowIff(rules: RoadRules, tags: Tags, at: seq<(Id, NodeRow)>, n: nat, r: NodeUpsert)
    requires n <= |at| - 1 || n == 0
    ensures r in WayNodeRows(rules, tags, at, n) <==>
            exists i: nat :: i < n && Emits(rules, tags, at, i) && IsEndRow(rules, tags, at, i, r)
  {
    if n > 0 {
      WayNodeRowIff(rules, tags, at, n - 1, r);
    }
  }

  ghost predicate IsEndRow(rules: RoadRules, tags: Tags, at: seq<(Id, NodeRow)>, i: nat, r: NodeUpsert)
    requires i < |at| - 1
  {
    && r.modes == rules.forward(tags).Or(rules.backward(tags))
    && (r == NodeUpsert(at[i].0, at[i].1.lat, at[i].1.lon, r.modes)
        || r == NodeUpsert(at[i + 1].0, at[i + 1].1.lat, at[i + 1].1.lon, r.modes))
  }

  lemma {:induction false} WayEdgeRowIff(rules: RoadRules, way: Id, tags: Tags, at: seq<(Id, NodeRow)>, n: nat,
                                         r: EdgeUpsert)
    requires n <= |at| - 1 || n == 0
    ensures r in WayEdgeRows(rules, way, tags, at, n) <==>
            r.0.0 == way && r.0.1 < n && Emits(rules, tags, at, r.0.1) && r.1 == EdgeFrom(rules, tags, at, r.0.1)
  {
    if n > 0 {
      WayEdgeRowIff(rules, way, tags, at, n - 1, r);
    }
  }

  ghost function RowsOfWay(rules: RoadRules, c: Content): seq<NodeUpsert> {
    if c.WayContent? then WayNodeRows(rules, c.tags, Located(c.nodes), Gaps(Located(c.nodes))) else []
  }

  lemma {:induction false} NodeRowIff(rules: RoadRules, ways: seq<(Id, Content)>, r: NodeUpsert)
    ensures r in NodeRows(rules, ways) <==> exists p :: p in ways && r in RowsOfWay(rules, p.1)
    decreases |ways|
  {
    if ways != [] {
      var before, last := ways[..|ways| - 1], ways[|ways| - 1];
      NodeRowIff(rules, before, r);
      assert ways == before + [last];
      assert NodeRows(rules, ways) == NodeRows(rules, before) + RowsOfWay(rules, last.1);
      assert forall p :: p in ways <==> p in before || p == last;
    }
  }

  ghost function EdgeRowsOfWay(rules: RoadRules, w: Id, c: Content): seq<EdgeUpsert> {
    if c.WayContent? then WayEdgeRows(rules, w, c.tags, Located(c.nodes), Gaps(Located(c.nodes))) else []
  }

  ghost predicate IsEdgeRow(rules: RoadRules, p: (Id, Content), r: EdgeUpsert) {
    r.0.0 == p.0 && r.0.1 in WayEdges(rules, p.1) && r.1 == WayEdges(rules, p.1)[r.0.1]
  }

  lemma LastWayEdges(rules: RoadRules, w: Id, c: Content, r: EdgeUpsert)
    ensures r in EdgeRowsOfWay(rules, w, c) <==> IsEdgeRow(rules, (w, c), r)
  {
    if c.WayContent? {
      WayEdgeRowIff(rules, w, c.tags, Located(c.nodes), Gaps(Located(c.nodes)), r);
    }
  }

  lemma {:induction false} EdgeRowIff(rules: RoadRules, ways: seq<(Id, Content)>, r: EdgeUpsert)
    ensures r in EdgeRows(rules, ways) <==> exists p :: p in ways && IsEdgeRow(rules, p, r)
    decreases |ways|
  {
    if ways != [] {
      var before, last := ways[..|ways| - 1], ways[|ways| - 1];
      EdgeRowIff(rules, before, r);
      assert ways == before + [last];
      assert forall p :: p in ways <==> p in before || p == last;
      LastWayEdges(rules, last.0, last.1, r);
      assert EdgeRows(rules, ways) == EdgeRows(rules, before) + EdgeRowsOfWay(rules, last.0, last.1);
    }
  }

  /** A node row comes from an edge at that node, with that edge's modes. */
  lemma RowHasEdge(rules: RoadRules, s: Store, w: Id, r: NodeUpsert) returns (i: nat)
    requires r in RowsOfWay(rules, WayOf(s, w))
    ensures i in WayEdges(rules, WayOf(s, w))
    ensures WayEdges(rules, WayOf(s, w))[i].Touches(r.id) && WayEdges(rules, WayOf(s, w))[i].Both() == r.modes
    ensures r.id in s.nodes && r.lat == s.nodes[r.id].lat && r.lon == s.nodes[r.id].lon
  {
    var c := WayOf(s, w);
    var at := Located(c.nodes);
    WayNodeRowIff(rules, c.tags, at, Gaps(at), r);
    i :| i < Gaps(at) && Emits(rules, c.tags, at, i) && IsEndRow(rules, c.tags, at, i, r);
    assert at[i] in at && at[i + 1] in at;
    WayNodeRow(s, w, at[i]);
    WayNodeRow(s, w, at[i + 1]);
  }

  /** Both ends of an edge have a row with the edge's modes. */
  lemma EdgeHasRow(rules: RoadRules, c: Content, i: nat, n: Id)
    requires i in WayEdges(rules, c) && WayEdges(rules, c)[i].Touches(n)
    ensures exists r :: r in RowsOfWay(rules, c) && r.id == n && r.modes == WayEdges(rules, c)[i].Both()
  {
    var at := Located(c.nodes);
    var e := WayEdges(rules, c)[i];
    var p := if e.source == n then at[i] else at[i + 1];
    var r := NodeUpsert(n, p.1.lat, p.1.lon, e.Both());
    assert IsEndRow(rules, c.tags, at, i, r);
    WayNodeRowIff(rules, c.tags, at, Gaps(at), r);
  }

  lemma ImportedEdges(rules: RoadRules, s: Store, ways: seq<(Id, Content)>)
    requires Lists(s, ways)
    ensures UpsertEdges(map[], EdgeRows(rules, ways)) == FullEdges(rules, s)
  {
    var rows, all := EdgeRows(rules, ways), FullEdges(rules, s);
    forall r | r in rows
      ensures r.0 in all && all[r.0] == r.1
    {
      ImportedEdgeRow(rules, s, ways, r);
    }
    FoldedEdges(rows, all);
    forall k
      ensures SameEntry(UpsertEdges(map[], rows), all, k)
    {
      if k in all {
        FullEdgeRow(rules, s, ways, k);
      }
    }
    SameTables(UpsertEdges(map[], rows), all);
  }

  lemma ImportedEdgeRow(rules: RoadRules, s: Store, ways: seq<(Id, Content)>, r: EdgeUpsert)
    requires Lists(s, ways) && r in EdgeRows(rules, ways)
    ensures r.0 in FullEdges(rules, s) && FullEdges(rules, s)[r.0] == r.1
  {
    EdgeRowIff(rules, ways, r);
    var p :| p in ways && IsEdgeRow(rules, p, r);
    Listed(s, ways, p);
    FullEdgeIff(rules, s, r.0);
  }

  lemma FullEdgeRow(rules: RoadRules, s: Store, ways: seq<(Id, Content)>, k: EdgeKey)
    requires Lists(s, ways) && k in FullEdges(rules, s)
    ensures (k, FullEdges(rules, s)[k]) in EdgeRows(rules, ways)
  {
    FullEdgeIff(rules, s, k);
    var p := (k.0, WayOf(s, k.0));
    assert p in ways;
    assert IsEdgeRow(rules, p, (k, FullEdges(rules, s)[k]));
    EdgeRowIff(rules, ways, (k, FullEdges(rules, s)[k]));
  }

  lemma Listed(s: Store, ways: seq<(Id, Content)>, p: (Id, Content))
    requires Lists(s, ways) && p in ways
    ensures p.0 in s.ways && p.1 == WayOf(s, p.0)
  {
  }

  lemma ImportedRow(rules: RoadRules, s: Store, ways: seq<(Id, Content)>, r: NodeUpsert) returns (k: EdgeKey)
    requires Lists(s, ways) && r in NodeRows(rules, ways)
    ensures k in FullEdges(rules, s) && FullEdges(rules, s)[k].Touches(r.id)
    ensures FullEdges(rules, s)[k].Both() == r.modes
    ensures r.id in s.nodes && r.lat == s.nodes[r.id].lat && r.lon == s.nodes[r.id].lon
  {
    NodeRowIff(rules, ways, r);
    var p :| p in ways && r in RowsOfWay(rules, p.1);
    Listed(s, ways, p);
    var i := RowHasEdge(rules, s, p.0, r);
    FullEdge(rules, s, p.0, i);
    k := (p.0, i);
  }

  lemma ImportedEnd(rules: RoadRules, s: Store, ways: seq<(Id, Content)>, k: EdgeKey, n: Id) returns (r: NodeUpsert)
    requires Lists(s, ways) && k in FullEdges(rules, s) && FullEdges(rules, s)[k].Touches(n)
    ensures r in NodeRows(rules, ways) && r.id == n && r.modes == FullEdges(rules, s)[k].Both()
  {
    var c := WayOf(s, k.0);
    EdgeHasRow(rules, c, k.1, n);
    r :| r in RowsOfWay(rules, c) && r.id == n && r.modes == WayEdges(rules, c)[k.1].Both();
    assert (k.0, c) in ways;
    NodeRowIff(rules, ways, r);
  }

  lemma ImportedModes(rules: RoadRules, s: Store, ways: seq<(Id, Content)>, n: Id, m: Mode)
    requires Lists(s, ways)
    ensures RowFor(NodeRows(rules, ways), n) <==> n in Endpoints(FullEdges(rules, s))
    ensures RowWith(NodeRows(rules, ways), n, m) <==> HasMode(FullEdges(rules, s), n, m)
  {
    var rows, all := NodeRows(rules, ways), FullEdges(rules, s);
    if RowFor(rows, n) {
      var r :| r in rows && r.id == n;
      var k := ImportedRow(rules, s, ways, r);
    }
    if RowWith(rows, n, m) {
      var r :| r in rows && r.id == n && r.modes.Has(m);
      var k := ImportedRow(rules, s, ways, r);
    }
    if n in Endpoints(all) {
      var k := EndpointEdge(all, n);
      var r := ImportedEnd(rules, s, ways, k, n);
    }
    if HasMode(all, n, m) {
      var k :| k in all && all[k].Touches(n) && all[k].Both().Has(m);
      var r := ImportedEnd(rules, s, ways, k, n);
    }
  }

  /** A whole import of a store: any batch size, any order of the ways, any feature rows between. */
  method ImportStore(rules: RoadRules, s: Store, ways: seq<(Id, Content)>, batchSize: nat,
                     between: nat -> nat, own: nat -> nat)
    returns (edges: EdgeTable, nodes: NodeTable)
    requires Lists(s, ways)
    ensures IsGraphOf(rules, s, edges, nodes)
  {
    var handler := new RouteImport(batchSize);
    handler.Import(rules, ways, between, own);
    ImportIsGraph(rules, s, ways);
    edges, nodes := handler.edges, handler.nodes;
  }

  /** Any batch size, any order of the ways: the import ends with the graph of the store. */
  lemma ImportIsGraph(rules: RoadRules, s: Store, ways: seq<(Id, Content)>)
    requires Lists(s, ways)
    ensures IsGraphOf(rules, s, UpsertEdges(map[], EdgeRows(rules, ways)), UpsertNodes(map[], NodeRows(rules, ways)))
  {
    var rows := NodeRows(rules, ways);
    var nodes, edges := UpsertNodes(map[], rows), FullEdges(rules, s);
    ImportedEdges(rules, s, ways);
    forall r | r in rows
      ensures r.id in s.nodes && r.lat == s.nodes[r.id].lat && r.lon == s.nodes[r.id].lon
    {
      var _ := ImportedRow(rules, s, ways, r);
    }
    FoldedPlaced(s, rows);
    forall n
      ensures n in nodes <==> n in Endpoints(edges)
      ensures n in nodes ==> nodes[n].modes == ModesAt(edges, n)
    {
      ImportedModesAt(rules, s, ways, n);
    }
  }

  lemma ImportedModesAt(rules: RoadRules, s: Store, ways: seq<(Id, Content)>, n: Id)
    requires Lists(s, ways)
    ensures var nodes, edges := UpsertNodes(map[], NodeRows(rules, ways)), FullEdges(rules, s);
            && (n in nodes <==> n in Endpoints(edges))
            && (n in nodes ==> nodes[n].modes == ModesAt(edges, n))
  {
    var rows := NodeRows(rules, ways);
    ImportedModes(rules, s, ways, n, Walking);
    ImportedModes(rules, s, ways, n, Cycling);
    ImportedModes(rules, s, ways, n, Driving);
    FoldedNode(rows, n, Walking);
    FoldedNode(rows, n, Cycling);
    FoldedNode(rows, n, Driving);
    var nodes := UpsertNodes(map[], rows);
    if n in nodes {
      var modes := nodes[n].modes;
      assert modes == Modes(modes.Has(Walking), modes.Has(Cycling), modes.Has(Driving));
    }
  }
}
