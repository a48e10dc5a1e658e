/**
 The route graph that an object store denotes: its edges, its nodes and their modes.
 Modes are masks of three bits: 1 walking, 2 cycling, 4 driving.
 */
module RouteGraph {
  import opened OsmObjects
  import opened Invalidation

  datatype Mode = Walking | Cycling | Driving

  /** A three-bit mode mask; `Mask` gives the stored integer. */
  datatype Modes = Modes(walk: bool, cycle: bool, drive: bool)
  {
    predicate Has(m: Mode) {
      match m
      case Walking => walk
      case Cycling => cycle
      case Driving => drive
    }

    function Or(other: Modes): (r: Modes)
      ensures forall m :: r.Has(m) <==> Has(m) || other.Has(m)
    {
      Modes(walk || other.walk, cycle || other.cycle, drive || other.drive)
    }

    function Mask(): bv8 {
      (if walk then 1 else 0) | (if cycle then 2 else 0) | (if drive then 4 else 0)
    }
  }

  const NO_MODES := Modes(false, false, false)

  function Bit(m: Mode): bv8 {
    match m
    case Walking => 1
    case Cycling => 2
    case Driving => 4
  }

  /** The stored masks: bitwise OR and AND are what `Or` and `Has` say, and nothing is lost. */
  lemma MaskLaws(a: Modes, b: Modes, m: Mode)
    ensures a.Or(b).Mask() == a.Mask() | b.Mask()
    ensures a.Mask() & Bit(m) != 0 <==> a.Has(m)
    ensures a.Mask() == b.Mask() ==> a == b
  {
  }

  type EdgeKey = (Id, nat)

  datatype Edge = Edge(source: Id, target: Id, length: real, forward: Modes, backward: Modes, name: string)
  {
    function Both(): Modes { forward.Or(backward) }
    predicate Touches(n: Id) { source == n || target == n }
  }

  datatype RouteNode = RouteNode(lat: int, lon: int, modes: Modes)

  /** What the builder reads from tags and coordinates: any functions. */
  datatype RoadRules = RoadRules(
    forward: Tags -> Modes,
    backward: Tags -> Modes,
    name: Tags -> string,
    distance: (NodeRow, NodeRow) -> real)

  // ---- edges of one way ------------------------------------------------------------------

  /** The nodes of a way that have a position, in order. */
  function Located(nodes: seq<(Id, Content)>): (r: seq<(Id, NodeRow)>)
    ensures forall p :: p in r ==> (p.0, NodeContent(p.1)) in nodes
  {
    if nodes == [] then []
    else
      var rest := Located(nodes[..|nodes| - 1]);
      var last := nodes[|nodes| - 1];
      if last.1.NodeContent? then rest + [(last.0, last.1.row)] else rest
  }

  /** Whether consecutive positions give an edge: distinct nodes, 0.1 m to 100 km apart. */
  predicate Emits(rules: RoadRules, tags: Tags, at: seq<(Id, NodeRow)>, i: nat)
    requires i < |at| - 1
  {
    && rules.forward(tags).Or(rules.backward(tags)) != NO_MODES
    && at[i].0 != at[i + 1].0
    && 0.1 <= rules.distance(at[i].1, at[i + 1].1) <= 100000.0
  }

  function EdgeFrom(rules: RoadRules, tags: Tags, at: seq<(Id, NodeRow)>, i: nat): Edge
    requires i < |at| - 1
  {
    Edge(at[i].0, at[i + 1].0, rules.distance(at[i].1, at[i + 1].1),
         rules.forward(tags), rules.backward(tags), rules.name(tags))
  }

  function WayEdges(rules: RoadRules, c: Content): map<nat, Edge> {
    if !c.WayContent? then map[]
    else
      var at := Located(c.nodes);
      map i: nat | i < |at| - 1 && Emits(rules, c.tags, at, i) :: EdgeFrom(rules, c.tags, at, i)
  }

  function WayOf(s: Store, way: Id): Content {
    Expand(s, WayObj(way), 0)
  }

  // ---- the graph of a whole store --------------------------------------------------------

  function FullEdges(rules: RoadRules, s: Store): map<EdgeKey, Edge> {
    map w, i | w in s.ways && i in WayEdges(rules, WayOf(s, w)) :: (w, i) := WayEdges(rules, WayOf(s, w))[i]
  }

  lemma FullEdge(rules: RoadRules, s: Store, w: Id, i: nat)
    requires w in s.ways && i in WayEdges(rules, WayOf(s, w))
    ensures (w, i) in FullEdges(rules, s) && FullEdges(rules, s)[(w, i)] == WayEdges(rules, WayOf(s, w))[i]
  {
  }

  lemma FullEdgeIff(rules: RoadRules, s: Store, k: EdgeKey)
    ensures k in FullEdges(rules, s) <==> k.0 in s.ways && k.1 in WayEdges(rules, WayOf(s, k.0))
    ensures k in FullEdges(rules, s) ==> FullEdges(rules, s)[k] == WayEdges(rules, WayOf(s, k.0))[k.1]
  {
    if k.0 in s.ways && k.1 in WayEdges(rules, WayOf(s, k.0)) {
      FullEdge(rules, s, k.0, k.1);
      assert k == (k.0, k.1);
    }
  }

  ghost predicate SameEntry(a: map<EdgeKey, Edge>, b: map<EdgeKey, Edge>, k: EdgeKey) {
    (k in a <==> k in b) && (k in a ==> a[k] == b[k])
  }

  lemma SameTables(a: map<EdgeKey, Edge>, b: map<EdgeKey, Edge>)
    requires forall k :: SameEntry(a, b, k)
    ensures a == b
  {
    assert forall k :: k in a ==> SameEntry(a, b, k);
    assert forall k :: k in b ==> SameEntry(a, b, k);
  }

  function Endpoints(edges: map<EdgeKey, Edge>): set<Id> {
    (set k | k in edges :: edges[k].source) + (set k | k in edges :: edges[k].target)
  }

  predicate HasMode(edges: map<EdgeKey, Edge>, n: Id, m: Mode) {
    exists k :: k in edges && edges[k].Touches(n) && edges[k].Both().Has(m)
  }

  /** The OR of the modes of the edges at a node. */
  function ModesAt(edges: map<EdgeKey, Edge>, n: Id): Modes {
    Modes(HasMode(edges, n, Walking), HasMode(edges, n, Cycling), HasMode(edges, n, Driving))
  }

  /** The route-graph invariant: nodes are exactly the endpoints, with the OR of their edges. */
  ghost predicate GraphOk(edges: map<EdgeKey, Edge>, nodes: map<Id, RouteNode>) {
    && nodes.Keys == Endpoints(edges)
    && forall n :: n in nodes ==> nodes[n].modes == ModesAt(edges, n)
  }

  ghost predicate Placed(s: Store, nodes: map<Id, RouteNode>) {
    forall n :: n in nodes ==> n in s.nodes && nodes[n].lat == s.nodes[n].lat && nodes[n].lon == s.nodes[n].lon
  }

  /** The route tables hold exactly the graph of `s`. */
  ghost predicate IsGraphOf(rules: RoadRules, s: Store, edges: map<EdgeKey, Edge>, nodes: map<Id, RouteNode>) {
    edges == FullEdges(rules, s) && GraphOk(edges, nodes) && Placed(s, nodes)
  }

  lemma NodesUnique(s: Store, edges: map<EdgeKey, Edge>, n1: map<Id, RouteNode>, n2: map<Id, RouteNode>)
    requires GraphOk(edges, n1) && Placed(s, n1) && GraphOk(edges, n2) && Placed(s, n2)
    ensures n1 == n2
  {
    forall n | n in n1
      ensures n1[n] == n2[n]
    {
      assert n in n2;
    }
  }

  /** `IsGraphOf` determines both tables. */
  lemma GraphUnique(rules: RoadRules, s: Store, e1: map<EdgeKey, Edge>, n1: map<Id, RouteNode>,
                    e2: map<EdgeKey, Edge>, n2: map<Id, RouteNode>)
    requires IsGraphOf(rules, s, e1, n1) && IsGraphOf(rules, s, e2, n2)
    ensures e1 == e2 && n1 == n2
  {
    NodesUnique(s, e1, n1, n2);
  }

  /** An edge of a way joins two of its located nodes. */
  lemma EdgeEnds(rules: RoadRules, s: Store, way: Id, i: nat)
    requires i in WayEdges(rules, WayOf(s, way))
    ensures var e := WayEdges(rules, WayOf(s, way))[i];
            && e.source in s.nodes && e.source in NodeIds(s, way)
            && e.target in s.nodes && e.target in NodeIds(s, way)
  {
    var c := WayOf(s, way);
    var at := Located(c.nodes);
    assert at[i] in at && at[i + 1] in at;
    WayNodeRow(s, way, at[i]);
    WayNodeRow(s, way, at[i + 1]);
  }

  lemma WayNodeRow(s: Store, way: Id, p: (Id, NodeRow))
    requires WayOf(s, way).WayContent? && (p.0, NodeContent(p.1)) in WayOf(s, way).nodes
    ensures p.0 in s.nodes && s.nodes[p.0] == p.1 && p.0 in NodeIds(s, way)
  {
    var ids := NodeIds(s, way);
    var j :| 0 <= j < |ids| && WayOf(s, way).nodes[j] == (p.0, NodeContent(p.1));
  }

  lemma EndpointEdge(edges: map<EdgeKey, Edge>, n: Id) returns (k: EdgeKey)
    requires n in Endpoints(edges)
    ensures k in edges && edges[k].Touches(n)
  {
    if n in set k | k in edges :: edges[k].source {
      k :| k in edges && edges[k].source == n;
    } else {
      k :| k in edges && edges[k].target == n;
    }
  }

  lemma FullEndpoint(rules: RoadRules, s: Store, n: Id)
    requires n in Endpoints(FullEdges(rules, s))
    ensures n in s.nodes
  {
    var k := EndpointEdge(FullEdges(rules, s), n);
    EdgeEnds(rules, s, k.0, k.1);
  }

  /** Every store has a graph. */
  lemma GraphExists(rules: RoadRules, s: Store) returns (nodes: map<Id, RouteNode>)
    ensures IsGraphOf(rules, s, FullEdges(rules, s), nodes)
  {
    var edges := FullEdges(rules, s);
    forall n | n in Endpoints(edges)
      ensures n in s.nodes
    {
      FullEndpoint(rules, s, n);
    }
    nodes := NodesOf(s, edges);
    NodesOfIs(s, edges);
  }

  /** Each endpoint of the edges, with its position and the OR of its edges' modes. */
  function NodesOf(s: Store, edges: map<EdgeKey, Edge>): map<Id, RouteNode>
    requires forall n :: n in Endpoints(edges) ==> n in s.nodes
  {
    map n | n in Endpoints(edges) :: RouteNode(s.nodes[n].lat, s.nodes[n].lon, ModesAt(edges, n))
  }

  lemma NodesOfIs(s: Store, edges: map<EdgeKey, Edge>)
    requires forall n :: n in Endpoints(edges) ==> n in s.nodes
    ensures GraphOk(edges, NodesOf(s, edges)) && Placed(s, NodesOf(s, edges))
  {
    assert NodesOf(s, edges).Keys == Endpoints(edges);
  }
}
