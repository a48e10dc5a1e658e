/**
 What the edges of the full build mean, read off the object store alone: who follows whom on a way,
 in which direction the way may be used, and how far apart the two are.
 */
module RouteMeaning {
  import opened Wrappers
  import opened OsmObjects
  import opened Invalidation
  import opened RouteGraph

  /** On a way, position `j` is the next one after `i` whose node is stored. */
  ghost predicate Follows(s: Store, ids: seq<Id>, i: nat, j: nat) {
    && i < j < |ids| && ids[i] in s.nodes && ids[j] in s.nodes
    && forall k :: i < k < j ==> ids[k] !in s.nodes
  }

  /** Such a pair of different nodes, 0.1 m to 100 km apart. */
  ghost predicate Links(rules: RoadRules, s: Store, w: Id, i: nat, j: nat) {
    var ids := NodeIds(s, w);
    && w in s.ways && Follows(s, ids, i, j) && ids[i] != ids[j]
    && 0.1 <= rules.distance(s.nodes[ids[i]], s.nodes[ids[j]]) <= 100000.0
  }

  /** The number of stored nodes before position `n`. */
  ghost function Rank(s: Store, ids: seq<Id>, n: nat): nat
    requires n <= |ids|
  {
    if n == 0 then 0 else Rank(s, ids, n - 1) + if ids[n - 1] in s.nodes then 1 else 0
  }

  lemma {:induction false} RankGrows(s: Store, ids: seq<Id>, i: nat, j: nat)
    requires i <= j <= |ids|
    ensures Rank(s, ids, i) <= Rank(s, ids, j)
    ensures Rank(s, ids, i) == Rank(s, ids, j) <==> forall k :: i <= k < j ==> ids[k] !in s.nodes
    decreases j - i
  {
    if i < j {
      RankGrows(s, ids, i, j - 1);
    }
  }

  /** Consecutive ranks are consecutive stored nodes. */
  lemma FollowsIff(s: Store, ids: seq<Id>, i: nat, j: nat)
    requires i < |ids| && j < |ids| && ids[i] in s.nodes && ids[j] in s.nodes
    ensures Follows(s, ids, i, j) <==> Rank(s, ids, j) == Rank(s, ids, i) + 1
  {
    if i < j {
      RankGrows(s, ids, i + 1, j);
    } else {
      RankGrows(s, ids, j, i);
    }
  }

  /** The nodes of a way, each with its content. */
  ghost predicate Lists(s: Store, ids: seq<Id>, nodes: seq<(Id, Content)>) {
    |nodes| == |ids| && forall x :: 0 <= x < |ids| ==> nodes[x] == (ids[x], NodeOf(s, ids[x]))
  }

  lemma {:induction false} LocatedCount(s: Store, ids: seq<Id>, nodes: seq<(Id, Content)>, n: nat)
    requires Lists(s, ids, nodes) && n <= |ids|
    ensures |Located(nodes[..n])| == Rank(s, ids, n)
  {
    if n > 0 {
      assert nodes[..n][..n - 1] == nodes[..n - 1] && nodes[..n][n - 1] == nodes[n - 1];
      LocatedCount(s, ids, nodes, n - 1);
    }
  }

  lemma {:induction false} LocatedAt(s: Store, ids: seq<Id>, nodes: seq<(Id, Content)>, n: nat, i: nat)
    requires Lists(s, ids, nodes) && i < n <= |ids| && ids[i] in s.nodes
    ensures Rank(s, ids, i) < |Located(nodes[..n])|
    ensures Located(nodes[..n])[Rank(s, ids, i)] == (ids[i], s.nodes[ids[i]])
  {
    assert nodes[..n][..n - 1] == nodes[..n - 1] && nodes[..n][n - 1] == nodes[n - 1];
    if i == n - 1 {
      LocatedCount(s, ids, nodes, n - 1);
    } else {
      LocatedAt(s, ids, nodes, n - 1, i);
    }
  }

  /** Every rank belongs to a stored node. */
  lemma {:induction false} RankedNode(s: Store, ids: seq<Id>, n: nat, r: nat) returns (i: nat)
    requires n <= |ids| && r < Rank(s, ids, n)
    ensures i < n && ids[i] in s.nodes && Rank(s, ids, i) == r
  {
    if r == Rank(s, ids, n - 1) {
      i := n - 1;
    } else {
      i := RankedNode(s, ids, n - 1, r);
    }
  }

  lemma WayNodes(s: Store, w: Id)
    requires w in s.ways
    ensures WayOf(s, w).WayContent? && WayOf(s, w).tags == s.ways[w] && Lists(s, NodeIds(s, w), WayOf(s, w).nodes)
  {
  }

  lemma WayAt(s: Store, w: Id, at: seq<(Id, NodeRow)>, i: nat)
    requires w in s.ways && WayOf(s, w).WayContent? && at == Located(WayOf(s, w).nodes)
    requires i < |NodeIds(s, w)| && NodeIds(s, w)[i] in s.nodes
    ensures var ids := NodeIds(s, w);
            Rank(s, ids, i) < |at| == Rank(s, ids, |ids|) && at[Rank(s, ids, i)] == (ids[i], s.nodes[ids[i]])
  {
    WayNodes(s, w);
    var nodes := WayOf(s, w).nodes;
    LocatedAt(s, NodeIds(s, w), nodes, |nodes|, i);
    LocatedCount(s, NodeIds(s, w), nodes, |nodes|);
    assert nodes[..|nodes|] == nodes;
  }

  /** The `n`-th edge of a way, by the positions of its stored nodes. */
  ghost predicate IsEdgeAt(rules: RoadRules, tags: Tags, at: seq<(Id, NodeRow)>, n: nat, e: Edge) {
    && n + 1 < |at| && e.source == at[n].0 && e.target == at[n + 1].0
    && e.length == rules.distance(at[n].1, at[n + 1].1) && 0.1 <= e.length <= 100000.0 && e.source != e.target
    && e.forward == rules.forward(tags) && e.backward == rules.backward(tags) && e.name == rules.name(tags)
  }

  lemma EdgeAt(rules: RoadRules, s: Store, k: EdgeKey) returns (at: seq<(Id, NodeRow)>)
    requires k in FullEdges(rules, s)
    ensures k.0 in s.ways && WayOf(s, k.0).WayContent? && at == Located(WayOf(s, k.0).nodes)
    ensures IsEdgeAt(rules, s.ways[k.0], at, k.1, FullEdges(rules, s)[k])
  {
    FullEdgeIff(rules, s, k);
    WayNodes(s, k.0);
    at := ContentEdge(rules, WayOf(s, k.0), k.1);
  }

  lemma ContentEdge(rules: RoadRules, c: Content, n: nat) returns (at: seq<(Id, NodeRow)>)
    requires c.WayContent? && n in WayEdges(rules, c)
    ensures at == Located(c.nodes) && IsEdgeAt(rules, c.tags, at, n, WayEdges(rules, c)[n])
  {
    at := Located(c.nodes);
  }

  lemma AtEdge(rules: RoadRules, s: Store, w: Id, at: seq<(Id, NodeRow)>, n: nat, m: Mode)
    requires w in s.ways && WayOf(s, w).WayContent? && at == Located(WayOf(s, w).nodes)
    requires n + 1 < |at| && at[n].0 != at[n + 1].0 && 0.1 <= rules.distance(at[n].1, at[n + 1].1) <= 100000.0
    requires rules.forward(s.ways[w]).Has(m) || rules.backward(s.ways[w]).Has(m)
    ensures (w, n) in FullEdges(rules, s) && IsEdgeAt(rules, s.ways[w], at, n, FullEdges(rules, s)[(w, n)])
  {
    WayNodes(s, w);
    assert rules.forward(s.ways[w]).Or(rules.backward(s.ways[w])).Has(m);
    FullEdgeIff(rules, s, (w, n));
  }

  /** The edge that a link stands for, with its number on the way. */
  ghost predicate IsLinkEdge(rules: RoadRules, s: Store, w: Id, i: nat, j: nat, n: nat, e: Edge)
    requires Links(rules, s, w, i, j)
  {
    var ids, tags := NodeIds(s, w), s.ways[w];
    && n == Rank(s, ids, i)
    && e.source == ids[i] && e.target == ids[j]
    && e.length == rules.distance(s.nodes[ids[i]], s.nodes[ids[j]])
    && e.forward == rules.forward(tags) && e.backward == rules.backward(tags) && e.name == rules.name(tags)
  }

  /** Every edge of the full build is a link of its way. */
  lemma EdgeIsLink(rules: RoadRules, s: Store, k: EdgeKey) returns (i: nat, j: nat)
    requires k in FullEdges(rules, s)
    ensures Links(rules, s, k.0, i, j) && IsLinkEdge(rules, s, k.0, i, j, k.1, FullEdges(rules, s)[k])
  {
    var at := EdgeAt(rules, s, k);
    var ids := NodeIds(s, k.0);
    WayNodes(s, k.0);
    CountAll(s, k.0, at);
    i := RankedNode(s, ids, |ids|, k.1);
    j := RankedNode(s, ids, |ids|, k.1 + 1);
    WayAt(s, k.0, at, i);
    WayAt(s, k.0, at, j);
    FollowsIff(s, ids, i, j);
  }

  lemma CountAll(s: Store, w: Id, at: seq<(Id, NodeRow)>)
    requires w in s.ways && WayOf(s, w).WayContent? && at == Located(WayOf(s, w).nodes)
    ensures |at| == Rank(s, NodeIds(s, w), |NodeIds(s, w)|)
  {
    WayNodes(s, w);
    var nodes := WayOf(s, w).nodes;
    LocatedCount(s, NodeIds(s, w), nodes, |nodes|);
    assert nodes[..|nodes|] == nodes;
  }

  /** Every link of a way that any mode may use is an edge of the full build. */
  lemma LinkIsEdge(rules: RoadRules, s: Store, w: Id, i: nat, j: nat)
    requires Links(rules, s, w, i, j)
    requires exists m :: rules.forward(s.ways[w]).Has(m) || rules.backward(s.ways[w]).Has(m)
    ensures var k := (w, Rank(s, NodeIds(s, w), i));
            k in FullEdges(rules, s) && IsLinkEdge(rules, s, w, i, j, k.1, FullEdges(rules, s)[k])
  {
    var ids := NodeIds(s, w);
    WayNodes(s, w);
    var at := Located(WayOf(s, w).nodes);
    WayAt(s, w, at, i);
    WayAt(s, w, at, j);
    FollowsIff(s, ids, i, j);
    var m :| rules.forward(s.ways[w]).Has(m) || rules.backward(s.ways[w]).Has(m);
    AtEdge(rules, s, w, at, Rank(s, ids, i), m);
  }

  /** One can go from `a` to `b` over one edge. */
  ghost predicate CanGo(edges: map<EdgeKey, Edge>, a: Id, b: Id, m: Mode) {
    exists k :: k in edges && Carries(edges[k], a, b, m)
  }

  predicate Carries(e: Edge, a: Id, b: Id, m: Mode) {
    (e.source == a && e.target == b && e.forward.Has(m)) || (e.source == b && e.target == a && e.backward.Has(m))
  }

  /** A way leads from `a` to `b`: they are linked in this order and the way may be used forward, or
      in the other order and it may be used backward. */
  ghost predicate Leads(rules: RoadRules, s: Store, w: Id, i: nat, j: nat, a: Id, b: Id, m: Mode) {
    && Links(rules, s, w, i, j)
    && var ids, tags := NodeIds(s, w), s.ways[w];
       || (ids[i] == a && ids[j] == b && rules.forward(tags).Has(m))
       || (ids[i] == b && ids[j] == a && rules.backward(tags).Has(m))
  }

  /** The directions of the full build are those of the ways. */
  lemma DirectionsOfWays(rules: RoadRules, s: Store, a: Id, b: Id, m: Mode)
    ensures CanGo(FullEdges(rules, s), a, b, m) <==>
            exists w: Id, i: nat, j: nat :: Leads(rules, s, w, i, j, a, b, m)
  {
    var edges := FullEdges(rules, s);
    if CanGo(edges, a, b, m) {
      var k :| k in edges && Carries(edges[k], a, b, m);
      var i, j := EdgeIsLink(rules, s, k);
      assert Leads(rules, s, k.0, i, j, a, b, m);
    }
    if w: Id, i: nat, j: nat :| Leads(rules, s, w, i, j, a, b, m) {
      LinkIsEdge(rules, s, w, i, j);
      assert Carries(edges[(w, Rank(s, NodeIds(s, w), i))], a, b, m);
    }
  }

  /** One can leave or reach `n` by a mode. */
  ghost predicate Serves(edges: map<EdgeKey, Edge>, n: Id, m: Mode) {
    exists b :: Meets(edges, n, b, m)
  }

  ghost predicate Meets(edges: map<EdgeKey, Edge>, n: Id, b: Id, m: Mode) {
    CanGo(edges, n, b, m) || CanGo(edges, b, n, m)
  }

  lemma ModeServes(edges: map<EdgeKey, Edge>, n: Id, m: Mode)
    requires HasMode(edges, n, m)
    ensures Serves(edges, n, m)
  {
    var k :| k in edges && edges[k].Touches(n) && edges[k].Both().Has(m);
    var e := edges[k];
    var b := if e.source == n then e.target else e.source;
    assert Carries(e, n, b, m) || Carries(e, b, n, m);
    assert Meets(edges, n, b, m);
  }

  lemma ServesMode(edges: map<EdgeKey, Edge>, n: Id, m: Mode)
    requires Serves(edges, n, m)
    ensures HasMode(edges, n, m)
  {
    var b :| Meets(edges, n, b, m);
    if CanGo(edges, n, b, m) {
      var k :| k in edges && Carries(edges[k], n, b, m);
      assert edges[k].Touches(n) && edges[k].Both().Has(m);
    } else {
      var k :| k in edges && Carries(edges[k], b, n, m);
      assert edges[k].Touches(n) && edges[k].Both().Has(m);
    }
  }

  lemma ModeEnds(edges: map<EdgeKey, Edge>, n: Id, m: Mode)
    requires HasMode(edges, n, m)
    ensures n in Endpoints(edges)
  {
    var k :| k in edges && edges[k].Touches(n) && edges[k].Both().Has(m);
    assert n == edges[k].source || n == edges[k].target;
  }

  /** A node is there exactly if an edge ends at it, and has a mode exactly if one can leave or reach it
      by that mode. */
  lemma NodeServes(edges: map<EdgeKey, Edge>, nodes: map<Id, RouteNode>, n: Id, m: Mode)
    requires GraphOk(edges, nodes)
    ensures n in nodes <==> exists k :: k in edges && (edges[k].source == n || edges[k].target == n)
    ensures n in nodes && nodes[n].modes.Has(m) <==> Serves(edges, n, m)
  {
    assert n in nodes <==> n in Endpoints(edges);
    assert n in nodes ==> (nodes[n].modes.Has(m) <==> HasMode(edges, n, m));
    if HasMode(edges, n, m) {
      ModeServes(edges, n, m);
      ModeEnds(edges, n, m);
    } else if Serves(edges, n, m) {
      ServesMode(edges, n, m);
    }
  }
}
