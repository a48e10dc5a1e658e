/**
 Soundness of the update scope: an object whose recursively expanded content can change is in
 the scope, for every store, change set and expansion depth.
 */
module Invalidation {
  import opened Wrappers
  import opened OsmObjects
  import opened DependencyScope

  /** What an object expands to: its row, and the contents of what it refers to. */
  datatype Content =
    | Missing
    | Cut
    | NodeContent(row: NodeRow)
    | WayContent(tags: Tags, nodes: seq<(Id, Content)>)
    | RelationContent(tags: Tags, members: seq<(Member, Content)>)

  function NodeOf(s: Store, id: Id): Content {
    if id in s.nodes then NodeContent(s.nodes[id]) else Missing
  }

  function NodeIds(s: Store, way: Id): seq<Id> {
    if way in s.wayNodes then s.wayNodes[way] else []
  }

  function Members(s: Store, relation: Id): seq<Member> {
    if relation in s.relationMembers then s.relationMembers[relation] else []
  }

  /** The content of `o`, following relation members `depth` levels down (cycles are cut). */
  function Expand(s: Store, o: Obj, depth: nat): Content
    decreases depth
  {
    match o
    case NodeObj(id) => NodeOf(s, id)
    case WayObj(id) =>
      if id !in s.ways then Missing
      else
        var ids := NodeIds(s, id);
        WayContent(s.ways[id], seq(|ids|, i requires 0 <= i < |ids| => (ids[i], NodeOf(s, ids[i]))))
    case RelationObj(id) =>
      if id !in s.relations then Missing
      else if depth == 0 then Cut
      else
        var ms := Members(s, id);
        RelationContent(s.relations[id],
                        seq(|ms|, i requires 0 <= i < |ms| => (ms[i], Expand(s, ms[i].child, depth - 1))))
  }

  /** Two stores give a node the same content exactly if they have the same row for it. */
  lemma NodeContentIff(s: Store, t: Store, id: Id)
    ensures NodeOf(s, id) == NodeOf(t, id) <==> SameAt(s.nodes, t.nodes, id)
  {
  }

  /** ... a way, exactly if they agree on its tags, its node list and the rows of all its nodes. */
  lemma WayContentIff(s: Store, t: Store, id: Id, depth: nat)
    ensures Expand(s, WayObj(id), depth) == Expand(t, WayObj(id), depth) <==>
            && SameAt(s.ways, t.ways, id)
            && (id in s.ways ==> && NodeIds(s, id) == NodeIds(t, id)
                                 && forall n :: n in NodeIds(s, id) ==> SameAt(s.nodes, t.nodes, n))
  {
    if id in s.ways && id in t.ways {
      var ids, other := NodeIds(s, id), NodeIds(t, id);
      var a, b := Expand(s, WayObj(id), depth).nodes, Expand(t, WayObj(id), depth).nodes;
      if Expand(s, WayObj(id), depth) == Expand(t, WayObj(id), depth) {
        assert |ids| == |a| == |b| == |other|;
        forall i | 0 <= i < |ids|
          ensures ids[i] == other[i] && SameAt(s.nodes, t.nodes, ids[i])
        {
          assert a[i] == b[i];
          NodeContentIff(s, t, ids[i]);
        }
      } else if ids == other && s.ways[id] == t.ways[id] {
        var i :| 0 <= i < |ids| && a[i] != b[i];
        NodeContentIff(s, t, ids[i]);
      }
    }
  }

  /** ... a relation, exactly if they agree on its tags, its members, and the contents of these. */
  lemma RelationContentIff(s: Store, t: Store, id: Id, depth: nat)
    requires depth > 0
    ensures Expand(s, RelationObj(id), depth) == Expand(t, RelationObj(id), depth) <==>
            && SameAt(s.relations, t.relations, id)
            && (id in s.relations ==>
                  && Members(s, id) == Members(t, id)
                  && forall m :: m in Members(s, id) ==> Expand(s, m.child, depth - 1) == Expand(t, m.child, depth - 1))
  {
    if id in s.relations && id in t.relations {
      var ms, other := Members(s, id), Members(t, id);
      var a, b := Expand(s, RelationObj(id), depth).members, Expand(t, RelationObj(id), depth).members;
      if Expand(s, RelationObj(id), depth) == Expand(t, RelationObj(id), depth) {
        assert |ms| == |a| == |b| == |other|;
        forall i | 0 <= i < |ms|
          ensures ms[i] == other[i] && Expand(s, ms[i].child, depth - 1) == Expand(t, ms[i].child, depth - 1)
        {
          assert a[i] == b[i];
        }
      } else if ms == other && s.relations[id] == t.relations[id] {
        var i :| 0 <= i < |ms| && a[i] != b[i];
        assert ms[i] in ms;
      }
    }
  }

  ghost predicate SameRow(a: map<Id, Tags>, b: map<Id, Tags>, id: Id) {
    (id in a <==> id in b) && (id in a ==> a[id] == b[id])
  }

  /** An object outside the change set keeps its own rows. */
  lemma RowsKept(s: Store, c: ChangeSet, o: Obj)
    requires !c.Direct().Has(o)
    ensures o.NodeObj? ==> NodeOf(Applied(s, c), o.id) == NodeOf(s, o.id)
    ensures o.WayObj? ==> NodeIds(Applied(s, c), o.id) == NodeIds(s, o.id)
    ensures o.WayObj? ==> SameRow(s.ways, Applied(s, c).ways, o.id)
    ensures o.RelationObj? ==> Members(Applied(s, c), o.id) == Members(s, o.id)
    ensures o.RelationObj? ==> SameRow(s.relations, Applied(s, c).relations, o.id)
  {
  }

  /** A way that is not affected uses no directly changed node. */
  lemma WayNodesKept(s: Store, direct: Scope, way: Id, n: Id)
    requires !Affected(s, direct, WayObj(way)) && n in NodeIds(s, way)
    ensures n !in direct.nodes
  {
    if n in direct.nodes {
      assert way in WaysUsing(s, direct.nodes);
      BaseAffected(s, direct, WayObj(way));
    }
  }

  lemma NotDirect(s: Store, direct: Scope, o: Obj)
    requires !Affected(s, direct, o)
    ensures !direct.Has(o)
  {
    if direct.Has(o) {
      BaseAffected(s, direct, o);
    }
  }

  /** Members of an unaffected relation are unaffected. */
  lemma MembersKept(s: Store, direct: Scope, relation: Id, i: nat)
    requires !Affected(s, direct, RelationObj(relation)) && i < |Members(s, relation)|
    ensures !Affected(s, direct, Members(s, relation)[i].child)
  {
    var m := Members(s, relation)[i];
    if Affected(s, direct, m.child) {
      assert IsMember(s, m.child, RelationObj(relation));
      AffectedStep(s, direct, m.child, RelationObj(relation));
    }
  }

  /**
   Invalidation is sound, in the strong form: an object whose expanded content differs before
   and after a change set, at any depth, is in the closure over the old store and in the
   closure over the new store.  (The code takes the union of the two; either would do.)
   `view` is the store whose closure leaves `o` out.
   */
  lemma {:induction false} ContentKept(s: Store, c: ChangeSet, view: Store, o: Obj, depth: nat)
    requires view == s || view == Applied(s, c)
    requires !Affected(view, c.Direct(), o)
    ensures Expand(s, o, depth) == Expand(Applied(s, c), o, depth)
    decreases depth
  {
    var t := Applied(s, c);
    NotDirect(view, c.Direct(), o);
    RowsKept(s, c, o);
    match o
    case NodeObj(_) =>
    case WayObj(id) =>
      assert NodeIds(view, id) == NodeIds(s, id);
      WayContentKept(s, c, view, id);
    case RelationObj(id) =>
      var ms := Members(s, id);
      assert Members(view, id) == ms == Members(t, id);
      if depth > 0 {
        forall i | 0 <= i < |ms|
          ensures Expand(s, ms[i].child, depth - 1) == Expand(t, ms[i].child, depth - 1)
        {
          MembersKept(view, c.Direct(), id, i);
          ContentKept(s, c, view, ms[i].child, depth - 1);
        }
      }
  }

  lemma WayContentKept(s: Store, c: ChangeSet, view: Store, way: Id)
    requires !c.Direct().Has(WayObj(way))
    requires !Affected(view, c.Direct(), WayObj(way)) && NodeIds(view, way) == NodeIds(s, way)
    ensures Expand(s, WayObj(way), 0) == Expand(Applied(s, c), WayObj(way), 0)
  {
    RowsKept(s, c, WayObj(way));
    var ids := NodeIds(s, way);
    forall i | 0 <= i < |ids|
      ensures NodeOf(s, ids[i]) == NodeOf(Applied(s, c), ids[i])
    {
      WayNodesKept(view, c.Direct(), way, ids[i]);
      RowsKept(s, c, NodeObj(ids[i]));
    }
  }

  /** Top-down reading of the closure: expanding `o` meets a directly changed object. */
  ghost predicate Mentions(s: Store, direct: Scope, o: Obj, depth: nat)
    decreases depth
  {
    || direct.Has(o)
    || (o.WayObj? && exists n :: n in NodeIds(s, o.id) && n in direct.nodes)
    || (o.RelationObj? && depth > 0
        && exists m :: m in Members(s, o.id) && Mentions(s, direct, m.child, depth - 1))
  }

  lemma {:induction false} MentionsIsAffected(s: Store, direct: Scope, o: Obj, depth: nat)
    requires Mentions(s, direct, o, depth)
    ensures Affected(s, direct, o)
    decreases depth
  {
    if o in Base(s, direct) {
      BaseAffected(s, direct, o);
    } else {
      var m :| m in Members(s, o.id) && Mentions(s, direct, m.child, depth - 1);
      MentionsIsAffected(s, direct, m.child, depth - 1);
      AffectedStep(s, direct, m.child, o);
    }
  }

  lemma {:induction false} ChainMentions(s: Store, direct: Scope, chain: seq<Obj>)
    requires IsChain(s, direct, chain)
    ensures Mentions(s, direct, chain[|chain| - 1], |chain|)
    decreases |chain|
  {
    if |chain| > 1 {
      var o := chain[|chain| - 1];
      ChainMentions(s, direct, chain[..|chain| - 1]);
      assert IsMember(s, chain[|chain| - 2], o);
      var m :| m in Members(s, o.id) && m.child == chain[|chain| - 2];
    }
  }

  /** The scope is also precise: it holds only objects whose expansion meets a direct change. */
  lemma AffectedIffMentions(s: Store, direct: Scope, o: Obj)
    ensures Affected(s, direct, o) <==> exists depth: nat :: Mentions(s, direct, o, depth)
  {
    if Affected(s, direct, o) {
      var chain :| ChainTo(s, direct, chain, o);
      ChainMentions(s, direct, chain);
      assert Mentions(s, direct, o, |chain|);
    }
    forall depth: nat | Mentions(s, direct, o, depth)
      ensures Affected(s, direct, o)
    {
      MentionsIsAffected(s, direct, o, depth);
    }
  }

  /** `scope` holds every object whose content, at `depth`, the change can alter. */
  ghost predicate Covers(scope: Scope, s: Store, t: Store, depth: nat) {
    forall o :: Expand(s, o, depth) != Expand(t, o, depth) ==> scope.Has(o)
  }

  /** The union of the closures before and after the change. */
  ghost predicate IsPrepared(s: Store, c: ChangeSet, scope: Scope) {
    forall o :: scope.Has(o) <==> Affected(s, c.Direct(), o) || Affected(Applied(s, c), c.Direct(), o)
  }

  /** One of the two closures is too deep. */
  ghost predicate Unpreparable(s: Store, c: ChangeSet) {
    TooDeep(s, c.Direct()) || TooDeep(Applied(s, c), c.Direct())
  }

  /**
   `prepare_dependency_update`: closure over the old tables, change the tables in place,
   closure over the new tables, union.  On the 32-level exit, which is taken exactly if one of the
   closures is that deep, the transaction is rolled back.
   */
  method PrepareUpdate(db: ObjectDatabase, changes: ChangeSet) returns (r: Option<Scope>)
    modifies db
    ensures r.None? <==> Unpreparable(old(db.Snapshot()), changes)
    ensures r.Some? ==> db.Snapshot() == Applied(old(db.Snapshot()), changes)
    ensures r.Some? ==> IsPrepared(old(db.Snapshot()), changes, r.value)
    ensures r.Some? ==> forall depth: nat :: Covers(r.value, old(db.Snapshot()), db.Snapshot(), depth)
    ensures r.None? ==> db.Snapshot() == old(db.Snapshot())
  {
    var before := Store(db.nodes, db.ways, db.wayNodes, db.relations, db.relationMembers);
    var oldScope := ComputeScope(before, changes.Direct());
    if oldScope.None? {
      return None;
    }
    db.ApplyDependencyChanges(changes);
    var after := Store(db.nodes, db.ways, db.wayNodes, db.relations, db.relationMembers);
    var newScope := ComputeScope(after, changes.Direct());
    if newScope.None? {
      db.Restore(before);
      return None;
    }
    r := Some(oldScope.value.Union(newScope.value));
    UnionPrepared(before, changes, oldScope.value, newScope.value);
  }

  lemma UnionPrepared(s: Store, c: ChangeSet, first: Scope, second: Scope)
    requires forall o :: first.Has(o) <==> Affected(s, c.Direct(), o)
    requires forall o :: second.Has(o) <==> Affected(Applied(s, c), c.Direct(), o)
    ensures IsPrepared(s, c, first.Union(second))
    ensures forall depth: nat :: Covers(first.Union(second), s, Applied(s, c), depth)
  {
    forall depth: nat
      ensures Covers(first.Union(second), s, Applied(s, c), depth)
    {
      CoversUnion(s, c, first.Union(second), depth);
    }
  }

  lemma CoversUnion(s: Store, c: ChangeSet, scope: Scope, depth: nat)
    requires forall o :: Affected(s, c.Direct(), o) ==> scope.Has(o)
    ensures Covers(scope, s, Applied(s, c), depth)
  {
    forall o | Expand(s, o, depth) != Expand(Applied(s, c), o, depth)
      ensures scope.Has(o)
    {
      if !Affected(s, c.Direct(), o) {
        ContentKept(s, c, s, o, depth);
      }
    }
  }
}
