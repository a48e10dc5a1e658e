/**
 The OSM object store: nodes, ways, relations and their two membership tables, and the
 in-place application of one replication change set.
 */
module OsmObjects {
  import opened Wrappers

  /** An OSM object identity; `object_type` 0, 1 and 2 of the temporary tables. */
  datatype Obj = NodeObj(id: Id) | WayObj(id: Id) | RelationObj(id: Id)

  newtype Id = x: int | 0 <= x
  newtype Byte = x: int | 0 <= x < 256
  type Tags = seq<Byte>

  datatype NodeRow = NodeRow(lat: int, lon: int, tags: Tags)
  datatype Member = Member(child: Obj, role: string)
  datatype WayValue = WayValue(tags: Tags, nodes: seq<Id>)
  datatype RelationValue = RelationValue(tags: Tags, members: seq<Member>)

  /** The tables; membership rows are grouped by parent, in `seq` order. */
  datatype Store = Store(
    nodes: map<Id, NodeRow>,
    ways: map<Id, Tags>,
    wayNodes: map<Id, seq<Id>>,
    relations: map<Id, Tags>,
    relationMembers: map<Id, seq<Member>>)

  /** A change set; `None` deletes the object.  Its scope is the keys of its dictionaries. */
  datatype ChangeSet = ChangeSet(
    nodes: map<Id, Option<NodeRow>>,
    ways: map<Id, Option<WayValue>>,
    relations: map<Id, Option<RelationValue>>)
  {
    function Direct(): Scope {
      Scope(nodes.Keys, ways.Keys, relations.Keys)
    }
  }

  datatype Scope = Scope(nodes: set<Id>, ways: set<Id>, relations: set<Id>)
  {
    predicate Has(o: Obj) {
      match o
      case NodeObj(id) => id in nodes
      case WayObj(id) => id in ways
      case RelationObj(id) => id in relations
    }

    function Objects(): (r: set<Obj>)
      ensures forall o :: o in r <==> Has(o)
    {
      (set id | id in nodes :: NodeObj(id))
      + (set id | id in ways :: WayObj(id))
      + (set id | id in relations :: RelationObj(id))
    }

    function Union(other: Scope): (r: Scope)
      ensures forall o :: r.Has(o) <==> Has(o) || other.Has(o)
    {
      Scope(nodes + other.nodes, ways + other.ways, relations + other.relations)
    }
  }

  /** The number of elements of a set, counted one by one.  It is the cardinality (`SizeIsCard`);
      contracts use it because, being recursive, it stays folded in the solver. */
  ghost function Size<T>(s: set<T>): nat {
    if s == {} then 0
    else
      var x :| x in s;
      1 + Size(s - {x})
  }

  lemma {:induction false} SizeIsCard<T>(s: set<T>)
    ensures Size(s) == |s|
  {
    if s != {} {
      var x :| x in s && Size(s) == 1 + Size(s - {x});
      SizeIsCard(s - {x});
    }
  }

  /** Every membership row belongs to a stored parent. */
  ghost predicate NoOrphans(s: Store) {
    s.wayNodes.Keys <= s.ways.Keys && s.relationMembers.Keys <= s.relations.Keys
  }

  /** One table after a change: changed keys take the new value or vanish, others stay. */
  ghost function Changed<V, C>(table: map<Id, V>, changes: map<Id, Option<C>>, row: C -> V): map<Id, V> {
    map id | id in table.Keys + changes.Keys && (id in changes ==> changes[id].Some?)
      :: if id in changes then row(changes[id].value) else table[id]
  }

  function WholeRow(n: NodeRow): NodeRow { n }
  function WayTags(w: WayValue): Tags { w.tags }
  function WayNodeIds(w: WayValue): seq<Id> { w.nodes }
  function RelationTags(r: RelationValue): Tags { r.tags }
  function MemberRows(r: RelationValue): seq<Member> { r.members }

  /** The store after a change set, table by table. */
  ghost function Applied(s: Store, c: ChangeSet): Store {
    Store(
      Changed(s.nodes, c.nodes, WholeRow),
      Changed(s.ways, c.ways, WayTags),
      Changed(s.wayNodes, c.ways, WayNodeIds),
      Changed(s.relations, c.relations, RelationTags),
      Changed(s.relationMembers, c.relations, MemberRows))
  }

  ghost predicate SameAt<V>(a: map<Id, V>, b: map<Id, V>, id: Id) {
    (id in a <==> id in b) && (id in a ==> a[id] == b[id])
  }

  /** After a change set every object is as the change says, in all tables, and the others are as before. */
  lemma AppliedIs(s: Store, c: ChangeSet, id: Id)
    ensures var t := Applied(s, c);
            && (id !in c.nodes ==> SameAt(s.nodes, t.nodes, id))
            && (id !in c.ways ==> SameAt(s.ways, t.ways, id) && SameAt(s.wayNodes, t.wayNodes, id))
            && (id !in c.relations ==>
                  SameAt(s.relations, t.relations, id) && SameAt(s.relationMembers, t.relationMembers, id))
    ensures var t := Applied(s, c);
            && (id in c.nodes && c.nodes[id].None? ==> id !in t.nodes)
            && (id in c.ways && c.ways[id].None? ==> id !in t.ways && id !in t.wayNodes)
            && (id in c.relations && c.relations[id].None? ==> id !in t.relations && id !in t.relationMembers)
    ensures var t := Applied(s, c);
            && (id in c.nodes && c.nodes[id].Some? ==> id in t.nodes && t.nodes[id] == c.nodes[id].value)
            && (id in c.ways && c.ways[id].Some? ==>
                  && id in t.ways && t.ways[id] == c.ways[id].value.tags
                  && id in t.wayNodes && t.wayNodes[id] == c.ways[id].value.nodes)
            && (id in c.relations && c.relations[id].Some? ==>
                  && id in t.relations && t.relations[id] == c.relations[id].value.tags
                  && id in t.relationMembers && t.relationMembers[id] == c.relations[id].value.members)
  {
  }

  lemma ChangedCompose<V, C>(table: map<Id, V>, c: map<Id, Option<C>>, d: map<Id, Option<C>>, row: C -> V)
    ensures Changed(Changed(table, c, row), d, row) == Changed(table, c + d, row)
  {
  }

  /** Two change sets applied in turn are one in which the later value of an object wins. */
  lemma AppliedCompose(s: Store, c: ChangeSet, d: ChangeSet)
    ensures Applied(Applied(s, c), d)
         == Applied(s, ChangeSet(c.nodes + d.nodes, c.ways + d.ways, c.relations + d.relations))
  {
    ChangedCompose(s.nodes, c.nodes, d.nodes, WholeRow);
    ChangedCompose(s.ways, c.ways, d.ways, WayTags);
    ChangedCompose(s.wayNodes, c.ways, d.ways, WayNodeIds);
    ChangedCompose(s.relations, c.relations, d.relations, RelationTags);
    ChangedCompose(s.relationMembers, c.relations, d.relations, MemberRows);
  }

  /** Replaying a change set that is already in the store changes nothing. */
  lemma AppliedIdempotent(s: Store, c: ChangeSet)
    ensures Applied(Applied(s, c), c) == Applied(s, c)
  {
    AppliedCompose(s, c, c);
    assert c.nodes + c.nodes == c.nodes && c.ways + c.ways == c.ways && c.relations + c.relations == c.relations;
  }

  class ObjectDatabase {
    var nodes: map<Id, NodeRow>
    var ways: map<Id, Tags>
    var wayNodes: map<Id, seq<Id>>
    var relations: map<Id, Tags>
    var relationMembers: map<Id, seq<Member>>

    ghost function Snapshot(): Store
      reads this
    {
      Store(nodes, ways, wayNodes, relations, relationMembers)
    }

    constructor (s: Store)
      ensures Snapshot() == s
    {
      nodes, ways, wayNodes := s.nodes, s.ways, s.wayNodes;
      relations, relationMembers := s.relations, s.relationMembers;
    }

    /** Roll back to an earlier content. */
    method Restore(s: Store)
      modifies this
      ensures Snapshot() == s
    {
      nodes, ways, wayNodes := s.nodes, s.ways, s.wayNodes;
      relations, relationMembers := s.relations, s.relationMembers;
    }

    /** Delete then insert every changed object, one table statement at a time. */
    method ApplyDependencyChanges(changes: ChangeSet)
      modifies this
      ensures Snapshot() == Applied(old(Snapshot()), changes)
      ensures old(NoOrphans(Snapshot())) ==> NoOrphans(Snapshot())
    {
      ApplyNodes(changes.nodes);
      ApplyWays(changes.ways);
      ApplyRelations(changes.relations);
    }

    method ApplyNodes(changes: map<Id, Option<NodeRow>>)
      modifies this`nodes
      ensures nodes == Changed(old(nodes), changes, WholeRow)
    {
      nodes := nodes - changes.Keys;
      ghost var kept := nodes;
      var todo := changes.Keys;
      while todo != {}
        invariant todo <= changes.Keys
        invariant forall id :: id in nodes <==> id in kept || (id in changes.Keys - todo && changes[id].Some?)
        invariant forall id :: id in nodes ==> nodes[id] == if id in changes then changes[id].value else kept[id]
        decreases |todo|
      {
        var id :| id in todo;
        if changes[id].Some? {
          nodes := nodes[id := changes[id].value];
        }
        todo := todo - {id};
      }
      PartlyDone(old(nodes), nodes, changes, WholeRow);
    }

    method ApplyWays(changes: map<Id, Option<WayValue>>)
      modifies this`ways, this`wayNodes
      ensures ways == Changed(old(ways), changes, WayTags)
      ensures wayNodes == Changed(old(wayNodes), changes, WayNodeIds)
    {
      var todo := changes.Keys;
      while todo != {}
        invariant todo <= changes.Keys
        invariant Partly(old(ways), ways, changes, todo, WayTags)
        invariant Partly(old(wayNodes), wayNodes, changes, todo, WayNodeIds)
        decreases |todo|
      {
        var id :| id in todo;
        PartlyStep(old(ways), ways, changes, todo, id, WayTags);
        PartlyStep(old(wayNodes), wayNodes, changes, todo, id, WayNodeIds);
        wayNodes := wayNodes - {id};
        ways := ways - {id};
        if changes[id].Some? {
          ways := ways[id := changes[id].value.tags];
          wayNodes := wayNodes[id := changes[id].value.nodes];
        }
        todo := todo - {id};
      }
      PartlyDone(old(ways), ways, changes, WayTags);
      PartlyDone(old(wayNodes), wayNodes, changes, WayNodeIds);
    }

    method ApplyRelations(changes: map<Id, Option<RelationValue>>)
      modifies this`relations, this`relationMembers
      ensures relations == Changed(old(relations), changes, RelationTags)
      ensures relationMembers == Changed(old(relationMembers), changes, MemberRows)
    {
      var todo := changes.Keys;
      while todo != {}
        invariant todo <= changes.Keys
        invariant Partly(old(relations), relations, changes, todo, RelationTags)
        invariant Partly(old(relationMembers), relationMembers, changes, todo, MemberRows)
        decreases |todo|
      {
        var id :| id in todo;
        PartlyStep(old(relations), relations, changes, todo, id, RelationTags);
        PartlyStep(old(relationMembers), relationMembers, changes, todo, id, MemberRows);
        relationMembers := relationMembers - {id};
        relations := relations - {id};
        if changes[id].Some? {
          relations := relations[id := changes[id].value.tags];
          relationMembers := relationMembers[id := changes[id].value.members];
        }
        todo := todo - {id};
      }
      PartlyDone(old(relations), relations, changes, RelationTags);
      PartlyDone(old(relationMembers), relationMembers, changes, MemberRows);
    }
  }

  /** The loop state: keys still to do, and keys never changed, are as before. */
  ghost predicate Partly<V(!new), C>(before: map<Id, V>, now: map<Id, V>,
                                     changes: map<Id, Option<C>>, todo: set<Id>, row: C -> V)
    requires todo <= changes.Keys
  {
    && (forall id :: id in now <==>
          if id in changes && id !in todo then changes[id].Some? else id in before)
    && (forall id :: id in now ==>
          now[id] == if id in changes && id !in todo then row(changes[id].value) else before[id])
  }

  lemma PartlyStep<V(!new), C>(before: map<Id, V>, now: map<Id, V>, changes: map<Id, Option<C>>,
                               todo: set<Id>, id: Id, row: C -> V)
    requires todo <= changes.Keys && id in todo && Partly(before, now, changes, todo, row)
    ensures changes[id].Some? ==>
              Partly(before, (now - {id})[id := row(changes[id].value)], changes, todo - {id}, row)
    ensures changes[id].None? ==> Partly(before, now - {id}, changes, todo - {id}, row)
  {
  }

  lemma PartlyDone<V(!new), C>(before: map<Id, V>, now: map<Id, V>, changes: map<Id, Option<C>>, row: C -> V)
    requires Partly(before, now, changes, {}, row)
    ensures now == Changed(before, changes, row)
  {
    var after := Changed(before, changes, row);
    forall id
      ensures id in now <==> id in after
    {
      assert id in after <==> id in before.Keys + changes.Keys && (id in changes ==> changes[id].Some?);
    }
  }
}
