/**
 A planet on which the deferred-scope file is lost and the map stays wrong: one relation whose
 tags change once.
 */
module StaleExample {
  import opened Wrappers
  import opened OsmObjects
  import opened DependencyScope
  import opened Invalidation
  import opened RouteGraph
  import opened FullBuild
  import opened MapMerge
  import opened TwoStoreUpdate

  const REL: Id := 1

  function TagsAt(n: nat): Tags { if n == 0 then [0] else [1] }

  function PlanetAt(n: nat): Store {
    Store(map[], map[], map[], map[REL := TagsAt(n)], map[REL := []])
  }

  /** The replication diff up to `n` names the relation. */
  function DiffTo(n: nat): ChangeSet {
    ChangeSet(map[], map[], map[REL := Some(RelationValue(TagsAt(n), []))])
  }

  lemma DiffLeads(a: nat, b: nat)
    ensures Applied(PlanetAt(a), DiffTo(b)) == PlanetAt(b)
  {
    var t := Applied(PlanetAt(a), DiffTo(b));
    assert t.nodes == map[] && t.ways == map[] && t.wayNodes == map[];
    assert t.relations == map[REL := TagsAt(b)] && t.relationMembers == map[REL := []];
  }

  function Boundary(o: Obj, c: Content): set<MapRow> {
    if o == RelationObj(REL) && c.RelationContent? then
      {MapRow(o, "boundary", if c.tags == TagsAt(0) then "before" else "after")}
    else {}
  }

  function Planet(roads: RoadRules): Env {
    Env(PlanetAt, (a: nat, b: nat) => DiffTo(b), roads, RowRules(Boundary, 1), RowRules((o, c) => {}, 1))
  }

  lemma PlanetValid(roads: RoadRules)
    ensures Planet(roads).Valid() && Planet(roads).features.Valid() && Planet(roads).areas.Valid()
  {
    forall a: nat, b: nat | a <= b
      ensures Applied(PlanetAt(a), DiffTo(b)) == PlanetAt(b)
    {
      DiffLeads(a, b);
    }
  }

  /** The rows of the relation at a sequence. */
  lemma RowsAt(n: nat)
    ensures Boundary(RelationObj(REL), Expand(PlanetAt(n), RelationObj(REL), 1))
         == {MapRow(RelationObj(REL), "boundary", if n == 0 then "before" else "after")}
  {
    assert TagsAt(0)[0] == 0 && TagsAt(1)[0] == 1;
  }

  lemma OnlyRelationAffected(n: nat, b: nat, o: Obj)
    ensures Affected(PlanetAt(n), DiffTo(b).Direct(), o) <==> o == RelationObj(REL)
  {
    var s, direct := PlanetAt(n), DiffTo(b).Direct();
    assert Base(s, direct) == {RelationObj(REL)};
    if o == RelationObj(REL) {
      BaseAffected(s, direct, o);
    }
    if Affected(s, direct, o) {
      AffectedIsLeast(s, direct, {RelationObj(REL)}, o);
    }
  }

  const SCOPE: Scope := Scope({}, {}, {REL})

  lemma ScopePrepared(n: nat)
    ensures IsPrepared(PlanetAt(n), DiffTo(n + 1), SCOPE)
  {
    DiffLeads(n, n + 1);
    forall o
      ensures SCOPE.Has(o) <==> Affected(PlanetAt(n), DiffTo(n + 1).Direct(), o)
                                || Affected(PlanetAt(n + 1), DiffTo(n + 1).Direct(), o)
    {
      OnlyRelationAffected(n, n + 1, o);
      OnlyRelationAffected(n + 1, n + 1, o);
    }
  }

  /** The map of the first sequence, freshly built. */
  function Fresh(): State {
    var rows := {MapRow(RelationObj(REL), "boundary", "before")};
    State(World(0, PlanetAt(0), None, 0, rows, {}, map[], map[], {}, {}), Idle)
  }

  lemma FreshStarts(roads: RoadRules)
    ensures Start(Planet(roads), Fresh()) && Settled(Fresh())
  {
    var e, w := Planet(roads), Fresh().w;
    RowsAt(0);
    forall o
      ensures FreshAt(e.features, w.features, PlanetAt(0), o)
    {
    }
    assert FullEdges(roads, PlanetAt(0)) == map[];
    assert Endpoints(map[]) == {};
  }

  /** After the loss the relation's row is the old one, though the planet has changed. */
  lemma MapStaysWrong(roads: RoadRules) returns (run: seq<Action>)
    ensures IsRun(Planet(roads), Fresh(), run) && Settled(After(Planet(roads), Fresh(), run))
    ensures var w := After(Planet(roads), Fresh(), run).w;
            && REL !in w.deferred && w.mapSeq == 2
            && !FreshAt(Planet(roads).features, w.features, PlanetAt(w.mapSeq), RelationObj(REL))
  {
    var e := Planet(roads);
    PlanetValid(roads);
    FreshStarts(roads);
    ScopePrepared(0);
    ScopePrepared(1);
    run := RecordCanBeLost(e, Fresh(), SCOPE, SCOPE, REL);
    RowsAt(2);
    var row := MapRow(RelationObj(REL), "boundary", "before");
    assert row in After(e, Fresh(), run).w.features && row !in e.features.Derived(PlanetAt(2), row.owner);
  }
}
