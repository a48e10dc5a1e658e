/**
 The map transaction of the protocol is the table statements: what the builder writes may be handed
 to the merge, and the merge leaves the tables as the protocol's step says.
 */
module MapTransaction {
  import opened OsmObjects
  import opened RouteGraph
  import opened MapMerge
  import opened MapDatabase
  import opened TwoStoreUpdate

  /** The tables hold the map part of a protocol state. */
  ghost predicate Stored(tables: MapTables, w: World)
    reads tables, tables.features, tables.areas, tables.route
  {
    && RowSet(tables.features.rows) == w.features && RowSet(tables.areas.rows) == w.areas
    && tables.route.edges == w.edges && tables.route.nodes == w.nodes && tables.sequence == w.mapSeq
  }

  /** `list` writes down a set of rows, each once. */
  ghost predicate WritesDown(list: seq<MapRow>, rows: set<MapRow>) {
    (forall r :: r in list <==> r in rows) && forall i, j :: 0 <= i < j < |list| ==> list[i] != list[j]
  }

  /** The builder's rows are rows of the scope with distinct keys. */
  lemma BuiltRowsInScope(rules: RowRules, t: Store, scope: Scope, rows: set<MapRow>, list: seq<MapRow>)
    requires rules.Valid() && IsRowDelta(rules, t, scope, rows) && WritesDown(list, rows)
    ensures RowsInScope(list, scope) && (set r | r in list) == rows
  {
    forall i, j | 0 <= i < j < |list|
      ensures list[i].owner != list[j].owner || list[i].kind != list[j].kind
    {
      assert list[i] in rows && list[j] in rows && list[i] != list[j];
    }
    forall j | 0 <= j < |list|
      ensures scope.Has(list[j].owner)
    {
      assert list[j] in rows;
    }
  }

  /** One merge of the protocol, done by the statements: tables that hold the state before hold the
      state after, with their mirrors, keys and counters. */
  method MergeTransaction(e: Env, s: State, a: Action, tables: MapTables, features: seq<MapRow>, areas: seq<MapRow>)
    requires e.features.Valid() && e.areas.Valid() && a.Merge? && Enabled(e, s, a)
    requires tables.Valid() && Stored(tables, s.w) && WritesDown(features, a.features) && WritesDown(areas, a.areas)
    modifies tables, tables.features, tables.areas, tables.route
    ensures tables.Valid() && Stored(tables, Next(e, s, a).w)
  {
    var scope := Pruned(s.phase.scope, s.phase.pruned);
    BuiltRowsInScope(e.features, s.w.store, scope, a.features, features);
    BuiltRowsInScope(e.areas, s.w.store, scope, a.areas, areas);
    tables.MergeDelta(scope, MapDelta(features, areas, a.route), s.w.objSeq);
  }
}
