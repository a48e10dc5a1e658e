/**
 The update protocol over the two stores.  Every commit is one atomic action, a crash may fall
 between any two of them, and a restarted run decides from what is persistent only.
 */
module TwoStoreUpdate {
  import opened Wrappers
  import opened OsmObjects
  import opened DependencyScope
  import opened Invalidation
  import opened RouteGraph
  import opened FullBuild
  import opened MapMerge

  /** The world outside: the replication history and the builder's row derivation. */
  datatype Env = Env(
    history: nat -> Store,
    diff: (nat, nat) -> ChangeSet,
    roads: RoadRules,
    features: RowRules,
    areas: RowRules)
  {
    /** A diff takes the planet from one sequence to the other. */
    ghost predicate Valid() {
      forall a: nat, b: nat :: a <= b ==> Applied(history(a), diff(a, b)) == history(b)
    }
  }

  datatype Journal = Journal(base: nat, target: nat, scope: Scope)

  /** What survives a crash.  `stale` is a history variable: the relations whose live rows were
      left behind by pruning; the program only sees `deferred`, the deferred-scope file. */
  datatype World = World(
    objSeq: nat, store: Store, journal: Option<Journal>,
    mapSeq: nat, features: set<MapRow>, areas: set<MapRow>, edges: EdgeTable, nodes: NodeTable,
    deferred: set<Id>, stale: set<Id>)

  /** Where the running process is; `Idle` is no process, or one about to read the sequences. */
  datatype Phase =
    | Idle
    | Building(scope: Scope, consolidating: bool)
    | Listed(scope: Scope, pruned: set<Id>, consolidating: bool)
    | Merged(pruned: set<Id>, consolidating: bool)
    | Cleared(pruned: set<Id>, consolidating: bool)

  datatype State = State(w: World, phase: Phase)

  datatype Action =
    | Repair
    | ClearStale
    | Stage(target: nat, found: Scope, consolidating: bool)
    | Recover
    | Defer(pruned: set<Id>)
    | Merge(features: set<MapRow>, areas: set<MapRow>, route: RouteDelta)
    | Clear
    | DropFile
    | Crash
    | RebuildObjects(seq_: nat)

  // ---- the actions -----------------------------------------------------------------------

  /** A consolidating batch lets the deferred relations rejoin. */
  function StagedScope(w: World, found: Scope, consolidating: bool): Scope {
    if consolidating then found.(relations := found.relations + w.deferred) else found
  }

  ghost predicate DeltasOk(e: Env, t: Store, scope: Scope, a: Action)
    requires a.Merge?
  {
    && IsRowDelta(e.features, t, scope, a.features)
    && IsRowDelta(e.areas, t, scope, a.areas)
    && IsRouteDelta(e.roads, t, scope.ways, a.route)
  }

  ghost predicate Enabled(e: Env, s: State, a: Action) {
    var w := s.w;
    match a
    case Repair => s.phase.Idle? && w.objSeq < w.mapSeq
    case ClearStale =>
      s.phase.Idle? && w.objSeq == w.mapSeq && w.journal.Some?
      && w.journal.value.target == w.mapSeq && w.journal.value.base <= w.journal.value.target
    case Stage(target, found, consolidating) =>
      s.phase.Idle? && w.objSeq == w.mapSeq && w.journal.None? && target > w.mapSeq
      && IsPrepared(w.store, e.diff(w.mapSeq, target), found)
      && (consolidating ==> w.deferred != {})
    case Recover =>
      s.phase.Idle? && w.objSeq > w.mapSeq && w.journal.Some?
      && w.journal.value.base == w.mapSeq && w.journal.value.target == w.objSeq
    case Defer(_) => s.phase.Building?
    case Merge(_, _, _) => s.phase.Listed? && DeltasOk(e, w.store, Pruned(s.phase.scope, s.phase.pruned), a)
    case Clear => s.phase.Merged?
    case DropFile => s.phase.Cleared?
    case Crash => true
    case RebuildObjects(q) => s.phase.Idle? && q <= w.mapSeq
  }

  ghost function Next(e: Env, s: State, a: Action): State
    requires Enabled(e, s, a)
  {
    var w := s.w;
    match a
    case Repair =>
      State(w.(store := Applied(w.store, e.diff(w.objSeq, w.mapSeq)), objSeq := w.mapSeq, journal := None), Idle)
    case ClearStale => State(w.(journal := None), Idle)
    case Stage(target, found, consolidating) =>
      var scope := StagedScope(w, found, consolidating);
      State(w.(store := Applied(w.store, e.diff(w.mapSeq, target)), objSeq := target,
               journal := Some(Journal(w.mapSeq, target, scope))),
            Building(scope, consolidating))
    case Recover => State(w, Building(w.journal.value.scope, false))
    case Defer(pruned) =>
      State(w.(deferred := w.deferred + pruned), Listed(s.phase.scope, pruned, s.phase.consolidating))
    case Merge(features, areas, route) =>
      var scope, pruned := s.phase.scope, s.phase.pruned;
      State(w.(mapSeq := w.objSeq,
               features := MergedRows(w.features, Pruned(scope, pruned), features),
               areas := MergedRows(w.areas, Pruned(scope, pruned), areas),
               edges := MergedEdges(w.edges, scope.ways, route),
               nodes := MergedNodes(w.edges, w.nodes, scope.ways, route),
               stale := NextStale(w.stale, scope, pruned)),
            Merged(pruned, s.phase.consolidating))
    case Clear => State(w.(journal := None), Cleared(s.phase.pruned, s.phase.consolidating))
    case DropFile => State(if s.phase.consolidating then w.(deferred := {}) else w, Idle)
    case Crash => State(w, Idle)
    case RebuildObjects(q) => State(w.(store := e.history(q), objSeq := q, journal := None), Idle)
  }

  // ---- the invariant ---------------------------------------------------------------------

  /** The map is the derivation of the planet at its own sequence, stale relations aside. */
  ghost predicate MapIsDerived(e: Env, w: World) {
    && UpToDate(e.features, w.features, e.history(w.mapSeq), w.stale)
    && UpToDate(e.areas, w.areas, e.history(w.mapSeq), w.stale)
    && IsGraphOf(e.roads, e.history(w.mapSeq), w.edges, w.nodes)
  }

  /** The scope holds whatever the builder could derive differently between two sequences. */
  ghost predicate ScopeSuffices(e: Env, a: nat, b: nat, scope: Scope) {
    forall depth: nat :: Covers(scope, e.history(a), e.history(b), depth)
  }

  /** (object sequence, map sequence, journal) has a recoverable shape. */
  ghost predicate Shape(e: Env, w: World) {
    || (w.objSeq <= w.mapSeq && w.journal.None?)
    || (w.objSeq == w.mapSeq && w.journal.Some?
        && w.journal.value.target == w.mapSeq && w.journal.value.base <= w.journal.value.target)
    || (w.objSeq > w.mapSeq && w.journal.Some?
        && w.journal.value.base == w.mapSeq && w.journal.value.target == w.objSeq
        && ScopeSuffices(e, w.mapSeq, w.objSeq, w.journal.value.scope))
  }

  ghost predicate PhaseOk(s: State) {
    match s.phase
    case Idle => true
    case Building(scope, _) => s.w.objSeq > s.w.mapSeq && s.w.journal.Some? && s.w.journal.value.scope == scope
    case Listed(scope, _, _) => s.w.objSeq > s.w.mapSeq && s.w.journal.Some? && s.w.journal.value.scope == scope
    case Merged(_, _) => s.w.objSeq == s.w.mapSeq && s.w.journal.Some?
    case Cleared(_, _) => s.w.objSeq == s.w.mapSeq && s.w.journal.None?
  }

  ghost predicate Inv(e: Env, s: State) {
    && s.w.store == e.history(s.w.objSeq)
    && MapIsDerived(e, s.w)
    && Shape(e, s.w)
    && PhaseOk(s)
  }

  /** The inconsistency exits of `_update_locked`, as a restarted run would take them. */
  ghost predicate BadExit(w: World) {
    || (w.objSeq > w.mapSeq && (w.journal.None? || w.journal.value.base != w.mapSeq
                                || w.journal.value.target != w.objSeq))
    || (w.objSeq == w.mapSeq && w.journal.Some?
        && (w.journal.value.target != w.mapSeq || w.journal.value.base > w.journal.value.target))
  }

  lemma StagedSuffices(e: Env, w: World, target: nat, found: Scope, consolidating: bool)
    requires e.Valid() && w.store == e.history(w.mapSeq) && target > w.mapSeq
    requires IsPrepared(w.store, e.diff(w.mapSeq, target), found)
    ensures ScopeSuffices(e, w.mapSeq, target, StagedScope(w, found, consolidating))
  {
    var c := e.diff(w.mapSeq, target);
    forall depth: nat
      ensures Covers(StagedScope(w, found, consolidating), e.history(w.mapSeq), e.history(target), depth)
    {
      CoversUnion(w.store, c, found, depth);
    }
  }

  lemma ScopeCoversWays(e: Env, a: nat, b: nat, scope: Scope)
    requires ScopeSuffices(e, a, b, scope)
    ensures WaysCovered(e.history(a), e.history(b), scope.ways)
  {
    assert Covers(scope, e.history(a), e.history(b), 0);
    forall w | WayOf(e.history(a), w) != WayOf(e.history(b), w)
      ensures w in scope.ways
    {
      assert scope.Has(WayObj(w));
    }
  }

  /** The merge action: the map moves to the object store's sequence and stays derived. */
  lemma MergeDerives(e: Env, s: State, a: Action)
    requires e.Valid() && Inv(e, s) && a.Merge? && Enabled(e, s, a)
    ensures MapIsDerived(e, Next(e, s, a).w)
  {
    var w := s.w;
    var scope, pruned := s.phase.scope, s.phase.pruned;
    var old_, new_ := e.history(w.mapSeq), e.history(w.objSeq);
    ScopeCoversWays(e, w.mapSeq, w.objSeq, scope);
    RouteMergeIsRebuild(e.roads, old_, new_, w.edges, w.nodes, scope.ways, a.route);
    RowMergeIsRebuild(e.features, old_, new_, w.features, w.stale, scope, pruned, a.features);
    RowMergeIsRebuild(e.areas, old_, new_, w.areas, w.stale, scope, pruned, a.areas);
  }

  /** Every action keeps the invariant. */
  lemma InvStep(e: Env, s: State, a: Action)
    requires e.Valid() && Inv(e, s) && Enabled(e, s, a)
    ensures Inv(e, Next(e, s, a))
  {
    match a
    case Stage(target, found, consolidating) => StagedSuffices(e, s.w, target, found, consolidating);
    case Merge(_, _, _) => MergeDerives(e, s, a);
    case _ =>
  }

  // ---- whole runs ------------------------------------------------------------------------

  ghost predicate IsRun(e: Env, s: State, run: seq<Action>)
    decreases |run|
  {
    run == [] || (Enabled(e, s, run[0]) && IsRun(e, Next(e, s, run[0]), run[1..]))
  }

  ghost function After(e: Env, s: State, run: seq<Action>): State
    requires IsRun(e, s, run)
    decreases |run|
  {
    if run == [] then s else After(e, Next(e, s, run[0]), run[1..])
  }

  /** Over every interleaving of the commits with crashes and store rebuilds: the invariant holds,
      and no inconsistency exit can be taken. */
  lemma {:induction false} RunsAreSafe(e: Env, s: State, run: seq<Action>)
    requires e.Valid() && Inv(e, s) && IsRun(e, s, run)
    ensures Inv(e, After(e, s, run))
    ensures !BadExit(After(e, s, run).w)
    decreases |run|
  {
    if run != [] {
      InvStep(e, s, run[0]);
      RunsAreSafe(e, Next(e, s, run[0]), run[1..]);
    }
  }

  /** The bound on a rebuilt object store is needed: built past the map it has no journal. */
  lemma RebuildAheadIsFatal(e: Env, s: State, q: nat)
    ensures BadExit(s.w.(store := e.history(q), objSeq := q, journal := None)) <==> q > s.w.mapSeq
  {
  }

  // ---- recovery --------------------------------------------------------------------------

  ghost predicate Settled(s: State) {
    s.phase.Idle? && s.w.objSeq == s.w.mapSeq && s.w.journal.None?
  }

  function AllDerived(rules: RowRules, t: Store, scope: Scope): set<MapRow> {
    set o, r | o in scope.Objects() && r in rules.Derived(t, o) :: r
  }

  lemma AllDerivedIsDelta(rules: RowRules, t: Store, scope: Scope)
    requires rules.Valid()
    ensures IsRowDelta(rules, t, scope, AllDerived(rules, t, scope))
  {
    forall r: MapRow
      ensures r in AllDerived(rules, t, scope) <==> scope.Has(r.owner) && r in rules.Derived(t, r.owner)
    {
    }
  }

  lemma DeltaEnds(roads: RoadRules, t: Store, ways: set<Id>)
    ensures forall n :: n in Endpoints(EdgesOf(FullEdges(roads, t), ways)) ==> n in t.nodes
  {
    var edges := EdgesOf(FullEdges(roads, t), ways);
    forall n | n in Endpoints(edges)
      ensures n in t.nodes
    {
      var k := EndpointEdge(edges, n);
      TouchesEnd(FullEdges(roads, t), k, n);
      FullEndpoint(roads, t, n);
    }
  }

  function EndRows(t: Store, edges: EdgeTable): NodeTable {
    map n | n in Endpoints(edges) && n in t.nodes ::
      RouteNode(t.nodes[n].lat, t.nodes[n].lon, ModesAt(edges, n))
  }

  lemma EndRowsPlaced(t: Store, edges: EdgeTable)
    requires forall n :: n in Endpoints(edges) ==> n in t.nodes
    ensures EndRows(t, edges).Keys == Endpoints(edges) && Placed(t, EndRows(t, edges))
  {
  }

  /** The route rows of the ways in scope. */
  function RouteDeltaOf(roads: RoadRules, t: Store, ways: set<Id>): RouteDelta {
    RouteDelta(EdgesOf(FullEdges(roads, t), ways), EndRows(t, EdgesOf(FullEdges(roads, t), ways)))
  }

  lemma RouteDeltaBuilt(roads: RoadRules, t: Store, ways: set<Id>)
    ensures IsRouteDelta(roads, t, ways, RouteDeltaOf(roads, t, ways))
  {
    DeltaEnds(roads, t, ways);
    EndRowsPlaced(t, EdgesOf(FullEdges(roads, t), ways));
  }

  /** What the builder writes for a scope. */
  function BuiltDelta(e: Env, t: Store, scope: Scope): Action {
    Merge(AllDerived(e.features, t, scope), AllDerived(e.areas, t, scope), RouteDeltaOf(e.roads, t, scope.ways))
  }

  lemma BuiltDeltaOk(e: Env, t: Store, scope: Scope)
    requires e.features.Valid() && e.areas.Valid()
    ensures DeltasOk(e, t, scope, BuiltDelta(e, t, scope))
  {
    AllDerivedIsDelta(e.features, t, scope);
    AllDerivedIsDelta(e.areas, t, scope);
    RouteDeltaBuilt(e.roads, t, scope.ways);
  }

  /** Finish a batch from `Building`, whatever the builder defers. */
  lemma FinishBatch(e: Env, s: State, pruned: set<Id>) returns (run: seq<Action>)
    requires e.Valid() && e.features.Valid() && e.areas.Valid()
    requires Inv(e, s) && s.phase.Building?
    ensures IsRun(e, s, run) && Settled(After(e, s, run))
    ensures After(e, s, run).w.mapSeq == s.w.objSeq
    ensures After(e, s, run).w.stale == NextStale(s.w.stale, s.phase.scope, pruned)
    ensures After(e, s, run).w.deferred == if s.phase.consolidating then {} else s.w.deferred + pruned
    ensures forall r: MapRow :: Deferred(r.owner, pruned) ==> (r in After(e, s, run).w.features <==> r in s.w.features)
  {
    var s1 := Next(e, s, Defer(pruned));
    var merge := BuiltDelta(e, s1.w.store, Pruned(s1.phase.scope, pruned));
    BuiltDeltaOk(e, s1.w.store, Pruned(s1.phase.scope, pruned));
    run := FinishWith(e, s, pruned, merge);
    forall r: MapRow | Deferred(r.owner, pruned)
      ensures r in After(e, s, run).w.features <==> r in s.w.features
    {
      PrunedRowsKept(e.features, s1.w.store, s.w.features, s.phase.scope, pruned, merge.features, r);
    }
  }

  lemma FinishWith(e: Env, s: State, pruned: set<Id>, merge: Action) returns (run: seq<Action>)
    requires Inv(e, s) && s.phase.Building? && merge.Merge? && Enabled(e, Next(e, s, Defer(pruned)), merge)
    ensures IsRun(e, s, run) && Settled(After(e, s, run))
    ensures After(e, s, run).w.mapSeq == s.w.objSeq
    ensures After(e, s, run).w.stale == NextStale(s.w.stale, s.phase.scope, pruned)
    ensures After(e, s, run).w.deferred == if s.phase.consolidating then {} else s.w.deferred + pruned
    ensures After(e, s, run).w.features == MergedRows(s.w.features, Pruned(s.phase.scope, pruned), merge.features)
  {
    run := [Defer(pruned), merge, Clear, DropFile];
    Unfold4(e, s, Defer(pruned), merge, Clear, DropFile);
  }

  lemma Unfold1(e: Env, s: State, a: Action)
    requires Enabled(e, s, a)
    ensures IsRun(e, s, [a]) && After(e, s, [a]) == Next(e, s, a)
  {
    assert [a][1..] == [];
  }

  lemma Unfold4(e: Env, s: State, a: Action, b: Action, c: Action, d: Action)
    requires Enabled(e, s, a) && Enabled(e, Next(e, s, a), b) && Enabled(e, Next(e, Next(e, s, a), b), c)
    requires Enabled(e, Next(e, Next(e, Next(e, s, a), b), c), d)
    ensures IsRun(e, s, [a, b, c, d])
    ensures After(e, s, [a, b, c, d]) == Next(e, Next(e, Next(e, Next(e, s, a), b), c), d)
  {
    var s1, s2, s3 := Next(e, s, a), Next(e, Next(e, s, a), b), Next(e, Next(e, Next(e, s, a), b), c);
    Unfold1(e, s3, d);
    UnfoldCons(e, s2, c, [d]);
    UnfoldCons(e, s1, b, [c] + [d]);
    UnfoldCons(e, s, a, [b] + ([c] + [d]));
    assert [a, b, c, d] == [a] + ([b] + ([c] + [d]));
  }

  lemma UnfoldCons(e: Env, s: State, a: Action, rest: seq<Action>)
    requires Enabled(e, s, a) && IsRun(e, Next(e, s, a), rest)
    ensures IsRun(e, s, [a] + rest) && After(e, s, [a] + rest) == After(e, Next(e, s, a), rest)
  {
    assert ([a] + rest)[1..] == rest;
  }

  lemma {:induction false} RunConcat(e: Env, s: State, p: seq<Action>, q: seq<Action>)
    requires IsRun(e, s, p) && IsRun(e, After(e, s, p), q)
    ensures IsRun(e, s, p + q) && After(e, s, p + q) == After(e, After(e, s, p), q)
    decreases |p|
  {
    if p == [] {
      assert p + q == q;
    } else {
      assert (p + q)[1..] == p[1..] + q;
      RunConcat(e, Next(e, s, p[0]), p[1..], q);
    }
  }

  /**
   Whatever happened before, re-running without a crash ends with both sequences equal, no
   journal, and the map derived from the planet at the furthest committed sequence, whatever the
   builder defers.
   */
  lemma Recovers(e: Env, s: State, pruned: set<Id>) returns (run: seq<Action>)
    requires e.Valid() && e.features.Valid() && e.areas.Valid() && Inv(e, s)
    ensures IsRun(e, s, [Crash] + run)
    ensures var r := After(e, s, [Crash] + run);
            && Settled(r) && Inv(e, r)
            && r.w.mapSeq == if s.w.objSeq > s.w.mapSeq then s.w.objSeq else s.w.mapSeq
  {
    Unfold1(e, s, Crash);
    var s1 := Next(e, s, Crash);
    InvStep(e, s, Crash);
    if s1.w.objSeq < s1.w.mapSeq {
      run := [Repair];
      Unfold1(e, s1, Repair);
    } else if s1.w.objSeq > s1.w.mapSeq {
      Unfold1(e, s1, Recover);
      InvStep(e, s1, Recover);
      var rest := FinishBatch(e, Next(e, s1, Recover), pruned);
      RunConcat(e, s1, [Recover], rest);
      run := [Recover] + rest;
    } else if s1.w.journal.Some? {
      run := [ClearStale];
      Unfold1(e, s1, ClearStale);
    } else {
      run := [];
    }
    RunConcat(e, s, [Crash], run);
    RunsAreSafe(e, s, [Crash] + run);
  }

  /** The steps of a restarted run until it is settled: no new batch, no further crash. */
  predicate Restarting(a: Action) {
    !a.Stage? && !a.Crash? && !a.RebuildObjects?
  }

  /** How many steps a restarted run has before it. */
  function Remaining(s: State): nat {
    match s.phase
    case Idle => if s.w.objSeq > s.w.mapSeq then 5 else if s.w.objSeq < s.w.mapSeq || s.w.journal.Some? then 1 else 0
    case Building(_, _) => 4
    case Listed(_, _, _) => 3
    case Merged(_, _) => 2
    case Cleared(_, _) => 1
  }

  function Furthest(w: World): nat { if w.objSeq > w.mapSeq then w.objSeq else w.mapSeq }

  /** Every step of a restart is a step towards its end; it never waits and never turns back. */
  lemma RestartStep(e: Env, s: State, a: Action)
    requires e.Valid() && Inv(e, s) && Enabled(e, s, a) && Restarting(a)
    ensures Remaining(Next(e, s, a)) + 1 == Remaining(s) && Furthest(Next(e, s, a).w) == Furthest(s.w)
  {
  }

  /** Whatever a restarted run does, and whatever the builder defers and writes, it is settled at the
      furthest committed sequence after `Remaining` steps, and it cannot go on for longer. */
  lemma {:induction false} EveryRestartSettles(e: Env, s: State, run: seq<Action>)
    requires e.Valid() && Inv(e, s) && IsRun(e, s, run) && forall i :: 0 <= i < |run| ==> Restarting(run[i])
    ensures |run| <= Remaining(s) && Furthest(After(e, s, run).w) == Furthest(s.w)
    ensures |run| == Remaining(s) ==> Settled(After(e, s, run)) && MapIsDerived(e, After(e, s, run).w)
    decreases |run|
  {
    if run != [] {
      RestartStep(e, s, run[0]);
      InvStep(e, s, run[0]);
      EveryRestartSettles(e, Next(e, s, run[0]), run[1..]);
    }
  }

  /** Two runs that reach the same sequence, crashed or not, hold the same map: the whole route
      graph, and every row of every object that neither run left stale. */
  lemma SameSequenceSameMap(e: Env, a: State, b: State, r: MapRow)
    requires Inv(e, a) && Inv(e, b) && a.w.mapSeq == b.w.mapSeq
    ensures a.w.edges == b.w.edges && a.w.nodes == b.w.nodes
    ensures !Deferred(r.owner, a.w.stale + b.w.stale) ==>
              (r in a.w.features <==> r in b.w.features) && (r in a.w.areas <==> r in b.w.areas)
  {
    var s := e.history(a.w.mapSeq);
    GraphUnique(e.roads, s, a.w.edges, a.w.nodes, b.w.edges, b.w.nodes);
    if !Deferred(r.owner, a.w.stale + b.w.stale) {
      assert FreshAt(e.features, a.w.features, s, r.owner) && FreshAt(e.features, b.w.features, s, r.owner);
      assert FreshAt(e.areas, a.w.areas, s, r.owner) && FreshAt(e.areas, b.w.areas, s, r.owner);
    }
  }

  /** A start state: nothing pending, the object store level with the map or freshly built behind it. */
  ghost predicate Start(e: Env, s: State) {
    && s.phase.Idle? && s.w.objSeq <= s.w.mapSeq && s.w.journal.None?
    && s.w.store == e.history(s.w.objSeq) && MapIsDerived(e, s.w) && s.w.stale == {} && s.w.deferred == {}
  }

  // ---- the deferred-scope file -----------------------------------------------------------

  /** Every stale relation is in the deferred file, so that a consolidation will pick it up. */
  ghost predicate Recorded(s: State) {
    && s.w.stale <= s.w.deferred
    && match s.phase
       case Building(scope, true) => s.w.deferred <= scope.relations
       case Listed(scope, pruned, c) =>
         pruned <= s.w.deferred && (c ==> s.w.deferred <= scope.relations + pruned)
       case Merged(pruned, true) => s.w.stale == pruned
       case Cleared(pruned, true) => s.w.stale == pruned
       case _ => true
  }

  /** The one action that can lose a record: a consolidating batch that itself pruned. */
  ghost predicate LosesRecord(s: State, a: Action) {
    a.DropFile? && s.phase.Cleared? && s.phase.consolidating && s.phase.pruned != {}
  }

  /** A stale relation stays recorded over an action exactly unless the action is that one. */
  lemma RecordedStep(e: Env, s: State, a: Action)
    requires Enabled(e, s, a) && Recorded(s)
    ensures Recorded(Next(e, s, a)) <==> !LosesRecord(s, a)
  {
  }

  /** One batch from a settled state to the next sequence. */
  lemma OneBatch(e: Env, s: State, found: Scope, consolidating: bool, pruned: set<Id>) returns (run: seq<Action>)
    requires e.Valid() && e.features.Valid() && e.areas.Valid() && Inv(e, s) && Settled(s)
    requires IsPrepared(s.w.store, e.diff(s.w.mapSeq, s.w.mapSeq + 1), found) && (consolidating ==> s.w.deferred != {})
    ensures IsRun(e, s, run) && Inv(e, After(e, s, run)) && Settled(After(e, s, run))
    ensures After(e, s, run).w.mapSeq == s.w.mapSeq + 1
    ensures After(e, s, run).w.stale == NextStale(s.w.stale, StagedScope(s.w, found, consolidating), pruned)
    ensures After(e, s, run).w.deferred == if consolidating then {} else s.w.deferred + pruned
    ensures forall r: MapRow :: Deferred(r.owner, pruned) ==> (r in After(e, s, run).w.features <==> r in s.w.features)
  {
    var stage := Stage(s.w.mapSeq + 1, found, consolidating);
    Unfold1(e, s, stage);
    InvStep(e, s, stage);
    var rest := FinishBatch(e, Next(e, s, stage), pruned);
    RunConcat(e, s, [stage], rest);
    run := [stage] + rest;
    RunsAreSafe(e, s, run);
  }

  /** The loss is real, from every settled start: a batch prunes a relation of its scope, the next
      consolidates and prunes it again; the relation still has its rows of the start and is not listed. */
  lemma RecordCanBeLost(e: Env, s: State, first: Scope, second: Scope, id: Id) returns (run: seq<Action>)
    requires e.Valid() && e.features.Valid() && e.areas.Valid() && Start(e, s) && Settled(s) && id in first.relations
    requires IsPrepared(e.history(s.w.mapSeq), e.diff(s.w.mapSeq, s.w.mapSeq + 1), first)
    requires IsPrepared(e.history(s.w.mapSeq + 1), e.diff(s.w.mapSeq + 1, s.w.mapSeq + 2), second)
    ensures IsRun(e, s, run) && Settled(After(e, s, run))
    ensures id in After(e, s, run).w.stale && id !in After(e, s, run).w.deferred
    ensures After(e, s, run).w.mapSeq == s.w.mapSeq + 2
    ensures forall r: MapRow :: r.owner == RelationObj(id) ==> (r in After(e, s, run).w.features <==> r in s.w.features)
  {
    var one := OneBatch(e, s, first, false, {id});
    var two := LosingBatch(e, After(e, s, one), second, id);
    RunConcat(e, s, one, two);
    run := one + two;
  }

  /** A consolidating batch that prunes a listed relation again. */
  lemma LosingBatch(e: Env, s: State, found: Scope, id: Id) returns (run: seq<Action>)
    requires e.Valid() && e.features.Valid() && e.areas.Valid() && Inv(e, s) && Settled(s) && id in s.w.deferred
    requires IsPrepared(s.w.store, e.diff(s.w.mapSeq, s.w.mapSeq + 1), found)
    ensures IsRun(e, s, run) && Settled(After(e, s, run))
    ensures id in After(e, s, run).w.stale && id !in After(e, s, run).w.deferred
    ensures After(e, s, run).w.mapSeq == s.w.mapSeq + 1
    ensures forall r: MapRow :: r.owner == RelationObj(id) ==> (r in After(e, s, run).w.features <==> r in s.w.features)
  {
    run := OneBatch(e, s, found, true, {id});
  }

  ghost predicate NeverLoses(e: Env, s: State, run: seq<Action>)
    requires IsRun(e, s, run)
    decreases |run|
  {
    run == [] || (!LosesRecord(s, run[0]) && NeverLoses(e, Next(e, s, run[0]), run[1..]))
  }

  lemma {:induction false} RecordedRuns(e: Env, s: State, run: seq<Action>)
    requires IsRun(e, s, run) && Recorded(s) && NeverLoses(e, s, run)
    ensures Recorded(After(e, s, run))
    decreases |run|
  {
    if run != [] {
      RecordedStep(e, s, run[0]);
      RecordedRuns(e, Next(e, s, run[0]), run[1..]);
    }
  }

  /** The updater over whole runs, from any start state: safety, derivation and recording. */
  lemma UpdaterTheorem(e: Env, s: State, run: seq<Action>)
    requires e.Valid() && Start(e, s) && IsRun(e, s, run)
    ensures !BadExit(After(e, s, run).w)
    ensures MapIsDerived(e, After(e, s, run).w)
    ensures NeverLoses(e, s, run) ==> After(e, s, run).w.stale <= After(e, s, run).w.deferred
  {
    RunsAreSafe(e, s, run);
    if NeverLoses(e, s, run) {
      RecordedRuns(e, s, run);
    }
  }
}
