/**
 The affected-object closure of `dependency_scope`: a bounded breadth-first loop over the
 membership tables, its exact meaning, and exactly when its 32-level cap is hit.
 */
module DependencyScope {
  import opened Wrappers
  import opened OsmObjects

  const MAX_LEVELS: nat := 32

  /** Ways that use one of the given nodes (the `way_nodes_node` join). */
  function WaysUsing(s: Store, nodes: set<Id>): set<Id> {
    set w | w in s.wayNodes && exists n :: n in nodes && n in s.wayNodes[w]
  }

  function Children(s: Store, relation: Id): set<Obj> {
    if relation in s.relationMembers then set m | m in s.relationMembers[relation] :: m.child else {}
  }

  predicate IsMember(s: Store, child: Obj, parent: Obj) {
    parent.RelationObj? && child in Children(s, parent.id)
  }

  /** Relations with a member among `objects` (the `relation_members_child` join). */
  function Parents(s: Store, objects: set<Obj>): set<Obj> {
    set r | r in s.relationMembers && exists c :: c in objects && IsMember(s, c, RelationObj(r)) :: RelationObj(r)
  }

  /** The objects the loop starts from: direct changes and ways using a direct node. */
  function Base(s: Store, direct: Scope): set<Obj> {
    direct.Objects() + set w | w in WaysUsing(s, direct.nodes) :: WayObj(w)
  }

  /** A chain of memberships from a base object up to `chain`'s last relation. */
  ghost predicate IsChain(s: Store, direct: Scope, chain: seq<Obj>) {
    && chain != []
    && chain[0] in Base(s, direct)
    && forall i :: 1 <= i < |chain| ==> IsMember(s, chain[i - 1], chain[i])
  }

  ghost predicate ChainTo(s: Store, direct: Scope, chain: seq<Obj>, o: Obj) {
    IsChain(s, direct, chain) && chain[|chain| - 1] == o
  }

  /** The specification: `o` is reached from a base object through memberships, at any depth. */
  ghost predicate Affected(s: Store, direct: Scope, o: Obj) {
    exists chain :: ChainTo(s, direct, chain, o)
  }

  /** `o` is reached, and its shortest chain has at least `levels` membership links. */
  ghost predicate AtLeastLevels(s: Store, direct: Scope, o: Obj, levels: nat) {
    Affected(s, direct, o) && forall chain :: ChainTo(s, direct, chain, o) ==> |chain| > levels
  }

  /** Some object's shortest chain is as long as the closure loop has rounds. */
  ghost predicate TooDeep(s: Store, direct: Scope) {
    exists o :: AtLeastLevels(s, direct, o, MAX_LEVELS)
  }

  /** A set closed under "is a member of". */
  ghost predicate UpwardClosed(s: Store, objects: set<Obj>) {
    forall c, p :: c in objects && IsMember(s, c, p) ==> p in objects
  }

  // ---- the level sets the loop computes -------------------------------------------------

  ghost function Reach(s: Store, base: set<Obj>, k: nat): set<Obj> {
    if k == 0 then base
    else Reach(s, base, k - 1) + Parents(s, Reach(s, base, k - 1))
  }

  lemma {:induction false} ChainIsReached(s: Store, direct: Scope, chain: seq<Obj>, k: nat)
    requires IsChain(s, direct, chain) && |chain| <= k + 1
    ensures chain[|chain| - 1] in Reach(s, Base(s, direct), k)
  {
    if k == 0 {
    } else if |chain| == 1 {
      ChainIsReached(s, direct, chain, k - 1);
    } else {
      var shorter := chain[..|chain| - 1];
      ChainIsReached(s, direct, shorter, k - 1);
      assert IsMember(s, chain[|chain| - 2], chain[|chain| - 1]);
      assert shorter[|shorter| - 1] == chain[|chain| - 2];
    }
  }

  lemma {:induction false} ReachedHasChain(s: Store, direct: Scope, o: Obj, k: nat) returns (chain: seq<Obj>)
    requires o in Reach(s, Base(s, direct), k)
    ensures ChainTo(s, direct, chain, o) && |chain| <= k + 1
    decreases k
  {
    if k == 0 {
      chain := [o];
    } else if o in Reach(s, Base(s, direct), k - 1) {
      chain := ReachedHasChain(s, direct, o, k - 1);
    } else {
      var c :| c in Reach(s, Base(s, direct), k - 1) && IsMember(s, c, o);
      var below := ReachedHasChain(s, direct, c, k - 1);
      chain := below + [o];
    }
  }

  /** A round that adds nothing ends the growth for good. */
  lemma {:induction false} StableReach(s: Store, base: set<Obj>, k: nat, n: nat)
    requires Reach(s, base, k) == Reach(s, base, k + 1)
    ensures Reach(s, base, k + n) == Reach(s, base, k)
  {
    if n > 0 {
      StableReach(s, base, k, n - 1);
      ReachNext(s, base, k);
      ReachNext(s, base, k + n - 1);
    }
  }

  lemma ReachNext(s: Store, base: set<Obj>, k: nat)
    ensures Reach(s, base, k + 1) == Reach(s, base, k) + Parents(s, Reach(s, base, k))
  {
  }

  lemma {:induction false} ReachGrows(s: Store, base: set<Obj>, k: nat, n: nat)
    ensures Reach(s, base, k) <= Reach(s, base, k + n)
  {
    if n > 0 {
      ReachGrows(s, base, k, n - 1);
    }
  }

  /** Once stable, the level set is exactly the specification. */
  lemma StableIsAffected(s: Store, direct: Scope, k: nat)
    requires Reach(s, Base(s, direct), k) == Reach(s, Base(s, direct), k + 1)
    ensures forall o :: o in Reach(s, Base(s, direct), k) <==> Affected(s, direct, o)
  {
    forall o
      ensures o in Reach(s, Base(s, direct), k) <==> Affected(s, direct, o)
    {
      if o in Reach(s, Base(s, direct), k) {
        var chain := ReachedHasChain(s, direct, o, k);
      }
      if Affected(s, direct, o) {
        var chain :| ChainTo(s, direct, chain, o);
        ChainIsReached(s, direct, chain, |chain|);
        if |chain| <= k {
          ReachGrows(s, Base(s, direct), |chain|, k - |chain|);
        } else {
          StableReach(s, Base(s, direct), k, |chain| - k);
        }
      }
    }
  }

  /** An object first reached in round `k` has no shorter chain. */
  lemma FirstReached(s: Store, direct: Scope, o: Obj, k: nat)
    requires k > 0 && o in Reach(s, Base(s, direct), k) && o !in Reach(s, Base(s, direct), k - 1)
    ensures AtLeastLevels(s, direct, o, k)
  {
    var chain := ReachedHasChain(s, direct, o, k);
    forall c | ChainTo(s, direct, c, o)
      ensures |c| > k
    {
      if |c| <= k {
        ChainIsReached(s, direct, c, k - 1);
      }
    }
  }

  /** Closedness of the specification itself, whatever the store. */
  lemma AffectedStep(s: Store, direct: Scope, c: Obj, p: Obj)
    requires Affected(s, direct, c) && IsMember(s, c, p)
    ensures Affected(s, direct, p)
  {
    var chain :| ChainTo(s, direct, chain, c);
    assert ChainTo(s, direct, chain + [p], p);
  }

  lemma BaseAffected(s: Store, direct: Scope, o: Obj)
    requires o in Base(s, direct)
    ensures Affected(s, direct, o)
  {
    assert ChainTo(s, direct, [o], o);
  }

  /** The specification is the least upward-closed set containing the base. */
  lemma AffectedIsLeast(s: Store, direct: Scope, objects: set<Obj>, o: Obj)
    requires Base(s, direct) <= objects && UpwardClosed(s, objects)
    requires Affected(s, direct, o)
    ensures o in objects
  {
    var chain :| ChainTo(s, direct, chain, o);
    ChainInside(s, direct, objects, chain);
  }

  lemma {:induction false} ChainInside(s: Store, direct: Scope, objects: set<Obj>, chain: seq<Obj>)
    requires Base(s, direct) <= objects && UpwardClosed(s, objects)
    requires IsChain(s, direct, chain)
    ensures chain[|chain| - 1] in objects
    decreases |chain|
  {
    if |chain| > 1 {
      ChainInside(s, direct, objects, chain[..|chain| - 1]);
      assert IsMember(s, chain[|chain| - 2], chain[|chain| - 1]);
    }
  }

  /** Split the temporary table by object type, as the final `SELECT` loop does. */
  function ScopeOf(objects: set<Obj>): (r: Scope)
    ensures forall o :: r.Has(o) <==> o in objects
  {
    Scope(set o | o in objects && o.NodeObj? :: o.id,
          set o | o in objects && o.WayObj? :: o.id,
          set o | o in objects && o.RelationObj? :: o.id)
  }

  /** Round `k + 1` adds something. */
  ghost predicate Grows(s: Store, base: set<Obj>, k: nat) {
    !(Parents(s, Reach(s, base, k)) <= Reach(s, base, k))
  }

  lemma ReachStep(s: Store, base: set<Obj>, k: nat)
    ensures !Grows(s, base, k) <==> Reach(s, base, k) == Reach(s, base, k + 1)
  {
    ReachNext(s, base, k);
  }

  /** Growth in round `k` means somebody's shortest chain has `k` links. */
  lemma CapReached(s: Store, direct: Scope, k: nat)
    requires k > 0 && Grows(s, Base(s, direct), k - 1)
    ensures exists o :: AtLeastLevels(s, direct, o, k)
  {
    var o :| o in Parents(s, Reach(s, Base(s, direct), k - 1)) && o !in Reach(s, Base(s, direct), k - 1);
    FirstReached(s, direct, o, k);
  }

  /** If the growth stops before round `k`, nobody's shortest chain has `k` links. */
  lemma CapNotReached(s: Store, direct: Scope, depth: nat, k: nat)
    requires depth < k && !Grows(s, Base(s, direct), depth)
    ensures forall o :: !AtLeastLevels(s, direct, o, k)
  {
    ReachStep(s, Base(s, direct), depth);
    StableIsAffected(s, direct, depth);
    forall o
      ensures !AtLeastLevels(s, direct, o, k)
    {
      if Affected(s, direct, o) {
        var chain := ReachedHasChain(s, direct, o, depth);
      }
    }
  }

  /** `INSERT OR IGNORE` and the `changes()` counter. */
  method InsertOrIgnore(table: set<Obj>, rows: set<Obj>) returns (now: set<Obj>, added: nat)
    ensures now == table + rows
    ensures added == 0 <==> rows <= table
  {
    now := table + rows;
    var news := rows - table;
    added := |news|;
    assert added == 0 ==> news == {};
    assert forall x :: x in news <==> x in rows && x !in table;
  }

  /** The rounds: one SQL insert per level until a round adds nothing or the cap is hit. */
  method Rounds(s: Store, base: set<Obj>, cap: nat) returns (affected: set<Obj>, depth: nat, stable: bool)
    requires cap > 0
    ensures stable ==> depth < cap && affected == Reach(s, base, depth) && !Grows(s, base, depth)
    ensures !stable ==> Grows(s, base, cap - 1)
  {
    affected := base;
    depth := 0;
    while depth < cap
      invariant depth <= cap
      invariant affected == Reach(s, base, depth)
      invariant depth > 0 ==> Grows(s, base, depth - 1)
    {
      var found := Parents(s, affected);
      var now, added := InsertOrIgnore(affected, found);
      if added == 0 {
        return affected, depth, true;
      }
      affected := now;
      depth := depth + 1;
    }
    stable := false;
  }

  /**
   The closure.  `None` is the "exceeded 32 levels" exit: it is taken exactly when some
   affected relation's shortest membership chain has at least 32 links; otherwise the result
   is exactly the affected objects, cycles in the relation graph included.
   */
  method ComputeScope(s: Store, direct: Scope) returns (r: Option<Scope>)
    ensures r.Some? ==> forall o :: r.value.Has(o) <==> Affected(s, direct, o)
    ensures r.None? <==> TooDeep(s, direct)
  {
    var affected, depth, stable := Rounds(s, Base(s, direct), MAX_LEVELS);
    if stable {
      ReachStep(s, Base(s, direct), depth);
      StableIsAffected(s, direct, depth);
      CapNotReached(s, direct, depth, MAX_LEVELS);
      r := Some(ScopeOf(affected));
    } else {
      CapReached(s, direct, MAX_LEVELS);
      r := None;
    }
  }
}
