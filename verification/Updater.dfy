/**
 `_update_locked` as the code runs it: one process holding the lock, deciding from the two
 sequences and the journal, committing step by step, and possibly dying before any commit.
 */
module Updater {
  import opened Wrappers
  import opened OsmObjects
  import opened DependencyScope
  import opened Invalidation
  import opened RouteGraph
  import opened FullBuild
  import opened MapMerge
  import opened TwoStoreUpdate

  datatype Exit =
    | Updated | Recovered | Current
    | Crashed | ClosureTooDeep
    | JournalMissing | JournalMismatch | StaleJournal | Unreconcilable
  {
    predicate Inconsistent() { JournalMissing? || JournalMismatch? || StaleJournal? || Unreconcilable? }
    predicate Finished() { Updated? || Recovered? || Current? }
  }

  /** The batch takes the deferred relations in, and removes their file at its end. */
  predicate Consolidates(w: World, due: bool) {
    due && w.deferred != {}
  }

  /** The change to `target` has a closure that is too deep. */
  ghost predicate TooDeepFor(e: Env, w: World, target: nat) {
    Unpreparable(e.history(w.mapSeq), e.diff(w.mapSeq, target))
  }

  /** The commits of a batch from level stores to `target`. */
  ghost function BatchCommits(e: Env, w: World, target: nat, due: bool): nat {
    if TooDeepFor(e, w, target) then 0 else if Consolidates(w, due) then 5 else 4
  }

  /** The commits of a whole run. */
  ghost function Commits(e: Env, w: World, target: nat, due: bool): nat {
    if w.objSeq > w.mapSeq then 3
    else (if w.objSeq < w.mapSeq || w.journal.Some? then 1 else 0)
         + if target == w.mapSeq then 0 else BatchCommits(e, w, target, due)
  }

  /** How a run that lives to its end ends. */
  ghost function LivingExit(e: Env, w: World, target: nat): Exit {
    if w.objSeq > w.mapSeq then Recovered
    else if target == w.mapSeq then Current
    else if TooDeepFor(e, w, target) then ClosureTooDeep
    else Updated
  }

  datatype Staging = Staged(scope: Scope, consolidating: bool) | TooDeep | Died

  class UpdateProcess {
    var w: World
    /** How many more commits this process lives to make. */
    var life: nat

    constructor (w: World, life: nat)
      ensures this.w == w && this.life == life
    {
      this.w, this.life := w, life;
    }

    /** What a crash here would leave for the next run. */
    ghost predicate Safe(e: Env)
      reads this
    {
      Inv(e, State(w, Idle))
    }

    /** `_build_and_merge_direct`, after the object store was committed at the journal's target. */
    method BuildAndMerge(e: Env, scope: Scope, pruned: set<Id>) returns (done: bool)
      requires e.Valid() && e.features.Valid() && e.areas.Valid()
      requires Inv(e, State(w, Building(scope, false)))
      modifies this
      ensures Safe(e)
      ensures done ==> w.objSeq == w.mapSeq == old(w.objSeq) && w.journal.None?
      ensures !done <==> old(life) < 3
      ensures done ==> life == old(life) - 3
      ensures old(w.stale <= w.deferred) ==> w.stale <= w.deferred
      ensures w.deferred == old(w.deferred) || w.deferred == old(w.deferred) + pruned
      ensures done ==> w.deferred == old(w.deferred) + pruned && w.stale == NextStale(old(w.stale), scope, pruned)
    {
      ghost var s0 := State(w, Building(scope, false));
      if life == 0 {
        return false;
      }
      life := life - 1;
      w := w.(deferred := w.deferred + pruned);
      ghost var s1 := Next(e, s0, Defer(pruned));
      InvStep(e, s0, Defer(pruned));
      var small := Pruned(scope, pruned);
      var delta := BuiltDelta(e, w.store, small);
      BuiltDeltaOk(e, w.store, small);
      if life == 0 {
        return false;
      }
      life := life - 1;
      InvStep(e, s1, delta);
      // the map transaction; MapDatabase shows the statements behind it
      w := w.(mapSeq := w.objSeq,
              features := MergedRows(w.features, small, delta.features),
              areas := MergedRows(w.areas, small, delta.areas),
              edges := MergedEdges(w.edges, scope.ways, delta.route),
              nodes := MergedNodes(w.edges, w.nodes, scope.ways, delta.route),
              stale := NextStale(w.stale, scope, pruned));
      assert State(w, Merged(pruned, false)) == Next(e, s1, delta);
      if life == 0 {
        return false;
      }
      life := life - 1;
      w := w.(journal := None);
      return true;
    }

    /** `repair_dependency_database`: bring a freshly built object store up to the map. */
    method RepairObjects(e: Env)
      requires e.Valid() && Safe(e) && w.objSeq < w.mapSeq && life > 0
      modifies this
      ensures Safe(e) && life == old(life) - 1
      ensures w.objSeq == w.mapSeq == old(w.mapSeq) && w.journal.None?
      ensures w.deferred == old(w.deferred) && w.stale == old(w.stale)
    {
      InvStep(e, State(w, Idle), Repair);
      var db := new ObjectDatabase(w.store);
      db.ApplyDependencyChanges(e.diff(w.objSeq, w.mapSeq));
      w := w.(store := Store(db.nodes, db.ways, db.wayNodes, db.relations, db.relationMembers),
              objSeq := w.mapSeq, journal := None);
      life := life - 1;
    }

    /**
     One run.  `target` is the newest sequence the downloader or the checkpoint offers, `due`
     whether a consolidation is due, `pruned` what the builder reports deferred or incomplete.
     Wherever the process dies the persistent state stays recoverable; no inconsistency exit is
     taken; a run that lives to its end leaves both stores at the same sequence, the journal gone.
     The exit is determined: the run dies exactly if it lives for fewer commits than it has to make,
     and otherwise recovers a pending batch, finds nothing to do, or runs the new batch.
     A stale relation stays listed in the deferred file exactly unless the run ends with a
     consolidating batch that itself pruned.
     */
    method UpdateLocked(e: Env, target: nat, due: bool, pruned: set<Id>) returns (exit: Exit)
      requires e.Valid() && e.features.Valid() && e.areas.Valid()
      requires Safe(e) && w.mapSeq <= target
      modifies this
      ensures Safe(e)
      ensures !exit.Inconsistent()
      ensures exit.Finished() ==> w.objSeq == w.mapSeq && w.journal.None?
      ensures exit.Updated? ==> w.mapSeq == target
      ensures exit.Recovered? ==> w.mapSeq == old(w.objSeq)
      ensures exit.Current? ==> w.mapSeq == old(w.mapSeq)
      ensures exit.Recovered? ==> old(w.objSeq > w.mapSeq)
      ensures
        && old(life) >= 6 && old(w.objSeq) <= old(w.mapSeq) < target
        && !Unpreparable(e.history(old(w.mapSeq)), e.diff(old(w.mapSeq), target))
        ==> exit.Updated?
      ensures exit.Crashed? <==> old(life) < Commits(e, old(w), target, due)
      ensures !exit.Crashed? ==> exit == LivingExit(e, old(w), target)
      ensures exit.Updated? ==> w.deferred == if Consolidates(old(w), due) then {} else old(w.deferred) + pruned
      ensures old(w.stale <= w.deferred) ==> (w.stale <= w.deferred <==>
        !(exit.Updated? && Consolidates(old(w), due) && pruned != {}))
      ensures old(w.stale <= w.deferred) && exit.Updated? && Consolidates(old(w), due) ==> w.stale == pruned
    {
      if w.objSeq < w.mapSeq {
        if life == 0 {
          return Crashed;
        }
        RepairObjects(e);
      }
      if w.objSeq > w.mapSeq {
        exit := RecoverBatch(e, pruned);
        return;
      }
      if w.objSeq != w.mapSeq {
        return Unreconcilable;
      }
      exit := UpdateLevel(e, target, due, pruned);
    }

    /** The stores are level: drop a stale journal, and run a new batch if there is one. */
    method UpdateLevel(e: Env, target: nat, due: bool, pruned: set<Id>) returns (exit: Exit)
      requires e.Valid() && e.features.Valid() && e.areas.Valid()
      requires Safe(e) && w.objSeq == w.mapSeq <= target
      modifies this
      ensures Safe(e)
      ensures exit.Finished() ==> w.objSeq == w.mapSeq == target && w.journal.None?
      ensures exit.Crashed? <==> old(life) < Commits(e, old(w), target, due)
      ensures !exit.Crashed? ==> exit == LivingExit(e, old(w), target)
      ensures exit.Updated? ==> w.deferred == if Consolidates(old(w), due) then {} else old(w.deferred) + pruned
      ensures old(w.stale <= w.deferred) ==> (w.stale <= w.deferred <==>
        !(exit.Updated? && Consolidates(old(w), due) && pruned != {}))
      ensures old(w.stale <= w.deferred) && exit.Updated? && Consolidates(old(w), due) ==> w.stale == pruned
    {
      if w.journal.Some? {
        if w.journal.value.target != w.mapSeq || w.journal.value.base > w.journal.value.target {
          return StaleJournal;
        }
        if life == 0 {
          return Crashed;
        }
        life := life - 1;
        w := w.(journal := None);
      }
      if target == w.mapSeq {
        return Current;
      }
      exit := NewBatch(e, target, due, pruned);
    }

    /** The object store is ahead of the map: finish the batch of the journal. */
    method RecoverBatch(e: Env, pruned: set<Id>) returns (exit: Exit)
      requires e.Valid() && e.features.Valid() && e.areas.Valid()
      requires Safe(e) && w.objSeq > w.mapSeq
      modifies this
      ensures Safe(e) && (exit.Recovered? || exit.Crashed?)
      ensures exit.Recovered? ==> w.objSeq == w.mapSeq == old(w.objSeq) && w.journal.None?
      ensures exit.Crashed? <==> old(life) < 3
      ensures old(w.stale <= w.deferred) ==> w.stale <= w.deferred
    {
      if w.journal.None? {
        return JournalMissing;
      }
      var j := w.journal.value;
      if j.base != w.mapSeq || j.target != w.objSeq {
        return JournalMismatch;
      }
      InvStep(e, State(w, Idle), Recover);
      var done := BuildAndMerge(e, j.scope, pruned);
      exit := if done then Recovered else Crashed;
    }

    /** Prepare the object store for `target` and commit it with the journal, unless a closure is too
        deep. */
    method StageBatch(e: Env, target: nat, due: bool) returns (r: Staging)
      requires e.Valid() && Safe(e) && w.objSeq == w.mapSeq < target && w.journal.None?
      modifies this
      ensures r.TooDeep? <==> TooDeepFor(e, old(w), target)
      ensures r.Died? <==> !TooDeepFor(e, old(w), target) && old(life) == 0
      ensures !r.Staged? ==> w == old(w) && life == old(life)
      ensures r.Staged? ==> life == old(life) - 1 && Inv(e, State(w, Building(r.scope, false)))
      ensures r.Staged? ==> w.objSeq == target && w.mapSeq == old(w.mapSeq)
      ensures r.Staged? ==> w.deferred == old(w.deferred) && w.stale == old(w.stale)
      ensures r.Staged? ==> r.consolidating == Consolidates(old(w), due)
      ensures r.Staged? && r.consolidating ==> w.deferred <= r.scope.relations
    {
      var db := new ObjectDatabase(w.store);
      var found := PrepareUpdate(db, e.diff(w.mapSeq, target));
      if found.None? {
        return TooDeep;
      }
      if life == 0 {
        return Died;
      }
      life := life - 1;
      var consolidating := Consolidates(w, due);
      var scope := StagedScope(w, found.value, consolidating);
      InvStep(e, State(w, Idle), Stage(target, found.value, consolidating));
      w := w.(store := Store(db.nodes, db.ways, db.wayNodes, db.relations, db.relationMembers), objSeq := target,
              journal := Some(Journal(w.mapSeq, target, scope)));
      r := Staged(scope, consolidating);
    }

    /** A fresh batch: prepare, stage, build and merge, and drop the file of a consolidation. */
    method NewBatch(e: Env, target: nat, due: bool, pruned: set<Id>) returns (exit: Exit)
      requires e.Valid() && e.features.Valid() && e.areas.Valid()
      requires Safe(e) && w.objSeq == w.mapSeq < target && w.journal.None?
      modifies this
      ensures Safe(e)
      ensures exit.Updated? || exit.Crashed? || exit.ClosureTooDeep?
      ensures exit.ClosureTooDeep? <==> TooDeepFor(e, old(w), target)
      ensures exit.Updated? ==> w.objSeq == w.mapSeq == target && w.journal.None?
      ensures exit.Crashed? <==> old(life) < BatchCommits(e, old(w), target, due)
      ensures exit.Updated? ==> w.deferred == if Consolidates(old(w), due) then {} else old(w.deferred) + pruned
      ensures old(w.stale <= w.deferred) ==> (w.stale <= w.deferred <==>
        !(exit.Updated? && Consolidates(old(w), due) && pruned != {}))
      ensures old(w.stale <= w.deferred) && exit.Updated? && Consolidates(old(w), due) ==> w.stale == pruned
    {
      var staged := StageBatch(e, target, due);
      if !staged.Staged? {
        return if staged.TooDeep? then ClosureTooDeep else Crashed;
      }
      var consolidating := staged.consolidating;
      var done := BuildAndMerge(e, staged.scope, pruned);
      if !done {
        return Crashed;
      }
      if consolidating {
        if life == 0 {
          return Crashed;
        }
        life := life - 1;
        w := w.(deferred := {});
      }
      exit := Updated;
    }
  }
}
