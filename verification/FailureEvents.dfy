/**
 Polling one GitLab source for failed pipelines: the first poll is the baseline, later polls report
 each new failure once, even though stored events are cleaned up and snapshots may fail.
 */
module FailureEvents {

  /** What happens to a failed pipeline that is looked at: preparing the snapshot fails, the pipeline
      is somebody else's, or a snapshot is made. */
  datatype Look = SnapshotFailed | NotEligible | Snapshot

  datatype Candidate = Candidate(id: string, look: Look)

  function Ids(cs: seq<Candidate>): set<string> {
    set k | 0 <= k < |cs| :: cs[k].id
  }

  /** The ids that a poll settles: some look at them did not fail. */
  function SettledIds(cs: seq<Candidate>): set<string> {
    set k | 0 <= k < |cs| && !cs[k].look.SnapshotFailed? :: cs[k].id
  }

  ghost predicate NoDuplicates(ids: seq<string>) {
    forall i, j :: 0 <= i < j < |ids| ==> ids[i] != ids[j]
  }

  /** The first look at `cs[k].id` that did not fail is the one at `k`. */
  ghost predicate Decides(cs: seq<Candidate>, k: nat) {
    && k < |cs| && !cs[k].look.SnapshotFailed?
    && forall j :: 0 <= j < k && cs[j].id == cs[k].id ==> cs[j].look.SnapshotFailed?
  }

  /** The ids that a poll must report: new ones whose deciding look made a snapshot. */
  ghost predicate MustReport(cs: seq<Candidate>, observed: set<string>, events: set<string>, id: string) {
    id !in observed && id !in events && exists k: nat :: Decides(cs, k) && cs[k].id == id && cs[k].look.Snapshot?
  }

  class Source {
    var initialized: bool
    /** Ids that never have to be looked at again. */
    var observed: set<string>
    /** Ids of the stored events, of this source and of others. */
    var events: set<string>
    /** Everything ever reported, and the ids of the first poll. */
    ghost var reported: seq<string>
    ghost var baseline: set<string>

    constructor (events: set<string>)
      ensures Valid() && !initialized && reported == [] && this.events == events
    {
      initialized, observed, this.events := false, {}, events;
      reported, baseline := [], {};
    }

    /** No id is reported twice, no baseline id ever, and what was reported is remembered. */
    ghost predicate Valid() reads this {
      && NoDuplicates(reported)
      && (forall i :: 0 <= i < |reported| ==> reported[i] in observed && reported[i] !in baseline)
      && baseline <= observed
      && (!initialized ==> reported == [] && observed == {})
    }

    /** `add_failure_event` */
    method AddFailureEvent(id: string) returns (created: bool)
      modifies this`observed, this`events
      ensures created <==> id !in old(events)
      ensures observed == old(observed) + {id} && events == old(events) + {id}
    {
      created := id !in events;
      events, observed := events + {id}, observed + {id};
    }

    /** `_cleanup_events`: events expire, observed ids do not. */
    method CleanUp(expired: set<string>)
      requires Valid()
      modifies this`events
      ensures Valid() && events == old(events) - expired
    {
      events := events - expired;
    }

    /**
     `poll_failure_events`.  The first poll reports nothing and makes the baseline.  A later one
     reports exactly the new ids whose first look without failure made a snapshot; an id whose looks
     all failed stays eligible, and only such ids do.
     */
    method Poll(cs: seq<Candidate>) returns (created: seq<string>)
      requires Valid()
      modifies this
      ensures Valid() && initialized && reported == old(reported) + created && NoDuplicates(created)
      ensures !old(initialized) ==> created == [] && baseline == Ids(cs) == observed && events == old(events)
      ensures old(initialized) ==> baseline == old(baseline) && observed == old(observed) + SettledIds(cs)
      ensures old(initialized) ==> forall id :: id in created <==> MustReport(cs, old(observed), old(events), id)
    {
      if !initialized {
        initialized, observed, baseline := true, Ids(cs), Ids(cs);
        return [];
      }
      created := [];
      assert forall k: nat :: !Decides(cs[..0], k);
      for k := 0 to |cs|
        invariant Valid() && initialized && baseline == old(baseline)
        invariant reported == old(reported) + created
        invariant observed == old(observed) + SettledIds(cs[..k])
        invariant old(events) <= events
        invariant forall id :: id in events && id !in old(events) ==> id in SettledIds(cs[..k])
        invariant forall id :: id in created <==> MustReport(cs[..k], old(observed), old(events), id)
      {
        var c := cs[k];
        MustReportOne(cs, k, old(observed), old(events));
        SettledOne(cs, k);
        if c.id !in observed {
          if c.look.NotEligible? {
            observed := observed + {c.id};
          } else if c.look.Snapshot? {
            var isNew := AddFailureEvent(c.id);
            if isNew {
              created, reported := created + [c.id], reported + [c.id];
            }
          }
        }
      }
      assert cs[..|cs|] == cs;
      assert forall i :: 0 <= i < |created| ==> created[i] == reported[|old(reported)| + i];
    }
  }

  datatype Op = PollWith(cs: seq<Candidate>) | Expire(ids: set<string>)

  /** Any sequence of polls and clean-ups, from a new source on: nothing is reported twice, nothing of
      the baseline ever. */
  method Serve(s: Source, ops: seq<Op>)
    requires s.Valid()
    modifies s

         ensures s.Valid() && (old(s.initialized) ==>
           s.initialized && s.baseline == old(s.baseline)) && old(s.reported) <= s.reported && NoDuplicates(s.reported)
    ensures forall i :: 0 <= i < |s.reported| ==> s.reported[i] !in s.baseline
  {
    for k := 0 to |ops|
      invariant s.Valid() && (old(s.initialized) ==>
        s.initialized && s.baseline == old(s.baseline)) && old(s.reported) <= s.reported
    {
      match ops[k]
      case PollWith(cs) => var created := s.Poll(cs);
      case Expire(ids) => s.CleanUp(ids);
    }
  }

  lemma SettledOne(cs: seq<Candidate>, k: nat)
    requires k < |cs|
    ensures SettledIds(cs[..k + 1]) == SettledIds(cs[..k]) + if cs[k].look.SnapshotFailed? then {} else {cs[k].id}
  {
    assert cs[..k + 1] == cs[..k] + [cs[k]];
  }

  /** One more look changes what must be reported only if it is the deciding one. */
  lemma MustReportOne(cs: seq<Candidate>, k: nat, observed: set<string>, events: set<string>)
    requires k < |cs|
    ensures forall id :: MustReport(cs[..k + 1], observed, events, id) <==>
              MustReport(cs[..k], observed, events, id)
              || (id == cs[k].id && id !in observed && id !in events && id !in SettledIds(cs[..k])
                  && cs[k].look.Snapshot?)
  {
    var more, less := cs[..k + 1], cs[..k];
    assert forall j :: 0 <= j < k ==> more[j] == less[j];
    forall j: nat | j < k
      ensures Decides(more, j) <==> Decides(less, j)
    {
    }
    assert Decides(more, k) <==> !cs[k].look.SnapshotFailed? && cs[k].id !in SettledIds(less);
    forall id
      ensures MustReport(more, observed, events, id) <==>
              MustReport(less, observed, events, id)
              || (id == cs[k].id && id !in observed && id !in events && id !in SettledIds(less) && cs[k].look.Snapshot?)
    {
      if MustReport(more, observed, events, id) {
        var j: nat :| Decides(more, j) && more[j].id == id && more[j].look.Snapshot?;
        assert j < k ==> Decides(less, j);
      }
      if MustReport(less, observed, events, id) {
        var j: nat :| Decides(less, j) && less[j].id == id && less[j].look.Snapshot?;
        assert Decides(more, j);
      }
    }
  }
}
