/**
 Jira comments: claim a key, look for the operation's marker, send one POST, record the outcome.
 Callers of any number of processes interleave, processes crash, a POST without an answer may land
 later, and other people may write comments (even ones that quote a marker).
 */
module CommentActions {
  import opened Wrappers

  datatype Request = Request(issue: string, body: string)

  /** A comment that carries the marker of `key`. */
  datatype Comment = Comment(issue: string, key: string, id: string)

  datatype Outcome = Accepted(id: string) | Refused | NoAnswer

  datatype State = Pending | Succeeded(id: string) | Failed | OutcomeUnknown

  datatype Row = Row(request: Request, state: State)

  datatype Pc =
    | Starting
    | Looking(created: bool)
    | Found(id: string)
    | Sending
    | Posted(outcome: Outcome)
    | Reported(id: string)
    | Unknown
    | Errored
  {
    /** The caller created the row and its POST is not over. */
    predicate Owns() { (Looking? && created) || Sending? || Posted? }

    predicate Active() { Starting? || Looking? || Found? || Sending? || Posted? }
  }

  datatype Caller = Caller(key: string, request: Request, pc: Pc)

  datatype Post = Post(key: string, request: Request, outcome: Outcome)

  datatype World = World(rows: map<string, Row>, callers: map<nat, Caller>, posts: seq<Post>, comments: set<Comment>)

  datatype Action =
    | Begin(c: nat, key: string, request: Request)
    | Claim(c: nat)
    | Look(c: nat, found: Option<Comment>)
    | Abandon(c: nat)
    | Send(c: nat, outcome: Outcome)
    | Record(c: nat)
    | Written(comment: Comment)
    | Crash(lost: set<nat>)

  predicate Marks(m: Comment, x: Caller) {
    m.issue == x.request.issue && m.key == x.key && m.id != ""
  }

  predicate Enabled(w: World, a: Action) {
    match a
    case Begin(c, _, _) => c !in w.callers
    case Claim(c) => c in w.callers && w.callers[c].pc.Starting?
    case Look(c, found) =>
      && c in w.callers && w.callers[c].pc.Looking?
      && (found.Some? ==> found.value in w.comments && Marks(found.value, w.callers[c]))
    case Abandon(c) => c in w.callers && w.callers[c].pc.Active()
    case Send(c, _) => c in w.callers && w.callers[c].pc.Sending?
    case Record(c) =>
      c in w.callers && (w.callers[c].pc.Posted? || w.callers[c].pc.Found?) && w.callers[c].key in w.rows
    case Written(_) => true
    case Crash(_) => true
  }

  function Goto(w: World, c: nat, pc: Pc): World
    requires c in w.callers
  {
    w.(callers := w.callers[c := w.callers[c].(pc := pc)])
  }

  function Recorded(pc: Pc): State
    requires pc.Posted? || pc.Found?
  {
    if pc.Found? then Succeeded(pc.id)
    else match pc.outcome
         case Accepted(id) => Succeeded(id)
         case Refused => Failed
         case NoAnswer => OutcomeUnknown
  }

  function Reply(state: State): Pc {
    match state
    case Succeeded(id) => Reported(id)
    case OutcomeUnknown => Unknown
    case Failed => Errored
    case Pending => Unknown
  }

  /** What a caller does about a key that is taken. */
  function Taken(row: Row, request: Request): Pc {
    if row.request != request then Errored
    else if row.state.Succeeded? then Reported(row.state.id)
    else Looking(false)
  }

  /** A POST that Jira accepts leaves a comment with the marker. */
  function Landed(x: Caller, outcome: Outcome): set<Comment> {
    if outcome.Accepted? then {Comment(x.request.issue, x.key, outcome.id)} else {}
  }

  function Next(w: World, a: Action): World
    requires Enabled(w, a)
  {
    match a
    case Begin(c, key, request) => w.(callers := w.callers[c := Caller(key, request, Starting)])
    case Claim(c) =>
      var x := w.callers[c];
      if x.key in w.rows then Goto(w, c, Taken(w.rows[x.key], x.request))
      else Goto(w, c, Looking(true)).(rows := w.rows[x.key := Row(x.request, Pending)])
    case Look(c, found) =>
      Goto(w, c, if found.Some? then Found(found.value.id) else if w.callers[c].pc.created then Sending else Unknown)
    case Abandon(c) => Goto(w, c, Errored)
    case Send(c, outcome) =>
      var x := w.callers[c];
      Goto(w, c, Posted(outcome)).(posts := w.posts + [Post(x.key, x.request, outcome)],
                                   comments := w.comments + Landed(x, outcome))
    case Record(c) =>
      var x := w.callers[c];
      var state := Recorded(x.pc);
      Goto(w, c, Reply(state)).(rows := w.rows[x.key := w.rows[x.key].(state := state)])
    case Written(comment) => w.(comments := w.comments + {comment})
    case Crash(lost) => w.(callers := w.callers - lost)
  }

  // ---- the invariant ---------------------------------------------------------------------

  ghost predicate AtMostOnce(posts: seq<Post>) {
    forall i, j :: 0 <= i < j < |posts| ==> posts[i].key != posts[j].key
  }

  ghost predicate Unsent(posts: seq<Post>, key: string) {
    forall i :: 0 <= i < |posts| ==> posts[i].key != key
  }

  ghost predicate PostsClaimed(w: World) {
    forall i :: 0 <= i < |w.posts| ==> w.posts[i].key in w.rows && w.rows[w.posts[i].key].request == w.posts[i].request
  }

  /** There is reason to report success: a POST was accepted, or the marker is on the issue. */
  ghost predicate Proven(w: World, key: string, request: Request, id: string) {
    Post(key, request, Accepted(id)) in w.posts || Comment(request.issue, key, id) in w.comments
  }

  ghost predicate RowsProven(w: World) {
    forall k :: k in w.rows && w.rows[k].state.Succeeded? ==> Proven(w, k, w.rows[k].request, w.rows[k].state.id)
  }

  ghost predicate CallerOk(w: World, x: Caller) {
    && (x.pc.Looking? || x.pc.Found? || x.pc.Owns() ==> x.key in w.rows && w.rows[x.key].request == x.request)
    && (x.pc.Owns() && !x.pc.Posted? ==> Unsent(w.posts, x.key))
    && (x.pc.Posted? ==> Post(x.key, x.request, x.pc.outcome) in w.posts)
    && (x.pc.Found? ==> Comment(x.request.issue, x.key, x.pc.id) in w.comments)
    && (x.pc.Reported? ==> Proven(w, x.key, x.request, x.pc.id))
  }

  ghost predicate CallersOk(w: World) {
    forall c :: c in w.callers ==> CallerOk(w, w.callers[c])
  }

  predicate SameClaim(x: Caller, y: Caller) {
    x.pc.Owns() && y.pc.Owns() && x.key == y.key
  }

  ghost predicate OneOwner(w: World) {
    forall c, d :: c in w.callers && d in w.callers && SameClaim(w.callers[c], w.callers[d]) ==> c == d
  }

  ghost predicate Inv(w: World) {
    AtMostOnce(w.posts) && PostsClaimed(w) && RowsProven(w) && CallersOk(w) && OneOwner(w)
  }

  predicate ByCaller(a: Action) { !a.Begin? && !a.Written? && !a.Crash? }

  lemma OthersOk(w: World, a: Action, d: nat)
    requires Inv(w) && Enabled(w, a) && ByCaller(a) && d in w.callers && d != a.c
    ensures d in Next(w, a).callers && Next(w, a).callers[d] == w.callers[d] && CallerOk(Next(w, a), w.callers[d])
  {
    assert CallerOk(w, w.callers[d]) && CallerOk(w, w.callers[a.c]);
  }

  lemma ActorOk(w: World, a: Action)
    requires Inv(w) && Enabled(w, a) && ByCaller(a)
    ensures CallerOk(Next(w, a), Next(w, a).callers[a.c])
    ensures Next(w, a).callers[a.c].pc.Owns() ==> w.callers[a.c].pc.Owns() || w.callers[a.c].key !in w.rows
  {
    var x := w.callers[a.c];
    assert CallerOk(w, x);
    if a.Claim? {
      if x.key !in w.rows {
        forall i | 0 <= i < |w.posts|
          ensures w.posts[i].key != x.key
        {
          assert w.posts[i].key in w.rows;
        }
      } else if w.rows[x.key].state.Succeeded? {
        assert Proven(w, x.key, w.rows[x.key].request, w.rows[x.key].state.id);
      }
    }
  }

  lemma CallersStep(w: World, a: Action)
    requires Inv(w) && Enabled(w, a)
    ensures CallersOk(Next(w, a)) && OneOwner(Next(w, a))
  {
    if ByCaller(a) {
      ActorOk(w, a);
      forall d | d in w.callers && d != a.c
        ensures Next(w, a).callers[d] == w.callers[d] && CallerOk(Next(w, a), w.callers[d])
        ensures w.callers[d].pc.Owns() ==> w.callers[d].key in w.rows
      {
        OthersOk(w, a, d);
        assert CallerOk(w, w.callers[d]);
      }
    } else {
      var v := Next(w, a);
      forall c | c in v.callers
        ensures CallerOk(v, v.callers[c])
      {
        assert c in w.callers ==> CallerOk(w, w.callers[c]);
      }
    }
  }

  lemma RowsStep(w: World, a: Action)
    requires Inv(w) && Enabled(w, a)
    ensures AtMostOnce(Next(w, a).posts) && PostsClaimed(Next(w, a)) && RowsProven(Next(w, a))
  {
    if ByCaller(a) {
      assert CallerOk(w, w.callers[a.c]);
    }
    var v := Next(w, a);
    assert forall p :: p in w.posts ==> p in v.posts;
    forall k | k in v.rows && v.rows[k].state.Succeeded?
      ensures Proven(v, k, v.rows[k].request, v.rows[k].state.id)
    {
      if k in w.rows && v.rows[k] == w.rows[k] {
        assert Proven(w, k, w.rows[k].request, w.rows[k].state.id);
      }
    }
  }

  lemma InvStep(w: World, a: Action)
    requires Inv(w) && Enabled(w, a)
    ensures Inv(Next(w, a))
  {
    CallersStep(w, a);
    RowsStep(w, a);
  }

  // ---- runs ------------------------------------------------------------------------------

  const START := World(map[], map[], [], {})

  ghost predicate Reaches(w: World, actions: seq<Action>, v: World)
    decreases |actions|
  {
    if actions == [] then w == v
    else Enabled(w, actions[0]) && Reaches(Next(w, actions[0]), actions[1..], v)
  }

  lemma {:induction false} RunKeeps(w: World, actions: seq<Action>, v: World)
    requires Inv(w) && Reaches(w, actions, v)
    ensures Inv(v)
    decreases |actions|
  {
    if actions != [] {
      InvStep(w, actions[0]);
      RunKeeps(Next(w, actions[0]), actions[1..], v);
    }
  }

  /**
   Over every interleaving and every crash: at most one POST per key, only for the request that
   claimed the key; and success is reported only after an accepted POST of this very request or a
   marker on its issue.
   */
  lemma CommentsAtMostOnce(actions: seq<Action>, w: World)
    requires Reaches(START, actions, w)
    ensures AtMostOnce(w.posts) && PostsClaimed(w)
    ensures forall c :: c in w.callers && w.callers[c].pc.Reported? ==>
              Proven(w, w.callers[c].key, w.callers[c].request, w.callers[c].pc.id)
  {
    RunKeeps(START, actions, w);
    forall c | c in w.callers && w.callers[c].pc.Reported?
      ensures Proven(w, w.callers[c].key, w.callers[c].request, w.callers[c].pc.id)
    {
      assert CallerOk(w, w.callers[c]);
    }
  }

  // ---- is a recorded success final? ------------------------------------------------------

  predicate Settled(w: World, key: string) {
    key in w.rows && w.rows[key].state.Succeeded?
  }

  /** A step changes a recorded success exactly if it records something else for the key. */
  lemma SuccessChangedIff(w: World, a: Action, key: string)
    requires Inv(w) && Enabled(w, a) && Settled(w, key)
    ensures key in Next(w, a).rows
    ensures Next(w, a).rows[key] != w.rows[key] <==>
            a.Record? && w.callers[a.c].key == key && Recorded(w.callers[a.c].pc) != w.rows[key].state
  {
  }

  /** A call that cannot change a recorded success any more: it has yet to read the row, or all that
      it can still record is the same comment id. */
  predicate Harmless(pc: Pc, state: State) {
    !pc.Active() || pc.Starting? || ((pc.Found? || pc.Posted?) && Recorded(pc) == state)
  }

  ghost predicate AllHarmless(w: World, key: string)
    requires key in w.rows
  {
    forall c :: c in w.callers && w.callers[c].key == key ==> Harmless(w.callers[c].pc, w.rows[key].state)
  }

  lemma HarmlessStep(w: World, a: Action, key: string)
    requires Enabled(w, a) && Settled(w, key) && AllHarmless(w, key)
    ensures key in Next(w, a).rows && Next(w, a).rows[key] == w.rows[key] && AllHarmless(Next(w, a), key)
  {
    if ByCaller(a) && w.callers[a.c].key == key {
      assert Harmless(w.callers[a.c].pc, w.rows[key].state);
    }
  }

  lemma {:induction false} HarmlessRun(w: World, actions: seq<Action>, v: World, key: string)
    requires Reaches(w, actions, v) && Settled(w, key) && AllHarmless(w, key)
    ensures key in v.rows && v.rows[key] == w.rows[key]
    decreases |actions|
  {
    if actions != [] {
      HarmlessStep(w, actions[0], key);
      HarmlessRun(Next(w, actions[0]), actions[1..], v, key);
    }
  }

  /** No continuation ever changes the row. */
  ghost predicate Final(w: World, key: string)
    requires key in w.rows
  {
    forall actions, v :: Reaches(w, actions, v) ==> key in v.rows && v.rows[key] == w.rows[key]
  }

  lemma RecordChanges(w: World, c: nat, key: string)
    requires c in w.callers && w.callers[c].key == key && (w.callers[c].pc.Posted? || w.callers[c].pc.Found?)
    requires key in w.rows && Recorded(w.callers[c].pc) != w.rows[key].state
    ensures Reaches(w, [Record(c)], Next(w, Record(c))) && Next(w, Record(c)).rows[key] != w.rows[key]
  {
    assert [Record(c)][1..] == [];
  }

  /** A call that is not harmless can be continued so that the row changes. */
  lemma HarmfulRun(w: World, c: nat, key: string) returns (actions: seq<Action>, v: World)
    requires Inv(w) && Settled(w, key) && c in w.callers && w.callers[c].key == key
    requires !Harmless(w.callers[c].pc, w.rows[key].state)
    ensures Reaches(w, actions, v) && key in v.rows && v.rows[key] != w.rows[key]
  {
    var pc := w.callers[c].pc;
    assert CallerOk(w, w.callers[c]);
    if pc.Looking? {
      var m := Comment(w.callers[c].request.issue, key, w.rows[key].state.id + "x");
      var w1 := Next(w, Written(m));
      var w2 := Next(w1, Look(c, Some(m)));
      RecordChanges(w2, c, key);
      v := Next(w2, Record(c));
      Prepend(w1, Look(c, Some(m)), [Record(c)], v);
      Prepend(w, Written(m), [Look(c, Some(m))] + [Record(c)], v);
      actions := [Written(m)] + ([Look(c, Some(m))] + [Record(c)]);
    } else if pc.Sending? {
      var w1 := Next(w, Send(c, NoAnswer));
      RecordChanges(w1, c, key);
      v := Next(w1, Record(c));
      Prepend(w, Send(c, NoAnswer), [Record(c)], v);
      actions := [Send(c, NoAnswer)] + [Record(c)];
    } else {
      RecordChanges(w, c, key);
      actions, v := [Record(c)], Next(w, Record(c));
    }
  }

  lemma Prepend(w: World, a: Action, actions: seq<Action>, v: World)
    requires Enabled(w, a) && Reaches(Next(w, a), actions, v)
    ensures Reaches(w, [a] + actions, v)
  {
    assert ([a] + actions)[1..] == actions;
  }

  /** A recorded success is final, over all continuations, exactly if every call under way for the
      key has yet to read the row or can only record the same comment. */
  lemma SuccessFinalIff(w: World, key: string)
    requires Inv(w) && Settled(w, key)
    ensures Final(w, key) <==> AllHarmless(w, key)
  {
    if AllHarmless(w, key) {
      forall actions, v | Reaches(w, actions, v)
        ensures key in v.rows && v.rows[key] == w.rows[key]
      {
        HarmlessRun(w, actions, v, key);
      }
    } else {
      var c :| c in w.callers && w.callers[c].key == key && !Harmless(w.callers[c].pc, w.rows[key].state);
      var actions, v := HarmfulRun(w, c, key);
    }
  }

  /** The per-key lock of one process: a call starts only when no other call with its key is active. */
  ghost predicate LockedStep(w: World, a: Action) {
    && Enabled(w, a)
    && (a.Begin? ==> forall d :: d in w.callers && w.callers[d].key == a.key ==> !w.callers[d].pc.Active())
  }

  ghost predicate LockedRun(w: World, actions: seq<Action>, v: World)
    decreases |actions|
  {
    if actions == [] then w == v
    else LockedStep(w, actions[0]) && LockedRun(Next(w, actions[0]), actions[1..], v)
  }

  predicate BothActive(x: Caller, y: Caller) {
    x.key == y.key && x.pc.Active() && y.pc.Active()
  }

  ghost predicate OneActive(w: World) {
    forall c, d :: c in w.callers && d in w.callers && BothActive(w.callers[c], w.callers[d]) ==> c == d
  }

  /** Once success is recorded, no call that is under way can still write. */
  ghost predicate Quiet(w: World) {
    forall c :: c in w.callers && w.callers[c].pc.Active() && Settled(w, w.callers[c].key) ==> w.callers[c].pc.Starting?
  }

  lemma LockKeeps(w: World, a: Action)
    requires OneActive(w) && LockedStep(w, a)
    ensures OneActive(Next(w, a))
  {
    var v := Next(w, a);
    forall c | c in v.callers && v.callers[c].pc.Active()
      ensures (a.Begin? && c == a.c)
           || (c in w.callers && w.callers[c].key == v.callers[c].key && w.callers[c].pc.Active())
    {
    }
  }

  lemma LockedKeeps(w: World, a: Action)
    requires OneActive(w) && Quiet(w) && LockedStep(w, a)
    ensures OneActive(Next(w, a)) && Quiet(Next(w, a))
    ensures forall k :: Settled(w, k) ==> Settled(Next(w, a), k) && Next(w, a).rows[k] == w.rows[k]
  {
    LockKeeps(w, a);
  }

  lemma {:induction false} LockedRunKeeps(w: World, actions: seq<Action>, v: World)
    requires OneActive(w) && Quiet(w) && LockedRun(w, actions, v)
    ensures OneActive(v) && Quiet(v)
    ensures forall k :: Settled(w, k) ==> Settled(v, k) && v.rows[k] == w.rows[k]
    decreases |actions|
  {
    if actions != [] {
      LockedKeeps(w, actions[0]);
      LockedRunKeeps(Next(w, actions[0]), actions[1..], v);
      forall k | Settled(w, k)
        ensures Settled(v, k) && v.rows[k] == w.rows[k]
      {
        assert Settled(Next(w, actions[0]), k);
      }
    }
  }

  /** Within one process a recorded success is final: the row never changes again. */
  lemma LockedSuccessIsFinal(first: seq<Action>, w: World, second: seq<Action>, v: World, key: string)
    requires LockedRun(START, first, w) && LockedRun(w, second, v) && Settled(w, key)
    ensures Settled(v, key) && v.rows[key] == w.rows[key]
  {
    LockedRunKeeps(START, first, w);
    LockedRunKeeps(w, second, v);
  }

  lemma {:induction false} ReachesOne(w: World, actions: seq<Action>, v: World, a: Action)
    requires Reaches(w, actions, v) && Enabled(v, a)
    ensures Reaches(w, actions + [a], Next(v, a))
    decreases |actions|
  {
    var all := actions + [a];
    if actions == [] {
      assert all[1..] == [];
    } else {
      assert all[1..] == actions[1..] + [a];
      ReachesOne(Next(w, actions[0]), actions[1..], v, a);
    }
  }

  /** One caller whose POST ended with `o` and is not recorded yet, and what became of a second one. */
  function Race(key: string, r: Request, o: Outcome, comments: set<Comment>, second: map<nat, Caller>,
                state: State): World {
    World(map[key := Row(r, state)], map[0 := Caller(key, r, Posted(o))] + second, [Post(key, r, o)], comments)
  }

  lemma SentRun(key: string, r: Request, o: Outcome) returns (actions: seq<Action>)
    ensures Reaches(START, actions, Race(key, r, o, Landed(Caller(key, r, Sending), o), map[], Pending))
  {
    var w1 := World(map[], map[0 := Caller(key, r, Starting)], [], {});
    var w2 := World(map[key := Row(r, Pending)], map[0 := Caller(key, r, Looking(true))], [], {});
    var w3 := w2.(callers := map[0 := Caller(key, r, Sending)]);
    assert Next(START, Begin(0, key, r)) == w1;
    ReachesOne(START, [], START, Begin(0, key, r));
    actions := [] + [Begin(0, key, r)];
    assert Next(w1, Claim(0)) == w2;
    ReachesOne(START, actions, w1, Claim(0));
    actions := actions + [Claim(0)];
    assert Next(w2, Look(0, None)) == w3;
    ReachesOne(START, actions, w2, Look(0, None));
    actions := actions + [Look(0, None)];
    assert Next(w3, Send(0, o)) == Race(key, r, o, Landed(Caller(key, r, Sending), o), map[], Pending);
    ReachesOne(START, actions, w3, Send(0, o));
    actions := actions + [Send(0, o)];
  }

  /** A comment with the marker appears; the second caller starts and finds the key taken. */
  lemma SecondStarts(key: string, r: Request, o: Outcome, m: Comment, before: seq<Action>)
    returns (actions: seq<Action>)
    requires Reaches(START, before, Race(key, r, o, Landed(Caller(key, r, Sending), o), map[], Pending))
    ensures Reaches(START, actions, Race(key, r, o, Landed(Caller(key, r, Sending), o) + {m},
                                         map[1 := Caller(key, r, Looking(false))], Pending))
  {
    var landed := Landed(Caller(key, r, Sending), o);
    var w0 := Race(key, r, o, landed, map[], Pending);
    var w1 := Race(key, r, o, landed + {m}, map[], Pending);
    var w2 := Race(key, r, o, landed + {m}, map[1 := Caller(key, r, Starting)], Pending);
    assert Next(w0, Written(m)) == w1;
    ReachesOne(START, before, w0, Written(m));
    actions := before + [Written(m)];
    assert Next(w1, Begin(1, key, r)) == w2;
    ReachesOne(START, actions, w1, Begin(1, key, r));
    actions := actions + [Begin(1, key, r)];
    assert Next(w2, Claim(1)) == Race(key, r, o, landed + {m}, map[1 := Caller(key, r, Looking(false))], Pending);
    ReachesOne(START, actions, w2, Claim(1));
    actions := actions + [Claim(1)];
  }

  lemma MarkerRun(key: string, r: Request, o: Outcome, id: string, before: seq<Action>) returns (actions: seq<Action>)
    requires id != "" && Reaches(START, before, Race(key, r, o, Landed(Caller(key, r, Sending), o), map[], Pending))
    ensures Reaches(START, actions, Race(key, r, o, Landed(Caller(key, r, Sending), o) + {Comment(r.issue, key, id)},
                                         map[1 := Caller(key, r, Reported(id))], Succeeded(id)))
  {
    var m := Comment(r.issue, key, id);
    var comments := Landed(Caller(key, r, Sending), o) + {m};
    actions := SecondStarts(key, r, o, m, before);
    var w3 := Race(key, r, o, comments, map[1 := Caller(key, r, Looking(false))], Pending);
    var w4 := Race(key, r, o, comments, map[1 := Caller(key, r, Found(id))], Pending);
    assert Next(w3, Look(1, Some(m))) == w4;
    ReachesOne(START, actions, w3, Look(1, Some(m)));
    actions := actions + [Look(1, Some(m))];
    assert Next(w4, Record(1)) == Race(key, r, o, comments, map[1 := Caller(key, r, Reported(id))], Succeeded(id));
    ReachesOne(START, actions, w4, Record(1));
    actions := actions + [Record(1)];
  }

  /**
   Two processes can change one, whatever the first POST ended with: while its outcome `o` is not
   recorded yet the other process sees a marker and reports success; then the first records `o`.
   With `NoAnswer` the success becomes an unknown outcome, with another id it names another comment.
   */
  lemma SuccessCanBeLost(key: string, r: Request, o: Outcome, id: string) returns (actions: seq<Action>, w: World)
    requires id != ""
    ensures Reaches(START, actions, w) && key in w.rows && w.rows[key].state == Succeeded(id)
    ensures 1 in w.callers && w.callers[1] == Caller(key, r, Reported(id))
    ensures Enabled(w, Record(0)) && Next(w, Record(0)).rows[key].state == Recorded(Posted(o))
  {
    var before := SentRun(key, r, o);
    actions := MarkerRun(key, r, o, id, before);
    w := Race(key, r, o, Landed(Caller(key, r, Sending), o) + {Comment(r.issue, key, id)},
              map[1 := Caller(key, r, Reported(id))], Succeeded(id));
  }

  // ---- the code --------------------------------------------------------------------------

  /** What Jira answers: a listing (with a marked comment or not) or an error, then an outcome. */
  datatype Moment = Moment(listed: Option<Comment>, broken: bool, outcome: Outcome, dies: bool)

  datatype Result = Success(id: string, replayed: bool) | UnknownOutcome | Error | Crashed

  class Client {
    const writeEnabled: bool
    const world: nat -> Moment
    var clock: nat
    var rows: map<string, Row>
    var posts: seq<Post>
    /** Jira's side. */
    var comments: set<Comment>
    ghost var run: seq<Action>
    ghost var callers: map<nat, Caller>

    constructor (writeEnabled: bool, world: nat -> Moment)
      ensures Valid() && rows == map[] && posts == [] && comments == {}
    {
      this.writeEnabled, this.world, clock, rows, posts, comments := writeEnabled, world, 0, map[], [], {};
      run, callers := [], map[];
    }

    ghost function Now(): World reads this {
      World(rows, callers, posts, comments)
    }

    /** Between calls: a state that the protocol reaches, with nobody under way. */
    ghost predicate Valid() reads this {
      Reaches(START, run, Now()) && callers == map[]
    }

    ghost predicate At(key: string, request: Request, pc: Pc) reads this {
      Reaches(START, run, Now()) && callers == map[0 := Caller(key, request, pc)]
    }

    method Tick() returns (m: Moment)
      modifies this`clock
      ensures m == world(old(clock)) && clock == old(clock) + 1
    {
      m := world(clock);
      clock := clock + 1;
    }

    ghost method Leave()
      requires Reaches(START, run, Now()) && forall c :: c in callers ==> c == 0
      modifies this`run, this`callers
      ensures Valid()
    {
      ReachesOne(START, run, Now(), Crash({0}));
      assert callers - {0} == map[];
      run, callers := run + [Crash({0})], map[];
    }

    /** `begin_comment_action` */
    method BeginAction(key: string, request: Request) returns (pc: Pc)
      requires Valid()
      modifies this`rows, this`run, this`callers
      ensures At(key, request, pc)
      ensures key in old(rows) ==> rows == old(rows) && pc == Taken(old(rows)[key], request)
      ensures key !in old(rows) ==> rows == old(rows)[key := Row(request, Pending)] && pc == Looking(true)
    {
      ghost var w := Now();
      ghost var begun := World(rows, map[0 := Caller(key, request, Starting)], posts, comments);
      assert Next(w, Begin(0, key, request)) == begun;
      ReachesOne(START, run, w, Begin(0, key, request));
      ReachesOne(START, run + [Begin(0, key, request)], begun, Claim(0));
      run := run + [Begin(0, key, request)] + [Claim(0)];
      if key in rows {
        pc := Taken(rows[key], request);
      } else {
        pc := Looking(true);
        rows := rows[key := Row(request, Pending)];
      }
      callers := map[0 := Caller(key, request, pc)];
      assert Next(begun, Claim(0)) == Now();
    }

    /** The id of the comment that the listing shows for this key on this issue, or none. */
    function MarkerId(listed: Option<Comment>, comments: set<Comment>, key: string, request: Request): string {
      match listed
      case None => ""
      case Some(m) => if m in comments && m.issue == request.issue && m.key == key then m.id else ""
    }

    /** `_find_comment_marker`: the listing may miss a comment, but does not invent one. */
    method FindMarker(key: string, request: Request, created: bool, listed: Option<Comment>) returns (id: string)
      requires At(key, request, Looking(created))
      modifies this`run, this`callers
      ensures id == MarkerId(listed, comments, key, request)
      ensures id != "" ==> At(key, request, Found(id)) && Comment(request.issue, key, id) in comments
      ensures id == "" ==> At(key, request, if created then Sending else Unknown)
    {
      var x := Caller(key, request, Looking(created));
      var found := if listed.Some? && listed.value in comments && Marks(listed.value, x) then listed else None;
      id := MarkerId(listed, comments, key, request);
      ghost var w := Now();
      ReachesOne(START, run, w, Look(0, found));
      run, callers := run + [Look(0, found)],
          map[0 := x.(pc := if found.Some? then Found(id) else if created then Sending else Unknown)];
      assert Next(w, Look(0, found)) == Now();
    }

    method SendComment(key: string, request: Request, outcome: Outcome)
      requires At(key, request, Sending)
      modifies this`posts, this`comments, this`run, this`callers
      ensures At(key, request, Posted(outcome)) && posts == old(posts) + [Post(key, request, outcome)]
    {
      ghost var w := Now();
      ReachesOne(START, run, w, Send(0, outcome));
      posts, comments := posts + [Post(key, request, outcome)], comments + Landed(Caller(key, request, Sending),
          outcome);
      run, callers := run + [Send(0, outcome)], map[0 := Caller(key, request, Posted(outcome))];
      assert Next(w, Send(0, outcome)) == Now();
    }

    /** `update_comment_action` */
    method UpdateAction(key: string, ghost request: Request, ghost pc: Pc, state: State)
      requires (pc.Posted? || pc.Found?) && At(key, request, pc) && key in rows && state == Recorded(pc)
      modifies this`rows, this`run, this`callers
      ensures Valid() && rows == old(rows)[key := old(rows)[key].(state := state)]
    {
      ghost var w := Now();
      ReachesOne(START, run, w, Record(0));
      rows := rows[key := rows[key].(state := state)];
      run, callers := run + [Record(0)], map[0 := Caller(key, request, Reply(state))];
      assert Next(w, Record(0)) == Now();
      Leave();
    }

    /** The caller created the row, and the listing arrives and shows no comment for the key. */
    ghost predicate Sends(m: Moment, comments: set<Comment>, key: string, request: Request, created: bool) {
      created && !m.dies && !m.broken && MarkerId(m.listed, comments, key, request) == ""
    }

    /** What the caller is told: of a comment that is there; of the POST; or, of a row that somebody else
        has created, that the outcome is unknown. */
    ghost function ResultAfter(m: Moment, n: Moment, comments: set<Comment>, key: string, request: Request,
                               created: bool): Result
    {
      var id := MarkerId(m.listed, comments, key, request);
      if m.dies then Crashed
      else if m.broken then Error
      else if id != "" then Success(id, true)
      else if !created then UnknownOutcome
      else if n.dies then Crashed
      else match m.outcome
           case Accepted(id) => Success(id, false)
           case Refused => Error
           case NoAnswer => UnknownOutcome
    }

    /** ... and what is recorded: the comment, or the outcome of the POST if the caller lived on. */
    ghost function StateAfter(m: Moment, n: Moment, comments: set<Comment>, key: string, request: Request,
                              created: bool, state: State): State
    {
      var id := MarkerId(m.listed, comments, key, request);
      if m.dies || m.broken then state
      else if id != "" then Succeeded(id)
      else if !created || n.dies then state
      else Recorded(Posted(m.outcome))
    }

    /**
     `add_comment`.  A recorded success is replayed; a key in use for another comment is refused; a
     POST is sent only by the call that created the row; success is reported only once it is
     recorded, after an accepted POST or a marker on the issue.
     */
    method AddComment(key: string, request: Request) returns (r: Result)
      requires Valid()
      modifies this`clock, this`rows, this`posts, this`comments, this`run, this`callers
      ensures Valid()
      ensures !writeEnabled ==> r == Error && rows == old(rows) && posts == old(posts)
      ensures writeEnabled && key in old(rows) && old(rows)[key].request != request ==> r == Error && rows == old(rows)
      ensures writeEnabled && key in old(rows) && Taken(old(rows)[key], request).Reported? ==>
                r == Success(old(rows)[key].state.id, true) && rows == old(rows)
      ensures key in old(rows) ==> posts == old(posts)
      ensures posts == old(posts) || exists o :: posts == old(posts) + [Post(key, request, o)]
      ensures r.Success? ==>
        key in rows && rows[key] == Row(request, Succeeded(r.id)) && Proven(Now(), key, request, r.id)
      ensures writeEnabled && (key in old(rows) ==> Taken(old(rows)[key], request).Looking?) ==>
        var m, created, n := world(old(clock)), key !in old(rows), world(old(clock) + 1);
        var state := if created then Pending else old(rows)[key].state;
        && posts == old(posts)
                    + (if Sends(m, old(comments), key, request, created) then [Post(key, request, m.outcome)] else [])
        && r == ResultAfter(m, n, old(comments), key, request, created)
        && rows == old(rows)[key := Row(request, StateAfter(m, n, old(comments), key, request, created, state))]
    {
      if !writeEnabled {
        return Error;
      }
      var pc := BeginAction(key, request);
      if !pc.Looking? {
        RunKeeps(START, run, Now());
        assert CallerOk(Now(), callers[0]);
        Leave();
        return if pc.Reported? then Success(pc.id, true) else Error;
      }
      r := FindOrPost(key, request, pc.created);
    }

    /** Look for the comment on the issue; the call that created the row posts it if it is not there. */
    method FindOrPost(key: string, request: Request, created: bool) returns (r: Result)
      requires At(key, request, Looking(created)) && key in rows && rows[key].request == request
      modifies this`clock, this`rows, this`posts, this`comments, this`run, this`callers
      ensures Valid()
      ensures var m, n := world(old(clock)), world(old(clock) + 1);
              var state := StateAfter(m, n, old(comments), key, request, created, old(rows)[key].state);
              && posts == old(posts)
                    + (if Sends(m, old(comments), key, request, created) then [Post(key, request, m.outcome)] else [])
              && r == ResultAfter(m, n, old(comments), key, request, created)
              && rows == old(rows)[key := Row(request, state)]
      ensures r.Success? ==> Proven(Now(), key, request, r.id)
    {
      var m := Tick();
      if m.broken || m.dies {
        Leave();
        return if m.dies then Crashed else Error;
      }
      var existing := FindMarker(key, request, created, m.listed);
      if existing != "" {
        UpdateAction(key, request, Found(existing), Succeeded(existing));
        return Success(existing, true);
      }
      if !created {
        Leave();
        return UnknownOutcome;
      }
      r := PostComment(key, request, m.outcome);
    }

    /** The POST and its record. */
    method PostComment(key: string, request: Request, outcome: Outcome) returns (r: Result)
      requires At(key, request, Sending) && key in rows
      modifies this`clock, this`rows, this`posts, this`comments, this`run, this`callers
      ensures Valid() && posts == old(posts) + [Post(key, request, outcome)]
      ensures var dies := world(old(clock)).dies;
              && rows == (if dies then old(rows)
                          else old(rows)[key := old(rows)[key].(state := Recorded(Posted(outcome)))])
              && r == (if dies then Crashed
                       else match outcome
                            case Accepted(id) => Success(id, false)
                            case Refused => Error
                            case NoAnswer => UnknownOutcome)
      ensures r.Success? ==>
        rows == old(rows)[key := old(rows)[key].(state := Succeeded(r.id))] && outcome == Accepted(r.id)
    {
      SendComment(key, request, outcome);
      var m := Tick();
      if m.dies {
        Leave();
        return Crashed;
      }
      UpdateAction(key, request, Posted(outcome), Recorded(Posted(outcome)));
      r := match outcome
           case Accepted(id) => Success(id, false)
           case Refused => Error
           case NoAnswer => UnknownOutcome;
    }
  }
}
