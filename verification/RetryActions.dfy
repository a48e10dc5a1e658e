/**
 GitLab retry actions: claim a key, send one POST, record the outcome.  Any number of callers in
 any number of processes interleave step by step, and processes may crash between any two steps.
 The per-key lock of one process only removes interleavings, so it is not needed here.
 */
module RetryActions {

  /** What an out-of-memory batch key is derived from. */
  datatype Batch = Batch(project: string, pipeline: string, jobs: seq<string>, maxAttempts: nat)

  /** A key given by the caller, the key of a batch, or that of the `n`-th attempt at one of its jobs. */
  datatype Key = Named(text: string) | Whole(batch: Batch) | Attempt(batch: Batch, job: string, n: nat)
  {
    predicate Valid() { Attempt? ==> 1 <= n <= batch.maxAttempts }
  }

  /** How a POST ends: accepted, no answer, or an error answer. */
  datatype Outcome = Accepted(payload: string) | NoAnswer | Refused

  datatype State = Pending | Success(payload: string) | Failed | OutcomeUnknown

  datatype Row = Row(request: string, state: State)

  datatype Pc = Selecting | Inserting | Owning | Posted(outcome: Outcome) | Returned(payload: string) | Errored
  {
    predicate Owns() { Owning? || Posted? }
  }

  datatype Caller = Caller(key: Key, request: string, pc: Pc)

  datatype Post = Post(key: Key, request: string, outcome: Outcome)

  datatype World = World(rows: map<Key, Row>, callers: map<nat, Caller>, posts: seq<Post>)

  /** The steps of a caller.  A batch closes its own key when its attempts are over. */
  datatype Action =
    | Begin(c: nat, key: Key, request: string)
    | Select(c: nat)
    | Insert(c: nat)
    | Block(c: nat)
    | Abandon(c: nat)
    | Send(c: nat, outcome: Outcome)
    | Record(c: nat)
    | Close(c: nat, payload: string)
    | Crash(lost: set<nat>)

  /** The state that an outcome is recorded as. */
  function Recorded(o: Outcome): State {
    match o
    case Accepted(payload) => Success(payload)
    case NoAnswer => OutcomeUnknown
    case Refused => Failed
  }

  /** What a caller with this request is told about a key that is taken. */
  function Told(row: Row, request: string): Pc {
    if row.request == request && row.state.Success? then Returned(row.state.payload) else Errored
  }

  predicate At(w: World, c: nat, pc: Pc) {
    c in w.callers && w.callers[c].pc == pc
  }

  predicate Enabled(w: World, a: Action) {
    match a
    case Begin(c, key, _) => c !in w.callers && key.Valid()
    case Select(c) => At(w, c, Selecting)
    case Insert(c) => At(w, c, Inserting)
    case Block(c) => At(w, c, Owning) && w.callers[c].key in w.rows
    case Abandon(c) => At(w, c, Owning)
    case Send(c, _) => At(w, c, Owning) && !w.callers[c].key.Whole?
    case Record(c) => c in w.callers && w.callers[c].pc.Posted? && w.callers[c].key in w.rows
    case Close(c, _) => At(w, c, Owning) && w.callers[c].key.Whole? && w.callers[c].key in w.rows
    case Crash(_) => true
  }

  function Goto(w: World, c: nat, pc: Pc): World
    requires c in w.callers
  {
    w.(callers := w.callers[c := w.callers[c].(pc := pc)])
  }

  /** `UPDATE retry_actions SET state=? WHERE idempotency_key=?` */
  function Completed(rows: map<Key, Row>, key: Key, state: State): map<Key, Row>
    requires key in rows
  {
    rows[key := rows[key].(state := state)]
  }

  function Next(w: World, a: Action): World
    requires Enabled(w, a)
  {
    match a
    case Begin(c, key, request) => w.(callers := w.callers[c := Caller(key, request, Selecting)])
    case Select(c) =>
      var x := w.callers[c];
      Goto(w, c, if x.key in w.rows then Told(w.rows[x.key], x.request) else Inserting)
    case Insert(c) =>
      var x := w.callers[c];
      if x.key in w.rows then Goto(w, c, Errored)
      else Goto(w, c, Owning).(rows := w.rows[x.key := Row(x.request, Pending)])
    case Block(c) => Goto(w, c, Errored).(rows := Completed(w.rows, w.callers[c].key, Failed))
    case Abandon(c) => Goto(w, c, Errored)
    case Send(c, outcome) =>
      var x := w.callers[c];
      Goto(w, c, Posted(outcome)).(posts := w.posts + [Post(x.key, x.request, outcome)])
    case Record(c) =>
      var x := w.callers[c];
      var o := x.pc.outcome;
      Goto(w, c, if o.Accepted? then Returned(o.payload) else Errored)
        .(rows := Completed(w.rows, x.key, Recorded(o)))
    case Close(c, payload) =>
      Goto(w, c, Returned(payload)).(rows := Completed(w.rows, w.callers[c].key, Success(payload)))
    case Crash(lost) => w.(callers := w.callers - lost)
  }

  // ---- the invariant ---------------------------------------------------------------------

  ghost predicate AtMostOnce(posts: seq<Post>) {
    forall i, j :: 0 <= i < j < |posts| ==> posts[i].key != posts[j].key
  }

  ghost predicate Unsent(posts: seq<Post>, key: Key) {
    forall i :: 0 <= i < |posts| ==> posts[i].key != key
  }

  /** A POST was sent only for the request that holds the key. */
  ghost predicate PostsClaimed(w: World) {
    forall i :: 0 <= i < |w.posts| ==>
      w.posts[i].key.Valid() && w.posts[i].key in w.rows && w.rows[w.posts[i].key].request == w.posts[i].request
  }

  /** A recorded success is that of an accepted POST, except for a batch as a whole, which sends none. */
  ghost predicate SuccessPosted(w: World) {
    forall k :: k in w.rows && w.rows[k].state.Success? && !k.Whole? ==>
      Post(k, w.rows[k].request, Accepted(w.rows[k].state.payload)) in w.posts
  }

  ghost predicate CallerOk(w: World, x: Caller) {
    && x.key.Valid()
    && (x.pc.Owns() ==> x.key in w.rows && w.rows[x.key] == Row(x.request, Pending))
    && (x.pc.Owning? ==> Unsent(w.posts, x.key))
    && (x.pc.Posted? ==> Post(x.key, x.request, x.pc.outcome) in w.posts)
    && (x.pc.Returned? ==> x.key in w.rows && w.rows[x.key] == Row(x.request, Success(x.pc.payload)))
  }

  ghost predicate CallersOk(w: World) {
    forall c :: c in w.callers ==> CallerOk(w, w.callers[c])
  }

  predicate SameClaim(x: Caller, y: Caller) {
    x.pc.Owns() && y.pc.Owns() && x.key == y.key
  }

  ghost predicate OneOwner(w: World) {
    forall c, d :: c in w.callers && d in w.callers && SameClaim(w.callers[c], w.callers[d]) ==> c == d
  }

  ghost predicate Inv(w: World) {
    AtMostOnce(w.posts) && PostsClaimed(w) && SuccessPosted(w) && CallersOk(w) && OneOwner(w)
  }

  predicate KeptRow(x: Row, y: Row) {
    x.request == y.request && (x.state.Pending? || x == y)
  }

  /** What a step never takes back: claims, recorded outcomes, POSTs. */
  ghost predicate Later(w: World, v: World) {
    && (forall k :: k in w.rows ==> k in v.rows && KeptRow(w.rows[k], v.rows[k]))
    && w.posts <= v.posts
  }

  /** Where the others stand does not change, unless the acting caller owns their key. */
  lemma OthersOk(w: World, a: Action, d: nat)
    requires Inv(w) && Enabled(w, a) && !a.Begin? && !a.Crash? && d in w.callers && d != a.c
    ensures d in Next(w, a).callers && Next(w, a).callers[d] == w.callers[d] && CallerOk(Next(w, a), w.callers[d])
  {
    assert CallerOk(w, w.callers[d]) && CallerOk(w, w.callers[a.c]);
  }

  lemma ActorOk(w: World, a: Action)
    requires Inv(w) && Enabled(w, a) && !a.Begin? && !a.Crash?
    ensures CallerOk(Next(w, a), Next(w, a).callers[a.c])
    ensures Next(w, a).callers[a.c].pc.Owns() ==> w.callers[a.c].pc.Owns() || w.callers[a.c].key !in w.rows
  {
    assert CallerOk(w, w.callers[a.c]);
    if a.Insert? && w.callers[a.c].key !in w.rows {
      forall i | 0 <= i < |w.posts|
        ensures w.posts[i].key != w.callers[a.c].key
      {
        assert w.posts[i].key in w.rows;
      }
    }
  }

  lemma CallersStep(w: World, a: Action)
    requires Inv(w) && Enabled(w, a)
    ensures CallersOk(Next(w, a)) && OneOwner(Next(w, a))
  {
    if !a.Begin? && !a.Crash? {
      ActorOk(w, a);
      forall d | d in w.callers && d != a.c
        ensures Next(w, a).callers[d] == w.callers[d] && CallerOk(Next(w, a), w.callers[d])
        ensures w.callers[d].pc.Owns() ==> w.callers[d].key in w.rows
      {
        OthersOk(w, a, d);
        assert CallerOk(w, w.callers[d]);
      }
    } else {
      var v := Next(w, a);
      forall c | c in v.callers
        ensures CallerOk(v, v.callers[c])
      {
        assert c in w.callers ==> CallerOk(w, w.callers[c]);
      }
    }
  }

  lemma RowsStep(w: World, a: Action)
    requires Inv(w) && Enabled(w, a)
    ensures AtMostOnce(Next(w, a).posts) && PostsClaimed(Next(w, a)) && SuccessPosted(Next(w, a))
  {
    if !a.Begin? && !a.Crash? {
      assert CallerOk(w, w.callers[a.c]);
    }
    var v := Next(w, a);
    assert forall p :: p in w.posts ==> p in v.posts;
  }

  /** Every step keeps the invariant, and takes back neither a claim nor a recorded outcome. */
  lemma InvStep(w: World, a: Action)
    requires Inv(w) && Enabled(w, a)
    ensures Inv(Next(w, a)) && Later(w, Next(w, a))
  {
    CallersStep(w, a);
    RowsStep(w, a);
    if !a.Begin? && !a.Crash? {
      assert CallerOk(w, w.callers[a.c]);
    }
  }

  // ---- runs ------------------------------------------------------------------------------

  const START := World(map[], map[], [])

  /** `actions` lead from `w` to `v`. */
  ghost predicate Reaches(w: World, actions: seq<Action>, v: World)
    decreases |actions|
  {
    if actions == [] then w == v
    else Enabled(w, actions[0]) && Reaches(Next(w, actions[0]), actions[1..], v)
  }

  lemma LaterTrans(u: World, w: World, v: World)
    requires Later(u, w) && Later(w, v)
    ensures Later(u, v)
  {
    forall k | k in u.rows
      ensures k in v.rows && KeptRow(u.rows[k], v.rows[k])
    {
      assert k in w.rows && KeptRow(u.rows[k], w.rows[k]);
    }
  }

  lemma {:induction false} RunKeeps(w: World, actions: seq<Action>, v: World)
    requires Inv(w) && Reaches(w, actions, v)
    ensures Inv(v) && Later(w, v)
    decreases |actions|
  {
    if actions != [] {
      InvStep(w, actions[0]);
      RunKeeps(Next(w, actions[0]), actions[1..], v);
      LaterTrans(w, Next(w, actions[0]), v);
    }
  }

  predicate BothReturned(x: Caller, y: Caller) {
    x.pc.Returned? && y.pc.Returned? && x.key == y.key
  }

  /**
   Over every interleaving of callers and crashes: at most one POST per key, only for the request
   that claimed it; whoever is told of a success is told the recorded one, which an accepted POST
   for this very request gave; and a job gets at most `maxAttempts` POSTs from a batch.
   */
  lemma RetriesAtMostOnce(actions: seq<Action>, w: World)
    requires Reaches(START, actions, w)
    ensures AtMostOnce(w.posts)
    ensures forall c, d :: c in w.callers && d in w.callers && BothReturned(w.callers[c], w.callers[d]) ==>
              w.callers[c] == w.callers[d]
    ensures forall c :: c in w.callers && w.callers[c].pc.Returned? && !w.callers[c].key.Whole? ==>
              Post(w.callers[c].key, w.callers[c].request, Accepted(w.callers[c].pc.payload)) in w.posts
    ensures forall b, job :: JobPosts(w.posts, b, job) <= b.maxAttempts
  {
    RunKeeps(START, actions, w);
    forall c | c in w.callers && w.callers[c].pc.Returned?
      ensures var x := w.callers[c];
              x.key in w.rows && w.rows[x.key] == Row(x.request, Success(x.pc.payload))
    {
      assert CallerOk(w, w.callers[c]);
    }
    forall b, job
      ensures JobPosts(w.posts, b, job) <= b.maxAttempts
    {
      JobBound(w.posts, b, job);
    }
  }

  /** A recorded outcome is final: any later caller is told the same, and sends nothing. */
  lemma RecordedIsFinal(w: World, actions: seq<Action>, v: World, c: nat, key: Key)
    requires Inv(w) && Reaches(w, actions, v) && key in w.rows && !w.rows[key].state.Pending?
    requires At(v, c, Selecting) && v.callers[c].key == key
    ensures At(Next(v, Select(c)), c, Told(w.rows[key], v.callers[c].request))
  {
    RunKeeps(w, actions, v);
    assert KeptRow(w.rows[key], v.rows[key]);
  }

  /** A key that is in use for another request never lets a caller send or succeed. */
  lemma ReuseRejected(actions: seq<Action>, w: World, c: nat)
    requires Reaches(START, actions, w) && c in w.callers
    requires w.callers[c].key in w.rows && w.rows[w.callers[c].key].request != w.callers[c].request
    ensures !w.callers[c].pc.Owns() && !w.callers[c].pc.Returned?
  {
    RunKeeps(START, actions, w);
    assert CallerOk(w, w.callers[c]);
  }

  // ---- attempts per job ------------------------------------------------------------------

  predicate ForJob(p: Post, b: Batch, job: string) {
    p.key.Attempt? && p.key.batch == b && p.key.job == job
  }

  /** The number of POSTs that a batch sent for a job. */
  function JobPosts(posts: seq<Post>, b: Batch, job: string): nat {
    if posts == [] then 0
    else JobPosts(posts[1..], b, job) + if ForJob(posts[0], b, job) then 1 else 0
  }

  ghost function JobKeys(posts: seq<Post>, b: Batch, job: string): set<nat> {
    set i | 0 <= i < |posts| && ForJob(posts[i], b, job) :: posts[i].key.n
  }

  lemma {:induction false} JobPostsAreKeys(posts: seq<Post>, b: Batch, job: string)
    requires AtMostOnce(posts)
    ensures JobPosts(posts, b, job) == |JobKeys(posts, b, job)|
    decreases |posts|
  {
    if posts != [] {
      var rest := posts[1..];
      JobPostsAreKeys(rest, b, job);
      assert posts == [posts[0]] + rest;
      var keys := JobKeys(rest, b, job);
      if ForJob(posts[0], b, job) {
        forall i | 0 <= i < |rest| && ForJob(rest[i], b, job)
          ensures rest[i].key.n != posts[0].key.n
        {
          assert posts[i + 1].key != posts[0].key;
        }
        assert JobKeys(posts, b, job) == keys + {posts[0].key.n};
      } else {
        assert JobKeys(posts, b, job) == keys;
      }
    } else {
      assert JobKeys(posts, b, job) == {};
    }
  }

  lemma {:induction false} BoundedSet(s: set<nat>, m: nat)
    requires forall n :: n in s ==> 1 <= n <= m
    ensures |s| <= m
  {
    if m == 0 {
      assert s == {};
    } else {
      BoundedSet(s - {m}, m - 1);
    }
  }

  lemma JobBound(posts: seq<Post>, b: Batch, job: string)
    requires AtMostOnce(posts) && forall i :: 0 <= i < |posts| ==> posts[i].key.Valid()
    ensures JobPosts(posts, b, job) <= b.maxAttempts
  {
    JobPostsAreKeys(posts, b, job);
    BoundedSet(JobKeys(posts, b, job), b.maxAttempts);
  }
}
