/**
 The code of the retry actions: `_retry` claims, checks, posts and records; `retry_oom_jobs` runs
 it in a bounded loop behind one batch key.  What GitLab answers, and when the process dies, is
 read from an oracle.  Every call is a run of the protocol.
 */
module RetryClient {
  import opened RetryActions

  /** The checks before retrying a job: passed, blocked, or failed with an exception. */
  datatype Check = Passed | Blocked | Broken

  /** Before an attempt of a batch: is the job still failed for lack of memory? */
  datatype Look = OutOfMemory | Stop | LookFailed

  /** After an attempt: the new job succeeded, failed, was not named, or did not finish in time. */
  datatype Wait = Finished | FailedAgain(job: string) | NotNamed | TimedOut

  datatype Moment = Moment(check: Check, outcome: Outcome, look: Look, wait: Wait, peerOk: bool, dies: bool)

  datatype Result = Ok(payload: string) | Error | Crashed

  /** How an attempt ends: with another one due, for this job; with none due; or in a failure. */
  datatype Trial = Again(job: string) | Done | Broke

  /** The attempts at one job: when they began, and how many started jobs that failed again. */
  datatype Turn = Turn(start: nat, n: nat)

  /** The turns of the jobs so far, each with how many of its attempts failed again. */
  datatype Course = Start | Then(before: Course, n: nat)
  {
    function Jobs(): nat {
      match this
      case Start => 0
      case Then(before, _) => before.Jobs() + 1
    }
  }

  function AsResult(pc: Pc): Result {
    if pc.Returned? then Ok(pc.payload) else Error
  }

  ghost predicate NoDuplicates(ids: seq<string>) {
    forall i, j :: 0 <= i < j < |ids| ==> ids[i] != ids[j]
  }

  /** `tuple(dict.fromkeys(ids))` */
  method Distinct(ids: seq<string>) returns (out: seq<string>)
    ensures NoDuplicates(out) && forall id :: id in out <==> id in ids
  {
    out := [];
    for i := 0 to |ids|
      invariant NoDuplicates(out) && forall id :: id in out <==> id in ids[..i]
    {
      assert ids[..i + 1] == ids[..i] + [ids[i]];
      if ids[i] !in out {
        out := out + [ids[i]];
      }
    }
    assert ids[..|ids|] == ids;
  }

  lemma SameEmpty(out: seq<string>, ids: seq<string>)
    requires forall id :: id in out <==> id in ids
    ensures out == [] <==> ids == []
  {
    assert out != [] ==> out[0] in ids;
    assert ids != [] ==> ids[0] in out;
  }

  lemma {:induction false} ReachesOne(w: World, actions: seq<Action>, v: World, a: Action)
    requires Reaches(w, actions, v) && Enabled(v, a)
    ensures Reaches(w, actions + [a], Next(v, a))
    decreases |actions|
  {
    var all := actions + [a];
    if actions == [] {
      assert all[1..] == [];
    } else {
      assert all[1..] == actions[1..] + [a];
      ReachesOne(Next(w, actions[0]), actions[1..], v, a);
    }
  }

  lemma {:induction false} ReachesThen(u: World, first: seq<Action>, w: World, second: seq<Action>, v: World)
    requires Reaches(u, first, w) && Reaches(w, second, v)
    ensures Reaches(u, first + second, v)
    decreases |first|
  {
    if first == [] {
      assert first + second == second;
    } else {
      assert (first + second)[1..] == first[1..] + second;
      ReachesThen(Next(u, first[0]), first[1..], w, second, v);
    }
  }

  predicate AttemptOf(key: Key, b: Batch) {
    key.Attempt? && key.batch == b && key.job in b.jobs
  }

  /** Only attempts at this job, up to the `n`-th, have been added, and no other rows were changed. */
  ghost predicate Added(before: map<Key, Row>, after: map<Key, Row>, b: Batch, job: string, n: nat) {
    && (forall k :: k in before && !k.Attempt? ==> k in after && after[k] == before[k])
    && (forall k :: k in after && k !in before ==> k.Attempt? && k.batch == b && k.job == job && k.n <= n)
  }

  /** No attempt of this batch at the job has been made. */
  ghost predicate Fresh(rows: map<Key, Row>, b: Batch, job: string) {
    forall k :: k in rows && k.Attempt? ==> !(k.batch == b && k.job == job)
  }

  /** No attempt of this batch has been made. */
  ghost predicate Unattempted(rows: map<Key, Row>, b: Batch) {
    forall k :: k in rows && k.Attempt? ==> k.batch != b
  }

  /** Nobody has claimed this batch or attempted its jobs, and it is one that the code accepts. */
  ghost predicate Startable(rows: map<Key, Row>, b: Batch) {
    match b
    case Batch(_, _, jobs, max) =>
      1 <= max <= 3 && jobs != [] && NoDuplicates(jobs) && Whole(b) !in rows && Unattempted(rows, b)
  }

  /** The jobs from the `i`-th on have not been attempted. */
  ghost predicate FreshFrom(rows: map<Key, Row>, b: Batch, i: nat) {
    forall k :: i <= k < |b.jobs| ==> Fresh(rows, b, b.jobs[k])
  }

  lemma OthersFresh(u: map<Key, Row>, v: map<Key, Row>, b: Batch, i: nat, n: nat)
    requires NoDuplicates(b.jobs) && i < |b.jobs| && FreshFrom(u, b, i) && Added(u, v, b, b.jobs[i], n)
    ensures FreshFrom(v, b, i + 1)
  {
    forall k | i + 1 <= k < |b.jobs|
      ensures Fresh(v, b, b.jobs[k])
    {
      assert Fresh(u, b, b.jobs[k]) && b.jobs[k] != b.jobs[i];
    }
  }

  lemma AddedThen(u: map<Key, Row>, v: map<Key, Row>, w: map<Key, Row>, b: Batch, job: string, n: nat)
    requires Added(u, v, b, job, n) && Added(v, w, b, job, n + 1)
    ensures Added(u, w, b, job, n + 1)
  {
  }

  lemma AddedMore(u: map<Key, Row>, v: map<Key, Row>, b: Batch, job: string, n: nat, m: nat)
    requires Added(u, v, b, job, n) && n <= m
    ensures Added(u, v, b, job, m)
  {
  }

  lemma NotAdded(u: map<Key, Row>, v: map<Key, Row>, b: Batch, job: string, n: nat)
    requires Added(u, v, b, job, n) && Fresh(u, b, job)
    ensures Attempt(b, job, n + 1) !in v
  {
  }

  class Client {
    const actionsEnabled: bool
    const world: nat -> Moment
    var clock: nat
    var rows: map<Key, Row>
    var posts: seq<Post>
    /** The protocol run that led here, and the calls that are under way in it. */
    ghost var run: seq<Action>
    ghost var callers: map<nat, Caller>

    constructor (actionsEnabled: bool, world: nat -> Moment)
      ensures Valid() && rows == map[] && posts == [] && callers == map[]
      ensures this.actionsEnabled == actionsEnabled && this.world == world
    {
      this.actionsEnabled, this.world, clock, rows, posts := actionsEnabled, world, 0, map[], [];
      run, callers := [], map[];
    }

    ghost function Now(): World reads this {
      World(rows, callers, posts)
    }

    /** The state is one that the protocol reaches. */
    ghost predicate Valid() reads this {
      Reaches(START, run, Now())
    }

    /** Caller `c` has claimed `key` and is yet to send or give up. */
    ghost predicate Owns(c: nat, key: Key, request: string) reads this {
      Valid() && c in callers && callers[c] == Caller(key, request, Owning) && key in rows
    }

    method Tick() returns (m: Moment)
      modifies this`clock
      ensures m == world(old(clock)) && clock == old(clock) + 1
    {
      m := world(clock);
      clock := clock + 1;
    }

    /** The claim's transaction, for caller `c`. */
    method Claim(c: nat, key: Key, request: string) returns (pc: Pc)
      requires Valid() && key.Valid() && c !in callers
      modifies this`rows, this`run, this`callers
      ensures Valid()
      ensures key in old(rows) ==> rows == old(rows) && callers == old(callers) && pc == Told(old(rows)[key], request)
      ensures key !in old(rows) ==> pc == Owning && rows == old(rows)[key := Row(request, Pending)]
      ensures key !in old(rows) ==> Owns(c, key, request) && callers == old(callers)[c := Caller(key, request, Owning)]
    {
      ghost var w := Now();
      ghost var begun := Next(w, Begin(c, key, request));
      ReachesOne(START, run, w, Begin(c, key, request));
      ReachesOne(START, run + [Begin(c, key, request)], begun, Select(c));
      run := run + [Begin(c, key, request)] + [Select(c)];
      if key in rows {
        pc := Told(rows[key], request);
        ReachesOne(START, run, Next(begun, Select(c)), Crash({c}));
        run := run + [Crash({c})];
        assert Next(Next(begun, Select(c)), Crash({c})).callers == callers;
      } else {
        pc := Owning;
        ReachesOne(START, run, Next(begun, Select(c)), Insert(c));
        assert Next(Next(begun, Select(c)), Insert(c)).callers == callers[c := Caller(key, request, Owning)];
        rows := rows[key := Row(request, Pending)];
        run, callers := run + [Insert(c)], callers[c := Caller(key, request, Owning)];
      }
    }

    /** Caller `c` is gone: it has returned, raised or died. */
    ghost method Leave(c: nat)
      requires Valid()
      modifies this`run, this`callers
      ensures Valid() && callers == old(callers) - {c}
    {
      ReachesOne(START, run, Now(), Crash({c}));
      run, callers := run + [Crash({c})], callers - {c};
    }

    /** Record that the checks did not pass. */
    method RecordBlocked(ghost c: nat, key: Key, ghost request: string)
      requires Owns(c, key, request)
      modifies this`rows, this`run, this`callers
      ensures Valid() && callers == old(callers) - {c} && rows == Completed(old(rows), key, Failed)
    {
      ghost var w := Now();
      ReachesOne(START, run, w, Block(c));
      rows := rows[key := rows[key].(state := Failed)];
      run, callers := run + [Block(c)], Next(w, Block(c)).callers;
      Leave(c);
      assert callers == old(callers) - {c};
    }

    /** The POST. */
    method Send(ghost c: nat, key: Key, request: string, outcome: Outcome)
      requires Owns(c, key, request) && !key.Whole?
      modifies this`posts, this`run, this`callers
      ensures Valid() && posts == old(posts) + [Post(key, request, outcome)]
      ensures callers == old(callers)[c := Caller(key, request, Posted(outcome))]
    {
      ghost var w := Now();
      ReachesOne(START, run, w, RetryActions.Send(c, outcome));
      posts := posts + [Post(key, request, outcome)];
      run, callers := run + [RetryActions.Send(c, outcome)], Next(w, RetryActions.Send(c, outcome)).callers;
    }

    /** Record the outcome of the POST. */
    method RecordOutcome(ghost c: nat, key: Key, ghost request: string, outcome: Outcome)
      requires Valid() && c in callers && callers[c] == Caller(key, request, Posted(outcome)) && key in rows
      modifies this`rows, this`run, this`callers
      ensures Valid() && callers == old(callers) - {c} && rows == Completed(old(rows), key, Recorded(outcome))
    {
      ghost var w := Now();
      ReachesOne(START, run, w, Record(c));
      rows := rows[key := rows[key].(state := Recorded(outcome))];
      run, callers := run + [Record(c)], Next(w, Record(c)).callers;
      Leave(c);
      assert callers == old(callers) - {c};
    }

    /**
     `_retry`.  A key that is taken is only read; otherwise at most one POST is sent, for this key
     and request.  Success is returned only once it is recorded.
     */
    method Retry(key: Key, request: string, isJob: bool) returns (r: Result)
      requires Valid() && key.Valid() && !key.Whole? && 0 !in callers
      modifies this`clock, this`rows, this`posts, this`run, this`callers
      ensures Valid() && callers == old(callers)
      ensures !actionsEnabled || key in old(rows) ==> rows == old(rows) && posts == old(posts)
      ensures actionsEnabled && key in old(rows) ==> r == AsResult(Told(old(rows)[key], request))
      ensures actionsEnabled && key !in old(rows) ==>
        var t := old(clock);
        && clock == t + (if Sends(t, isJob) then 2 else 1)
        && posts == old(posts) + (if Sends(t, isJob) then [Post(key, request, world(t).outcome)] else [])
        && key in rows && rows[key] == Row(request, StateAfter(t, isJob)) && r == ResultAfter(t, isJob)
      ensures posts == old(posts) || exists o :: posts == old(posts) + [Post(key, request, o)]
      ensures r.Ok? ==> key in rows && rows[key] == Row(request, Success(r.payload))
      ensures forall k :: k in old(rows) && k != key ==> k in rows && rows[k] == old(rows)[k]
      ensures forall k :: k in rows && k != key ==> k in old(rows)
    {
      if !actionsEnabled {
        return Error;
      }
      var pc := Claim(0, key, request);
      if !pc.Owning? {
        return AsResult(pc);
      }
      assert old(callers) == callers - {0};
      r := Act(key, request, isJob);
    }

    /** The owner of a claim at time `t` gets to its POST: it lives, and a job has passed its checks. */
    ghost predicate Sends(t: nat, isJob: bool) {
      !world(t).dies && (isJob ==> world(t).check.Passed?)
    }

    /** What the owner of a fresh claim leaves recorded: the outcome of its POST if it lived on after
        it, a failure if the checks blocked it, and nothing otherwise. */
    ghost function StateAfter(t: nat, isJob: bool): State {
      if Sends(t, isJob) then if world(t + 1).dies then Pending else Recorded(world(t).outcome)
      else if !world(t).dies && world(t).check.Blocked? then Failed
      else Pending
    }

    /** ... and reports: success exactly if GitLab accepted the POST and that was recorded. */
    ghost function ResultAfter(t: nat, isJob: bool): (r: Result)
      ensures r.Ok? <==> Sends(t, isJob) && world(t).outcome.Accepted? && !world(t + 1).dies
    {
      if world(t).dies || (Sends(t, isJob) && world(t + 1).dies) then Crashed
      else if Sends(t, isJob) && world(t).outcome.Accepted? then Ok(world(t).outcome.payload)
      else Error
    }

    /** What the owner of a fresh claim does. */
    method Act(key: Key, request: string, isJob: bool) returns (r: Result)
      requires Owns(0, key, request) && !key.Whole? && rows[key] == Row(request, Pending)
      modifies this`clock, this`rows, this`posts, this`run, this`callers
      ensures Valid() && callers == old(callers) - {0}
      ensures var t := old(clock);
              && clock == t + (if Sends(t, isJob) then 2 else 1)
              && posts == old(posts) + (if Sends(t, isJob) then [Post(key, request, world(t).outcome)] else [])
              && rows == Completed(old(rows), key, StateAfter(t, isJob)) && r == ResultAfter(t, isJob)
    {
      var m := Tick();
      if m.dies || (isJob && m.check.Broken?) {
        Leave(0);
        return if m.dies then Crashed else Error;
      }
      if isJob && m.check.Blocked? {
        RecordBlocked(0, key, request);
        return Error;
      }
      Send(0, key, request, m.outcome);
      assert callers - {0} == old(callers) - {0};
      m := Tick();
      var outcome := posts[|posts| - 1].outcome;
      if m.dies {
        Leave(0);
        return Crashed;
      }
      RecordOutcome(0, key, request, outcome);
      r := if outcome.Accepted? then Ok(outcome.payload) else Error;
    }

    // ---- the batch -----------------------------------------------------------------------

    /** Only attempts at jobs of the batch have been sent since `before`. */
    ghost predicate SentForBatch(before: seq<Post>, b: Batch) reads this {
      && before <= posts
      && forall i :: |before| <= i < |posts| ==> AttemptOf(posts[i].key, b)
    }

    /** The attempt at time `t` starts a new job. */
    ghost predicate Restarts(t: nat) {
      world(t).look.OutOfMemory? && Sends(t + 1, true) && world(t + 1).outcome.Accepted? && !world(t + 2).dies
    }

    /** What it leads to: another attempt, the end of the attempts, or a failure. */
    ghost function TrialAt(t: nat): Trial {
      match world(t).look
      case LookFailed => Broke
      case Stop => Done
      case OutOfMemory =>
        if !Restarts(t) then Broke
        else
          match world(t + 3).wait
          case TimedOut => Broke
          case FailedAgain(job) => Again(job)
          case _ => Done
    }

    /** The job that attempt `i` is for, when the attempts began at time `t`. */
    ghost function Current(job: string, t: nat, i: nat): string {
      if i > 0 && TrialAt(t + 4 * (i - 1)).Again? then TrialAt(t + 4 * (i - 1)).job else job
    }

    ghost function AttemptPost(b: Batch, job: string, requestOf: string -> string, t: nat, i: nat): Post {
      Post(Attempt(b, job, i + 1), requestOf(Current(job, t, i)), world(t + 4 * i + 1).outcome)
    }

    /** With the POSTs of the first `n` attempts: each for the job that the one before it had started. */
    ghost function WithAttempts(posts: seq<Post>, b: Batch, job: string, requestOf: string -> string, t: nat, n: nat)
      : seq<Post>
    {
      if n == 0 then posts
      else WithAttempts(posts, b, job, requestOf, t, n - 1) + [AttemptPost(b, job, requestOf, t, n - 1)]
    }

    /** `n` attempts, each of which started a job that failed again. */
    ghost predicate Attempted(t: nat, n: nat) {
      forall i :: 0 <= i < n ==> TrialAt(t + 4 * i).Again?
    }

    /** When an attempt at time `t` after which none is due ends. */
    ghost function EndAt(t: nat): nat { if world(t).look.Stop? then t + 1 else t + 4 }

    /** With the POST of an attempt at time `t`, if it gets to it. */
    ghost function WithPost(posts: seq<Post>, post: Post, t: nat): seq<Post> {
      if world(t).look.OutOfMemory? && Sends(t + 1, true) then posts + [post] else posts
    }

    /** The retry of one attempt, which touches the key of that attempt alone. */
    method RetryAttempt(b: Batch, job: string, n: nat, request: string, ghost before: seq<Post>, ghost t: nat)
      returns (r: Result)
      requires Valid() && 0 !in callers && job in b.jobs && SentForBatch(before, b) && actionsEnabled
      requires n < b.maxAttempts
      modifies this`clock, this`rows, this`posts, this`run, this`callers
      ensures Valid() && callers == old(callers) && SentForBatch(before, b) && old(posts) <= posts
      ensures Added(old(rows), rows, b, job, n + 1)
      ensures Attempt(b, job, n + 1) !in old(rows) && t == old(clock) ==>
        && posts == old(posts)
                    + (if Sends(t, true) then [Post(Attempt(b, job, n + 1), request, world(t).outcome)] else [])
        && r == ResultAfter(t, true) && (r.Ok? ==> clock == t + 2)
    {
      r := Retry(Attempt(b, job, n + 1), request, true);
    }

    /** One attempt, the `n + 1`st, which is for the job `current`. */
    method Try(b: Batch, job: string, n: nat, current: string, requestOf: string -> string, ghost before: seq<Post>,
               ghost t: nat)
      returns (trial: Trial, r: Result)
      requires Valid() && 0 !in callers && job in b.jobs && SentForBatch(before, b) && actionsEnabled
      requires n < b.maxAttempts
      modifies this`clock, this`rows, this`posts, this`run, this`callers
      ensures Valid() && callers == old(callers) && SentForBatch(before, b) && old(posts) <= posts
      ensures Added(old(rows), rows, b, job, n + 1) && (trial.Broke? ==> !r.Ok?) && (trial.Done? ==> r.Ok?)
      ensures Attempt(b, job, n + 1) !in old(rows) && t == old(clock) ==>
        var post := Post(Attempt(b, job, n + 1), requestOf(current), world(t + 1).outcome);
        && trial == TrialAt(t) && posts == WithPost(old(posts), post, t)
        && (trial.Again? ==> clock == t + 4 && posts == old(posts) + [post])
        && (trial.Done? ==> clock == EndAt(t))
    {
      var m := Tick();
      if m.look.LookFailed? {
        return Broke, Error;
      }
      if m.look.Stop? {
        return Done, Ok("");
      }
      r := RetryAttempt(b, job, n, requestOf(current), before, t + 1);
      if !r.Ok? {
        return Broke, r;
      }
      m := Tick();
      match m.wait
      case TimedOut => trial, r := Broke, Error;
      case FailedAgain(again) => trial := Again(again);
      case Finished => trial := Done;
      case NotNamed => trial := Done;
    }

    /**
     The attempts at one job: at most `maxAttempts`, until it succeeds or fails for another reason.
     The first `n` started jobs that failed again.  The call succeeds exactly if nothing broke then.
     */
    method RetryJob(b: Batch, job: string, requestOf: string -> string, ghost before: seq<Post>)
      returns (r: Result, ghost n: nat)
      requires Valid() && 0 !in callers && job in b.jobs && SentForBatch(before, b) && actionsEnabled
      modifies this`clock, this`rows, this`posts, this`run, this`callers
      ensures Valid() && callers == old(callers) && SentForBatch(before, b) && old(posts) <= posts
      ensures Added(old(rows), rows, b, job, b.maxAttempts)
      ensures Fresh(old(rows), b, job) ==> JobRetried(r.Ok?, b, job, requestOf, old(clock), n, old(posts))
    {
      var current, attempts := job, 0;
      ghost var t, first := clock, Fresh(rows, b, job);
      n := 0;
      while attempts < b.maxAttempts
        invariant Valid() && callers == old(callers) && attempts <= b.maxAttempts && SentForBatch(before, b)
        invariant Added(old(rows), rows, b, job, attempts) && old(posts) <= posts && n == attempts
        invariant first ==> Underway(b, job, requestOf, t, n, current, old(posts))
      {
        var trial;
        trial, r := TryNext(b, job, attempts, current, requestOf, before, t, old(posts), old(rows));
        AddedMore(old(rows), rows, b, job, n + 1, b.maxAttempts);
        if !trial.Again? {
          return;
        }
        attempts, current, n := attempts + 1, trial.job, n + 1;
      }
      if first {
        AllTried(b, job, requestOf, t, current, old(posts));
      }
      r := Ok("");
    }

    /** The first `n` attempts have started jobs that failed again, the last of them `current`. */
    ghost predicate Underway(b: Batch, job: string, requestOf: string -> string, t: nat, n: nat, current: string,
                             posts0: seq<Post>)
      reads this`posts, this`clock
    {
      && clock == t + 4 * n && Attempted(t, n) && current == Current(job, t, n)
      && posts == WithAttempts(posts0, b, job, requestOf, t, n)
    }

    lemma AllTried(b: Batch, job: string, requestOf: string -> string, t: nat, current: string, posts0: seq<Post>)
      requires Underway(b, job, requestOf, t, b.maxAttempts, current, posts0)
      ensures JobRetried(true, b, job, requestOf, t, b.maxAttempts, posts0)
    {
    }

    lemma OneMore(t: nat, n: nat, job: string)
      requires Attempted(t, n) && TrialAt(t + 4 * n).Again?
      ensures Attempted(t, n + 1) && Current(job, t, n + 1) == TrialAt(t + 4 * n).job
    {
    }

    /** The attempt that is next after `n` others since time `t`. */
    method TryNext(b: Batch, job: string, n: nat, current: string, requestOf: string -> string,
                   ghost before: seq<Post>, ghost t: nat, ghost posts0: seq<Post>, ghost rows0: map<Key, Row>)
      returns (trial: Trial, r: Result)
      requires Valid() && 0 !in callers && job in b.jobs && SentForBatch(before, b) && actionsEnabled
      requires n < b.maxAttempts && Added(rows0, rows, b, job, n)
      requires Fresh(rows0, b, job) ==> Underway(b, job, requestOf, t, n, current, posts0)
      modifies this`clock, this`rows, this`posts, this`run, this`callers
      ensures Valid() && callers == old(callers) && SentForBatch(before, b) && old(posts) <= posts
      ensures Added(rows0, rows, b, job, n + 1) && (trial.Broke? ==> !r.Ok?) && (trial.Done? ==> r.Ok?)
      ensures Fresh(rows0, b, job) ==>
        if trial.Again? then Underway(b, job, requestOf, t, n + 1, trial.job, posts0)
        else JobRetried(r.Ok?, b, job, requestOf, t, n, posts0)
    {
      ghost var mid, first := rows, Fresh(rows0, b, job);
      if first {
        NotAdded(rows0, rows, b, job, n);
      }
      trial, r := Try(b, job, n, current, requestOf, before, t + 4 * n);
      AddedThen(rows0, mid, rows, b, job, n);
      if first && trial.Again? {
        OneMore(t, n, job);
      }
    }

    // ---- what the attempts at a job, and at all jobs of a batch, amount to ----------------

    /** The attempts go on until their number is used up or none is due. */
    ghost predicate JobOver(b: Batch, x: Turn) {
      x.n <= b.maxAttempts && Attempted(x.start, x.n)
      && (x.n < b.maxAttempts ==> !TrialAt(x.start + 4 * x.n).Again?)
    }

    ghost predicate JobOk(b: Batch, x: Turn) {
      x.n == b.maxAttempts || TrialAt(x.start + 4 * x.n).Done?
    }

    ghost function JobEnd(b: Batch, x: Turn): nat {
      if x.n == b.maxAttempts then x.start + 4 * x.n else EndAt(x.start + 4 * x.n)
    }

    ghost function WithJob(posts: seq<Post>, b: Batch, job: string, requestOf: string -> string, x: Turn): seq<Post> {
      var sent := WithAttempts(posts, b, job, requestOf, x.start, x.n);
      if x.n == b.maxAttempts then sent
      else WithPost(sent, AttemptPost(b, job, requestOf, x.start, x.n), x.start + 4 * x.n)
    }

    /** All POSTs that were due have been sent, and no others. */
    ghost predicate JobRetried(ok: bool, b: Batch, job: string, requestOf: string -> string, t: nat, n: nat,
                               posts0: seq<Post>)
      reads this`posts, this`clock
    {
      var x := Turn(t, n);
      && JobOver(b, x) && (ok <==> JobOk(b, x)) && (ok ==> clock == JobEnd(b, x))
      && posts == WithJob(posts0, b, job, requestOf, x)
    }

    /** When the jobs of a batch that began at time `t` have had these turns. */
    ghost function CourseEnd(b: Batch, t: nat, c: Course): nat {
      match c
      case Start => t
      case Then(before, n) => JobEnd(b, Turn(CourseEnd(b, t, before), n))
    }

    /** The jobs take turns, one after the other, and nothing fails. */
    ghost predicate CourseOk(b: Batch, t: nat, c: Course) {
      match c
      case Start => true
      case Then(before, n) =>
        var x := Turn(CourseEnd(b, t, before), n);
        CourseOk(b, t, before) && JobOver(b, x) && JobOk(b, x)
    }

    ghost function WithJobs(posts: seq<Post>, b: Batch, requestOf: string -> string, t: nat, c: Course): seq<Post>
      requires c.Jobs() <= |b.jobs|
    {
      match c
      case Start => posts
      case Then(before, n) =>
        WithJob(WithJobs(posts, b, requestOf, t, before), b, b.jobs[before.Jobs()], requestOf,
                Turn(CourseEnd(b, t, before), n))
    }

    /** All jobs of a batch had their turns and nothing failed; or the last turn failed. */
    ghost predicate BatchRetried(ok: bool, b: Batch, requestOf: string -> string, t: nat, c: Course, posts0: seq<Post>)
      reads this`posts
    {
      && c.Jobs() <= |b.jobs| && posts == WithJobs(posts0, b, requestOf, t, c)
      && match c
         case Start => ok && b.jobs == []
         case Then(before, n) =>
           var x := Turn(CourseEnd(b, t, before), n);
           CourseOk(b, t, before) && JobOver(b, x) && (if ok then JobOk(b, x) && c.Jobs() == |b.jobs| else !JobOk(b, x))
    }

    /** A batch claimed at time `t` is retried, if the caller lives and a peer of its jobs succeeded. */
    ghost predicate BatchRun(ok: bool, b: Batch, requestOf: string -> string, t: nat, c: Course, posts0: seq<Post>)
      reads this`posts
    {
      if world(t).dies || !world(t).peerOk then !ok && posts == posts0
      else BatchRetried(ok, b, requestOf, t + 1, c, posts0)
    }

    /**
     `retry_oom_jobs`.  A batch that was claimed before is only read; otherwise only attempts at its
     jobs are sent; and over all calls and crashes each of its jobs gets at most `maxAttempts` POSTs
     from this batch.
     */
    method RetryOomJobs(project: string, pipeline: string, ids: seq<string>, maxAttempts: nat,
                        requestOf: string -> string)
      returns (r: Result, ghost b: Batch, ghost course: Course)
      requires Valid() && 0 !in callers && 1 !in callers
      modifies this`clock, this`rows, this`posts, this`run, this`callers
      ensures Valid() && callers == old(callers) && SentForBatch(old(posts), b)
      ensures NoDuplicates(b.jobs) && (forall id :: id in b.jobs <==> id in ids) && b.maxAttempts == maxAttempts
      ensures !actionsEnabled || !(1 <= maxAttempts <= 3) || ids == [] ==>
        r == Error && rows == old(rows) && posts == old(posts)
      ensures Whole(b) in old(rows) ==> rows == old(rows) && posts == old(posts)
      ensures forall job :: JobPosts(posts, b, job) <= maxAttempts
      ensures actionsEnabled && Startable(old(rows), b) ==>
        BatchRun(r.Ok?, b, requestOf, old(clock), course, old(posts))
    {
      var jobs := Distinct(ids);
      SameEmpty(jobs, ids);
      var batch := Batch(project, pipeline, jobs, maxAttempts);
      b := batch;
      r, course := RunBatch(batch, requestOf);
      Bounded(b);
    }

    lemma Bounded(b: Batch)
      requires Valid()
      ensures forall job :: JobPosts(posts, b, job) <= b.maxAttempts
    {
      RunKeeps(START, run, Now());
      forall job
        ensures JobPosts(posts, b, job) <= b.maxAttempts
      {
        JobBound(posts, b, job);
      }
    }

    method RunBatch(b: Batch, requestOf: string -> string) returns (r: Result, ghost course: Course)
      requires Valid() && 0 !in callers && 1 !in callers
      modifies this`clock, this`rows, this`posts, this`run, this`callers
      ensures Valid() && callers == old(callers) && SentForBatch(old(posts), b)
      ensures !actionsEnabled || !(1 <= b.maxAttempts <= 3) || b.jobs == [] ==>
        r == Error && rows == old(rows) && posts == old(posts)
      ensures Whole(b) in old(rows) ==> rows == old(rows) && posts == old(posts)
      ensures actionsEnabled && Startable(old(rows), b) ==>
        BatchRun(r.Ok?, b, requestOf, old(clock), course, old(posts))
    {
      course := Start;
      if !actionsEnabled || !(1 <= b.maxAttempts <= 3) || b.jobs == [] {
        return Error, Start;
      }
      var pc := Claim(1, Whole(b), "");
      if !pc.Owning? {
        return AsResult(pc), Start;
      }
      assert callers - {1} == old(callers);
      var m := Tick();
      if m.dies || !m.peerOk {
        if m.dies {
          Leave(1);
          return Crashed, Start;
        }
        RecordBlocked(1, Whole(b), "");
        return Error, Start;
      }
      r, course := RetryJobs(b, requestOf, posts);
      if r.Ok? {
        RecordBatch(b);
      } else {
        Leave(1);
      }
    }

    method RecordBatch(b: Batch)
      requires Owns(1, Whole(b), "")
      modifies this`rows, this`run, this`callers
      ensures Valid() && callers == old(callers) - {1} && rows == Completed(old(rows), Whole(b), Success(""))
    {
      ghost var w := Now();
      ReachesOne(START, run, w, Close(1, ""));
      rows := rows[Whole(b) := rows[Whole(b)].(state := Success(""))];
      run, callers := run + [Close(1, "")], Next(w, Close(1, "")).callers;
      Leave(1);
      assert callers == old(callers) - {1};
    }

    method RetryJobs(b: Batch, requestOf: string -> string, ghost before: seq<Post>)
      returns (r: Result, ghost course: Course)
      requires actionsEnabled && Valid() && 0 !in callers && SentForBatch(before, b)
      modifies this`clock, this`rows, this`posts, this`run, this`callers
      ensures Valid() && callers == old(callers) && SentForBatch(before, b)
      ensures forall k :: k in old(rows) && !k.Attempt? ==> k in rows && rows[k] == old(rows)[k]
      ensures NoDuplicates(b.jobs) && Unattempted(old(rows), b) ==>
        BatchRetried(r.Ok?, b, requestOf, old(clock), course, old(posts))
    {
      ghost var t, first := clock, NoDuplicates(b.jobs) && Unattempted(rows, b);
      r, course := Ok(""), Start;
      for i := 0 to |b.jobs|
        invariant Valid() && callers == old(callers) && SentForBatch(before, b) && r.Ok?
        invariant forall k :: k in old(rows) && !k.Attempt? ==> k in rows && rows[k] == old(rows)[k]
        invariant first ==> FreshFrom(rows, b, i) && JobsDone(b, requestOf, t, course, i, old(posts))
      {
        r, course := NextJob(b, i, requestOf, before, first, t, course, old(posts));
        if !r.Ok? {
          return;
        }
      }
    }

    /** The `i`-th job of a batch. */
    method NextJob(b: Batch, i: nat, requestOf: string -> string, ghost before: seq<Post>, ghost first: bool,
                   ghost t: nat, ghost course0: Course, ghost posts0: seq<Post>)
      returns (r: Result, ghost course: Course)
      requires actionsEnabled && Valid() && 0 !in callers && SentForBatch(before, b) && i < |b.jobs|
      requires first ==>
        NoDuplicates(b.jobs) && FreshFrom(rows, b, i) && JobsDone(b, requestOf, t, course0, i, posts0)
      modifies this`clock, this`rows, this`posts, this`run, this`callers
      ensures Valid() && callers == old(callers) && SentForBatch(before, b)
      ensures forall k :: k in old(rows) && !k.Attempt? ==> k in rows && rows[k] == old(rows)[k]
      ensures first && r.Ok? ==> FreshFrom(rows, b, i + 1) && JobsDone(b, requestOf, t, course, i + 1, posts0)
      ensures first && !r.Ok? ==> BatchRetried(false, b, requestOf, t, course, posts0)
    {
      ghost var n, mid := 0, rows;
      r, n := RetryJob(b, b.jobs[i], requestOf, before);
      course := Then(course0, n);
      if first {
        OthersFresh(mid, rows, b, i, b.maxAttempts);
      }
    }

    /** The first `i` jobs have had their turns, and nothing failed. */
    ghost predicate JobsDone(b: Batch, requestOf: string -> string, t: nat, c: Course, i: nat, posts0: seq<Post>)
      reads this`posts, this`clock
    {
      && c.Jobs() == i <= |b.jobs| && CourseOk(b, t, c) && clock == CourseEnd(b, t, c)
      && posts == WithJobs(posts0, b, requestOf, t, c)
    }
  }
}
