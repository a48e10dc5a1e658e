/**
 The bounded ReAct loop of one turn and what it saves.  Everything the environment decides (model
 replies, tool results, failures, cancellation, whether a save commits) is read from an oracle.
 */
module TurnLoop {
  import opened Wrappers
  import opened Conversation
  import opened ContextEngine
  import opened AbortRepair
  import opened OpenCalls
  import opened TurnEvents

  // ---- what the environment decides ------------------------------------------------------

  /** How an awaited operation ends: normally, with an exception, or by cancelling the asyncio task. */
  datatype Fault = Fine | Raise | Cancel

  datatype Tool = ImageInspect | OtherTool

  datatype Call = Call(id: string, tool: Tool)

  datatype Chunk = Chunk(content: string, reasoning: string, calls: seq<Call>, terminal: bool, error: bool)
  {
    predicate Observable() { content != "" || reasoning != "" || calls != [] }
  }

  /** One chunk of a stream; the turn may have been interrupted by the time it arrives. */
  datatype Arrival = Arrival(chunk: Chunk, interrupt: bool)

  /** A tool result; `callId` is `None` when the tool echoes the id of the call. */
  datatype Outcome = Outcome(callId: Option<string>, text: string, ok: bool, observed: bool)

  /** An automatic look at the screen, and the user message it leads to, if any. */
  datatype Look = Look(callId: string, complaint: Option<string>)

  datatype Moment = Moment(fault: Fault, interrupt: bool, arrivals: seq<Arrival>, outcome: Outcome,
                           look: Option<Look>, commits: bool, schemas: nat)
  {
    /** The operation ends normally and nobody interrupts the turn. */
    predicate Quiet() { fault.Fine? && !interrupt }

    /** ... nor does anybody while a stream arrives. */
    predicate Calm() { Quiet() && forall k :: 0 <= k < |arrivals| ==> !arrivals[k].interrupt }
  }

  /** The text of the first `n` chunks of a stream. */
  function ContentsTo(arrivals: seq<Arrival>, n: nat): string
    requires n <= |arrivals|
  {
    if n == 0 then "" else ContentsTo(arrivals, n - 1) + arrivals[n - 1].chunk.content
  }

  function Contents(arrivals: seq<Arrival>): string { ContentsTo(arrivals, |arrivals|) }

  /** The last terminal chunk among the first `n`. */
  function TerminalTo(arrivals: seq<Arrival>, n: nat): Option<Chunk>
    requires n <= |arrivals|
  {
    if n == 0 then None
    else if arrivals[n - 1].chunk.terminal then Some(arrivals[n - 1].chunk)
    else TerminalTo(arrivals, n - 1)
  }

  function Terminal(arrivals: seq<Arrival>): Option<Chunk> { TerminalTo(arrivals, |arrivals|) }

  /** Nothing in the first `n` chunks can be observed. */
  predicate SilentTo(arrivals: seq<Arrival>, n: nat)
    requires n <= |arrivals|
  {
    forall k :: 0 <= k < n ==> !arrivals[k].chunk.Observable()
  }

  /** The chunk at `k` reports an error before anything could be observed. */
  predicate QuietError(arrivals: seq<Arrival>, k: nat)
    requires k < |arrivals|
  {
    arrivals[k].chunk.terminal && arrivals[k].chunk.error && SilentTo(arrivals, k + 1)
  }

  /** The streams after which a first attempt is repeated: they fail, by an error or for want of a
      terminal chunk, and show nothing. */
  predicate FailedQuietly(arrivals: seq<Arrival>) {
    || (exists k :: 0 <= k < |arrivals| && QuietError(arrivals, k))
    || (SilentTo(arrivals, |arrivals|) && Terminal(arrivals).None?)
  }

  /** The events of a chunk, and those of the first `n` chunks of a stream. */
  function Tell(log: Log, chunk: Chunk, request: nat, attempt: nat): Log {
    var said := if chunk.content == "" then log else Then(log, Delta(request, attempt, chunk.content));
    if chunk.reasoning == "" then said else Then(said, Delta(request, attempt, chunk.reasoning))
  }

  function ToldTo(log: Log, arrivals: seq<Arrival>, n: nat, request: nat, attempt: nat): Log
    requires n <= |arrivals|
  {
    if n == 0 then log
    else Tell(ToldTo(log, arrivals, n - 1, request, attempt), arrivals[n - 1].chunk, request, attempt)
  }

  function Told(log: Log, arrivals: seq<Arrival>, request: nat, attempt: nat): Log {
    ToldTo(log, arrivals, |arrivals|, request, attempt)
  }

  /** What a turn has of a stream: its events, text and last terminal chunk, and how it looks so far. */
  datatype Heard = Heard(log: Log, content: string, reply: Option<Chunk>, emitted: bool, failed: bool)
  {
    ghost function Next(chunk: Chunk, request: nat, attempt: nat): Heard {
      Heard(Tell(log, chunk, request, attempt), content + chunk.content,
            if chunk.terminal then Some(chunk) else reply,
            emitted || chunk.Observable(), if chunk.terminal then chunk.error else failed)
    }

    ghost function To(arrivals: seq<Arrival>, n: nat, request: nat, attempt: nat): Heard
      requires n <= |arrivals|
    {
      if n == 0 then this else To(arrivals, n - 1, request, attempt).Next(arrivals[n - 1].chunk, request, attempt)
    }

    /** Chunks that cannot be observed leave only their last terminal one. */
    ghost predicate Nothing(h: Heard) {
      log == h.log && content == h.content && (reply == h.reply || (reply.Some? && reply.value.calls == []))
    }
  }

  /** What is heard of a stream. */
  lemma {:induction false} HeardIs(h: Heard, arrivals: seq<Arrival>, n: nat, request: nat, attempt: nat)
    requires n <= |arrivals| && !h.emitted && h.failed
    ensures var all, last := h.To(arrivals, n, request, attempt), TerminalTo(arrivals, n);
            && all.log == ToldTo(h.log, arrivals, n, request, attempt)
            && all.content == h.content + ContentsTo(arrivals, n)
            && all.reply == (if last.None? then h.reply else last)
            && (all.emitted <==> !SilentTo(arrivals, n)) && (!all.emitted ==> all.Nothing(h))
            && (all.failed <==> last.None? || last.value.error)
  {
    if n > 0 {
      HeardIs(h, arrivals, n - 1, request, attempt);
    }
  }

  /** A silent stream without a quiet error does not end in an error. */
  lemma {:induction false} NoQuietError(arrivals: seq<Arrival>, n: nat)
    requires n <= |arrivals| && SilentTo(arrivals, n) && forall k :: 0 <= k < n ==> !QuietError(arrivals, k)
    ensures TerminalTo(arrivals, n).None? || !TerminalTo(arrivals, n).value.error
  {
    if n > 0 {
      assert !QuietError(arrivals, n - 1);
      NoQuietError(arrivals, n - 1);
    }
  }

  /** How the reading of a stream ends. */
  datatype Stream = Ended | Interrupt | GaveUp

  datatype Request = Request(runtime: Message, modelUser: Message, durableUser: Message,
                             imageUnavailable: bool, visionRequired: bool, context: string)
  {
    /** The forms the code gives them: a text, a block list and a text. */
    predicate Valid() {
      && runtime.role.User?
      && modelUser.role.User? && modelUser.content.Blocks?
      && durableUser.role.User? && durableUser.content.Text?
    }
  }

  /** A new turn starts without open calls, and in step exactly if the user's text does not read as a
      runtime context. */
  lemma Beginning(history: seq<Message>, req: Request)
    requires req.Valid()
    ensures InStep(history + [req.runtime, req.modelUser], history + [req.runtime, req.durableUser])
            <==> !req.durableUser.RuntimeContext()
    ensures NoneOpen(history) ==> NoneOpen(history + [req.runtime, req.durableUser])
  {
    InStepSelf(history);
    InStepNext(history, history, req.runtime, req.runtime);
    InStepNext(history + [req.runtime], history + [req.runtime], req.modelUser, req.durableUser);
    UserFormsAlike(req.modelUser, req.durableUser);
    assert history + [req.runtime] + [req.modelUser] == history + [req.runtime, req.modelUser];
    assert history + [req.runtime] + [req.durableUser] == history + [req.runtime, req.durableUser];
    ReadNext(history, req.runtime);
    ReadNext(history + [req.runtime], req.durableUser);
  }

  datatype Checkpoint = Checkpoint(messages: seq<Message>, summary: string, covered: nat)

  /** Every checkpoint holds a conversation without open calls that ends with the assistant. */
  ghost predicate AllGood(commits: seq<Checkpoint>) {
    GoodTo(commits, |commits|)
  }

  ghost predicate GoodTo(commits: seq<Checkpoint>, n: nat)
    requires n <= |commits|
  {
    n == 0 || (GoodTo(commits, n - 1) && Good(commits[n - 1].messages))
  }

  lemma {:induction false} GoodToIs(commits: seq<Checkpoint>, n: nat)
    requires n <= |commits|
    ensures GoodTo(commits, n) <==> forall k :: 0 <= k < n ==> Good(commits[k].messages)
  {
    if n > 0 {
      GoodToIs(commits, n - 1);
    }
  }

  lemma AllGoodIs(commits: seq<Checkpoint>)
    ensures AllGood(commits) <==> forall k :: 0 <= k < |commits| ==> GoodHistory(commits[k].messages)
  {
    GoodToIs(commits, |commits|);
    forall k | 0 <= k < |commits|
      ensures Good(commits[k].messages) <==> GoodHistory(commits[k].messages)
    {
      GoodIs(commits[k].messages);
    }
  }

  lemma AllGoodOne(commits: seq<Checkpoint>, c: Checkpoint)
    requires AllGood(commits) && Good(c.messages)
    ensures AllGood(commits + [c])
  {
    GoodToIs(commits, |commits|);
    GoodToIs(commits + [c], |commits| + 1);
  }

  /** The texts that a turn puts into its messages; only their roles matter here. */
  datatype Wording = Wording(reason: Code -> string, inspectNow: string, budgetReply: string, budgetNotice: string)

  function Ids(calls: seq<Call>): (ids: seq<string>)
    ensures |ids| == |calls| && forall k :: 0 <= k < |ids| ==> ids[k] == calls[k].id
  {
    seq(|calls|, k requires 0 <= k < |calls| => calls[k].id)
  }

  /** The message for a tool's result; a transport failure becomes a result under the call's own id. */
  function ResultOf(call: Call, m: Moment): Message {
    ToolMessage(if m.fault.Raise? then call.id else m.outcome.callId.GetOr(call.id), m.outcome.text)
  }

  predicate FailedInspection(call: Call, m: Moment) {
    call.tool.ImageInspect? && m.fault.Fine? && !m.outcome.ok
  }

  lemma CallTail(calls: seq<Call>, k: nat)
    requires k < |calls|
    ensures CallSet(Ids(calls[k..])) - {calls[k].id} <= CallSet(Ids(calls[k + 1..]))
  {
    forall c | c in CallSet(Ids(calls[k..])) && c != calls[k].id
      ensures c in CallSet(Ids(calls[k + 1..]))
    {
      var x :| 0 <= x < |calls[k..]| && Ids(calls[k..])[x] == c;
      assert Ids(calls[k + 1..])[x - 1] == c;
    }
  }

  /** What became of the prompt. */
  datatype Fit = AsIs | Compacted | TooLarge | Broken

  /** The prompt needs no compaction. */
  ghost predicate FitsAsIs(e: Engine, model: seq<Message>, durable: seq<Message>, schemas: nat, context: string,
                       summary: string, covered: nat)
  {
    && |model| == |durable| && e.reserve + schemas + 256 <= e.window
    && e.tokens(Assemble(e, model, summary, covered, context)) + schemas + e.reserve <= e.window
  }

  /** `prepare`, and what it means for the turn: open calls stay closed, histories in step stay so. */
  method PrepareHistories(e: Engine, model: seq<Message>, durable: seq<Message>, schemas: nat, context: string,
                          summary: string, covered: nat)
    returns (r: Prepared)
    requires e.Valid()
    ensures r.Ready? && NoneOpen(durable) ==> NoneOpen(r.durable)
    ensures r.Ready? && !r.compacted ==>
      r.model == model && r.durable == durable && r.summary == summary && r.covered == covered
    ensures FitsAsIs(e, model, durable, schemas, context, summary, covered) <==> r.Ready? && !r.compacted
    ensures InStep(model, durable) ==> !r.Misaligned? && !r.IndexFault? && (r.Ready? ==> InStep(r.model, r.durable))
  {
    InStepIs(model, durable);
    ghost var n, k;
    r, n, k := Prepare(e, model, durable, schemas, context, summary, covered);
    if r.Ready? {
      CompactedNoneOpen(durable, r.durable, n);
      InStepIs(r.model, r.durable);
    }
  }

  predicate EndedBy(log: Log, code: Code) {
    log.Then? && log.event == Finished(Failed(code))
  }

  /** How a turn that did not complete is reported. */
  function FailureOf(code: Code): (r: Status)
    ensures !r.Success?
  {
    if code.Cancellation? then Interrupted else Failed(code)
  }

  /** The events and messages of a turn so far, the time, and the calls made. */
  datatype Round = Round(log: Log, durable: seq<Message>, clock: nat, toolCalls: nat)

  /** The two histories of a turn with their summary. */
  datatype Histories = Histories(model: seq<Message>, durable: seq<Message>, summary: string, covered: nat)

  function Stored(commits: seq<Checkpoint>): Checkpoint {
    if commits == [] then Checkpoint([], "", 0) else commits[|commits| - 1]
  }

  /** The histories with which a turn begins. */
  function Begun(commits: seq<Checkpoint>, req: Request): Histories {
    var history := Clean(Stored(commits).messages);
    Histories(history + [req.runtime, req.modelUser], history + [req.runtime, req.durableUser],
              Stored(commits).summary, Stored(commits).covered)
  }

  /** What is saved when a turn with these histories is answered: their cleaned messages and the answer. */
  ghost function FinalCheckpoint(h: Histories, text: string): Checkpoint {
    Checkpoint(Clean(h.durable + [AssistantMessage(text, [])]), h.summary, h.covered)
  }

  lemma {:induction false} CleanTwice(ms: seq<Message>)
    ensures Clean(Clean(ms)) == Clean(ms)
    decreases |ms|
  {
    if ms != [] {
      var front, m := ms[..|ms| - 1], ms[|ms| - 1];
      assert ms == front + [m];
      CleanSnoc(front, m);
      CleanTwice(front);
      CleanSnoc(Clean(front), m);
      assert m.RuntimeContext() ==> Clean(ms) == Clean(front);
    }
  }

  /** The user's message and the answer are added to the stored conversation; the runtime context is not. */
  lemma FinalAddsAnswer(stored: seq<Message>, req: Request, h: Histories, text: string)
    requires h.durable == Clean(stored) + [req.runtime, req.durableUser]
    requires req.runtime.RuntimeContext() && !req.durableUser.RuntimeContext()
    ensures FinalCheckpoint(h, text).messages == Clean(stored) + [req.durableUser, AssistantMessage(text, [])]
  {
    var history := Clean(stored);
    CleanTwice(stored);
    CleanSnoc(history, req.runtime);
    CleanSnoc(history + [req.runtime], req.durableUser);
    assert history + [req.runtime] + [req.durableUser] == h.durable;
    CleanSnoc(h.durable, AssistantMessage(text, []));
  }

  /** How a turn ended: with an answer, after which these are the checkpoints, or in some other way. */
  datatype Ending = Answered(commits: seq<Checkpoint>) | Otherwise

  /** How a part of a turn ends. */
  datatype Step = Next | Broke | Returned | Raised | Cancelled

  class Session {
    const engine: Engine
    const maxIterations: nat
    const maxToolCalls: nat
    const screenVerify: bool
    const wording: Wording
    const world: nat -> Moment
    var clock: nat

    /** Every checkpoint ever committed; the store holds the last, with their number as revision. */
    var commits: seq<Checkpoint>

    // The running turn.
    var base: nat
    var model: seq<Message>
    var durable: seq<Message>
    var summary: string
    var covered: nat
    var partial: string
    var toolCalls: nat
    var exhausted: bool
    var observations: nat
    var requests: nat
    var saved: bool
    var terminal: bool
    var cancelled: bool
    /** Some awaited operation of the turn ended because the asyncio task was cancelled. */
    ghost var struck: bool
    /** What was committed before the turn. */
    ghost var before: seq<Checkpoint>
    /** Some save of the turn did not end normally. */
    ghost var lost: bool
    /** The two forms of the turn's user message are in step. */
    ghost var alike: bool
    var log: Log

    constructor (engine: Engine, maxIterations: nat, maxToolCalls: nat, screenVerify: bool, wording: Wording,
                 world: nat -> Moment)
      requires engine.Valid() && maxIterations > 0 && maxToolCalls > 0
      ensures commits == [] && Store()
      ensures this.engine == engine && this.maxIterations == maxIterations && this.maxToolCalls == maxToolCalls
      ensures this.screenVerify == screenVerify && this.wording == wording && this.world == world
    {
      this.engine, this.maxIterations, this.maxToolCalls := engine, maxIterations, maxToolCalls;
      this.screenVerify, this.wording, this.world, clock := screenVerify, wording, world, 0;
      commits, base, model, durable, summary, covered, partial := [], 0, [], [], "", 0, "";
      toolCalls, exhausted, observations, requests, saved, terminal, cancelled, log := 0, false, 0, 0, false, false,
          false, Empty;
    }

    /** Screen verification is off and the tools echo the ids of their calls. */
    ghost predicate Tidy() {
      !screenVerify && forall t: nat :: world(t).outcome.callId.None?
    }

    /** Every checkpoint ever saved is a well-formed conversation. */
    ghost predicate Store() reads this {
      && engine.Valid() && maxToolCalls > 0
      && (Tidy() ==> AllGood(commits))
    }

    /** The monitor accepts the events so far; `cut` when they may end in the middle of a call. */
    ghost predicate Watched(cut: bool) reads this {
      match Watch(log, maxToolCalls)
      case None => false
      case Some(w) =>
        && (w.calling ==> cut) && w.ended == terminal
        && w.starts == toolCalls + (if w.calling then 1 else 0)
        && (exhausted ==> toolCalls >= maxToolCalls) && (w.marked <==> exhausted) && (Tidy() ==> w.echoed)
        && w.request <= requests
    }

    ghost predicate Calling(id: string) reads this {
      Watched(true) && !terminal && Watch(log, maxToolCalls).value.calling && Watch(log, maxToolCalls).value.id == id
    }

    /** At most one checkpoint of this turn has been committed. */
    ghost predicate Once() reads this {
      before <= commits && base == |before| && |commits| <= base + 1
    }

    /** What every part of a turn keeps, however it ends. */
    ghost predicate Sound(cut: bool) reads this {
      && Store() && Watched(cut) && Once() && (alike ==> InStep(model, durable))
      && (Tidy() ==> Read(durable).Some?)
      && (saved ==> lost || |commits| == base + 1)
    }

    /** Every call is answered. */
    ghost predicate AllAnswered() reads this {
      && Sound(false) && !terminal && !saved
      && (Tidy() ==> NoneOpen(durable))
    }

    /** ... and between two iterations a used-up budget is marked as such. */
    ghost predicate Settled() reads this {
      match exhausted
      case true => AllAnswered()
      case false => AllAnswered() && toolCalls < maxToolCalls
    }

    /** During the calls of a reply, of which those from `k` on may still be open. */
    ghost predicate Waiting(calls: seq<Call>, k: nat)
      requires k <= |calls|
      reads this
    {
      && Sound(false) && !terminal && !saved
      && (Tidy() ==> Read(durable).value.open <= CallSet(Ids(calls[k..])) && Read(durable).value.calls == Ids(calls))
    }

    method Await() returns (m: Moment)
      modifies this`clock, this`cancelled, this`struck
      ensures clock == old(clock) + 1 && m == world(old(clock)) && cancelled == (old(cancelled) || m.interrupt)
      ensures struck == (old(struck) || m.fault.Cancel?)
    {
      m := world(clock);
      clock, cancelled, struck := clock + 1, cancelled || m.interrupt, struck || m.fault.Cancel?;
    }

    method Emit(e: Event)
      requires !terminal && Watched(false) && e.Report?
      modifies this`log
      ensures log == Then(old(log), e) && Watched(false)
    {
      log := Then(log, e);
    }

    method Finish(status: Status, ghost cut: bool := false)
      requires !terminal && Watched(cut)
      modifies this`log, this`terminal
      ensures terminal && Watched(cut) && log == Then(old(log), Finished(status))
    {
      log, terminal := Then(log, Finished(status)), true;
    }

    method Append(m: Message)
      requires alike ==> InStep(model, durable)
      modifies this`model, this`durable
      ensures (alike ==> InStep(model, durable)) && durable == old(durable) + [m] && model == old(model) + [m]
    {
      if alike {
        InStepOne(model, durable, m, m);
      }
      model, durable := model + [m], durable + [m];
    }

    /** An assistant message, once no call is open. */
    method AppendReply(reply: Message)
      requires reply.role.Assistant? && (alike ==> InStep(model, durable)) && (Tidy() ==> NoneOpen(durable))
      modifies this`model, this`durable
      ensures (alike ==> InStep(model, durable)) && durable == old(durable) + [reply]
      ensures Tidy() ==> Read(durable) == Some(Reading(CallSet(reply.calls), reply.calls))
    {
      ReadNext(durable, reply);
      Append(reply);
    }

    // ---- saving --------------------------------------------------------------------------

    /** `_save_checkpoint`: compare-and-set on the revision read when the turn began.  Cancelling
        the asyncio task does not stop a commit that is under way. */
    method Save(messages: seq<Message>) returns (f: Fault)
      requires Once() && Store() && (Tidy() ==> Good(messages))
      modifies this`clock, this`cancelled, this`struck, this`commits, this`lost
      ensures Once() && Store() && lost == (old(lost) || !f.Fine?)
      ensures old(|commits|) == base ==> f == world(old(clock)).fault
      ensures old(commits) <= commits && |commits| <= old(|commits|) + 1
      ensures forall k :: old(|commits|) <= k < |commits| ==>
        commits[k] == Checkpoint(Clean(messages), summary, covered)
      ensures f.Cancel? ==> struck
      ensures (old(struck) ==> struck) && (old(cancelled) ==> cancelled)
      ensures f.Fine? ==> old(|commits|) == base && |commits| == base + 1
    {
      var m := Await();
      f := m.fault;
      if |commits| != base {
        f := if f.Fine? then Raise else f;
        lost := true;
        return;
      }
      lost := lost || !f.Fine?;
      if f.Fine? || m.commits {
        if Tidy() {
          CleanGood(messages);
          AllGoodOne(commits, Checkpoint(Clean(messages), summary, covered));
        }
        commits := commits + [Checkpoint(Clean(messages), summary, covered)];
      }
    }

    /** Save the repaired history unless the turn has saved already. */
    method SaveAborted(code: Code) returns (ok: bool)
      requires Once() && Store() && (Tidy() ==> Read(durable).Some?) && (saved ==> lost || |commits| == base + 1)
      modifies this`clock, this`cancelled, this`struck, this`commits, this`saved, this`lost
      ensures Once() && Store() && old(commits) <= commits && (old(lost) ==> lost)
      ensures durable != [] ==> lost || |commits| == base + 1
      ensures forall k :: old(|commits|) <= k < |commits| ==>
        && durable != [] && commits[k].summary == summary && commits[k].covered == covered
        && commits[k].messages == Clean(Sanitized(durable, wording.reason(code), partial))
      ensures ok ==> (saved <==> old(saved) || durable != [])
      ensures !ok ==> saved == old(saved) && struck
      ensures old(saved) ==> ok && commits == old(commits)
      ensures (old(struck) ==> struck) && (old(cancelled) ==> cancelled)
    {
      ok := true;
      if !saved && durable != [] {
        var out := Sanitize(durable, wording.reason(code), partial);
        RepairedGood(durable, wording.reason(code), partial);
        var f := Save(out);
        ok := !f.Cancel?;
        saved := ok;
      }
    }

    /** A turn that has reported its end has tried to save it; a completed turn has saved it. */
    ghost predicate Reported() reads this {
      terminal ==> (saved || durable == []) && (Completed(log) ==> |commits| == base + 1)
    }

    /** Save and report a turn that did not complete. */
    method Fail(code: Code) returns (s: Step)
      requires Sound(false) && !terminal
      modifies this`clock, this`cancelled, this`struck, this`commits, this`saved, this`lost, this`log, this`terminal
      ensures Sound(false) && Reported()
      ensures s.Returned? || (s.Cancelled? && struck)
      ensures terminal <==> s.Returned?
      ensures s.Returned? ==> log == Then(old(log), Finished(FailureOf(code)))
      ensures old(cancelled) ==> cancelled
    {
      var ok := SaveAborted(code);
      if !ok {
        return Cancelled;
      }
      Finish(FailureOf(code));
      s := Returned;
    }

    // ---- the model stream ----------------------------------------------------------------

    /** Request `request` is running and only `attempt` may have delivered output for it. */
    ghost predicate Streaming(request: nat, attempt: nat) reads this {
      match Watch(log, maxToolCalls)
      case None => false
      case Some(w) =>
        Watched(false) && !terminal && requests == request && (w.request < request || w.attempt == attempt)
    }

    method Say(request: nat, attempt: nat, text: string)
      requires Streaming(request, attempt)
      modifies this`log
      ensures Streaming(request, attempt) && log == Then(old(log), Delta(request, attempt, text))
    {
      log := Then(log, Delta(request, attempt, text));
    }

    /** Pass a chunk on to the turn: its texts become events. */
    method Deliver(chunk: Chunk, request: nat, attempt: nat)
      requires Streaming(request, attempt)
      modifies this`log
      ensures Streaming(request, attempt) && log == Tell(old(log), chunk, request, attempt)
    {
      if chunk.content != "" {
        Say(request, attempt, chunk.content);
      }
      if chunk.reasoning != "" {
        Say(request, attempt, chunk.reasoning);
      }
    }

    /** The chunks of one attempt, until the stream ends, the turn is interrupted, or the attempt
        fails in a way that allows another one. */
    method Consume(arrivals: seq<Arrival>, request: nat, attempt: nat, content0: string, reply0: Option<Chunk>)
      returns (end: Stream, content: string, reply: Option<Chunk>, emitted: bool, failed: bool)
      requires Streaming(request, attempt)
      modifies this`cancelled, this`log
      ensures Streaming(request, attempt)
      ensures var now := Heard(log, content, reply, emitted, failed);
              var start := Heard(old(log), content0, reply0, false, true);
              && (end.GaveUp? ==> attempt == 0 && failed && !emitted && now.Nothing(start) && FailedQuietly(arrivals))
              && (end.Ended? ==> now == start.To(arrivals, |arrivals|, request, attempt))
              && (end.Ended? && attempt == 0 ==> forall j :: 0 <= j < |arrivals| ==> !QuietError(arrivals, j))
      ensures end.Interrupt? ==> cancelled
      ensures !old(cancelled) && (forall k :: 0 <= k < |arrivals| ==> !arrivals[k].interrupt) ==> !cancelled
    {
      content, reply, emitted, failed := content0, reply0, false, true;
      ghost var start := Heard(log, content, reply, emitted, failed);
      for k := 0 to |arrivals|
        invariant Streaming(request, attempt)
        invariant Heard(log, content, reply, emitted, failed) == start.To(arrivals, k, request, attempt)
        invariant attempt == 0 ==> forall j :: 0 <= j < k ==> !QuietError(arrivals, j)
        invariant (forall j :: 0 <= j < k ==> !arrivals[j].interrupt) && !old(cancelled) ==> !cancelled
      {
        var chunk := arrivals[k].chunk;
        HeardIs(start, arrivals, k, request, attempt);
        emitted := emitted || chunk.Observable();
        if chunk.terminal {
          failed := chunk.error;
          if attempt == 0 && !emitted && chunk.error {
            assert QuietError(arrivals, k);
            return GaveUp, content, reply, emitted, failed;
          }
        }
        cancelled := cancelled || arrivals[k].interrupt;
        if cancelled {
          return Interrupt, content, reply, emitted, failed;
        }
        Deliver(chunk, request, attempt);
        content := content + chunk.content;
        if chunk.terminal {
          reply := Some(chunk);
        }
      }
      end := Ended;
    }

    /** One attempt.  `retry` says that it failed without observable output; then it delivered
        nothing and its terminal chunk asks for no calls. */
    method Attempt(request: nat, attempt: nat, content0: string, reply0: Option<Chunk>)
      returns (s: Step, content: string, reply: Option<Chunk>, retry: bool)
      requires Streaming(request, attempt)
      modifies this`clock, this`cancelled, this`struck, this`log
      ensures Streaming(request, attempt) && clock == old(clock) + 1
      ensures s.Next? || s.Broke? || s.Raised? || (s.Cancelled? && struck)
      ensures retry ==> s.Next? && log == old(log) && content == content0
      ensures retry && reply.Some? ==> reply == reply0 || reply.value.calls == []
      ensures var m := world(old(clock));
              && (s.Next? ==> (retry <==> attempt == 0 && FailedQuietly(m.arrivals)))
              && (s.Next? && !retry ==>
                    && log == Told(old(log), m.arrivals, request, attempt)
                    && content == content0 + Contents(m.arrivals)
                    && reply == (if Terminal(m.arrivals).None? then reply0 else Terminal(m.arrivals)))
              && (m.Calm() && !old(cancelled) ==> s.Next? && !cancelled)
      ensures s.Broke? ==> cancelled
    {
      var m := Await();
      var end, emitted, failed;
      end, content, reply, emitted, failed := Consume(m.arrivals, request, attempt, content0, reply0);
      if end.Ended? {
        HeardIs(Heard(old(log), content0, reply0, false, true), m.arrivals, |m.arrivals|, request, attempt);
        if attempt == 0 && !emitted {
          NoQuietError(m.arrivals, |m.arrivals|);
        }
      }
      retry := false;
      if end.Ended? && !m.fault.Fine? {
        s := if m.fault.Raise? then Raised else Cancelled;
      } else if cancelled {
        s := Broke;
      } else {
        retry := attempt == 0 && failed && !emitted;
        s := Next;
      }
    }

    method BeginRequest()
      requires Watched(false) && !terminal
      modifies this`requests
      ensures requests == old(requests) + 1 && Streaming(requests, 0) && Streaming(requests, 1)
    {
      requests := requests + 1;
    }

    /** The attempt that counts of the model request at time `t`, and what it says. */
    ghost function AttemptAt(t: nat): (a: nat) {
      if FailedQuietly(world(t).arrivals) then 1 else 0
    }

    ghost function TextAt(t: nat): string {
      Contents(world(t + AttemptAt(t)).arrivals)
    }

    ghost function ReplyAt(t: nat): Option<Chunk> {
      Terminal(world(t + AttemptAt(t)).arrivals)
    }

    /** What a request at time `t` gives: the text of the attempt that counts and its terminal chunk. */
    ghost predicate SaidAt(t: nat, content: string, reply: Option<Chunk>) {
      match ReplyAt(t)
      case Some(chunk) => content == TextAt(t) && reply == Some(chunk)
      case None => content == TextAt(t) && (reply.None? || reply.value.calls == [])
    }

    /** Only the attempt that counts is reported. */
    ghost function Listened(log: Log, t: nat, request: nat): Log {
      Told(log, world(t + AttemptAt(t)).arrivals, request, AttemptAt(t))
    }

    ghost predicate CalmAt(t: nat) {
      world(t).Calm() && world(t + AttemptAt(t)).Calm()
    }

    /** `_stream_model_with_retry` and the loop that consumes it.  The content is that of one
        attempt, the second exactly if the first failed quietly, and calls come from that attempt too. */
    method StreamModel() returns (s: Step, content: string, reply: Option<Chunk>)
      requires Watched(false) && !terminal
      modifies this`clock, this`cancelled, this`struck, this`log, this`requests
      ensures Watched(false) && !terminal && requests == old(requests) + 1
      ensures s.Next? || s.Broke? || s.Raised? || (s.Cancelled? && struck)
      ensures s.Next? ==> Streaming(old(requests) + 1, AttemptAt(old(clock)))
      ensures s.Next? ==> clock == old(clock) + AttemptAt(old(clock)) + 1 && SaidAt(old(clock), content, reply)
      ensures s.Next? ==> log == Listened(old(log), old(clock), requests)
      ensures s.Broke? ==> cancelled
      ensures CalmAt(old(clock)) && !old(cancelled) ==> s.Next? && !cancelled
    {
      BeginRequest();
      var retry;
      s, content, reply, retry := Attempt(requests, 0, "", None);
      if retry {
        s, content, reply, retry := Attempt(requests, 1, content, reply);
      }
    }

    // ---- tool calls ----------------------------------------------------------------------

    method Start(id: string)
      requires Watched(false) && !terminal && toolCalls < maxToolCalls
      modifies this`log
      ensures Calling(id) && log == Then(old(log), Started(id))
    {
      log := Then(log, Started(id));
    }

    method Complete(id: string, ghost started: string)
      requires Calling(started) && (Tidy() ==> id == started)
      modifies this`log, this`toolCalls
      ensures Watched(false) && toolCalls == old(toolCalls) + 1 && log == Then(old(log), Done(id))
    {
      log := Then(log, Done(id));
      toolCalls := toolCalls + 1;
    }

    method Remark(text: string)
      requires screenVerify && (alike ==> InStep(model, durable))
      modifies this`model, this`durable
      ensures (alike ==> InStep(model, durable)) && (Tidy() ==> Read(durable).Some?)
    {
      Append(UserMessage(text));
    }

    /** An automatic verification call after a GUI action; its complaint becomes a user message. */
    method Verify(look: Look) returns (s: Step)
      requires Sound(false) && !terminal && !saved && toolCalls < maxToolCalls && screenVerify
      modifies this`clock, this`cancelled, this`struck, this`log, this`toolCalls, this`model, this`durable
      ensures s.Next? || (s.Cancelled? && struck)
      ensures Sound(s.Cancelled?) && !terminal && !saved && toolCalls >= old(toolCalls)
    {
      Start(look.callId);
      var m := Await();
      if m.fault.Cancel? {
        return Cancelled;
      }
      Complete(look.callId, look.callId);
      if m.fault.Fine? && look.complaint.Some? {
        Remark(look.complaint.value);
      }
      s := Next;
    }

    /** The response to the call at `k`. */
    method AppendResult(message: Message, ghost calls: seq<Call>, ghost k: nat)
      requires k < |calls| && Waiting(calls, k) && message.role.Tool? && (Tidy() ==> message.callId == calls[k].id)
      modifies this`model, this`durable
      ensures Waiting(calls, k + 1) && durable == old(durable) + [message]
    {
      if Tidy() {
        ReadNext(durable, message);
        CallTail(calls, k);
      }
      Append(message);
    }

    ghost function Now(): Round reads this`log, this`durable, this`clock, this`toolCalls {
      Round(log, durable, clock, toolCalls)
    }

    /** A call run at the present time. */
    ghost function RanCall(r: Round, call: Call): Round {
      var result := ResultOf(call, world(r.clock));
      Round(Then(Then(r.log, Started(call.id)), Done(result.callId)), r.durable + [result], r.clock + 1,
            r.toolCalls + 1)
    }

    /** One proposed call and its result message. */
    method Answer(call: Call, ghost calls: seq<Call>, ghost k: nat) returns (s: Step, m: Moment)
      requires k < |calls| && Waiting(calls, k) && calls[k] == call && toolCalls < maxToolCalls
      modifies this`clock, this`cancelled, this`struck, this`log, this`toolCalls, this`model, this`durable
      ensures s.Next? || (s.Cancelled? && struck)
      ensures s.Next? ==> Waiting(calls, k + 1)
      ensures m == world(old(clock)) && (s.Next? <==> !m.fault.Cancel?)
      ensures s.Next? ==> Now() == RanCall(old(Now()), call)
      ensures Sound(s.Cancelled?) && !terminal && !saved && toolCalls >= old(toolCalls)
    {
      Start(call.id);
      m := Await();
      if m.fault.Cancel? {
        return Cancelled, m;
      }
      Complete(ResultOf(call, m).callId, call.id);
      AppendResult(ResultOf(call, m), calls, k);
      s := Next;
    }

    /** One call of a reply, with what follows it: a failed image inspection ends the turn, a GUI
        action may be verified. */
    method RunCall(call: Call, ghost calls: seq<Call>, ghost k: nat) returns (s: Step)
      requires k < |calls| && Waiting(calls, k) && calls[k] == call && toolCalls < maxToolCalls
      modifies this`clock, this`cancelled, this`struck, this`log, this`toolCalls, this`model, this`durable,
               this`commits, this`saved, this`lost, this`terminal, this`observations
      ensures s.Next? || s.Returned? || (s.Cancelled? && struck)
      ensures s.Next? ==> Waiting(calls, k + 1)
      ensures Sound(s.Cancelled?) && (terminal <==> s.Returned?)
      ensures Reported()
      ensures FailedInspection(call, world(old(clock))) ==> !s.Next?
      ensures !screenVerify ==> (s.Next? <==> GoesOn(call, old(clock)))
      ensures s.Next? && !screenVerify ==> Now() == RanCall(old(Now()), call)
      ensures s.Returned? ==> EndedBy(log, ImageInspectFailed)
      ensures toolCalls >= old(toolCalls)
    {
      var m;
      s, m := Answer(call, calls, k);
      if s.Cancelled? || m.fault.Raise? {
        return;
      }
      if FailedInspection(call, m) {
        s := Fail(ImageInspectFailed);
        return;
      }
      if screenVerify && m.look.Some? && toolCalls < maxToolCalls {
        s := Verify(m.look.value);
      }
      if call.tool.ImageInspect? && m.outcome.observed {
        observations := observations + 1;
      }
    }

    /** The call that runs at time `t` lets the turn go on. */
    ghost predicate GoesOn(call: Call, t: nat) {
      !world(t).fault.Cancel? && !FailedInspection(call, world(t))
    }

    /** The first `k` calls of a reply have been taken: run, or beyond the budget answered with a notice. */
    ghost function Taken(r: Round, calls: seq<Call>, k: nat): Round
      requires k <= |calls|
    {
      if k == 0 then r else TakenCall(Taken(r, calls, k - 1), calls[k - 1])
    }

    ghost function TakenCall(r: Round, call: Call): Round {
      if r.toolCalls < maxToolCalls then RanCall(r, call)
      else r.(durable := r.durable + [ToolMessage(call.id, wording.budgetReply)])
    }

    /** How many of `k` calls are within the budget, when `used` calls have been made before. */
    function Within(used: nat, k: nat): (n: nat)
      ensures n <= k
    {
      if used + k <= maxToolCalls then k else if used <= maxToolCalls then maxToolCalls - used else 0
    }

    lemma {:induction false} TakenCount(r: Round, calls: seq<Call>, k: nat)
      requires k <= |calls|
      ensures var after, n := Taken(r, calls, k), Within(r.toolCalls, k);
              && after.toolCalls == r.toolCalls + n && after.clock == r.clock + n
    {
      if k > 0 {
        TakenCount(r, calls, k - 1);
      }
    }

    /** The calls within the budget are all run, in order, one after the other. */
    lemma {:induction false} TakenRun(r: Round, calls: seq<Call>, k: nat)
      requires k <= |calls|
      ensures var after, n := Taken(r, calls, k), Within(r.toolCalls, k);
              && after.toolCalls == r.toolCalls + n && after.clock == r.clock + n
              && StartsOf(after.log) == StartsOf(r.log) + Ids(calls[..n])
    {
      TakenCount(r, calls, k);
      if k > 0 {
        TakenRun(r, calls, k - 1);
        var n := Within(r.toolCalls, k);
        if n == k {
          assert Ids(calls[..n]) == Ids(calls[..n - 1]) + [calls[n - 1].id];
        }
      }
    }

    /** Every call of a reply gets its response, in order: its result, or a notice beyond the budget. */
    lemma {:induction false} TakenResponses(r: Round, calls: seq<Call>, k: nat)
      requires k <= |calls|
      ensures var after := Taken(r, calls, k);
              && |after.durable| == |r.durable| + k && after.durable[..|r.durable|] == r.durable
              && forall j :: 0 <= j < k ==> after.durable[|r.durable| + j] == ResponseAt(r, calls, j)
    {
      if k > 0 {
        TakenResponses(r, calls, k - 1);
        TakenOne(r, calls, k);
      }
    }

    lemma TakenOne(r: Round, calls: seq<Call>, k: nat)
      requires 0 < k <= |calls|
      ensures Taken(r, calls, k).durable == Taken(r, calls, k - 1).durable + [ResponseAt(r, calls, k - 1)]
    {
      TakenCount(r, calls, k - 1);
    }

    ghost function ResponseAt(r: Round, calls: seq<Call>, j: nat): Message
      requires j < |calls|
    {
      if r.toolCalls + j < maxToolCalls then ResultOf(calls[j], world(r.clock + j))
      else ToolMessage(calls[j].id, wording.budgetReply)
    }

    /** A call of a reply can be dealt with: it is run, or answered with the notice for the first time. */
    ghost predicate Passes(r: Round, call: Call, marked: bool) {
      if r.toolCalls < maxToolCalls then GoesOn(call, r.clock) else !marked
    }

    ghost predicate AllPass(r: Round, calls: seq<Call>, marked: bool, k: nat)
      requires k <= |calls|
    {
      k == 0 || (AllPass(r, calls, marked, k - 1) && Passes(Taken(r, calls, k - 1), calls[k - 1], marked))
    }

    lemma {:induction false} OnePasses(r: Round, calls: seq<Call>, marked: bool, k: nat, n: nat)
      requires k < n <= |calls| && AllPass(r, calls, marked, n)
      ensures Passes(Taken(r, calls, k), calls[k], marked)
    {
      if k < n - 1 {
        OnePasses(r, calls, marked, k, n - 1);
      }
    }

    /** The first `k` calls have been taken. */
    ghost predicate TakenTo(start: Round, calls: seq<Call>, marked: bool, k: nat)
      requires k <= |calls|
      reads this
    {
      match start
      case Round(_, _, _, _) => screenVerify || (Now() == Taken(start, calls, k) && AllPass(start, calls, marked, k))
    }

    /** The call at `k` of a reply: it is run within the budget.  Beyond it the call is answered with
        a notice, unless the budget was marked exhausted before; then the turn fails. */
    method TakeCall(calls: seq<Call>, k: nat) returns (s: Step)
      requires k < |calls| && Waiting(calls, k)
      modifies this`clock, this`cancelled, this`struck, this`log, this`toolCalls, this`model, this`durable,
               this`commits, this`saved, this`lost, this`terminal, this`observations
      ensures s.Next? || s.Returned? || (s.Cancelled? && struck)
      ensures Sound(s.Cancelled?) && (terminal <==> s.Returned?) && Reported()
      ensures s.Next? ==> Waiting(calls, k + 1) && (exhausted ==> old(toolCalls) < maxToolCalls)
      ensures toolCalls >= old(toolCalls)
      ensures !screenVerify && s.Next? ==> Now() == TakenCall(old(Now()), calls[k])
      ensures !screenVerify ==> (s.Next? <==> Passes(old(Now()), calls[k], exhausted))
      ensures s.Returned? ==> EndedBy(log, ImageInspectFailed) || (EndedBy(log, ToolLimitReached) && exhausted)
    {
      if toolCalls < maxToolCalls {
        s := RunCall(calls[k], calls, k);
      } else if exhausted {
        s := Fail(ToolLimitReached);
      } else {
        AppendResult(ToolMessage(calls[k].id, wording.budgetReply), calls, k);
        s := Next;
      }
    }

    /** The calls of one reply; was one of them beyond the budget? */
    method RunCalls(calls: seq<Call>) returns (s: Step, limitHit: bool)
      requires Waiting(calls, 0)
      modifies this`clock, this`cancelled, this`struck, this`log, this`toolCalls, this`model, this`durable,
               this`commits, this`saved, this`lost, this`terminal, this`observations
      ensures s.Next? || s.Returned? || (s.Cancelled? && struck)
      ensures s.Next? ==> AllAnswered()
      ensures Sound(s.Cancelled?) && (terminal <==> s.Returned?) && Reported()
      ensures limitHit ==> toolCalls >= maxToolCalls && (s.Next? ==> !exhausted)
      ensures s.Next? ==> TakenTo(old(Now()), calls, exhausted, |calls|)
      ensures !s.Next? ==> screenVerify || !AllPass(old(Now()), calls, exhausted, |calls|)
      ensures s.Returned? ==> EndedBy(log, ImageInspectFailed) || (EndedBy(log, ToolLimitReached) && exhausted)
    {
      limitHit := false;
      for k := 0 to |calls|
        invariant Waiting(calls, k)
        invariant limitHit ==> toolCalls >= maxToolCalls && !exhausted
        invariant TakenTo(old(Now()), calls, exhausted, k)
      {
        limitHit := limitHit || toolCalls >= maxToolCalls;
        s := TakeCall(calls, k);
        if !s.Next? {
          if !screenVerify && AllPass(old(Now()), calls, exhausted, |calls|) {
            OnePasses(old(Now()), calls, exhausted, k, |calls|);
          }
          return;
        }
      }
      NoneWaiting(calls);
      s := Next;
    }

    lemma NoneWaiting(calls: seq<Call>)
      requires Waiting(calls, |calls|)
      ensures AllAnswered()
    {
      assert CallSet(Ids(calls[|calls|..])) == {};
      assert Tidy() ==> Read(durable).value.open == {};
    }

    // ---- one iteration -------------------------------------------------------------------

    /** What holds after a part of a turn that ends with `s`; only a finished turn has reported. */
    ghost predicate After(s: Step) reads this {
      match s
      case Next => Settled()
      case Broke => Settled()
      case Returned => Sound(false) && terminal && Reported()
      case Raised => Sound(false) && !terminal
      case Cancelled => Sound(true) && !terminal && struck
    }

    /** Compact both histories, if the current turn can be made to fit.  Histories that are not in
        step may end in an exception. */
    method Refit(context: string, schemas: nat) returns (fit: Fit)
      requires engine.Valid() && (alike ==> InStep(model, durable))
      modifies this`model, this`durable, this`summary, this`covered
      ensures (alike ==> InStep(model, durable)) && (alike ==> !fit.Broken?)
      ensures old(NoneOpen(durable)) ==> NoneOpen(durable)
      ensures !fit.Compacted? ==> Both() == old(Both())
      ensures old(FitsAsIs(engine, model, durable, schemas, context, summary, covered)) <==> fit.AsIs?
    {
      var r := PrepareHistories(engine, model, durable, schemas, context, summary, covered);
      if r.Ready? {
        fit := if r.compacted then Compacted else AsIs;
        model, durable, summary, covered := r.model, r.durable, r.summary, r.covered;
      } else {
        fit := if r.Misaligned? || r.IndexFault? then Broken else TooLarge;
      }
    }

    /** At time `t` the prompt needs no compaction; with the tool budget used up it offers no tools. */
    ghost predicate FitsAt(t: nat, context: string, h: Histories, marked: bool) {
      match h
      case Histories(model, durable, summary, covered) =>
        FitsAsIs(engine, model, durable, if marked then 0 else world(t).schemas, context, summary, covered)
    }

    ghost function Both(): Histories reads this`model, this`durable, this`summary, this`covered {
      Histories(model, durable, summary, covered)
    }

    method Prepared(context: string) returns (fit: Fit)
      requires Settled()
      modifies this`clock, this`cancelled, this`struck, this`model, this`durable, this`summary, this`covered
      ensures Settled() && (alike ==> !fit.Broken?)
      ensures clock == old(clock) + 1 && cancelled == (old(cancelled) || world(old(clock)).interrupt)
      ensures !fit.Compacted? ==> Both() == old(Both())
      ensures FitsAt(old(clock), context, old(Both()), exhausted) <==> fit.AsIs?
    {
      var m := Await();
      fit := Refit(context, if exhausted then 0 else m.schemas);
    }

    method Compact(context: string) returns (s: Step)
      requires Settled()
      modifies this`clock, this`cancelled, this`struck, this`commits, this`saved, this`lost, this`log, this`terminal,
               this`model, this`durable, this`summary, this`covered
      ensures !s.Broke? && After(s) && (alike ==> !s.Raised?)
      ensures s.Returned? ==> log == Then(old(log), Finished(Failed(ContextBudgetExceeded)))
      ensures s.Next? ==> clock == old(clock) + 1
      ensures FitsAt(old(clock), context, old(Both()), exhausted) ==>
        && s.Next? && Now() == old(Now()).(clock := old(clock) + 1) && Both() == old(Both())
        && commits == old(commits) && cancelled == (old(cancelled) || world(old(clock)).interrupt)
    {
      var fit := Prepared(context);
      if fit.Broken? {
        return Raised;
      }
      if fit.TooLarge? {
        s := Fail(ContextBudgetExceeded);
        return;
      }
      if fit.Compacted? {
        Emit(Report);
      }
      s := Next;
    }

    /** The final answer is appended and saved. */
    method SaveReply(content: string) returns (f: Fault)
      requires Settled()
      modifies this`clock, this`cancelled, this`struck, this`commits, this`lost, this`model, this`durable
      ensures Sound(false) && (f.Fine? ==> |commits| == base + 1) && (f.Cancel? ==> struck)
      ensures durable == old(durable) + [AssistantMessage(content, [])]
      ensures f.Fine? ==> commits == before + [FinalCheckpoint(old(Both()), content)]
      ensures old(|commits|) == base ==> f == world(old(clock)).fault
    {
      var reply := AssistantMessage(content, []);
      assert CallSet(reply.calls) == {};
      AppendReply(reply);
      f := Save(durable);
    }

    /** Has the turn saved, reported completion and so ended? */
    ghost function Ending(): Ending reads this`saved, this`terminal, this`log, this`commits {
      if saved && terminal && Completed(log) then Answered(commits) else Otherwise
    }

    /** The turn was answered: to the histories it had, this text was added, and it was saved. */
    ghost function Finale(h: Histories, text: string): Ending reads this`before {
      Answered(before + [FinalCheckpoint(h, text)])
    }

    /** A reply without calls: ask again for a required image, or save and complete the turn. */
    method Conclude(content: string, visionRequired: bool) returns (s: Step)
      requires Settled()
      modifies this`clock, this`cancelled, this`struck, this`commits, this`saved, this`lost, this`log, this`terminal,
               this`model, this`durable
      ensures (s.Next? || s.Returned? || s.Raised? || s.Cancelled?) && After(s)
      ensures s.Returned? ==> Ending() == Finale(old(Both()), content)
      ensures s.Next? <==> visionRequired && old(observations) == 0
      ensures s.Next? ==> durable == old(durable) + [UserMessage(wording.inspectNow)]
      ensures !s.Next? && old(|commits|) == base && world(old(clock)).fault.Fine? ==> s.Returned?
    {
      if visionRequired && observations == 0 {
        AppendUser(wording.inspectNow);
        return Next;
      }
      var f := SaveReply(content);
      if !f.Fine? {
        return if f.Raise? then Raised else Cancelled;
      }
      saved := true;
      Finish(Success);
      s := Returned;
    }

    method AppendUser(text: string)
      requires Settled()
      modifies this`model, this`durable
      ensures Settled() && durable == old(durable) + [UserMessage(text)]
    {
      ReadNext(durable, UserMessage(text));
      Append(UserMessage(text));
    }

    /** The model has asked for calls. */
    ghost function Asked(r: Round, content: string, calls: seq<Call>): Round {
      r.(durable := r.durable + [AssistantMessage(content, Ids(calls))])
    }

    /** What the calls of a reply lead to: all are taken, and if they use up the budget a notice is
        added; or, `None`, one of them ends the turn. */
    ghost function TakenUp(asked: Round, calls: seq<Call>, marked: bool): Option<Round> {
      if !AllPass(asked, calls, marked, |calls|) then None
      else
        var r := Taken(asked, calls, |calls|);
        Some(if marked || r.toolCalls < maxToolCalls then r else Noted(r))
    }

    /** Where the turn is, if it goes on. */
    ghost function GoesOnAt(s: Step): Option<Round> reads this`log, this`durable, this`clock, this`toolCalls {
      if s.Next? then Some(Now()) else None
    }

    ghost function Reports(r: Round): Round { r.(log := Then(r.log, Report)) }

    ghost function Noted(r: Round): Round {
      r.(log := Then(r.log, Exhausted), durable := r.durable + [UserMessage(wording.budgetNotice)])
    }

    /** Run the calls of a reply, and mark the budget when it is used up. */
    method UseTools(content: string, calls: seq<Call>) returns (s: Step)
      requires Settled()
      modifies this`clock, this`cancelled, this`struck, this`log, this`toolCalls, this`model, this`durable,
               this`commits, this`saved, this`lost, this`terminal, this`observations, this`exhausted
      ensures (s.Next? || s.Returned? || s.Cancelled?) && After(s)
      ensures screenVerify || GoesOnAt(s) == TakenUp(Asked(old(Now()), content, calls), calls, old(exhausted))
      ensures s.Returned? ==> !Completed(log) && !LeftOff(log)
    {
      Ask(content, calls);
      var limitHit;
      s, limitHit := RunCalls(calls);
      if s.Next? && (limitHit || (toolCalls >= maxToolCalls && !exhausted)) {
        MarkExhausted();
      }
    }

    method Ask(content: string, calls: seq<Call>)
      requires Settled()
      modifies this`model, this`durable
      ensures Waiting(calls, 0) && Now() == Asked(old(Now()), content, calls)
    {
      AppendReply(AssistantMessage(content, Ids(calls)));
      assert calls[0..] == calls;
    }

    /** The tool budget is used up: mark it and say so. */
    method MarkExhausted()
      requires AllAnswered() && toolCalls >= maxToolCalls
      modifies this`exhausted, this`log, this`model, this`durable
      ensures Settled() && exhausted && Now() == Noted(old(Now()))
    {
      exhausted := true;
      log := Then(log, Exhausted);
      AppendUser(wording.budgetNotice);
    }

    /** The model did not answer: no terminal chunk, or one that reports an error. */
    predicate Failing(reply: Option<Chunk>) { reply.None? || reply.value.error }

    /** It answered with text alone. */
    predicate Texts(reply: Option<Chunk>) { reply.Some? && !reply.value.error && reply.value.calls == [] }

    /** The turn was left because it was interrupted or all its iterations were used. */
    ghost predicate LeftOff(log: Log) {
      EndedBy(log, IterationLimitReached) || (log.Then? && log.event == Finished(Interrupted))
    }

    /** Act on a model reply. */
    method React(content: string, reply: Option<Chunk>, visionRequired: bool) returns (s: Step)
      requires Settled()
      modifies this`clock, this`cancelled, this`struck, this`log, this`toolCalls, this`model, this`durable,
               this`commits, this`saved, this`lost, this`terminal, this`observations, this`exhausted
      ensures !s.Broke? && After(s)
      ensures s.Returned? && Failing(reply) ==> log == Then(old(log), Finished(Failed(ProviderFailed)))
      ensures Failing(reply) ==> s.Returned? || s.Cancelled?
      ensures s.Returned? ==> !LeftOff(log)
      ensures s.Returned? && Completed(log) ==>
        Ending() == Finale(old(Both()), content) && Texts(reply)
      ensures Texts(reply) && (visionRequired ==> old(observations) > 0)
              && old(|commits|) == base && world(old(clock)).fault.Fine?
              ==> Ending() == Finale(old(Both()), content)
      ensures !Failing(reply) && reply.value.calls != [] ==>
        var calls := reply.value.calls;
        screenVerify || GoesOnAt(s) == TakenUp(Asked(Reports(old(Now())), content, calls), calls, old(exhausted))
    {
      if Failing(reply) {
        s := Fail(ProviderFailed);
        return;
      }
      Emit(Report);
      if reply.value.calls == [] {
        s := Conclude(content, visionRequired);
      } else {
        s := UseTools(content, reply.value.calls);
      }
    }

    /** One request to the model; what it says is kept in case the turn is cut off. */
    method AskModel() returns (s: Step, content: string, reply: Option<Chunk>)
      requires Settled()
      modifies this`clock, this`cancelled, this`struck, this`log, this`requests, this`partial
      ensures (s.Next? || s.Broke? || s.Raised? || s.Cancelled?) && After(s) && requests == old(requests) + 1
      ensures s.Next? ==> clock == old(clock) + AttemptAt(old(clock)) + 1 && SaidAt(old(clock), content, reply)
      ensures partial == if s.Next? && |Trimmed(content)| > 0 then Trimmed(content) else old(partial)
      ensures s.Next? ==> log == Listened(old(log), old(clock), requests)
      ensures s.Broke? ==> cancelled
      ensures CalmAt(old(clock)) && !old(cancelled) ==> s.Next? && !cancelled
    {
      s, content, reply := StreamModel();
      if s.Next? && |Trimmed(content)| > 0 {
        partial := Trimmed(content);
      }
    }

    /** An iteration at time `t` is not interrupted, and its prompt fits as it is. */
    ghost predicate PeaceAt(t: nat, context: string, h: Histories, marked: bool) {
      !world(t).interrupt && !world(t + 1).interrupt && FitsAt(t + 1, context, h, marked)
    }

    /** The model's reply at time `t` is text alone, and saving it works. */
    ghost predicate TextReplyAt(t: nat) {
      match ReplyAt(t)
      case None => false
      case Some(chunk) =>
        CalmAt(t) && !chunk.error && chunk.calls == [] && world(t + 1 + AttemptAt(t)).fault.Fine?
    }

    /** The model's reply at time `t` asks for calls. */
    ghost predicate CallsAt(t: nat) {
      match ReplyAt(t)
      case None => false
      case Some(chunk) => CalmAt(t) && !chunk.error && chunk.calls != []
    }

    /** An iteration in peace is answered with text. */
    ghost predicate ConcludesAt(t: nat, context: string, h: Histories, marked: bool) {
      match h
      case Histories(_, _, _, _) => PeaceAt(t, context, h, marked) && TextReplyAt(t + 2)
    }

    /** What the turn is when the model has asked for calls. */
    ghost function AskedAt(r: Round, request: nat): Round {
      var heard := Round(Listened(r.log, r.clock, request), r.durable, r.clock + 1 + AttemptAt(r.clock), r.toolCalls);
      Asked(Reports(heard), TextAt(r.clock), CallsOf(r.clock))
    }

    ghost function CallsOf(t: nat): seq<Call> {
      match ReplyAt(t)
      case None => []
      case Some(chunk) => chunk.calls
    }

    lemma SaidIs(t: nat, content: string, reply: Option<Chunk>)
      requires SaidAt(t, content, reply)
      ensures content == TextAt(t)
      ensures CallsAt(t) ==> !Failing(reply) && reply.value.calls == CallsOf(t) != []
      ensures TextReplyAt(t) ==> Texts(reply) && world(t + 1 + AttemptAt(t)).fault.Fine?
    {
    }

    /** Act on the reply of the request at time `t`. */
    method Heed(content: string, reply: Option<Chunk>, visionRequired: bool, ghost t: nat)
      returns (s: Step)
      requires Settled() && SaidAt(t, content, reply) && clock == t + 1 + AttemptAt(t)
      modifies this`clock, this`cancelled, this`struck, this`log, this`toolCalls, this`model, this`durable,
               this`commits, this`saved, this`lost, this`terminal, this`observations, this`exhausted
      ensures !s.Broke? && After(s)
      ensures s.Returned? ==> !LeftOff(log)
      ensures TextReplyAt(t) && old(|commits|) == base && (visionRequired ==> old(observations) > 0) ==>
        Ending() == Finale(old(Both()), TextAt(t))
      ensures CallsAt(t) ==>
        var calls := CallsOf(t);
        screenVerify || GoesOnAt(s) == TakenUp(Asked(Reports(old(Now())), TextAt(t), calls), calls, old(exhausted))
    {
      SaidIs(t, content, reply);
      s := React(content, reply, visionRequired);
    }

    /** Ask the model and act on its reply. */
    method Respond(visionRequired: bool, ghost t: nat) returns (s: Step)
      requires Settled() && t == clock
      modifies this`clock, this`cancelled, this`struck, this`log, this`toolCalls, this`model, this`durable,
               this`commits, this`saved, this`lost, this`terminal, this`observations, this`exhausted, this`requests,
               this`partial
      ensures After(s) && requests == old(requests) + 1
      ensures s.Broke? ==> cancelled
      ensures s.Returned? ==> !LeftOff(log)
      ensures TextReplyAt(t) && !old(cancelled) && old(|commits|) == base
              && (visionRequired ==> old(observations) > 0) ==>
        Ending() == Finale(old(Both()), TextAt(t))
    {
      var content, reply;
      s, content, reply := AskModel();
      if s.Next? {
        s := Heed(content, reply, visionRequired, t);
      }
    }

    /** An interrupted turn is left; otherwise the prompt is made to fit. */
    method Approach(context: string) returns (s: Step)
      requires Settled()
      modifies this`clock, this`cancelled, this`struck, this`commits, this`saved, this`lost, this`log, this`terminal,
               this`model, this`durable, this`summary, this`covered
      ensures After(s)
      ensures s.Broke? ==> cancelled
      ensures s.Returned? ==> !LeftOff(log)
      ensures s.Next? ==> clock == old(clock) + 2
      ensures PeaceAt(old(clock), context, old(Both()), exhausted) && !old(cancelled) ==>
        && s.Next? && Both() == old(Both())
        && commits == old(commits) && !cancelled
    {
      var stop := Interruption();
      if stop {
        return Broke;
      }
      s := Compact(context);
    }

    /** One iteration: compact, ask the model, act on its reply. */
    method Iterate(req: Request) returns (s: Step)
      requires Settled()
      modifies this`clock, this`cancelled, this`struck, this`log, this`toolCalls, this`model, this`durable,
               this`summary, this`covered,
               this`commits, this`saved, this`lost, this`terminal, this`observations, this`exhausted, this`requests,
               this`partial
      ensures After(s) && requests <= old(requests) + 1 && (s.Next? ==> requests == old(requests) + 1)
      ensures s.Broke? ==> cancelled
      ensures s.Returned? ==> !LeftOff(log)
      ensures ConcludesAt(old(clock), req.context, old(Both()), old(exhausted))
              && !old(cancelled) && old(|commits|) == base
              && (req.visionRequired ==> old(observations) > 0) ==>
        Ending() == Finale(old(Both()), TextAt(old(clock) + 2))
    {
      ghost var t := clock + 2;
      s := Approach(req.context);
      if s.Next? {
        s := Respond(req.visionRequired, t);
      }
    }

    // ---- the turn ------------------------------------------------------------------------

    /** Has the turn been interrupted? */
    method Interruption() returns (yes: bool)
      requires Settled()
      modifies this`clock, this`cancelled
      ensures yes == cancelled && Settled()
      ensures clock == old(clock) + 1 && cancelled == (old(cancelled) || world(old(clock)).interrupt)
    {
      cancelled, clock := cancelled || world(clock).interrupt, clock + 1;
      yes := cancelled;
    }

    /** At most `maxIterations` iterations, unless interrupted. */
    method Iterations(req: Request) returns (s: Step)
      requires Settled()
      modifies this`clock, this`cancelled, this`struck, this`log, this`toolCalls, this`model, this`durable,
               this`summary, this`covered,
               this`commits, this`saved, this`lost, this`terminal, this`observations, this`exhausted, this`requests,
               this`partial
      ensures After(s) && requests <= old(requests) + maxIterations
      ensures s.Next? ==> requests == old(requests) + maxIterations
      ensures s.Broke? ==> cancelled
      ensures s.Returned? ==> !LeftOff(log)
      ensures maxIterations > 0 && ConcludesAt(old(clock), req.context, old(Both()), old(exhausted))
              && !old(cancelled) && old(|commits|) == base
              && (req.visionRequired ==> old(observations) > 0) ==>
        Ending() == Finale(old(Both()), TextAt(old(clock) + 2))
    {
      ghost var t, h, marked := clock, Both(), exhausted;
      ghost var atOnce := ConcludesAt(t, req.context, h, marked) && !cancelled && |commits| == base
                          && (req.visionRequired ==> observations > 0);
      for i := 0 to maxIterations
        invariant Settled() && requests == old(requests) + i
        invariant i == 0 || !atOnce
        invariant i == 0 ==> clock == t && Both() == h && exhausted == marked && cancelled == old(cancelled)
        invariant i == 0 ==> commits == old(commits) && observations == old(observations)
      {
        s := Iterate(req);
        if !s.Next? {
          return;
        }
      }
      s := Next;
    }

    /** The iterations, and how a turn is left that they did not end. */
    method Loop(req: Request) returns (s: Step)
      requires Settled()
      modifies this`clock, this`cancelled, this`struck, this`log, this`toolCalls, this`model, this`durable,
               this`summary, this`covered,
               this`commits, this`saved, this`lost, this`terminal, this`observations, this`exhausted, this`requests,
               this`partial
      ensures (s.Returned? || s.Raised? || s.Cancelled?) && After(s) && requests <= old(requests) + maxIterations
      ensures s.Returned? && EndedBy(log, IterationLimitReached) ==> requests == old(requests) + maxIterations
      ensures s.Returned? && log.Then? && log.event == Finished(Interrupted) ==> cancelled
      ensures maxIterations > 0 && ConcludesAt(old(clock), req.context, old(Both()), old(exhausted))
              && !old(cancelled) && old(|commits|) == base
              && (req.visionRequired ==> old(observations) > 0) ==>
        Ending() == Finale(old(Both()), TextAt(old(clock) + 2))
    {
      s := Iterations(req);
      if s.Next? || s.Broke? {
        var interrupted := Interruption();
        s := Fail(if interrupted then Cancellation else IterationLimitReached);
      }
    }

    /** The loop of a turn that begins at time `t` with `h` is answered at once. */
    ghost predicate AnsweredAt(req: Request, t: nat, h: Histories) {
      match h
      case Histories(_, _, _, _) =>
        && maxIterations > 0 && !req.imageUnavailable && !req.visionRequired
        && ConcludesAt(t, req.context, h, false)
    }

    method Work(req: Request) returns (s: Step)
      requires req.Valid() && Sound(false) && durable == [] == model && !terminal && !saved && toolCalls < maxToolCalls
      modifies this`clock, this`cancelled, this`struck, this`log, this`toolCalls, this`model, this`durable,
               this`summary, this`covered,
               this`commits, this`saved, this`lost, this`terminal, this`observations, this`exhausted, this`requests,
               this`partial, this`alike
      ensures (s.Returned? || s.Raised? || s.Cancelled?) && After(s) && requests <= old(requests) + maxIterations
      ensures old(alike) && !req.durableUser.RuntimeContext() ==> alike
      ensures req.imageUnavailable ==>
        s.Returned? && log == Then(old(log), Finished(Failed(VisionUnavailable))) && commits == old(commits)
      ensures AnsweredAt(req, old(clock), Begun(old(commits), req)) && !old(cancelled) && old(|commits|) == base ==>
        Ending() == Finale(Begun(old(commits), req), TextAt(old(clock) + 2))
    {
      if req.imageUnavailable {
        Finish(Failed(VisionUnavailable));
        s := Returned;
      } else {
        s := Proceed(req);
      }
    }

    method Proceed(req: Request) returns (s: Step)
      requires req.Valid() && Sound(false) && durable == [] == model && !terminal && !saved && toolCalls < maxToolCalls
      modifies this`clock, this`cancelled, this`struck, this`log, this`toolCalls, this`model, this`durable,
               this`summary, this`covered,
               this`commits, this`saved, this`lost, this`terminal, this`observations, this`exhausted, this`requests,
               this`partial, this`alike
      ensures (s.Returned? || s.Raised? || s.Cancelled?) && After(s) && requests <= old(requests) + maxIterations
      ensures alike <==> !req.durableUser.RuntimeContext()
      ensures AnsweredAt(req, old(clock), Begun(old(commits), req)) && !old(cancelled) && old(|commits|) == base ==>
        Ending() == Finale(Begun(old(commits), req), TextAt(old(clock) + 2))
    {
      Begin(req);
      s := Loop(req);
    }

    /** What holds when the body of a turn ends with `s`; `cut` if that was in a tool call. */
    ghost predicate BodyOver(s: Step, cut: bool) reads this {
      match s
      case Next => false
      case Broke => false
      case Returned => Sound(cut) && Reported() && (cut ==> struck) && terminal
      case Raised => Sound(cut) && Reported() && (cut ==> struck)
      case Cancelled => Sound(cut) && Reported() && struck
    }

    /** The next turn is set up in peace, and answered at once. */
    ghost predicate AnsweredAtOnce(req: Request, t: nat, h: Histories) {
      match h
      case Histories(_, _, _, _) => world(t).Quiet() && world(t + 1).Quiet() && AnsweredAt(req, t + 2, h)
    }

    /** Load the checkpoint, connect the tools and run the loop; leaving the tools' scope may fail
        in its own right, whatever has happened before. */
    method Body(req: Request) returns (s: Step, ghost cut: bool)
      requires req.Valid() && Sound(false) && durable == [] == model && !terminal && !saved && toolCalls < maxToolCalls
      modifies this`clock, this`cancelled, this`struck, this`log, this`toolCalls, this`model, this`durable,
               this`summary, this`covered,
               this`commits, this`saved, this`lost, this`terminal, this`observations, this`exhausted, this`requests,
               this`partial, this`alike
      ensures BodyOver(s, cut) && requests <= old(requests) + maxIterations
      ensures old(alike) && !req.durableUser.RuntimeContext() ==> alike
      ensures AnsweredAtOnce(req, old(clock), Begun(old(commits), req)) && !old(cancelled) && old(|commits|) == base ==>
        Ending() == Finale(Begun(old(commits), req), TextAt(old(clock) + 4))
    {
      cut := false;
      s := SetUp();
      if s.Next? {
        s, cut := WithTools(req);
      }
    }

    method WithTools(req: Request) returns (s: Step, ghost cut: bool)
      requires req.Valid() && Sound(false) && durable == [] == model && !terminal && !saved && toolCalls < maxToolCalls
      modifies this`clock, this`cancelled, this`struck, this`log, this`toolCalls, this`model, this`durable,
               this`summary, this`covered,
               this`commits, this`saved, this`lost, this`terminal, this`observations, this`exhausted, this`requests,
               this`partial, this`alike
      ensures BodyOver(s, cut) && requests <= old(requests) + maxIterations
      ensures old(alike) && !req.durableUser.RuntimeContext() ==> alike
      ensures AnsweredAt(req, old(clock), Begun(old(commits), req)) && !old(cancelled) && old(|commits|) == base ==>
        Ending() == Finale(Begun(old(commits), req), TextAt(old(clock) + 2))
    {
      s := Work(req);
      s, cut := CloseTools(s);
    }

    /** Load the checkpoint and connect the tools. */
    method SetUp() returns (s: Step)
      modifies this`clock, this`cancelled, this`struck
      ensures s.Next? || s.Raised? || (s.Cancelled? && struck)
      ensures world(old(clock)).Quiet() && world(old(clock) + 1).Quiet() ==>
        s.Next? && clock == old(clock) + 2 && cancelled == old(cancelled)
    {
      var m := Await();
      if m.fault.Fine? {
        m := Await();
      }
      match m.fault
      case Fine => s := Next;
      case Raise => s := Raised;
      case Cancel => s := Cancelled;
    }

    /** Leaving the tools' scope. */
    method CloseTools(s0: Step) returns (s: Step, ghost cut: bool)
      requires After(s0) && (s0.Returned? || s0.Raised? || s0.Cancelled?)
      modifies this`clock, this`cancelled, this`struck
      ensures BodyOver(s, cut)
    {
      s, cut := s0, s0.Cancelled?;
      var closed := Await();
      if !closed.fault.Fine? {
        s := if closed.fault.Raise? then Raised else Cancelled;
      }
    }

    /** Both histories: the stored conversation, the runtime context and the user's message. */
    method Begin(req: Request)
      requires req.Valid() && Sound(false) && !terminal && !saved && toolCalls < maxToolCalls
      modifies this`model, this`durable, this`summary, this`covered, this`alike
      ensures Settled() && (alike <==> !req.durableUser.RuntimeContext()) && (alike <==> InStep(model, durable))
      ensures Both() == Begun(old(commits), req)
    {
      var stored := Stored(commits);
      if Tidy() && commits != [] {
        CleanGood(stored.messages);
      }
      var history := Clean(stored.messages);
      Beginning(history, req);
      alike := !req.durableUser.RuntimeContext();
      model, durable := history + [req.runtime, req.modelUser], history + [req.runtime, req.durableUser];
      summary, covered := stored.summary, stored.covered;
    }

    /** What holds at the end of a turn: whatever there was to save is saved, unless a save failed. */
    ghost predicate Over(s: Step) reads this {
      match s
      case Next => false
      case Broke => false
      case Raised => false
      case Returned => Saved() && terminal
      case Cancelled => Saved() && struck
    }

    ghost predicate Saved() reads this {
      && Store() && Once() && Watched(struck) && (alike ==> InStep(model, durable))
      && (Completed(log) ==> |commits| == base + 1) && (durable != [] ==> lost || |commits| == base + 1)
    }

    /** What the handlers of `_run_turn` do with the end of its body. */
    method Handle(s0: Step, ghost cut: bool) returns (s: Step)
      requires BodyOver(s0, cut)
      modifies this`clock, this`cancelled, this`struck, this`commits, this`saved, this`lost, this`log, this`terminal
      ensures Over(s)
      ensures old(saved && terminal) ==> Ending() == old(Ending())
    {
      match s0
      case Returned =>
        s := Returned;
      case Raised =>
        s := HandleException(cut);
      case Cancelled =>
        cancelled := true;
        var ok := SaveAborted(Cancellation);
        s := Cancelled;
    }

    /** `except Exception` */
    method HandleException(ghost cut: bool) returns (s: Step)
      requires Sound(cut) && Reported() && (cut ==> struck)
      modifies this`clock, this`cancelled, this`struck, this`commits, this`saved, this`lost, this`log, this`terminal
      ensures Over(s)
      ensures old(saved && terminal) ==> Ending() == old(Ending())
    {
      var ok := SaveAborted(RuntimeFailed);
      if !ok {
        return Cancelled;
      }
      if !terminal {
        Finish(Failed(RuntimeFailed), cut);
      }
      s := Returned;
    }

    method ClearEvents()
      modifies this`toolCalls, this`exhausted, this`requests, this`terminal, this`log
      ensures Watched(false) && !terminal && log == Empty && toolCalls == 0 == requests
    {
      toolCalls, exhausted, requests, terminal, log := 0, false, 0, false, Empty;
    }

    method ClearSaves()
      requires Store()
      modifies this`before, this`base, this`saved, this`lost
      ensures before == commits && Once() && Store() && !saved && !lost
    {
      before, base, saved, lost := commits, |commits|, false, false;
    }

    method ClearHistory()
      modifies this`model, this`durable, this`partial, this`observations, this`cancelled, this`struck, this`alike
      ensures durable == [] == model && alike && InStep(model, durable) && NoneOpen(durable) && !cancelled
    {
      model, durable, partial, observations := [], [], "", 0;
      cancelled, struck, alike := false, false, true;
    }

    method Reset()
      requires Store()
      modifies this
      ensures commits == old(commits) == before && durable == [] == model && !terminal && !saved && Sound(false)
      ensures toolCalls == 0 == requests && alike && !cancelled && clock == old(clock)
    {
      ClearEvents();
      ClearSaves();
      ClearHistory();
    }

    /**
     A whole turn of at most `maxIterations` model requests, for any user message.  It ends normally,
     with exactly one terminal event that is the last one, unless the asyncio task itself is
     cancelled; at most `maxToolCalls` calls are started, none after the budget was marked as used
     up; each start is directly followed by its finish unless the asyncio task is cancelled; no
     request delivers output of two attempts.  It commits at most one checkpoint, exactly one if it
     completed or if it had anything to save and no save failed, and every checkpoint stays a good
     history.  The two histories are in step unless the user's text reads as a runtime context.
     */
    method RunTurn(req: Request) returns (s: Step)
      requires req.Valid() && Store()
      modifies this
      ensures Store() && old(commits) <= commits && |commits| <= old(|commits|) + 1
      ensures SafeEvents(log.Events(), struck, Tidy(), maxToolCalls)
      ensures s.Returned? || (s.Cancelled? && struck)
      ensures s.Returned? ==> Terminated(log.Events())
      ensures Completed(log) ==> |commits| == old(|commits|) + 1
      ensures requests <= maxIterations
      ensures durable != [] && !lost ==> |commits| == old(|commits|) + 1
      ensures !req.durableUser.RuntimeContext() ==> Aligned(model, durable)
      ensures AnsweredAtOnce(req, old(clock), Begun(old(commits), req)) ==>
        && Completed(log)
        && commits == old(commits) + [FinalCheckpoint(Begun(old(commits), req), TextAt(old(clock) + 4))]
    {
      s := Play(req);
      InStepIs(model, durable);
      AcceptedSafe(log, struck, Tidy(), maxToolCalls);
    }

    /** The body of a turn, and its handlers. */
    method Play(req: Request) returns (s: Step)
      requires req.Valid() && Store()
      modifies this
      ensures Over(s) && before == old(commits) && requests <= maxIterations
      ensures !req.durableUser.RuntimeContext() ==> alike
      ensures AnsweredAtOnce(req, old(clock), Begun(old(commits), req)) ==>
        Ending() == Finale(Begun(old(commits), req), TextAt(old(clock) + 4))
    {
      Reset();
      ghost var cut;
      s, cut := Body(req);
      s := Handle(s, cut);
    }

    /** Any number of turns of a session. */
    method Converse(reqs: seq<Request>)
      requires Store() && forall k :: 0 <= k < |reqs| ==> reqs[k].Valid()
      modifies this
      ensures old(commits) <= commits && |commits| <= old(|commits|) + |reqs|
      ensures Tidy() ==> forall k :: 0 <= k < |commits| ==> GoodHistory(commits[k].messages)
    {
      for i := 0 to |reqs|
        invariant Store() && old(commits) <= commits && |commits| <= old(|commits|) + i
      {
        var s := RunTurn(reqs[i]);
      }
      AllGoodIs(commits);
    }
  }
}
