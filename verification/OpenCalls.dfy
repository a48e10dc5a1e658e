/**
 Reading a conversation from the front: which tool calls are still open, which tool messages have a
 call to answer, and what cleaning, compaction, repair and screen verification do to that.
 */
module OpenCalls {
  import opened Wrappers
  import opened Conversation
  import opened ContextEngine
  import opened AbortRepair

  // ---- the calls that are still open -----------------------------------------------------

  function CallSet(calls: seq<string>): set<string> {
    set c | c in calls && c != ""
  }

  /** Reading a conversation from the front: the call ids still without a response, or `None` once
      a user or assistant message came while some were. */
  ghost function Open(ms: seq<Message>): Option<set<string>> {
    OpenTo(ms, |ms|)
  }

  /** ... after the first `n` messages. */
  ghost function OpenTo(ms: seq<Message>, n: nat): Option<set<string>>
    requires n <= |ms|
  {
    if n == 0 then Some({}) else NowOpen(OpenTo(ms, n - 1), ms[n - 1])
  }

  ghost function NowOpen(before: Option<set<string>>, m: Message): Option<set<string>> {
    if before.None? then None
    else if m.role.Tool? then Some(before.value - {m.callId})
    else if before.value != {} then None
    else Some(if m.role.Assistant? then CallSet(m.calls) else {})
  }

  lemma {:induction false} OpenToPrefix(ms: seq<Message>, m: Message, n: nat)
    requires n <= |ms|
    ensures OpenTo(ms + [m], n) == OpenTo(ms, n)
  {
    if n > 0 {
      OpenToPrefix(ms, m, n - 1);
    }
  }

  lemma OpenNext(ms: seq<Message>, m: Message)
    ensures Open(ms + [m]) == NowOpen(Open(ms), m)
  {
    OpenToPrefix(ms, m, |ms|);
  }

  lemma OpenOne(ms: seq<Message>, m: Message)
    requires Open(ms).Some?
    ensures m.role.Tool? ==> Open(ms + [m]) == Some(Open(ms).value - {m.callId})
    ensures m.Turn() && Open(ms).value == {} ==>
      Open(ms + [m]) == Some(if m.role.Assistant? then CallSet(m.calls) else {})
  {
    OpenNext(ms, m);
  }

  ghost predicate Unanswered(ms: seq<Message>, k: nat, c: string) {
    k < |ms| && ms[k].role.Assistant? && c in ms[k].calls && c != "" && !Answered(ms, k, c)
  }

  /** Calls may be without a response only in the last run of tool messages. */
  ghost predicate OpenAtEnd(ms: seq<Message>) {
    forall k: nat, c :: Unanswered(ms, k, c) ==> NoTurn(ms, k + 1, |ms|)
  }

  /** How one more message changes which calls are unanswered. */
  lemma UnansweredOne(ms: seq<Message>, m: Message, k: nat, c: string)
    requires k < |ms|
    ensures Unanswered(ms + [m], k, c) <==>
            Unanswered(ms, k, c) && !(m.role.Tool? && m.callId == c && NoTurn(ms, k + 1, |ms|))
  {
    var out := ms + [m];
    if Answered(ms, k, c) {
      var j: nat :| Answers(ms, k, c, j);
      assert Answers(out, k, c, j);
    } else if Answered(out, k, c) {
      var j: nat :| Answers(out, k, c, j);
      assert forall x :: 0 <= x < |ms| ==> out[x] == ms[x];
      assert j < |ms| ==> Answers(ms, k, c, j);
    }
    if m.role.Tool? && m.callId == c && NoTurn(ms, k + 1, |ms|) {
      assert Answers(out, k, c, |ms|);
    }
  }

  lemma UnansweredLast(ms: seq<Message>, m: Message, c: string)
    ensures Unanswered(ms + [m], |ms|, c) <==> m.role.Assistant? && c in CallSet(m.calls)
  {
  }

  lemma OpenAtEndOne(ms: seq<Message>, m: Message)
    ensures OpenAtEnd(ms + [m]) <==> OpenAtEnd(ms) && (m.Turn() ==> forall k: nat, c :: !Unanswered(ms, k, c))
  {
    var out := ms + [m];
    forall k: nat, c | k < |ms|
      ensures Unanswered(out, k, c) <==>
        Unanswered(ms, k, c) && !(m.role.Tool? && m.callId == c && NoTurn(ms, k + 1, |ms|))
      ensures NoTurn(out, k + 1, |out|) <==> NoTurn(ms, k + 1, |ms|) && !m.Turn()
    {
      UnansweredOne(ms, m, k, c);
      NoTurnOne(ms, m, k);
    }
    assert forall k: nat, c :: Unanswered(out, k, c) && k >= |ms| ==> NoTurn(out, k + 1, |out|);
    if OpenAtEnd(out) {
      forall k: nat, c | Unanswered(ms, k, c)
        ensures NoTurn(ms, k + 1, |ms|) && !m.Turn()
      {
        assert Unanswered(out, k, c) || NoTurn(ms, k + 1, |ms|);
      }
    }
  }

  lemma NoTurnOne(ms: seq<Message>, m: Message, k: nat)
    requires k < |ms|
    ensures NoTurn(ms + [m], k + 1, |ms| + 1) <==> NoTurn(ms, k + 1, |ms|) && !m.Turn()
  {
    assert forall x :: 0 <= x < |ms| ==> (ms + [m])[x] == ms[x];
    assert (ms + [m])[|ms|] == m;
  }

  /** `Open` computes exactly the unanswered calls, and fails exactly when one came too early. */
  lemma {:induction false} OpenExact(ms: seq<Message>)
    ensures Open(ms).Some? <==> OpenAtEnd(ms)
    ensures Open(ms).Some? ==> forall c :: c in Open(ms).value <==> exists k: nat :: Unanswered(ms, k, c)
    decreases |ms|
  {
    if ms != [] {
      var front, m := ms[..|ms| - 1], ms[|ms| - 1];
      assert ms == front + [m];
      OpenExact(front);
      OpenNext(front, m);
      OpenAtEndOne(front, m);
      if Open(front).Some? && m.Turn() && Open(front).value != {} {
        var c :| c in Open(front).value;
        assert exists k: nat :: Unanswered(front, k, c);
      } else if Open(front).Some? && m.Turn() {
        assert forall k: nat, c :: Unanswered(front, k, c) ==> c in Open(front).value;
      }
      if Open(ms).Some? {
        forall c
          ensures c in Open(ms).value <==> exists k: nat :: Unanswered(ms, k, c)
        {
          OpenStep(front, m, c);
        }
      }
    }
  }

  lemma OpenStep(front: seq<Message>, m: Message, c: string)
    requires Open(front).Some? && Open(front + [m]).Some? && OpenAtEnd(front)
    requires c in Open(front).value <==> exists k: nat :: Unanswered(front, k, c)
    ensures c in Open(front + [m]).value <==> exists k: nat :: Unanswered(front + [m], k, c)
  {
    var ms := front + [m];
    OpenNext(front, m);
    UnansweredLast(front, m, c);
    forall k: nat | k < |front|
      ensures Unanswered(ms, k, c) <==> Unanswered(front, k, c) && !(m.role.Tool? && m.callId == c)
    {
      UnansweredOne(front, m, k, c);
    }
    if c in Open(front).value {
      var k: nat :| Unanswered(front, k, c);
      assert m.role.Tool? && m.callId != c ==> Unanswered(ms, k, c);
    }
  }

  /** Closed conversations are those without an open call. */
  lemma ClosedIffNoneOpen(ms: seq<Message>)
    ensures Closed(ms) <==> Open(ms) == Some({})
    ensures Open(ms).Some? ==> AtMostOneIncomplete(ms)
  {
    OpenExact(ms);
    if Closed(ms) {
      assert forall k: nat, c :: !Unanswered(ms, k, c) by {
        assert forall k: nat, c :: Unanswered(ms, k, c) ==> !CompleteAt(ms, k);
      }
      assert OpenAtEnd(ms) && Open(ms).value == {};
    }
    if Open(ms).Some? {
      forall i, j | 0 <= i < j < |ms|
        ensures CompleteAt(ms, i) || CompleteAt(ms, j)
      {
        if !CompleteAt(ms, i) {
          var c :| c in ms[i].calls && c != "" && !Answered(ms, i, c);
          assert Unanswered(ms, i, c) && !ms[j].Turn();
        }
      }
    }
    if Open(ms) == Some({}) {
      forall k: nat, c | k < |ms| && c in ms[k].calls && c != "" && ms[k].role.Assistant?
        ensures Answered(ms, k, c)
      {
        assert c !in Open(ms).value && !Unanswered(ms, k, c);
      }
    }
  }

  // ---- calls and responses, both ways ----------------------------------------------------

  /** What has been read: the open calls, and all calls of the message whose run this is. */
  datatype Reading = Reading(open: set<string>, calls: seq<string>)

  /** Reading a conversation from the front, or `None` once a user or assistant message came while
      calls were open, or a tool message without a call. */
  ghost function Read(ms: seq<Message>): Option<Reading> {
    ReadTo(ms, |ms|)
  }

  ghost function ReadTo(ms: seq<Message>, n: nat): Option<Reading>
    requires n <= |ms|
  {
    if n == 0 then Some(Reading({}, [])) else ReadOne(ReadTo(ms, n - 1), ms[n - 1])
  }

  ghost function ReadOne(before: Option<Reading>, m: Message): Option<Reading> {
    if before.None? then None
    else if m.role.Tool? then
      if m.callId in before.value.calls then Some(before.value.(open := before.value.open - {m.callId})) else None
    else if before.value.open != {} then None
    else if m.role.Assistant? then Some(Reading(CallSet(m.calls), m.calls))
    else Some(Reading({}, []))
  }

  lemma {:induction false} ReadToPrefix(ms: seq<Message>, m: Message, n: nat)
    requires n <= |ms|
    ensures ReadTo(ms + [m], n) == ReadTo(ms, n)
  {
    if n > 0 {
      ReadToPrefix(ms, m, n - 1);
    }
  }

  lemma ReadNext(ms: seq<Message>, m: Message)
    ensures Read(ms + [m]) == ReadOne(Read(ms), m)
  {
    ReadToPrefix(ms, m, |ms|);
  }

  /** `calls` are those of the message whose run the end of `ms` is in. */
  ghost predicate Speaks(ms: seq<Message>, calls: seq<string>) {
    || (NoTurn(ms, 0, |ms|) && calls == [])
    || exists i: nat :: SpeaksAt(ms, i, calls)
  }

  ghost predicate SpeaksAt(ms: seq<Message>, i: nat, calls: seq<string>) {
    && i < |ms| && ms[i].Turn() && NoTurn(ms, i + 1, |ms|)
    && calls == if ms[i].role.Assistant? then ms[i].calls else []
  }

  lemma SpeaksNext(ms: seq<Message>, m: Message, calls: seq<string>)
    requires Speaks(ms, calls)
    ensures Speaks(ms + [m], if m.Turn() then (if m.role.Assistant? then m.calls else []) else calls)
  {
    var out := ms + [m];
    if m.Turn() {
      assert SpeaksAt(out, |ms|, if m.role.Assistant? then m.calls else []);
    } else if i: nat :| SpeaksAt(ms, i, calls) {
      assert SpeaksAt(out, i, calls);
    }
  }

  /** The next tool message is owned exactly if it answers one of these calls. */
  lemma OwnedNext(ms: seq<Message>, m: Message, calls: seq<string>)
    requires Speaks(ms, calls) && m.role.Tool?
    ensures Owned(ms + [m], |ms|) <==> m.callId in calls
  {
    var out := ms + [m];
    if m.callId in calls {
      var i: nat :| SpeaksAt(ms, i, calls);
      assert CallOf(out, i, |ms|);
    }
    if Owned(out, |ms|) {
      var i: nat :| CallOf(out, i, |ms|);
      assert forall x :: 0 <= x < |ms| ==> out[x] == ms[x];
      assert NoTurn(out, i + 1, |ms|);
      SpeakerUnique(ms, i, calls);
    }
  }

  lemma SpeakerUnique(ms: seq<Message>, i: nat, calls: seq<string>)
    requires Speaks(ms, calls) && i < |ms| && ms[i].Turn() && forall x :: i + 1 <= x < |ms| ==> !ms[x].Turn()
    ensures calls == if ms[i].role.Assistant? then ms[i].calls else []
  {
    if k: nat :| SpeaksAt(ms, k, calls) {
      assert k == i;
    }
  }

  lemma OwnedEarlier(ms: seq<Message>, m: Message, j: nat)
    requires j < |ms|
    ensures Owned(ms + [m], j) <==> Owned(ms, j)
  {
    var out := ms + [m];
    if Owned(ms, j) {
      var i: nat :| CallOf(ms, i, j);
      assert CallOf(out, i, j);
    }
    if Owned(out, j) {
      var i: nat :| CallOf(out, i, j);
      assert forall x :: 0 <= x < |ms| ==> out[x] == ms[x];
      assert CallOf(ms, i, j);
    }
  }

  lemma NoOrphansNext(ms: seq<Message>, m: Message)
    ensures NoOrphans(ms + [m]) <==> NoOrphans(ms) && (m.role.Tool? ==> Owned(ms + [m], |ms|))
  {
    forall j: nat | j < |ms|
      ensures Owned(ms + [m], j) <==> Owned(ms, j)
    {
      OwnedEarlier(ms, m, j);
    }
    assert forall j :: 0 <= j < |ms| ==> (ms + [m])[j] == ms[j];
  }

  /** Reading succeeds exactly if the open calls are all at the end and no tool message is an orphan. */
  lemma {:induction false} ReadExact(ms: seq<Message>)
    ensures Read(ms).Some? <==> Open(ms).Some? && NoOrphans(ms)
    ensures Read(ms).Some? ==> Read(ms).value.open == Open(ms).value && Speaks(ms, Read(ms).value.calls)
    decreases |ms|
  {
    if ms != [] {
      var front, m := ms[..|ms| - 1], ms[|ms| - 1];
      assert ms == front + [m];
      ReadExact(front);
      ReadNext(front, m);
      OpenNext(front, m);
      NoOrphansNext(front, m);
      if Read(front).Some? {
        SpeaksNext(front, m, Read(front).value.calls);
        if m.role.Tool? {
          OwnedNext(front, m, Read(front).value.calls);
        }
      }
    }
  }

  // ---- good conversations ----------------------------------------------------------------

  /** Calls and responses pair up both ways, and the assistant speaks last. */
  ghost predicate GoodHistory(ms: seq<Message>) {
    Closed(ms) && NoOrphans(ms) && EndsWithAssistant(ms)
  }

  ghost predicate NoneOpen(ms: seq<Message>) {
    Read(ms).Some? && Read(ms).value.open == {}
  }

  /** The good conversations, by reading them from the front. */
  ghost predicate Good(ms: seq<Message>) {
    NoneOpen(ms) && EndsWithAssistant(ms)
  }

  lemma NoneOpenIs(ms: seq<Message>)
    ensures NoneOpen(ms) <==> Closed(ms) && NoOrphans(ms)
  {
    ReadExact(ms);
    ClosedIffNoneOpen(ms);
  }

  lemma GoodIs(ms: seq<Message>)
    ensures Good(ms) <==> GoodHistory(ms)
  {
    NoneOpenIs(ms);
  }

  /** Compaction keeps a conversation without open calls such. */
  lemma CompactedNoneOpen(before: seq<Message>, after: seq<Message>, n: nat)
    requires Compacts(before, after, n)
    ensures NoneOpen(before) ==> NoneOpen(after)
  {
    NoneOpenIs(before);
    NoneOpenIs(after);
    CompactsClosed(before, after, n);
  }

  /** Repairing a conversation whose open calls are all at the end gives a good one. */
  lemma RepairedGood(ms: seq<Message>, reason: string, partial: string)
    requires ms != []
    ensures Read(ms).Some? ==> Good(Sanitized(ms, reason, partial))
  {
    if Read(ms).Some? {
      ReadExact(ms);
      OpenIsLast(ms);
      LastIsOnly(ms);
      SanitizedOk(ms, reason, partial);
      GoodIs(Sanitized(ms, reason, partial));
    }
  }

  lemma OpenIsLast(ms: seq<Message>)
    requires Open(ms).Some?
    ensures LastToCall(ms)
  {
    OpenExact(ms);
    forall i, j | 0 <= i < j < |ms| && !CompleteAt(ms, i)
      ensures !CallsTools(ms[j])
    {
      var c :| c in ms[i].calls && c != "" && !Answered(ms, i, c);
      assert Unanswered(ms, i, c) && !ms[j].Turn();
    }
  }

  // ---- cleaned histories -----------------------------------------------------------------

  /** What a checkpoint stores: everything but the runtime-context messages. */
  function Clean(ms: seq<Message>): seq<Message> { CleanTo(ms, |ms|) }

  function CleanTo(ms: seq<Message>, n: nat): seq<Message>
    requires n <= |ms|
  {
    if n == 0 then []
    else CleanTo(ms, n - 1) + if ms[n - 1].RuntimeContext() then [] else [ms[n - 1]]
  }

  lemma {:induction false} CleanPrefix(ms: seq<Message>, m: Message, n: nat)
    requires n <= |ms|
    ensures CleanTo(ms + [m], n) == CleanTo(ms, n)
  {
    if n > 0 {
      CleanPrefix(ms, m, n - 1);
    }
  }

  lemma CleanSnoc(ms: seq<Message>, m: Message)
    ensures Clean(ms + [m]) == Clean(ms) + if m.RuntimeContext() then [] else [m]
  {
    CleanPrefix(ms, m, |ms|);
  }

  /** Dropping the runtime-context messages changes neither what is open nor that all is in order. */
  lemma {:induction false} CleanReads(ms: seq<Message>)
    requires Read(ms).Some?
    ensures Read(Clean(ms)).Some? && Read(Clean(ms)).value.open == Read(ms).value.open
    ensures Read(ms).value.calls == [] || Read(Clean(ms)).value.calls == Read(ms).value.calls
    decreases |ms|
  {
    if ms != [] {
      var front, m := ms[..|ms| - 1], ms[|ms| - 1];
      assert ms == front + [m];
      ReadNext(front, m);
      CleanReads(front);
      CleanSnoc(front, m);
      ReadNext(Clean(front), m);
      assert m.RuntimeContext() ==> Clean(ms) == Clean(front);
    }
  }

  lemma {:induction false} CleanEnds(ms: seq<Message>)
    requires EndsWithAssistant(ms)
    ensures EndsWithAssistant(Clean(ms))
    decreases |ms|
  {
    if |ms| > 1 {
      CleanEnds(ms[1..]);
    } else {
      assert Clean(ms[1..]) == [];
    }
  }

  lemma CleanGood(ms: seq<Message>)
    requires Good(ms)
    ensures Good(Clean(ms))
  {
    CleanReads(ms);
    CleanEnds(ms);
  }

  // ---- two histories in step -------------------------------------------------------------

  ghost predicate InStep(a: seq<Message>, b: seq<Message>) {
    |a| == |b| && InStepTo(a, b, |a|)
  }

  ghost predicate InStepTo(a: seq<Message>, b: seq<Message>, n: nat)
    requires n <= |a| == |b|
  {
    n == 0 || (InStepTo(a, b, n - 1) && Alike(a[n - 1], b[n - 1]))
  }

  lemma {:induction false} InStepToIs(a: seq<Message>, b: seq<Message>, n: nat)
    requires n <= |a| == |b|
    ensures InStepTo(a, b, n) <==> forall i :: 0 <= i < n ==> Alike(a[i], b[i])
  {
    if n > 0 {
      InStepToIs(a, b, n - 1);
    }
  }

  lemma InStepIs(a: seq<Message>, b: seq<Message>)
    ensures InStep(a, b) <==> Aligned(a, b)
  {
    if |a| == |b| {
      InStepToIs(a, b, |a|);
    }
  }

  lemma InStepOne(a: seq<Message>, b: seq<Message>, m: Message, n: Message)
    requires InStep(a, b) && Alike(m, n)
    ensures InStep(a + [m], b + [n])
  {
    InStepIs(a, b);
    InStepIs(a + [m], b + [n]);
  }

  lemma InStepSelf(a: seq<Message>)
    ensures InStep(a, a)
  {
    InStepIs(a, a);
  }

  /** One more message each. */
  lemma InStepNext(a: seq<Message>, b: seq<Message>, m: Message, n: Message)
    ensures |a| == |b| ==> (InStep(a + [m], b + [n]) <==> InStep(a, b) && Alike(m, n))
  {
    InStepIs(a, b);
    InStepIs(a + [m], b + [n]);
    if |a| == |b| {
      assert forall i :: 0 <= i < |a| ==> (a + [m])[i] == a[i] && (b + [n])[i] == b[i];
      assert (a + [m])[|a|] == m && (b + [n])[|b|] == n;
    }
  }

  // ---- screen verification ---------------------------------------------------------------

  function ToolMessage(id: string, text: string): Message { Message(Tool, Text(text), [], id) }
  function UserMessage(text: string): Message { Message(User, Text(text), [], "") }
  function AssistantMessage(text: string, calls: seq<string>): Message { Message(Assistant, Text(text), calls, "") }

  /** What these messages say, ask for and answer. */
  lemma MessagesSay(id: string, text: string, calls: seq<string>)
    ensures var m := ToolMessage(id, text); m.role.Tool? && m.content == Text(text) && m.callId == id
    ensures var m := UserMessage(text); m.role.User? && m.content == Text(text) && m.calls == []
    ensures var m := AssistantMessage(text, calls); m.role.Assistant? && m.content == Text(text) && m.calls == calls
  {
  }

  /** What follows a request for `ids` if the verification of call `j` gives `complaints[j]`. */
  function Results(ids: seq<string>, texts: seq<string>, complaints: seq<Option<string>>): seq<Message>
    requires |ids| == |texts| == |complaints|
  {
    if ids == [] then []
    else
      var n := |ids| - 1;
      Results(ids[..n], texts[..n], complaints[..n]) + [ToolMessage(ids[n], texts[n])]
      + if complaints[n].Some? then [UserMessage(complaints[n].value)] else []
  }

  /** The ids of `all` from position `n` on stay open after the first `n` results, unless a complaint
      has already come between two of them. */
  lemma {:induction false} ResultsOpen(b: seq<Message>, all: seq<string>, n: nat, texts: seq<string>,
                                       complaints: seq<Option<string>>)
    requires n == |texts| == |complaints| <= |all|
    requires Open(b) == Some(CallSet(all)) && "" !in all && forall i, j :: 0 <= i < j < |all| ==> all[i] != all[j]
    ensures Open(b + Results(all[..n], texts, complaints)) ==
            if exists j :: 0 <= j < n && j < |all| - 1 && complaints[j].Some? then None else Some(CallSet(all[n..]))
    decreases n
  {
    if n == 0 {
      assert b + Results(all[..0], texts, complaints) == b && all[0..] == all;
    } else {
      var k := n - 1;
      ResultsOpen(b, all, k, texts[..k], complaints[..k]);
      assert all[..n][..k] == all[..k];
      var h := b + Results(all[..k], texts[..k], complaints[..k]);
      var t := ToolMessage(all[k], texts[k]);
      ResultStep(h, t, all, k, complaints[k]);
      assert b + Results(all[..n], texts, complaints) == h + [t] + Complaint(complaints[k]);
      if j: nat :| j < k && j < |all| - 1 && complaints[j].Some? {
        assert complaints[..k][j].Some?;
      }
    }
  }

  function Complaint(c: Option<string>): seq<Message> {
    if c.Some? then [UserMessage(c.value)] else []
  }

  lemma ResultStep(h: seq<Message>, t: Message, all: seq<string>, k: nat, c: Option<string>)
    requires k < |all| && t.role.Tool? && t.callId == all[k]
    requires "" !in all && forall i, j :: 0 <= i < j < |all| ==> all[i] != all[j]
    requires Open(h).None? || Open(h) == Some(CallSet(all[k..]))
    ensures Open(h + [t] + Complaint(c)) ==
            if Open(h).None? || (c.Some? && k < |all| - 1) then None else Some(CallSet(all[k + 1..]))
  {
    OpenNext(h, t);
    if Open(h).Some? {
      assert CallSet(all[k..]) - {all[k]} == CallSet(all[k + 1..]) by {
        assert all[k..] == [all[k]] + all[k + 1..];
      }
    }
    if c.Some? {
      var u := UserMessage(c.value);
      OpenNext(h + [t], u);
      if k < |all| - 1 {
        assert all[k + 1] in CallSet(all[k + 1..]);
      } else {
        assert all[k + 1..] == [];
      }
    } else {
      assert h + [t] + Complaint(c) == h + [t];
    }
  }

  /** With screen verification the conversation stays closed exactly if only the last call of a
      reply draws a complaint. */
  lemma VerificationCloses(h: seq<Message>, text: string, ids: seq<string>, texts: seq<string>,
                           complaints: seq<Option<string>>)
    requires Closed(h) && |ids| == |texts| == |complaints|
    requires "" !in ids && forall i, j :: 0 <= i < j < |ids| ==> ids[i] != ids[j]
    ensures Closed(h + [AssistantMessage(text, ids)] + Results(ids, texts, complaints)) <==>
            forall j :: 0 <= j < |ids| - 1 ==> complaints[j].None?
  {
    var b := h + [AssistantMessage(text, ids)];
    ClosedIffNoneOpen(h);
    OpenOne(h, AssistantMessage(text, ids));
    ResultsOpen(b, ids, |ids|, texts, complaints);
    assert ids[..|ids|] == ids && CallSet(ids[|ids|..]) == {};
    ClosedIffNoneOpen(b + Results(ids, texts, complaints));
  }

  /** Two calls and a complaint after the first: the second is not answered in time. */
  lemma ComplaintBetweenCalls(h: seq<Message>, text: string, a: string, b: string, texts: seq<string>,
                              complaint: string)
    requires Closed(h) && a != "" && b != "" && a != b && |texts| == 2
    ensures !Closed(h + [AssistantMessage(text, [a, b])] + Results([a, b], texts, [Some(complaint), None]))
  {
    VerificationCloses(h, text, [a, b], texts, [Some(complaint), None]);
    assert [Some(complaint), None][0].Some?;
  }
}
