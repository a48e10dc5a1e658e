/**
 `_sanitize_messages_for_abort`: fill in responses for unanswered tool calls, scanning by the
 positions of a snapshot while inserting, and make the history end with the assistant.
 */
module AbortRepair {
  import opened Conversation

  /** The end of the run of tool messages from `k`: the next user or assistant message, or the end. */
  function SearchEnd(out: seq<Message>, k: nat): (r: nat)
    requires k <= |out|
    ensures k <= r <= |out|
    decreases |out| - k
  {
    if k == |out| || out[k].Turn() then k else SearchEnd(out, k + 1)
  }

  lemma {:induction false} SearchEndIs(out: seq<Message>, k: nat)
    requires k <= |out|
    ensures NoTurn(out, k, SearchEnd(out, k))
    ensures SearchEnd(out, k) < |out| ==> out[SearchEnd(out, k)].Turn()
    decreases |out| - k
  {
    if k < |out| && !out[k].Turn() {
      SearchEndIs(out, k + 1);
    }
  }

  function SeenIds(out: seq<Message>, from: nat, to: nat): set<string>
    requires from <= to <= |out|
  {
    set x | from <= x < to && out[x].role.Tool? && out[x].callId != "" :: out[x].callId
  }

  function NonEmptyIds(calls: seq<string>): seq<string> {
    if calls == [] then []
    else if calls[0] != "" then [calls[0]] + NonEmptyIds(calls[1..])
    else NonEmptyIds(calls[1..])
  }

  function MissingIds(ids: seq<string>, seen: set<string>): seq<string> {
    if ids == [] then []
    else if ids[0] !in seen then [ids[0]] + MissingIds(ids[1..], seen + {ids[0]})
    else MissingIds(ids[1..], seen)
  }

  lemma {:induction false} NonEmptyIff(calls: seq<string>, c: string)
    ensures c in NonEmptyIds(calls) <==> c in calls && c != ""
    decreases |calls|
  {
    if calls != [] {
      NonEmptyIff(calls[1..], c);
      assert calls == [calls[0]] + calls[1..];
    }
  }

  lemma {:induction false} MissingIff(ids: seq<string>, seen: set<string>, c: string)
    ensures c in MissingIds(ids, seen) <==> c in ids && c !in seen
    decreases |ids|
  {
    if ids != [] {
      MissingIff(ids[1..], if ids[0] !in seen then seen + {ids[0]} else seen, c);
      assert ids == [ids[0]] + ids[1..];
    }
  }

  /** The ids a step inserts responses for. */
  function Missing(out: seq<Message>, i: nat, msg: Message): seq<string>
    requires i < |out|
  {
    MissingIds(NonEmptyIds(msg.calls), SeenIds(out, i + 1, SearchEnd(out, i + 1)))
  }

  /** They are exactly the call ids that the scanned run does not answer. */
  lemma MissingIs(out: seq<Message>, i: nat, msg: Message, c: string)
    requires i < |out|
    ensures c in Missing(out, i, msg) <==> c in msg.calls && c != "" && !Answered(out, i, c)
  {
    NonEmptyIff(msg.calls, c);
    MissingIff(NonEmptyIds(msg.calls), SeenIds(out, i + 1, SearchEnd(out, i + 1)), c);
    if c != "" {
      SeenIffAnswered(out, i, c);
    }
  }

  function Abort(id: string, reason: string): Message {
    Message(Tool, Text("Tool call was aborted (" + reason + ")"), [], id)
  }

  function Aborts(ids: seq<string>, reason: string): (r: seq<Message>)
    ensures |r| == |ids|
  {
    seq(|ids|, i requires 0 <= i < |ids| => Abort(ids[i], reason))
  }

  /** One turn of the outer loop, for the snapshot message `msg` at snapshot position `i`. */
  function FillAt(out: seq<Message>, i: nat, msg: Message, reason: string): seq<Message>
    requires i < |out|
  {
    if msg.role.Assistant? && msg.calls != [] then
      Spliced(out, SearchEnd(out, i + 1), Aborts(Missing(out, i, msg), reason))
    else out
  }

  function FillFrom(ms: seq<Message>, out: seq<Message>, i: nat, reason: string): seq<Message>
    requires i <= |ms| <= |out|
    decreases |ms| - i
  {
    if i == |ms| then out else FillFrom(ms, FillAt(out, i, ms[i], reason), i + 1, reason)
  }

  function Filled(ms: seq<Message>, reason: string): (r: seq<Message>)
    ensures |r| >= |ms|
  {
    FilledLonger(ms, ms, 0, reason);
    FillFrom(ms, ms, 0, reason)
  }

  // ---- the loop --------------------------------------------------------------------------

  /** The ids answered in the run after `i`, and where the run ends. */
  method ScanRun(out: seq<Message>, i: nat) returns (seen: set<string>, search: nat)
    requires i < |out|
    ensures search == SearchEnd(out, i + 1) && seen == SeenIds(out, i + 1, search)
  {
    seen, search := {}, i + 1;
    while search < |out| && !out[search].Turn()
      invariant i + 1 <= search <= |out|
      invariant SearchEnd(out, i + 1) == SearchEnd(out, search)
      invariant seen == SeenIds(out, i + 1, search)
    {
      if out[search].role.Tool? && out[search].callId != "" {
        seen := seen + {out[search].callId};
      }
      search := search + 1;
    }
  }

  /** Insert a response for each id not seen, one behind the other. */
  method InsertMissing(out0: seq<Message>, e: nat, ids: seq<string>, seen0: set<string>, reason: string)
    returns (out: seq<Message>)
    requires e <= |out0|
    ensures out == Spliced(out0, e, Aborts(MissingIds(ids, seen0), reason))
  {
    out := out0;
    var seen, search := seen0, e;
    ghost var missing, n := MissingIds(ids, seen0), 0;
    assert ids[0..] == ids && missing[0..] == missing;
    for k := 0 to |ids|
      invariant n <= |missing| && search == e + n && |out| == |out0| + n
      invariant MissingIds(ids[k..], seen) == missing[n..]
      invariant out == Spliced(out0, e, Aborts(missing[..n], reason))
    {
      var id := ids[k];
      assert ids[k..][0] == id && ids[k..][1..] == ids[k + 1..];
      if id !in seen {
        assert missing[n..][0] == id && missing[n..][1..] == missing[n + 1..];
        InsertNext(out0, e, missing, n, reason);
        out := out[..search] + [Abort(id, reason)] + out[search..];
        seen := seen + {id};
        search, n := search + 1, n + 1;
      }
    }
    assert missing[..n] == missing;
  }

  method FillOne(out0: seq<Message>, i: nat, msg: Message, reason: string) returns (out: seq<Message>)
    requires i < |out0|
    ensures out == FillAt(out0, i, msg, reason)
  {
    out := out0;
    if msg.role.Assistant? && msg.calls != [] {
      var seen, search := ScanRun(out, i);
      out := InsertMissing(out, search, NonEmptyIds(msg.calls), seen, reason);
    }
  }

  lemma InsertNext(ms: seq<Message>, e: nat, ids: seq<string>, n: nat, reason: string)
    requires e <= |ms| && n < |ids|
    ensures var out := Spliced(ms, e, Aborts(ids[..n], reason));
            out[..e + n] + [Abort(ids[n], reason)] + out[e + n..] == Spliced(ms, e, Aborts(ids[..n + 1], reason))
  {
    assert Aborts(ids[..n + 1], reason) == Aborts(ids[..n], reason) + [Abort(ids[n], reason)];
  }

  method FillMissing(ms: seq<Message>, reason: string) returns (out: seq<Message>)
    ensures out == Filled(ms, reason)
  {
    out := ms;
    for i := 0 to |ms|
      invariant |ms| <= |out|
      invariant FillFrom(ms, out, i, reason) == Filled(ms, reason)
    {
      out := FillOne(out, i, ms[i], reason);
    }
  }

  // ---- when the result is closed ---------------------------------------------------------

  ghost predicate AtMostOneIncomplete(ms: seq<Message>) {
    forall i, j :: 0 <= i < j < |ms| ==> CompleteAt(ms, i) || CompleteAt(ms, j)
  }

  lemma SeenIffAnswered(out: seq<Message>, i: nat, c: string)
    requires i < |out| && c != ""
    ensures c in SeenIds(out, i + 1, SearchEnd(out, i + 1)) <==> Answered(out, i, c)
  {
    var e := SearchEnd(out, i + 1);
    SearchEndIs(out, i + 1);
    if c in SeenIds(out, i + 1, e) {
      var x :| i + 1 <= x < e && out[x].role.Tool? && out[x].callId == c;
      assert Answers(out, i, c, x);
    }
    if Answered(out, i, c) {
      var j :| Answers(out, i, c, j);
      assert j < e;
    }
  }

  /** A complete message in its own place needs nothing. */
  lemma CompleteFills(ms: seq<Message>, i: nat, reason: string)
    requires i < |ms| && CompleteAt(ms, i)
    ensures FillAt(ms, i, ms[i], reason) == ms
  {
    if ms[i].role.Assistant? && Missing(ms, i, ms[i]) != [] {
      var c := Missing(ms, i, ms[i])[0];
      MissingIs(ms, i, ms[i], c);
    }
  }

  /** An incomplete message in its own place is completed by inserting something. */
  lemma IncompleteFills(ms: seq<Message>, i: nat, reason: string)
    requires i < |ms| && !CompleteAt(ms, i)
    ensures CompleteAt(FillAt(ms, i, ms[i], reason), i) && Missing(ms, i, ms[i]) != []
  {
    var e, missing := SearchEnd(ms, i + 1), Missing(ms, i, ms[i]);
    var block := Aborts(missing, reason);
    var c :| c in ms[i].calls && c != "" && !Answered(ms, i, c);
    MissingIs(ms, i, ms[i], c);
    forall c | c in ms[i].calls && c != ""
      ensures Answered(Spliced(ms, e, block), i, c)
    {
      SearchEndIs(ms, i + 1);
      SplicedAnswered(ms, e, block, i, c);
      MissingIs(ms, i, ms[i], c);
      if c in missing {
        var b :| 0 <= b < |missing| && missing[b] == c;
        assert block[b].callId == c;
      }
    }
  }

  /** Whatever the scan sees, it only splices tool messages. */
  lemma FillKeepsClosed(out: seq<Message>, i: nat, msg: Message, reason: string)
    requires i < |out| && Closed(out)
    ensures Closed(FillAt(out, i, msg, reason))
  {
    if msg.role.Assistant? && msg.calls != [] {
      SplicedClosed(out, SearchEnd(out, i + 1), Aborts(Missing(out, i, msg), reason));
    }
  }

  lemma {:induction false} ClosedStaysClosed(ms: seq<Message>, out: seq<Message>, i: nat, reason: string)
    requires i <= |ms| <= |out| && Closed(out)
    ensures Closed(FillFrom(ms, out, i, reason))
    decreases |ms| - i
  {
    if i < |ms| {
      FillKeepsClosed(out, i, ms[i], reason);
      ClosedStaysClosed(ms, FillAt(out, i, ms[i], reason), i + 1, reason);
    }
  }

  /** Filling the only incomplete message closes the conversation. */
  lemma OnlyIncomplete(ms: seq<Message>, i: nat, reason: string)
    requires i < |ms| && forall k :: 0 <= k < |ms| && k != i ==> CompleteAt(ms, k)
    ensures Closed(FillAt(ms, i, ms[i], reason))
  {
    if CompleteAt(ms, i) {
      CompleteFills(ms, i, reason);
    } else {
      IncompleteFills(ms, i, reason);
      var out := FillAt(ms, i, ms[i], reason);
      var e := SearchEnd(ms, i + 1);
      var block := Aborts(Missing(ms, i, ms[i]), reason);
      forall k | 0 <= k < |out|
        ensures CompleteAt(out, k)
      {
        if k != i && (k < e || k >= e + |block|) {
          var q := if k < e then k else k - |block|;
          assert out[k] == ms[q] && q != i && CompleteAt(ms, q);
          forall c | c in out[k].calls && c != "" && out[k].role.Assistant?
            ensures Answered(out, k, c)
          {
            SplicedAnswered(ms, e, block, q, c);
          }
        }
      }
    }
  }

  /** Up to the first incomplete message the scan changes nothing. */
  lemma {:induction false} PrefixUntouched(ms: seq<Message>, i: nat, reason: string)
    requires i <= |ms| && forall k :: 0 <= k < i ==> CompleteAt(ms, k)
    ensures Filled(ms, reason) == FillFrom(ms, ms, i, reason)
  {
    if i > 0 {
      PrefixUntouched(ms, i - 1, reason);
      CompleteFills(ms, i - 1, reason);
    }
  }

  lemma FirstIncomplete(ms: seq<Message>) returns (i: nat)
    ensures i <= |ms| && (forall k :: 0 <= k < i ==> CompleteAt(ms, k))
    ensures i < |ms| ==> !CompleteAt(ms, i)
  {
    i := 0;
    while i < |ms| && CompleteAt(ms, i)
      invariant i <= |ms| && forall k :: 0 <= k < i ==> CompleteAt(ms, k)
    {
      i := i + 1;
    }
  }

  /** With at most one incomplete message the repair always closes the conversation. */
  lemma RepairCloses(ms: seq<Message>, reason: string)
    requires AtMostOneIncomplete(ms)
    ensures Closed(Filled(ms, reason))
  {
    var i := FirstIncomplete(ms);
    PrefixUntouched(ms, i, reason);
    if i < |ms| {
      OnlyIncomplete(ms, i, reason);
      ClosedStaysClosed(ms, FillAt(ms, i, ms[i], reason), i + 1, reason);
    }
  }

  // ---- when it is not --------------------------------------------------------------------

  /** Call ids belong to one message each. */
  ghost predicate DistinctCalls(ms: seq<Message>) {
    forall i, j, c :: 0 <= i < |ms| && 0 <= j < |ms| && c in ms[i].calls && c in ms[j].calls ==> i == j
  }

  /** A message whose position has run ahead of its snapshot index is never answered: the scan
      for it starts too early and stops before reaching it. */
  lemma {:induction false} StaysUnanswered(ms: seq<Message>, out: seq<Message>, i: nat, m: nat, q: nat, c: string,
                                           reason: string)
    requires i <= |ms| <= |out| && m < |ms| && q < |out|
    requires out[q] == ms[m] && ms[m].role.Assistant? && c in ms[m].calls && c != ""
    requires forall k :: 0 <= k < |ms| && k != m ==> c !in ms[k].calls
    requires i <= m ==> q > m
    requires !Answered(out, q, c)
    ensures !Closed(FillFrom(ms, out, i, reason))
    decreases |ms| - i
  {
    if i == |ms| {
      assert !CompleteAt(out, q);
    } else {
      if i == m {
        SearchEndIs(out, i + 1);
      }
      var r := UnansweredStep(out, i, ms[i], q, c, reason);
      StaysUnanswered(ms, FillAt(out, i, ms[i], reason), i + 1, m, r, c, reason);
    }
  }

  /** A step for another message, or one whose scan stops before `q`, leaves call `c` unanswered. */
  lemma UnansweredStep(out: seq<Message>, i: nat, msg: Message, q: nat, c: string, reason: string) returns (r: nat)
    requires i < |out| && q < |out| && !Answered(out, q, c)
    requires c in msg.calls ==> SearchEnd(out, i + 1) <= q
    ensures q <= r < |FillAt(out, i, msg, reason)| && FillAt(out, i, msg, reason)[r] == out[q]
    ensures !Answered(FillAt(out, i, msg, reason), r, c)
    ensures msg.role.Assistant? && msg.calls != [] && SearchEnd(out, i + 1) <= q ==> r == q + |Missing(out, i, msg)|
  {
    r := q;
    if msg.role.Assistant? && msg.calls != [] {
      var e, missing := SearchEnd(out, i + 1), Missing(out, i, msg);
      var block := Aborts(missing, reason);
      r := Moved(e, |missing|, q);
      SplicedAnswered(out, e, block, q, c);
      if exists b :: 0 <= b < |block| && block[b].callId == c {
        var b :| 0 <= b < |block| && block[b].callId == c;
        assert missing[b] == c;
        MissingIs(out, i, msg, c);
      }
    }
  }

  /** With call ids used once, the repair closes the conversation only if at most one message
      was incomplete. */
  lemma RepairClosesOnly(ms: seq<Message>, reason: string)
    requires DistinctCalls(ms) && Closed(Filled(ms, reason))
    ensures AtMostOneIncomplete(ms)
  {
    forall i, j | 0 <= i < j < |ms|
      ensures CompleteAt(ms, i) || CompleteAt(ms, j)
    {
      if !CompleteAt(ms, i) && !CompleteAt(ms, j) {
        var first := FirstIncomplete(ms);
        SecondStays(ms, first, j, reason);
      }
    }
  }

  lemma SecondStays(ms: seq<Message>, i: nat, j: nat, reason: string)
    requires DistinctCalls(ms) && i < j < |ms|
    requires (forall k :: 0 <= k < i ==> CompleteAt(ms, k)) && !CompleteAt(ms, i) && !CompleteAt(ms, j)
    ensures !Closed(Filled(ms, reason))
  {
    PrefixUntouched(ms, i, reason);
    IncompleteFills(ms, i, reason);
    var c :| c in ms[j].calls && c != "" && !Answered(ms, j, c);
    SearchEndIs(ms, i + 1);
    var q := UnansweredStep(ms, i, ms[i], j, c, reason);
    StaysUnanswered(ms, FillAt(ms, i, ms[i], reason), i + 1, j, q, c, reason);
  }

  /** The exact condition. */
  lemma RepairClosesIff(ms: seq<Message>, reason: string)
    requires DistinctCalls(ms)
    ensures Closed(Filled(ms, reason)) <==> AtMostOneIncomplete(ms)
  {
    if AtMostOneIncomplete(ms) {
      RepairCloses(ms, reason);
    }
    if Closed(Filled(ms, reason)) {
      RepairClosesOnly(ms, reason);
    }
  }

  /** Two aborted turns in a row: the second call is never answered. */
  lemma TwoIncomplete(question: Message, a: string, b: string, reason: string)
    requires question.role.User? && question.calls == [] && a != "" && b != "" && a != b
    ensures var ms := [question, Message(Assistant, Text(""), [a], ""), question,
                       Message(Assistant, Text(""), [b], "")];
            DistinctCalls(ms) && !AtMostOneIncomplete(ms) && !Closed(Filled(ms, reason))
  {
    var ms := [question, Message(Assistant, Text(""), [a], ""), question, Message(Assistant, Text(""), [b], "")];
    assert a in ms[1].calls && !Answered(ms, 1, a) && b in ms[3].calls && !Answered(ms, 3, b);
    assert !CompleteAt(ms, 1) && !CompleteAt(ms, 3);
    if Closed(Filled(ms, reason)) {
      RepairClosesOnly(ms, reason);
    }
  }

  // ---- no response without its call ------------------------------------------------------

  ghost predicate CallsTools(m: Message) {
    m.role.Assistant? && exists c :: c in m.calls && c != ""
  }

  /** Nobody calls a tool after a message that is left incomplete. */
  ghost predicate LastToCall(ms: seq<Message>) {
    forall i, j :: 0 <= i < j < |ms| && !CompleteAt(ms, i) ==> !CallsTools(ms[j])
  }

  lemma LastIsOnly(ms: seq<Message>)
    requires LastToCall(ms)
    ensures AtMostOneIncomplete(ms)
  {
    forall i, j | 0 <= i < j < |ms|
      ensures CompleteAt(ms, i) || CompleteAt(ms, j)
    {
      assert !CompleteAt(ms, j) ==> CallsTools(ms[j]);
    }
  }

  lemma NothingToFill(out: seq<Message>, i: nat, msg: Message, reason: string)
    requires i < |out| && !CallsTools(msg)
    ensures FillAt(out, i, msg, reason) == out
  {
    if msg.role.Assistant? && Missing(out, i, msg) != [] {
      var c := Missing(out, i, msg)[0];
      MissingIs(out, i, msg, c);
    }
  }

  lemma QuietStep(ms: seq<Message>, out: seq<Message>, i: nat, reason: string)
    requires i < |ms| <= |out| && !CallsTools(ms[i])
    ensures FillFrom(ms, out, i, reason) == FillFrom(ms, out, i + 1, reason)
  {
    NothingToFill(out, i, ms[i], reason);
  }

  /** Messages that call nothing leave the scan's history alone. */
  lemma SkipsQuiet(ms: seq<Message>, out: seq<Message>, i: nat, j: nat, reason: string)
    requires i <= j <= |ms| <= |out| && forall k :: i <= k < j ==> !CallsTools(ms[k])
    ensures FillFrom(ms, out, i, reason) == FillFrom(ms, out, j, reason)
  {
    var filled := FillFrom(ms, out, i, reason);
    for k := i to j
      invariant filled == FillFrom(ms, out, k, reason)
    {
      QuietStep(ms, out, k, reason);
    }
  }

  /** Filling a message in its own place adds only responses to its calls. */
  lemma FillOwned(ms: seq<Message>, i: nat, reason: string)
    requires i < |ms| && NoOrphans(ms)
    ensures NoOrphans(FillAt(ms, i, ms[i], reason))
  {
    if ms[i].role.Assistant? && ms[i].calls != [] {
      var e, missing := SearchEnd(ms, i + 1), Missing(ms, i, ms[i]);
      var block := Aborts(missing, reason);
      var out := Spliced(ms, e, block);
      forall j | 0 <= j < |out| && out[j].role.Tool?
        ensures Owned(out, j)
      {
        if e <= j < e + |block| {
          SearchEndIs(ms, i + 1);
          MissingIs(ms, i, ms[i], missing[j - e]);
          assert CallOf(out, i, j);
        } else {
          var q := if j < e then j else j - |block|;
          assert out[j] == ms[q] && Owned(ms, q);
          SplicedOwned(ms, e, block, q);
        }
      }
    }
  }

  /** If the incomplete message is the last that calls, the repair leaves no orphan. */
  lemma RepairOwned(ms: seq<Message>, reason: string)
    requires LastToCall(ms) && NoOrphans(ms)
    ensures NoOrphans(Filled(ms, reason))
  {
    var i := FirstIncomplete(ms);
    PrefixUntouched(ms, i, reason);
    if i < |ms| {
      FillOwned(ms, i, reason);
      SkipsQuiet(ms, FillAt(ms, i, ms[i], reason), i + 1, |ms|, reason);
    }
  }

  /** An orphan stays one, whatever is filled in later. */
  lemma {:induction false} OrphanStays(ms: seq<Message>, out: seq<Message>, i: nat, j: nat, reason: string)
    requires i <= |ms| <= |out| && j < |out| && out[j].role.Tool? && !Owned(out, j)
    ensures !NoOrphans(FillFrom(ms, out, i, reason))
    decreases |ms| - i
  {
    if i < |ms| {
      var k := j;
      if ms[i].role.Assistant? && ms[i].calls != [] {
        var e, block := SearchEnd(out, i + 1), Aborts(Missing(out, i, ms[i]), reason);
        SplicedOwned(out, e, block, j);
        k := Moved(e, |block|, j);
      }
      OrphanStays(ms, FillAt(out, i, ms[i], reason), i + 1, k, reason);
    }
  }

  /** Once messages have moved, the scan for a later call looks too early and answers it there. */
  lemma StrayFill(ms: seq<Message>, i: nat, j: nat, c: string, reason: string) returns (p: nat)
    requires DistinctCalls(ms) && NoOrphans(ms) && i < j < |ms| && !CompleteAt(ms, i)
    requires ms[j].role.Assistant? && c in ms[j].calls && c != ""
    ensures var out := FillAt(FillAt(ms, i, ms[i], reason), j, ms[j], reason);
            p < |out| && out[p].role.Tool? && !Owned(out, p)
  {
    var out := FillAt(ms, i, ms[i], reason);
    UnseenAhead(ms, i, j, c, reason);
    MissingIs(out, j, ms[j], c);
    IncompleteFills(ms, i, reason);
    StopsAt(ms, i + 1, j);
    p := StrayOrphan(ms, SearchEnd(ms, i + 1), Aborts(Missing(ms, i, ms[i]), reason), j, c, reason);
  }

  /** A run ends at the next user or assistant message, or before. */
  lemma StopsAt(out: seq<Message>, k: nat, t: nat)
    requires k <= t < |out| && out[t].Turn()
    ensures SearchEnd(out, k) <= t
  {
    SearchEndIs(out, k);
  }

  lemma StrayOrphan(ms: seq<Message>, e: nat, block: seq<Message>, j: nat, c: string, reason: string) returns (p: nat)
    requires DistinctCalls(ms) && AllTools(block) && block != [] && e <= j < |ms| && ms[j].role.Assistant?
    requires c in ms[j].calls && c in Missing(Spliced(ms, e, block), j, ms[j])
    ensures var last := FillAt(Spliced(ms, e, block), j, ms[j], reason);
            p < |last| && last[p].role.Tool? && !Owned(last, p)
  {
    var out := Spliced(ms, e, block);
    var missing, at := Missing(out, j, ms[j]), SearchEnd(out, j + 1);
    var b: nat :| b < |missing| && missing[b] == c;
    assert out[j + |block|] == ms[j];
    StopsAt(out, j + 1, j + |block|);
    NotCalledAhead(ms, e, block, j, at, c);
    EarlyIsOrphan(out, at, Aborts(missing, reason), b);
    p := at + b;
  }

  /** Nobody before the moved message asks for its call. */
  lemma NotCalledAhead(ms: seq<Message>, e: nat, block: seq<Message>, j: nat, at: nat, c: string)
    requires DistinctCalls(ms) && AllTools(block) && e <= j < |ms| && at <= j + |block| && c in ms[j].calls
    ensures forall k :: 0 <= k < at && Spliced(ms, e, block)[k].role.Assistant? ==> c !in Spliced(ms, e, block)[k].calls
  {
    var out, n := Spliced(ms, e, block), |block|;
    forall k | 0 <= k < at && out[k].role.Assistant?
      ensures c !in out[k].calls
    {
      assert out[k] == ms[if k < e then k else k - n];
    }
  }

  /** A response spliced in before anybody asks for it is an orphan. */
  lemma EarlyIsOrphan(out: seq<Message>, at: nat, block: seq<Message>, b: nat)
    requires at <= |out| && AllTools(block) && b < |block|
    requires forall k :: 0 <= k < at && out[k].role.Assistant? ==> block[b].callId !in out[k].calls
    ensures Spliced(out, at, block)[at + b].role.Tool? && !Owned(Spliced(out, at, block), at + b)
  {
  }

  /** In the shifted history nothing before the calling message answers its call. */
  lemma UnseenAhead(ms: seq<Message>, i: nat, j: nat, c: string, reason: string)
    requires DistinctCalls(ms) && NoOrphans(ms) && i < j < |ms| && !CompleteAt(ms, i)
    requires ms[j].role.Assistant? && c in ms[j].calls && c != ""
    ensures j < |FillAt(ms, i, ms[i], reason)| && !Answered(FillAt(ms, i, ms[i], reason), j, c)
  {
    var out := FillAt(ms, i, ms[i], reason);
    var e, missing := SearchEnd(ms, i + 1), Missing(ms, i, ms[i]);
    var n := |missing|;
    SearchEndIs(ms, i + 1);
    IncompleteFills(ms, i, reason);
    assert e <= j && out[j + n] == ms[j];
    if Answered(out, j, c) {
      var x: nat :| Answers(out, j, c, x);
      assert x < j + n;
      if e <= x < e + n {
        MissingIs(ms, i, ms[i], missing[x - e]);
      }
    }
  }

  lemma RepairOwnedOnly(ms: seq<Message>, reason: string)
    requires DistinctCalls(ms) && NoOrphans(ms) && NoOrphans(Filled(ms, reason))
    ensures LastToCall(ms)
  {
    forall a, b | 0 <= a < b < |ms| && !CompleteAt(ms, a)
      ensures !CallsTools(ms[b])
    {
      if CallsTools(ms[b]) {
        var i := FirstIncomplete(ms);
        var j := FirstCaller(ms, i + 1, b);
        OrphanAfter(ms, i, j, reason);
      }
    }
  }

  lemma OrphanAfter(ms: seq<Message>, i: nat, j: nat, reason: string)
    requires DistinctCalls(ms) && NoOrphans(ms) && i < j < |ms| && CallsTools(ms[j])
    requires (forall k :: 0 <= k < i ==> CompleteAt(ms, k)) && !CompleteAt(ms, i)
    requires forall k :: i + 1 <= k < j ==> !CallsTools(ms[k])
    ensures !NoOrphans(Filled(ms, reason))
  {
    var last, p := StrayResult(ms, i, j, reason);
    OrphanStays(ms, last, j + 1, p, reason);
  }

  lemma StrayResult(ms: seq<Message>, i: nat, j: nat, reason: string) returns (last: seq<Message>, p: nat)
    requires DistinctCalls(ms) && NoOrphans(ms) && i < j < |ms| && CallsTools(ms[j])
    requires (forall k :: 0 <= k < i ==> CompleteAt(ms, k)) && !CompleteAt(ms, i)
    requires forall k :: i + 1 <= k < j ==> !CallsTools(ms[k])
    ensures |ms| <= |last| && Filled(ms, reason) == FillFrom(ms, last, j + 1, reason)
    ensures p < |last| && last[p].role.Tool? && !Owned(last, p)
  {
    var c :| c in ms[j].calls && c != "";
    last := FilledTwice(ms, i, j, reason);
    p := StrayFill(ms, i, j, c, reason);
  }

  lemma FilledTwice(ms: seq<Message>, i: nat, j: nat, reason: string) returns (last: seq<Message>)
    requires i < j < |ms|
    requires forall k :: 0 <= k < i ==> CompleteAt(ms, k)
    requires forall k :: i + 1 <= k < j ==> !CallsTools(ms[k])
    ensures j < |FillAt(ms, i, ms[i], reason)| && last == FillAt(FillAt(ms, i, ms[i], reason), j, ms[j], reason)
    ensures |ms| <= |last| && Filled(ms, reason) == FillFrom(ms, last, j + 1, reason)
  {
    PrefixUntouched(ms, i, reason);
    var out := FillAt(ms, i, ms[i], reason);
    SkipsQuiet(ms, out, i + 1, j, reason);
    last := FillAt(out, j, ms[j], reason);
  }

  lemma FirstCaller(ms: seq<Message>, from: nat, b: nat) returns (j: nat)
    requires from <= b < |ms| && CallsTools(ms[b])
    ensures from <= j <= b && CallsTools(ms[j]) && forall k :: from <= k < j ==> !CallsTools(ms[k])
  {
    j := from;
    while !CallsTools(ms[j])
      invariant from <= j <= b && forall k :: from <= k < j ==> !CallsTools(ms[k])
      decreases b - j
    {
      j := j + 1;
    }
  }

  /** The exact condition for a repaired history in which calls and responses pair up both ways. */
  lemma RepairPairsIff(ms: seq<Message>, reason: string)
    requires DistinctCalls(ms) && NoOrphans(ms)
    ensures Closed(Filled(ms, reason)) && NoOrphans(Filled(ms, reason)) <==> LastToCall(ms)
  {
    if LastToCall(ms) {
      LastIsOnly(ms);
      RepairCloses(ms, reason);
      RepairOwned(ms, reason);
    } else if NoOrphans(Filled(ms, reason)) {
      RepairOwnedOnly(ms, reason);
    }
  }

  /** One incomplete message followed by a complete call: closed, but with a response ahead of its call. */
  lemma CompleteCallAfter(question: Message, a: string, b: string, text: string, reason: string)
    requires question.role.User? && question.calls == [] && a != "" && b != "" && a != b
    ensures var ms := [question, Message(Assistant, Text(""), [a], ""), question,
                       Message(Assistant, Text(""), [b], ""), Message(Tool, Text(text), [], b)];
            && DistinctCalls(ms) && NoOrphans(ms) && AtMostOneIncomplete(ms)
            && Closed(Filled(ms, reason)) && !NoOrphans(Filled(ms, reason))
  {
    var ms := [question, Message(Assistant, Text(""), [a], ""), question,
               Message(Assistant, Text(""), [b], ""), Message(Tool, Text(text), [], b)];
    assert CallOf(ms, 3, 4) && Answers(ms, 3, b, 4);
    assert a in ms[1].calls && !Answered(ms, 1, a);
    assert !CompleteAt(ms, 1) && b in ms[3].calls && CallsTools(ms[3]);
    RepairCloses(ms, reason);
    RepairPairsIff(ms, reason);
  }

  // ---- nothing is lost -------------------------------------------------------------------

  /** `pos` embeds `ms` in `out`, in order. */
  ghost predicate Embeds(ms: seq<Message>, out: seq<Message>, pos: seq<nat>) {
    && |pos| == |ms|
    && (forall k :: 0 <= k < |pos| ==> pos[k] < |out| && out[pos[k]] == ms[k])
    && (forall k, l :: 0 <= k < l < |pos| ==> pos[k] < pos[l])
    && (forall x :: 0 <= x < |out| && x !in pos ==> out[x].role.Tool?)
  }

  lemma SplicedEmbeds(ms: seq<Message>, out: seq<Message>, pos: seq<nat>, at: nat, block: seq<Message>)
    returns (next: seq<nat>)
    requires Embeds(ms, out, pos) && at <= |out| && AllTools(block)
    ensures Embeds(ms, Spliced(out, at, block), next)
  {
    var n := |block|;
    next := seq(|pos|, k requires 0 <= k < |pos| => Moved(at, n, pos[k]));
    var after := Spliced(out, at, block);
    forall x | 0 <= x < |after| && x !in next
      ensures after[x].role.Tool?
    {
      if x < at || x >= at + n {
        var y := if x < at then x else x - n;
        forall k | 0 <= k < |pos|
          ensures pos[k] != y
        {
          assert next[k] != x;
        }
      }
    }
  }

  lemma FillEmbeds(ms: seq<Message>, out: seq<Message>, pos: seq<nat>, i: nat, msg: Message, reason: string)
    returns (next: seq<nat>)
    requires i < |out| && Embeds(ms, out, pos)
    ensures Embeds(ms, FillAt(out, i, msg, reason), next)
  {
    next := pos;
    if msg.role.Assistant? && msg.calls != [] {
      next := SplicedEmbeds(ms, out, pos, SearchEnd(out, i + 1), Aborts(Missing(out, i, msg), reason));
    }
  }

  /** The repair keeps every message, in order, and adds only tool responses. */
  lemma {:induction false} FilledEmbeds(ms: seq<Message>, out: seq<Message>, pos: seq<nat>, i: nat, reason: string)
    returns (last: seq<nat>)
    requires i <= |ms| <= |out| && Embeds(ms, out, pos)
    ensures Embeds(ms, FillFrom(ms, out, i, reason), last)
    decreases |ms| - i
  {
    if i == |ms| {
      last := pos;
    } else {
      var next := FillEmbeds(ms, out, pos, i, ms[i], reason);
      last := FilledEmbeds(ms, FillAt(out, i, ms[i], reason), next, i + 1, reason);
    }
  }

  // ---- the whole repair ------------------------------------------------------------------

  function Note(reason: string): string {
    if reason == "cancelled" then "[Incomplete response due to timeout or cancellation]"
    else "[Turn interrupted: " + reason + "]"
  }

  /** The closing assistant message the repair appends, if the history does not end well. */
  function Closing(last: Message, reason: string, partial: string): seq<Message> {
    if last.role.Tool? || (last.role.Assistant? && last.calls != [] && last.content.text == "") then
      var text := Trimmed(partial);
      [Message(Assistant, Text(if text != "" then text + "\n\n" + Note(reason) else Note(reason)), [], "")]
    else if last.role.User? then
      [Message(Assistant, Text(if reason == "cancelled" then "[Incomplete response: turn timed out or cancelled]"
                               else "[Incomplete response: " + reason + "]"), [], "")]
    else []
  }

  function WithClosing(filled: seq<Message>, reason: string, partial: string): seq<Message>
    requires filled != []
  {
    filled + Closing(filled[|filled| - 1], reason, partial)
  }

  function Sanitized(ms: seq<Message>, reason: string, partial: string): seq<Message>
    requires ms != []
  {
    WithClosing(Filled(ms, reason), reason, partial)
  }

  method Sanitize(ms: seq<Message>, reason: string, partial: string) returns (out: seq<Message>)
    ensures ms == [] ==> out == []
    ensures ms != [] ==> out == Sanitized(ms, reason, partial)
  {
    if ms == [] {
      return [];
    }
    var filled := FillMissing(ms, reason);
    out := WithClosing(filled, reason, partial);
  }

  lemma ClosingOk(filled: seq<Message>, reason: string, partial: string)
    requires filled != []
    ensures EndsWithAssistant(WithClosing(filled, reason, partial))
    ensures filled <= WithClosing(filled, reason, partial)
    ensures Closed(filled) ==> Closed(WithClosing(filled, reason, partial))
    ensures NoOrphans(filled) ==> NoOrphans(WithClosing(filled, reason, partial))
  {
    if NoOrphans(filled) {
      AppendOwned(filled, Closing(filled[|filled| - 1], reason, partial));
    }
    if Closed(filled) {
      AppendAssistant(filled, Closing(filled[|filled| - 1], reason, partial));
    }
  }

  /** The repaired history ends with the assistant, and is closed if at most one message was
      incomplete; it is the filled history plus at most the closing message. */
  lemma SanitizedOk(ms: seq<Message>, reason: string, partial: string)
    requires ms != []
    ensures EndsWithAssistant(Sanitized(ms, reason, partial))
    ensures Filled(ms, reason) <= Sanitized(ms, reason, partial)
    ensures AtMostOneIncomplete(ms) ==> Closed(Sanitized(ms, reason, partial))
    ensures LastToCall(ms) && NoOrphans(ms) ==> NoOrphans(Sanitized(ms, reason, partial))
  {
    ClosingOk(Filled(ms, reason), reason, partial);
    if LastToCall(ms) && NoOrphans(ms) {
      RepairOwned(ms, reason);
    }
    if AtMostOneIncomplete(ms) {
      RepairCloses(ms, reason);
    }
  }

  ghost predicate Mentions(text: string, part: string) {
    exists a: nat :: MentionsAt(text, part, a)
  }

  predicate MentionsAt(text: string, part: string, a: nat) {
    a + |part| <= |text| && text[a..a + |part|] == part
  }

  /** An inserted response answers its call and, unlike any tool, says why there is no result. */
  lemma AbortSays(id: string, reason: string)
    ensures var m := Abort(id, reason);
            m.role.Tool? && m.callId == id && m.calls == [] && m.content.Text? && Mentions(m.content.text, reason)
  {
    var front := "Tool call was aborted (";
    assert MentionsAt(front + reason + ")", reason, |front|);
  }

  lemma NoteSays(reason: string)
    ensures reason != "cancelled" ==> Mentions(Note(reason), reason)
  {
    var front := "[Turn interrupted: ";
    assert MentionsAt(front + reason + "]", reason, |front|);
  }

  /**
   What is appended to the repaired history: nothing exactly if it ends with an assistant message
   that calls nothing or says something; otherwise one assistant message without calls.  After a
   tool or assistant message it begins with the partial answer, if there is one; it says why the
   turn ended unless that was a cancellation.
   */
  lemma ClosingSays(last: Message, reason: string, partial: string)
    ensures Closing(last, reason, partial) == []
            <==> last.role.Assistant? && (last.calls == [] || last.content.text != "")
    ensures Closing(last, reason, partial) != [] ==>
              var m := Closing(last, reason, partial)[0];
              && |Closing(last, reason, partial)| == 1
              && m.role.Assistant? && m.calls == [] && m.content.Text? && m.content.text != ""
              && (!last.role.User? ==> StartsWith(m.content.text, Trimmed(partial)))
              && (reason != "cancelled" ==> Mentions(m.content.text, reason))
  {
    NoteSays(reason);
    var text, note := Trimmed(partial), Note(reason);
    if reason != "cancelled" {
      var a: nat :| MentionsAt(note, reason, a);
      MentionsAfter(text + "\n\n", note, reason, a);
      var front := "[Incomplete response: ";
      assert MentionsAt(front + reason + "]", reason, |front|);
    }
    PrefixOf(text, note);
  }

  lemma MentionsAfter(front: string, text: string, part: string, a: nat)
    requires MentionsAt(text, part, a)
    ensures MentionsAt(front + text, part, |front| + a)
  {
    assert (front + text)[|front| + a..|front| + a + |part|] == text[a..a + |part|];
  }

  lemma PrefixOf(text: string, note: string)
    ensures StartsWith(text + "\n\n" + note, text)
  {
    assert (text + "\n\n" + note)[..|text|] == text;
  }

  /** The original messages are all there, in order; only tool responses came between them. */
  lemma SanitizedKeeps(ms: seq<Message>, reason: string) returns (pos: seq<nat>)
    ensures Embeds(ms, Filled(ms, reason), pos)
  {
    pos := FilledEmbeds(ms, ms, seq(|ms|, k => k), 0, reason);
  }

  lemma {:induction false} FilledLonger(ms: seq<Message>, out: seq<Message>, i: nat, reason: string)
    requires i <= |ms| <= |out|
    ensures |FillFrom(ms, out, i, reason)| >= |out|
    decreases |ms| - i
  {
    if i < |ms| {
      FilledLonger(ms, FillAt(out, i, ms[i], reason), i + 1, reason);
    }
  }

  lemma AppendOwned(ms: seq<Message>, more: seq<Message>)
    requires NoOrphans(ms) && forall k :: 0 <= k < |more| ==> !more[k].role.Tool?
    ensures NoOrphans(ms + more)
  {
    forall j | 0 <= j < |ms + more| && (ms + more)[j].role.Tool?
      ensures Owned(ms + more, j)
    {
      var i: nat :| CallOf(ms, i, j);
      assert CallOf(ms + more, i, j);
    }
  }

  /** Appending assistant messages without calls keeps a conversation closed. */
  lemma AppendAssistant(ms: seq<Message>, more: seq<Message>)
    requires Closed(ms) && forall m :: m in more ==> m.calls == []
    ensures Closed(ms + more)
  {
    forall i | 0 <= i < |ms + more|
      ensures CompleteAt(ms + more, i)
    {
      if i < |ms| {
        assert CompleteAt(ms, i);
        forall c | c in ms[i].calls && c != "" && ms[i].role.Assistant?
          ensures Answered(ms + more, i, c)
        {
          var j :| Answers(ms, i, c, j);
          assert Answers(ms + more, i, c, j);
        }
      } else {
        assert (ms + more)[i] in more;
      }
    }
  }
}
