/**
 Context compaction: whole turns are summarised away, then stale tool output is trimmed, the
 summary is squeezed, and finally the current turn's texts are cut, until the prompt fits.
 Token counts, turn summaries and the rendered headers are arbitrary functions.
 */
module ContextEngine {
  import opened Wrappers
  import opened Conversation

  datatype Engine = Engine(
    window: nat, reserve: nat, maxSummary: nat,
    tokens: seq<Message> -> nat,
    summarize: seq<Message> -> string,
    header: nat -> string)
  {
    predicate Valid() { window >= 512 && 1 <= reserve < window }
  }

  // ---- text ------------------------------------------------------------------------------

  function Word(s: string): (w: string)
    ensures |w| <= |s| && w == s[..|w|] && (|w| < |s| ==> Space(s[|w|]))
    ensures s != "" && !Space(s[0]) ==> w != ""
  {
    if s == "" || Space(s[0]) then "" else [s[0]] + Word(s[1..])
  }

  /** `" ".join(value.split())` */
  function Squeezed(s: string): (r: string)
    ensures |r| <= |s|
    ensures s != "" && Space(s[0]) ==> |r| < |s|
    decreases |s|
  {
    if s == "" then ""
    else if Space(s[0]) then Squeezed(s[1..])
    else
      var w := Word(s);
      var rest := Squeezed(s[|w|..]);
      if rest == "" then w else w + " " + rest
  }

  function Bounded(value: string, limit: nat): (r: string)
    requires limit > 0
    ensures |r| <= limit && |r| <= |value|
  {
    var t := Squeezed(value);
    if |t| <= limit then t else t[..limit - 1] + "…"
  }

  function Join(lines: seq<string>): string {
    if lines == [] then "" else if |lines| == 1 then lines[0]
    else lines[0] + "\n" + Join(lines[1..])
  }

  /** `splitlines`, with newline as the only line boundary. */
  function SplitLines(s: string): seq<string>
    decreases |s|
  {
    if s == "" then []
    else
      var i := LineEnd(s);
      [s[..i]] + if i < |s| then SplitLines(s[i + 1..]) else []
  }

  function LineEnd(s: string): (i: nat)
    ensures i <= |s|
  {
    if s == "" || s[0] == '\n' then 0 else 1 + LineEnd(s[1..])
  }

  /** A text without its white space. */
  function Ink(s: string): (r: string)
    ensures |r| <= |s|
  {
    if s == "" then "" else (if Space(s[0]) then "" else [s[0]]) + Ink(s[1..])
  }

  lemma {:induction false} InkConcat(s: string, t: string)
    ensures Ink(s + t) == Ink(s) + Ink(t)
  {
    if s == "" {
      assert s + t == t;
    } else {
      assert (s + t)[1..] == s[1..] + t;
      InkConcat(s[1..], t);
    }
  }

  /** Squeezing only loses white space. */
  lemma {:induction false} SqueezedKeeps(s: string)
    ensures Ink(Squeezed(s)) == Ink(s)
    decreases |s|
  {
    if s != "" && Space(s[0]) {
      SqueezedKeeps(s[1..]);
    } else if s != "" {
      var w := Word(s);
      var rest := Squeezed(s[|w|..]);
      SqueezedKeeps(s[|w|..]);
      assert s == w + s[|w|..];
      InkConcat(w, s[|w|..]);
      InkConcat(w + " ", rest);
      InkConcat(w, " ");
      SpaceHasNoInk();
      InkFree(rest);
    }
  }

  lemma SpaceHasNoInk()
    ensures Ink(" ") == ""
  {
    assert " "[1..] == "";
  }

  lemma InkFree(rest: string)
    ensures rest == "" ==> Ink(rest) == ""
  {
  }

  /** A bounded text is the whole text but for white space, or its beginning and an ellipsis. */
  lemma BoundedKeeps(value: string, limit: nat)
    requires limit > 0
    ensures var r := Bounded(value, limit);
            || Ink(r) == Ink(value)
            || (|r| == limit && r[limit - 1] == '…' && Ink(r[..limit - 1]) <= Ink(value))
  {
    var t := Squeezed(value);
    SqueezedKeeps(value);
    if |t| > limit {
      assert t == t[..limit - 1] + t[limit - 1..];
      InkConcat(t[..limit - 1], t[limit - 1..]);
      assert (t[..limit - 1] + "…")[..limit - 1] == t[..limit - 1];
    }
  }

  /** Joining the lines of a text gives it back, less a final newline. */
  lemma {:induction false} LinesJoin(s: string)
    ensures Join(SplitLines(s)) == if s != "" && s[|s| - 1] == '\n' then s[..|s| - 1] else s
    ensures forall k :: 0 <= k < |SplitLines(s)| ==> '\n' !in SplitLines(s)[k]
    decreases |s|
  {
    if s != "" {
      var i := LineEnd(s);
      LineEndIs(s);
      if i < |s| {
        LinesJoin(s[i + 1..]);
        LineFirst(s, i);
      } else {
        assert s[..i] == s;
      }
    }
  }

  lemma {:induction false} LineEndIs(s: string)
    ensures '\n' !in s[..LineEnd(s)] && (LineEnd(s) < |s| ==> s[LineEnd(s)] == '\n')
  {
    if s != "" && s[0] != '\n' {
      LineEndIs(s[1..]);
      assert s[..LineEnd(s)] == [s[0]] + s[1..][..LineEnd(s) - 1];
    }
  }

  lemma LineFirst(s: string, i: nat)
    requires i == LineEnd(s) < |s| && s[i] == '\n' && SplitLines(s) == [s[..i]] + SplitLines(s[i + 1..])
    requires var rest := s[i + 1..];
             Join(SplitLines(rest)) == if rest != "" && rest[|rest| - 1] == '\n' then rest[..|rest| - 1] else rest
    ensures Join(SplitLines(s)) == if s[|s| - 1] == '\n' then s[..|s| - 1] else s
  {
    var lines, rest := SplitLines(s), s[i + 1..];
    assert lines[0] == s[..i] && lines[1..] == SplitLines(rest);
    assert s == s[..i] + "\n" + rest;
    if rest == "" {
      assert SplitLines(rest) == [];
    } else {
      assert SplitLines(rest) != [];
    }
  }

  // ---- turns -----------------------------------------------------------------------------

  predicate RealUser(m: Message) { m.role.User? && !m.RuntimeContext() }

  /** A lone runtime-context message waits for the user message it belongs to. */
  predicate Starts(current: seq<Message>, m: Message) {
    RealUser(m) && current != [] && !(|current| == 1 && current[0].RuntimeContext())
  }

  /** The finished turns and the running turn after a history. */
  ghost function Split(h: seq<Message>): (seq<seq<Message>>, seq<Message>) {
    if h == [] then ([], [])
    else
      var (turns, current) := Split(h[..|h| - 1]);
      var m := h[|h| - 1];
      if Starts(current, m) then (turns + [current], [m]) else (turns, current + [m])
  }

  ghost function TurnsOf(h: seq<Message>): seq<seq<Message>> {
    var (turns, current) := Split(h);
    if current == [] then turns else turns + [current]
  }

  function Flat(turns: seq<seq<Message>>): seq<Message> {
    if turns == [] then [] else turns[0] + Flat(turns[1..])
  }

  /** `_turns` */
  method MakeTurns(h: seq<Message>) returns (turns: seq<seq<Message>>)
    ensures turns == TurnsOf(h)
  {
    turns := [];
    var current: seq<Message> := [];
    for i := 0 to |h|
      invariant (turns, current) == Split(h[..i])
    {
      assert h[..i + 1][..i] == h[..i];
      if Starts(current, h[i]) {
        turns, current := turns + [current], [];
        assert current + [h[i]] == [h[i]];
      }
      current := current + [h[i]];
    }
    assert h[..|h|] == h;
    if current != [] {
      turns := turns + [current];
    }
  }

  lemma {:induction false} FlatConcat(a: seq<seq<Message>>, b: seq<seq<Message>>)
    ensures Flat(a + b) == Flat(a) + Flat(b)
    decreases |a|
  {
    if a == [] {
      assert a + b == b;
    } else {
      assert (a + b)[1..] == a[1..] + b;
      FlatConcat(a[1..], b);
    }
  }

  lemma FlatSnoc(turns: seq<seq<Message>>, t: seq<Message>)
    ensures Flat(turns + [t]) == Flat(turns) + t
  {
    FlatConcat(turns, [t]);
    assert [t][1..] == [];
  }

  /** Splitting loses nothing. */
  lemma {:induction false} SplitFlat(h: seq<Message>)
    ensures Flat(Split(h).0) + Split(h).1 == h
    decreases |h|
  {
    if h != [] {
      var before := h[..|h| - 1];
      SplitFlat(before);
      var (turns, current) := Split(before);
      var m := h[|h| - 1];
      assert h == before + [m];
      if Starts(current, m) {
        FlatSnoc(turns, current);
        assert Split(h) == (turns + [current], [m]);
      } else {
        assert Split(h) == (turns, current + [m]);
        assert Flat(turns) + (current + [m]) == Flat(turns) + current + [m];
      }
    }
  }

  lemma TurnsFlat(h: seq<Message>)
    ensures Flat(TurnsOf(h)) == h
  {
    SplitFlat(h);
    FlatSnoc(Split(h).0, Split(h).1);
  }

  /** Two histories in step: same roles and same runtime-context messages, position by position. */
  ghost predicate Aligned(a: seq<Message>, b: seq<Message>) {
    |a| == |b| && forall i :: 0 <= i < |a| ==> Alike(a[i], b[i])
  }

  predicate Alike(a: Message, b: Message) {
    a.role == b.role && (a.RuntimeContext() <==> b.RuntimeContext())
  }

  ghost predicate SameLengths(a: seq<seq<Message>>, b: seq<seq<Message>>) {
    |a| == |b| && forall i :: 0 <= i < |a| ==> Aligned(a[i], b[i])
  }

  /** Aligned histories have turns of the same lengths. */
  lemma {:induction false} AlignedSplit(a: seq<Message>, b: seq<Message>)
    requires Aligned(a, b)
    ensures SameLengths(Split(a).0, Split(b).0) && Aligned(Split(a).1, Split(b).1)
    decreases |a|
  {
    if a != [] {
      AlignedSplit(a[..|a| - 1], b[..|b| - 1]);
      assert Alike(a[|a| - 1], b[|b| - 1]);
      var ca, cb := Split(a[..|a| - 1]).1, Split(b[..|b| - 1]).1;
      assert |ca| == 1 ==> Alike(ca[0], cb[0]);
    }
  }

  lemma AlignedTurns(a: seq<Message>, b: seq<Message>)
    requires Aligned(a, b)
    ensures SameLengths(TurnsOf(a), TurnsOf(b))
  {
    AlignedSplit(a, b);
  }

  lemma {:induction false} AlignedFlat(a: seq<seq<Message>>, b: seq<seq<Message>>)
    requires SameLengths(a, b)
    ensures Aligned(Flat(a), Flat(b))
    decreases |a|
  {
    if a != [] {
      AlignedFlat(a[1..], b[1..]);
      assert Aligned(a[0], b[0]);
    }
  }

  /** Every turn has a message, and every turn but the first begins with a real user message. */
  lemma {:induction false} TurnHeads(h: seq<Message>)
    ensures forall i :: 0 <= i < |Split(h).0| ==> Split(h).0[i] != [] && (i > 0 ==> RealUser(Split(h).0[i][0]))
    ensures h != [] ==> Split(h).1 != [] && (Split(h).0 != [] ==> RealUser(Split(h).1[0]))
    decreases |h|
  {
    if h != [] {
      TurnHeads(h[..|h| - 1]);
    }
  }

  /** A real user message is the first of its turn, or follows the runtime context that is. */
  ghost predicate OneQuestion(t: seq<Message>) {
    forall k :: 0 < k < |t| && RealUser(t[k]) ==> k == 1 && t[0].RuntimeContext()
  }

  /** The turns are as short as they can be: each has one question. */
  lemma {:induction false} TurnsOneQuestion(h: seq<Message>)
    ensures (forall i :: 0 <= i < |Split(h).0| ==> OneQuestion(Split(h).0[i])) && OneQuestion(Split(h).1)
    ensures forall i :: 0 <= i < |TurnsOf(h)| ==> OneQuestion(TurnsOf(h)[i])
    decreases |h|
  {
    if h != [] {
      TurnsOneQuestion(h[..|h| - 1]);
    }
  }

  // ---- the prompt ------------------------------------------------------------------------

  /** The last real user message, with its runtime context if that stands before it. */
  function CurrentTurnIndex(h: seq<Message>): (i: nat)
    ensures i <= |h|
  {
    var last := LastUser(h, |h|);
    if last == |h| then |h|
    else if last > 0 && h[last - 1].RuntimeContext() then last - 1
    else last
  }

  /** The last real user message before `n`, or `|h|` if there is none. */
  function LastUser(h: seq<Message>, n: nat): (i: nat)
    requires n <= |h|
    ensures i == |h| || i < n
  {
    if n == 0 then |h| else if RealUser(h[n - 1]) then n - 1 else LastUser(h, n - 1)
  }

  function SummaryMessages(e: Engine, summary: string, covered: nat): seq<Message> {
    if Stripped(summary) == "" then []
    else [Message(User, Text(e.header(covered) + summary), [], ""),
          Message(Assistant, Text("[Context acknowledged - summary is lossy, not verbatim history]"), [], "")]
  }

  function HasRuntime(h: seq<Message>): bool {
    h != [] && (h[0].RuntimeContext() || HasRuntime(h[1..]))
  }

  function Assemble(e: Engine, h: seq<Message>, summary: string, covered: nat, context: string): seq<Message> {
    var i := CurrentTurnIndex(h);
    SummaryMessages(e, summary, covered) + h[..i] + RuntimeFor(h, i, context) + h[i..]
  }

  function RuntimeFor(h: seq<Message>, i: nat, context: string): seq<Message>
    requires i <= |h|
  {
    if context != "" && !HasRuntime(h[i..]) then [Message(User, Text(context), [], "")] else []
  }

  // ---- what the prompt says --------------------------------------------------------------

  /** `i` is where the current turn begins: its real user message is the last one, and a runtime
      context directly before it belongs to it. */
  ghost predicate IsCurrentTurn(h: seq<Message>, i: nat) {
    if forall k :: 0 <= k < |h| ==> !RealUser(h[k]) then i == |h|
    else exists u: nat :: u < |h| && RealUser(h[u]) && (forall k :: u < k < |h| ==> !RealUser(h[k]))
                          && i == if u > 0 && h[u - 1].RuntimeContext() then u - 1 else u
  }

  lemma {:induction false} LastUserIs(h: seq<Message>, n: nat)
    requires n <= |h|
    ensures LastUser(h, n) == |h| ==> forall k :: 0 <= k < n ==> !RealUser(h[k])
    ensures LastUser(h, n) < |h| ==> RealUser(h[LastUser(h, n)])
    ensures LastUser(h, n) < |h| ==> forall k :: LastUser(h, n) < k < n ==> !RealUser(h[k])
  {
    if n > 0 && !RealUser(h[n - 1]) {
      LastUserIs(h, n - 1);
    }
  }

  lemma CurrentTurnIs(h: seq<Message>)
    ensures IsCurrentTurn(h, CurrentTurnIndex(h))
  {
    LastUserIs(h, |h|);
    var u := LastUser(h, |h|);
    if u < |h| {
      assert RealUser(h[u]) && (forall k :: u < k < |h| ==> !RealUser(h[k]));
    }
  }

  lemma {:induction false} HasRuntimeIs(h: seq<Message>)
    ensures HasRuntime(h) <==> exists k :: 0 <= k < |h| && h[k].RuntimeContext()
    decreases |h|
  {
    if h != [] {
      HasRuntimeIs(h[1..]);
      if k :| 0 <= k < |h| && h[k].RuntimeContext() {
        assert k > 0 ==> h[1..][k - 1].RuntimeContext();
      }
      if HasRuntime(h[1..]) {
        var k :| 0 <= k < |h[1..]| && h[1..][k].RuntimeContext();
        assert h[k + 1].RuntimeContext();
      }
    }
  }

  /** The current turn needs a runtime context. */
  ghost predicate NeedsContext(h: seq<Message>, i: nat, context: string) {
    context != "" && forall k :: i <= k < |h| ==> !h[k].RuntimeContext()
  }

  /** `s` occurs in `t`. */
  ghost predicate Occurs(s: string, t: string) {
    exists a: nat :: OccursAt(s, t, a)
  }

  predicate OccursAt(s: string, t: string, a: nat) {
    a + |s| <= |t| && t[a..a + |s|] == s
  }

  /** `pos` says where each message of the history is in the prompt, in order. */
  ghost predicate Placed(h: seq<Message>, r: seq<Message>, pos: seq<nat>) {
    && |pos| == |h|
    && (forall k :: 0 <= k < |h| ==> pos[k] < |r| && r[pos[k]] == h[k])
    && (forall k, l :: 0 <= k < l < |h| ==> pos[k] < pos[l])
  }

  /** The two summary messages come first, exactly if there is a summary, and contain it. */
  ghost predicate SummaryFirst(r: seq<Message>, summary: string, n: nat) {
    && n == (if Trimmed(summary) == "" then 0 else 2) && n <= |r|
    && (n == 2 ==> r[0].role.User? && r[0].content.Text? && Occurs(summary, r[0].content.text) && r[1].role.Assistant?)
  }

  /**
   The prompt holds the whole history, in order.  Besides it there are only the two summary messages
   at the front, and one runtime context directly before the current turn, exactly if that needs one.
   */
  lemma AssembleHolds(e: Engine, h: seq<Message>, summary: string, covered: nat, context: string)
    returns (pos: seq<nat>, i: nat, n: nat, c: nat)
    ensures var r := Assemble(e, h, summary, covered, context);
            && Placed(h, r, pos) && SummaryFirst(r, summary, n) && IsCurrentTurn(h, i) && i <= |h|
            && c == (if NeedsContext(h, i, context) then 1 else 0) && |r| == n + |h| + c
            && (c == 1 ==> r[n + i] == Message(User, Text(context), [], ""))
            && forall k :: 0 <= k < |h| ==> pos[k] == PositionOf(n, i, c, k)
  {
    i := CurrentTurnIndex(h);
    CurrentTurnIs(h);
    SummaryIs(e, summary, covered);
    RuntimeForIs(h, i, context);
    n, c := |SummaryMessages(e, summary, covered)|, |RuntimeFor(h, i, context)|;
    pos := PlacedParts(SummaryMessages(e, summary, covered), h, i, RuntimeFor(h, i, context),
                       Assemble(e, h, summary, covered, context), summary);
  }

  lemma SummaryIs(e: Engine, summary: string, covered: nat)
    ensures SummaryFirst(SummaryMessages(e, summary, covered), summary, |SummaryMessages(e, summary, covered)|)
  {
    TrimmedBlank(summary);
    var header := e.header(covered);
    assert OccursAt(summary, header + summary, |header|);
  }

  lemma RuntimeForIs(h: seq<Message>, i: nat, context: string)
    requires i <= |h|
    ensures RuntimeFor(h, i, context)
         == if NeedsContext(h, i, context) then [Message(User, Text(context), [], "")] else []
  {
    HasRuntimeIs(h[i..]);
    assert forall k :: 0 <= k < |h| - i ==> h[i..][k] == h[i + k];
    assert forall k :: i <= k < |h| ==> h[k] == h[i..][k - i];
  }

  /** The position of the `k`-th message, behind `n` messages and, from the current turn on, `c` more. */
  function PositionOf(n: nat, i: nat, c: nat, k: nat): nat {
    n + k + if k < i then 0 else c
  }

  lemma PlacedParts(front: seq<Message>, h: seq<Message>, i: nat, runtime: seq<Message>, r: seq<Message>,
                    summary: string)
    returns (pos: seq<nat>)
    requires i <= |h| && r == front + h[..i] + runtime + h[i..] && SummaryFirst(front, summary, |front|)
    ensures Placed(h, r, pos) && SummaryFirst(r, summary, |front|) && |r| == |front| + |h| + |runtime|
    ensures forall k :: 0 <= k < |h| ==> pos[k] == PositionOf(|front|, i, |runtime|, k)
    ensures |runtime| == 1 ==> r[|front| + i] == runtime[0]
  {
    pos := seq(|h|, k requires 0 <= k < |h| => PositionOf(|front|, i, |runtime|, k));
    forall k | 0 <= k < |h|
      ensures pos[k] < |r| && r[pos[k]] == h[k]
    {
      PartAt(front, h, i, runtime, k);
    }
  }

  lemma PartAt(front: seq<Message>, h: seq<Message>, i: nat, runtime: seq<Message>, k: nat)
    requires i <= |h| && k < |h|
    ensures var r, p := front + h[..i] + runtime + h[i..], PositionOf(|front|, i, |runtime|, k);
            p < |r| && r[p] == h[k]
  {
  }

  lemma {:induction false} TrimmedBlank(s: string)
    ensures Stripped(s) == "" <==> Trimmed(s) == ""
    decreases |s|
  {
    var t := Stripped(s);
    StrippedHead(s);
    if t != "" {
      TrimmedHead(t);
    }
  }

  lemma {:induction false} StrippedHead(s: string)
    ensures Stripped(s) != "" ==> !Space(Stripped(s)[0])
    decreases |s|
  {
    if s != "" && Space(s[0]) {
      StrippedHead(s[1..]);
    }
  }

  lemma {:induction false} TrimmedHead(s: string)
    requires s != "" && !Space(s[0])
    ensures TrimmedRight(s) != ""
    decreases |s|
  {
    if Space(s[|s| - 1]) {
      TrimmedHead(s[..|s| - 1]);
    }
  }

  // ---- trimming --------------------------------------------------------------------------

  /** Only the texts of tool and assistant messages may differ. */
  predicate SameExceptText(a: Message, b: Message) {
    SameBones(a, b) && (a.role.User? ==> a == b)
  }

  /** Role, calls and id are the same. */
  predicate SameBones(a: Message, b: Message) {
    a.role == b.role && a.calls == b.calls && a.callId == b.callId
  }

  ghost predicate SameShape(a: seq<Message>, b: seq<Message>) {
    |a| == |b| && forall i :: 0 <= i < |a| ==> SameExceptText(a[i], b[i])
  }

  ghost predicate SameSkeleton(a: seq<Message>, b: seq<Message>) {
    |a| == |b| && forall i :: 0 <= i < |a| ==> SameBones(a[i], b[i])
  }

  function WithText(h: seq<Message>, i: nat, text: string): seq<Message>
    requires i < |h|
  {
    h[i := h[i].(content := Text(text))]
  }

  /** Write a text into both copies; `false` is the index error of a durable history that is too short. */
  method WriteBoth(m0: seq<Message>, d0: seq<Message>, i: nat, text: string)
    returns (ok: bool, m: seq<Message>, d: seq<Message>)
    requires i < |m0|
    ensures ok <==> i < |d0|
    ensures m == WithText(m0, i, text) && (ok ==> d == WithText(d0, i, text))
  {
    m, d, ok := WithText(m0, i, text), d0, i < |d0|;
    if ok {
      d := WithText(d0, i, text);
    }
  }

  /** What a pass over the current turn keeps: everything but texts, and no user message changes if
      the histories are aligned. */
  ghost predicate Recut(model: seq<Message>, durable: seq<Message>, m: seq<Message>, d: seq<Message>) {
    SameShape(model, m) && SameSkeleton(durable, d) && (Aligned(model, durable) ==> SameShape(durable, d))
  }

  lemma RecutWrite(model: seq<Message>, durable: seq<Message>, m: seq<Message>, d: seq<Message>, i: nat, text: string)
    requires Recut(model, durable, m, d) && i < |m| && i < |d| && !m[i].role.User?
    ensures Recut(model, durable, WithText(m, i, text), WithText(d, i, text))
  {
    assert SameExceptText(model[i], m[i]) && SameBones(durable[i], d[i]);
    if Aligned(model, durable) {
      assert Alike(model[i], durable[i]);
    }
  }

  /** Position `i` holds the last tool message. */
  ghost predicate LatestTool(h: seq<Message>, i: nat) {
    i < |h| && h[i].role.Tool? && forall k :: i < k < |h| ==> !h[k].role.Tool?
  }

  /** What trimming makes of a tool message: the latest may be longer than the others. */
  function TrimmedText(m: Message, latest: bool): (r: Option<string>)
    ensures r.Some? ==> m.role.Tool? && |r.value| <= if latest then 1200 else 350
    ensures r.None? && m.role.Tool? ==> |m.content.text| <= if latest then 1200 else 350
  {
    var limit, keep := if latest then 1200 else 350, if latest then 800 else 250;
    if m.role.Tool? && |m.content.text| > limit then Some(Bounded(m.content.text, keep) + " [trimmed]") else None
  }

  function Rewritten(m: Message, text: Option<string>): Message {
    if text.Some? then m.(content := Text(text.value)) else m
  }

  /** From `from` on, up to `n`, every message has its new text, if there is one. */
  ghost predicate Written(model: seq<Message>, m: seq<Message>, texts: seq<Option<string>>, from: nat, n: nat) {
    && |m| == |model| == |texts|
    && forall i :: 0 <= i < |m| ==> m[i] == if from <= i < n then Rewritten(model[i], texts[i]) else model[i]
  }

  /** One pass over the current turn. */
  method Pass(model: seq<Message>, durable: seq<Message>, texts: seq<Option<string>>, from: nat)
    returns (ok: bool, m: seq<Message>, d: seq<Message>)
    requires |texts| == |model| && from <= |model|
    requires forall i :: 0 <= i < |texts| && texts[i].Some? ==> !model[i].role.User?
    ensures |model| <= |durable| ==> ok
    ensures ok ==> Recut(model, durable, m, d) && Written(model, m, texts, from, |model|)
  {
    ok, m, d := true, model, durable;
    for i := from to |m|
      invariant Recut(model, durable, m, d) && Written(model, m, texts, from, i)
    {
      if texts[i].Some? {
        ok, m, d := Cut(model, durable, m, d, i, texts[i].value);
        if !ok {
          return;
        }
      }
    }
  }

  /** The current turn's tool messages have the texts that trimming gives them. */
  ghost predicate TrimmedTo(model: seq<Message>, m: seq<Message>, from: nat) {
    && |m| == |model| && (forall i :: 0 <= i < |m| && i < from ==> m[i] == model[i])
    && forall i: nat :: from <= i < |m| ==> m[i] == Rewritten(model[i], TrimmedText(model[i], LatestTool(model, i)))
  }

  /** `_trim_stale_tool_content`: cut the current turn's tool results, the latest least. */
  method TrimStale(model: seq<Message>, durable: seq<Message>) returns (ok: bool, m: seq<Message>, d: seq<Message>)
    ensures |model| <= |durable| ==> ok
    ensures ok ==> Recut(model, durable, m, d) && TrimmedTo(model, m, CurrentTurnIndex(model))
  {
    var from := CurrentTurnIndex(model);
    var latest := LatestIndex(model, from);
    var texts := seq(|model|, i requires 0 <= i < |model| => TrimmedText(model[i], i == latest));
    ok, m, d := Pass(model, durable, texts, from);
  }

  method LatestIndex(h: seq<Message>, from: nat) returns (latest: nat)
    requires from <= |h|
    ensures forall i :: from <= i < |h| ==> (i == latest <==> LatestTool(h, i))
  {
    latest := |h|;
    for i := from to |h|
      invariant latest == |h| || (from <= latest < i && h[latest].role.Tool?)
      invariant forall k :: from <= k < i && h[k].role.Tool? ==> latest < |h| && k <= latest
    {
      if h[i].role.Tool? {
        latest := i;
      }
    }
  }

  /** One write of a pass. */
  method Cut(ghost model: seq<Message>, ghost durable: seq<Message>, m0: seq<Message>, d0: seq<Message>, i: nat,
             text: string)
    returns (ok: bool, m: seq<Message>, d: seq<Message>)
    requires Recut(model, durable, m0, d0) && i < |m0| && !m0[i].role.User?
    ensures |model| <= |durable| ==> ok
    ensures m == WithText(m0, i, text) && (ok ==> Recut(model, durable, m, d))
  {
    if i < |d0| {
      RecutWrite(model, durable, m0, d0, i, text);
    }
    ok, m, d := WriteBoth(m0, d0, i, text);
  }

  /** Position `i` holds the last assistant message. */
  ghost predicate LatestAssistant(h: seq<Message>, i: nat) {
    i < |h| && h[i].role.Assistant? && forall k :: i < k < |h| ==> !h[k].role.Assistant?
  }

  /** The current turn's messages have the texts that the last cut gives them. */
  ghost predicate CutTo(model: seq<Message>, m: seq<Message>, from: nat) {
    && |m| == |model| && (forall i :: 0 <= i < |m| && i < from ==> m[i] == model[i])
    && forall i: nat :: from <= i < |m| ==> m[i] == Rewritten(model[i], Shorter(model[i], LatestAssistant(model, i)))
  }

  /** `_emergency_in_turn_compaction`: cut every tool result and all but the last assistant text. */
  method CompactTurn(model: seq<Message>, durable: seq<Message>) returns (ok: bool, m: seq<Message>, d: seq<Message>)
    ensures |model| <= |durable| ==> ok
    ensures ok ==> Recut(model, durable, m, d) && CutTo(model, m, CurrentTurnIndex(model))
  {
    var from := CurrentTurnIndex(model);
    var last := LastAssistantIndex(model, from);
    var texts := seq(|model|, i requires 0 <= i < |model| => Shorter(model[i], i == last));
    ok, m, d := Pass(model, durable, texts, from);
  }

  method LastAssistantIndex(h: seq<Message>, from: nat) returns (last: nat)
    requires from <= |h|
    ensures forall i :: from <= i < |h| ==> (i == last <==> LatestAssistant(h, i))
  {
    last := |h|;
    for i := from to |h|
      invariant last == |h| || (from <= last < i && h[last].role.Assistant?)
      invariant forall k :: from <= k < i && h[k].role.Assistant? ==> last < |h| && k <= last
    {
      if h[i].role.Assistant? {
        last := i;
      }
    }
  }

  /** The shorter text of a tool result, or of an assistant message that is not the last. */
  function Shorter(m: Message, last: bool): (r: Option<string>)
    ensures r.Some? ==> !m.role.User? && |r.value| <= if m.role.Tool? then 180 else 250
    ensures r.None? && m.role.Tool? ==> |m.content.text| <= 180
    ensures r.None? && m.role.Assistant? && !last ==> |m.content.text| <= 250
  {
    if m.role.Tool? && |m.content.text| > 180 then Some(Bounded(m.content.text, 150) + " [compacted]")
    else if m.role.Assistant? && !last && |m.content.text| > 250
    then Some(Bounded(m.content.text, 200) + " [thought compacted]")
    else None
  }

  /** How `prepare` measures a prompt and how it absorbs a dropped turn into the summary. */
  datatype Policy = Policy(size: (seq<Message>, string, nat) -> nat, absorb: (string, seq<Message>) -> string)

  function PolicyOf(e: Engine, context: string): Policy {
    Policy((h, summary, covered) => e.tokens(Assemble(e, h, summary, covered, context)),
           (summary, turn) => Merged(e, summary, e.summarize(turn)))
  }

  /** Nothing in the current turn can be cut further: tool texts are short, and assistant texts but
      for the last. */
  ghost predicate FullyCut(m: seq<Message>, from: nat) {
    forall i: nat :: from <= i < |m| ==>
      && (m[i].role.Tool? ==> |m[i].content.text| <= 180)
      && (m[i].role.Assistant? ==> |m[i].content.text| <= 250 || LatestAssistant(m, i))
  }

  lemma CutIsFull(model: seq<Message>, m: seq<Message>, from: nat)
    requires CutTo(model, m, from) && SameShape(model, m)
    ensures FullyCut(m, from)
  {
    forall i: nat | from <= i < |m|
      ensures m[i].role.Tool? ==> |m[i].content.text| <= 180
      ensures m[i].role.Assistant? ==> |m[i].content.text| <= 250 || LatestAssistant(m, i)
    {
      assert SameExceptText(model[i], m[i]);
      if LatestAssistant(model, i) {
        LatestKept(model, m, i);
      }
    }
  }

  lemma LatestKept(model: seq<Message>, m: seq<Message>, i: nat)
    requires SameShape(model, m) && LatestAssistant(model, i)
    ensures LatestAssistant(m, i)
  {
    forall k | i < k < |m|
      ensures !m[k].role.Assistant?
    {
      assert SameExceptText(model[k], m[k]);
    }
    assert SameExceptText(model[i], m[i]);
  }

  /** Changing texts of tool and assistant messages does not move the current turn. */
  lemma ShapeTurnIndex(a: seq<Message>, b: seq<Message>)
    requires SameShape(a, b)
    ensures CurrentTurnIndex(a) == CurrentTurnIndex(b)
  {
    ShapeLastUser(a, b, |a|);
    var u := LastUser(a, |a|);
    if 0 < u < |a| {
      assert SameExceptText(a[u - 1], b[u - 1]);
    }
  }

  lemma {:induction false} ShapeLastUser(a: seq<Message>, b: seq<Message>, n: nat)
    requires SameShape(a, b) && n <= |a|
    ensures LastUser(a, n) == LastUser(b, n)
  {
    if n > 0 {
      assert SameExceptText(a[n - 1], b[n - 1]);
      ShapeLastUser(a, b, n - 1);
    }
  }

  // ---- squeezing the summary -------------------------------------------------------------

  function TotalLength(lines: seq<string>): nat {
    if lines == [] then 0 else |lines[0]| + 1 + TotalLength(lines[1..])
  }

  lemma {:induction false} TotalSplit(a: seq<string>, b: seq<string>)
    ensures TotalLength(a + b) == TotalLength(a) + TotalLength(b)
    decreases |a|
  {
    if a == [] {
      assert a + b == b;
    } else {
      assert (a + b)[1..] == a[1..] + b;
      TotalSplit(a[1..], b);
    }
  }

  function Removed(lines: seq<string>, i: nat): seq<string>
    requires i < |lines|
  {
    lines[..i] + lines[i + 1..]
  }

  /** Dropping a line, or shortening one, shrinks the total. */
  lemma Shrinks(lines: seq<string>, i: nat, shorter: string)
    requires i < |lines|
    ensures TotalLength(Removed(lines, i)) < TotalLength(lines)
    ensures |shorter| < |lines[i]| ==> TotalLength(lines[i := shorter]) < TotalLength(lines)
  {
    assert lines == lines[..i] + ([lines[i]] + lines[i + 1..]);
    assert lines[i := shorter] == lines[..i] + ([shorter] + lines[i + 1..]);
    TotalSplit(lines[..i], [lines[i]] + lines[i + 1..]);
    TotalSplit(lines[..i], [shorter] + lines[i + 1..]);
    TotalSplit(lines[..i], lines[i + 1..]);
  }

  predicate UserLine(s: string) { StartsWith(s, "User:") }
  predicate AssistantLine(s: string) { StartsWith(s, "Assistant:") }

  /** Where `": "` first occurs, or `|s|`. */
  function Separator(s: string): (i: nat)
    ensures i <= |s| && (i < |s| ==> i + 2 <= |s| && s[i] == ':' && s[i + 1] == ' ')
  {
    if |s| < 2 then |s|
    else if s[0] == ':' && s[1] == ' ' then 0
    else
      var j := Separator(s[1..]);
      if j < |s| - 1 then j + 1 else |s|
  }

  method FirstLine(lines: seq<string>, p: string -> bool) returns (i: nat)
    ensures i <= |lines| && (i < |lines| ==> p(lines[i]))
    ensures forall k :: 0 <= k < i ==> !p(lines[k])
  {
    i := 0;
    while i < |lines| && !p(lines[i])
      invariant i <= |lines| && forall k :: 0 <= k < i ==> !p(lines[k])
    {
      i := i + 1;
    }
  }

  method Longest(lines: seq<string>) returns (i: nat)
    requires lines != []
    ensures FirstLongest(lines, i)
  {
    i := 0;
    for k := 1 to |lines|
      invariant i < k && forall x :: 0 <= x < k ==> |lines[x]| <= |lines[i]| && (x < i ==> |lines[x]| < |lines[i]|)
    {
      if |lines[k]| > |lines[i]| {
        i := k;
      }
    }
  }

  /** A shortened line keeps its label, so it is a User line exactly if it was one. */
  lemma LabelKept(line: string, value: string)
    requires Separator(line) < |line|
    ensures UserLine(line[..Separator(line)] + ": " + value) <==> UserLine(line)
  {
    var i := Separator(line);
    var other := line[..i] + ": " + value;
    UserLineIff(line);
    UserLineIff(other);
    assert other[i] == ':' == line[i] && other[i + 1] == ' ' == line[i + 1];
    assert forall k :: 0 <= k < i ==> other[k] == line[k];
  }

  lemma UserLineIff(s: string)
    ensures UserLine(s) <==> |s| >= 5 && s[0] == 'U' && s[1] == 's' && s[2] == 'e' && s[3] == 'r' && s[4] == ':'
  {
    var label_ := "User:";
    assert |label_| == 5 && label_[0] == 'U' && label_[1] == 's' && label_[2] == 'e';
    assert label_[3] == 'r' && label_[4] == ':';
    if |s| >= 5 && s[0] == 'U' && s[1] == 's' && s[2] == 'e' && s[3] == 'r' && s[4] == ':' {
      assert s[..5] == label_;
    }
  }

  ghost predicate AllUser(lines: seq<string>) {
    forall k :: 0 <= k < |lines| ==> UserLine(lines[k])
  }

  /** A line's value cut to seven tenths, but not below its minimum. */
  function Shortened(line: string): Option<string> {
    var i := Separator(line);
    if i == |line| then None
    else
      var value := line[i + 2..];
      var minimum := if line[..i] == "User" then 80 else 48;
      if |value| <= minimum then None
      else
        var limit := if minimum > |value| * 7 / 10 then minimum else |value| * 7 / 10;
        Some(line[..i] + ": " + Bounded(value, limit))
  }

  lemma ShortenedIs(line: string)
    requires Shortened(line).Some?
    ensures |Shortened(line).value| < |line| && (UserLine(Shortened(line).value) <==> UserLine(line))
  {
    var i := Separator(line);
    var value := line[i + 2..];
    var minimum := if line[..i] == "User" then 80 else 48;
    var limit := if minimum > |value| * 7 / 10 then minimum else |value| * 7 / 10;
    LabelKept(line, Bounded(value, limit));
  }

  ghost predicate FirstAssistant(lines: seq<string>, i: nat) {
    && i <= |lines| && (i < |lines| ==> AssistantLine(lines[i]))
    && forall k :: 0 <= k < i ==> !AssistantLine(lines[k])
  }

  ghost predicate FirstOther(lines: seq<string>, i: nat) {
    && i <= |lines| && (i < |lines| ==> !UserLine(lines[i]))
    && forall k :: 0 <= k < i ==> UserLine(lines[k])
  }

  ghost predicate FirstLongest(lines: seq<string>, i: nat) {
    && i < |lines|
    && forall k :: 0 <= k < |lines| ==> |lines[k]| <= |lines[i]| && (k < i ==> |lines[k]| < |lines[i]|)
  }

  /** One round of cutting: an Assistant line goes first, then the longest line is shortened, then
      the first line that is not a User line goes; a User line goes only when all are. */
  ghost predicate IsCut(lines: seq<string>, next: seq<string>) {
    exists a: nat, l: nat, o: nat :: FirstAssistant(lines, a) && FirstLongest(lines, l) && FirstOther(lines, o)
      && CutAt(lines, a, l, Shortened(lines[l]), o) == next
  }

  function CutAt(lines: seq<string>, a: nat, l: nat, short: Option<string>, o: nat): seq<string>
    requires lines != [] && a <= |lines| && l < |lines| && o <= |lines|
  {
    if a < |lines| then Removed(lines, a)
    else if short.Some? then lines[l := short.value]
    else Removed(lines, if o < |lines| then o else 0)
  }

  /** The number of User lines. */
  ghost function Users(lines: seq<string>): nat {
    if lines == [] then 0 else Users(lines[1..]) + if UserLine(lines[0]) then 1 else 0
  }

  lemma {:induction false} UsersSplit(a: seq<string>, b: seq<string>)
    ensures Users(a + b) == Users(a) + Users(b)
    decreases |a|
  {
    if a == [] {
      assert a + b == b;
    } else {
      assert (a + b)[1..] == a[1..] + b;
      UsersSplit(a[1..], b);
    }
  }

  /** Dropping or replacing a line changes the number of User lines by that line only. */
  lemma UsersAt(lines: seq<string>, i: nat, other: string)
    requires i < |lines|
    ensures Users(Removed(lines, i)) + (if UserLine(lines[i]) then 1 else 0) == Users(lines)
    ensures (UserLine(other) <==> UserLine(lines[i])) ==> Users(lines[i := other]) == Users(lines)
  {
    assert lines == lines[..i] + ([lines[i]] + lines[i + 1..]);
    assert lines[i := other] == lines[..i] + ([other] + lines[i + 1..]);
    UsersSplit(lines[..i], [lines[i]] + lines[i + 1..]);
    UsersSplit(lines[..i], [other] + lines[i + 1..]);
    UsersSplit(lines[..i], lines[i + 1..]);
  }

  /** An Assistant line is not a User line. */
  lemma AssistantIsNotUser(s: string)
    requires AssistantLine(s)
    ensures !UserLine(s)
  {
    assert s[0] == 'A';
    UserLineIff(s);
  }

  method CutOnce(lines: seq<string>) returns (next: seq<string>, userDropped: bool)
    requires lines != []
    ensures IsCut(lines, next) && TotalLength(next) < TotalLength(lines)
    ensures AllUser(lines) ==> AllUser(next)
    ensures userDropped ==> AllUser(lines) && Users(next) + 1 == Users(lines)
    ensures !userDropped ==> Users(next) == Users(lines)
  {
    var assistant := FirstLine(lines, s => AssistantLine(s));
    var longest := Longest(lines);
    var other := FirstLine(lines, s => !UserLine(s));
    assert FirstAssistant(lines, assistant) && FirstLongest(lines, longest) && FirstOther(lines, other);
    var short := Shortened(lines[longest]);
    if short.Some? {
      ShortenedIs(lines[longest]);
    }
    next := CutAt(lines, assistant, longest, short, other);
    userDropped := assistant == |lines| && short.None? && other == |lines|;
    CutCounts(lines, assistant, longest, short, other);
  }

  lemma CutCounts(lines: seq<string>, a: nat, l: nat, short: Option<string>, o: nat)
    requires lines != [] && FirstAssistant(lines, a) && FirstLongest(lines, l) && FirstOther(lines, o)
    requires short.Some? ==> |short.value| < |lines[l]| && (UserLine(short.value) <==> UserLine(lines[l]))
    ensures TotalLength(CutAt(lines, a, l, short, o)) < TotalLength(lines)
    ensures AllUser(lines) ==> AllUser(CutAt(lines, a, l, short, o))
    ensures if a == |lines| && short.None? && o == |lines|
            then AllUser(lines) && Users(CutAt(lines, a, l, short, o)) + 1 == Users(lines)
            else Users(CutAt(lines, a, l, short, o)) == Users(lines)
  {
    if a < |lines| {
      Shrinks(lines, a, "");
      UsersAt(lines, a, "");
      AssistantIsNotUser(lines[a]);
    } else if short.Some? {
      Shrinks(lines, l, short.value);
      UsersAt(lines, l, short.value);
    } else {
      Shrinks(lines, if o < |lines| then o else 0, "");
      UsersAt(lines, if o < |lines| then o else 0, "");
    }
  }

  /** Each element is the cut of the one before, and all but the last are over budget. */
  ghost predicate CutChain(fits: string -> bool, chain: seq<seq<string>>) {
    chain != [] && forall i, j :: 0 <= i < j < |chain| && j == i + 1 ==> CutLink(fits, chain[i], chain[j])
  }

  ghost predicate CutLink(fits: string -> bool, lines: seq<string>, next: seq<string>) {
    lines != [] && !fits(Join(lines)) && IsCut(lines, next)
  }

  /** Whether the prompt with this history fits, depending on the summary. */
  function Fits(p: Policy, h: seq<Message>, covered: nat, budget: nat): string -> bool {
    summary => p.size(h, summary, covered) <= budget
  }

  lemma ChainNext(fits: string -> bool, chain: seq<seq<string>>, next: seq<string>)
    requires CutChain(fits, chain) && CutLink(fits, chain[|chain| - 1], next)
    ensures CutChain(fits, chain + [next])
  {
    var out := chain + [next];
    forall i, j | 0 <= i < j < |out| && j == i + 1
      ensures CutLink(fits, out[i], out[j])
    {
      if j < |chain| {
        assert CutLink(fits, chain[i], chain[j]);
      }
    }
  }

  /**
   `_fit_summary`.  It terminates; it cuts as often as needed and no more: every summary before the
   result is over budget, and the result fits or nothing is left.  If there are fewer User lines than
   at first then only User lines remain.
   */
  method FitSummary(fits: string -> bool, summary: string)
    returns (r: string, ghost kept: seq<string>, ghost chain: seq<seq<string>>)
    ensures CutChain(fits, chain) && chain[0] == SplitLines(summary) && chain[|chain| - 1] == kept
    ensures r == Join(kept) && (kept == [] || fits(r))
    ensures Users(kept) < Users(SplitLines(summary)) ==> AllUser(kept)
  {
    var lines := SplitLines(summary);
    chain := [lines];
    ghost var userDropped := false;
    while lines != []
      invariant CutChain(fits, chain) && chain[0] == SplitLines(summary) && chain[|chain| - 1] == lines
      invariant userDropped ==> AllUser(lines)
      invariant Users(lines) <= Users(SplitLines(summary))
      invariant userDropped <==> Users(lines) < Users(SplitLines(summary))
      decreases TotalLength(lines)
    {
      var candidate := Join(lines);
      if fits(candidate) {
        return candidate, lines, chain;
      }
      var next, dropped := CutOnce(lines);
      ChainNext(fits, chain, next);
      userDropped := userDropped || dropped;
      lines := next;
      chain := chain + [lines];
    }
    r, kept := "", [];
  }

  // ---- prepare ---------------------------------------------------------------------------

  datatype Prepared =
    | Ready(messages: seq<Message>, model: seq<Message>, durable: seq<Message>, summary: string,
            covered: nat, tokensAfter: nat, compacted: bool)
    | Misaligned
    | IndexFault
    | SchemasTooLarge
    | BudgetExceeded

  /** Dropping `n` messages, a whole number of turns, and changing only contents in what is kept. */
  ghost predicate Compacts(before: seq<Message>, after: seq<Message>, n: nat) {
    && n <= |before| && SameSkeleton(before[n..], after)
    && (0 < n < |before| ==> RealUser(before[n]))
  }

  /** Aligned histories cut at the same place, the last turn kept, user messages unchanged. */
  ghost predicate CompactsBoth(model: seq<Message>, durable: seq<Message>, m: seq<Message>, d: seq<Message>, n: nat) {
    && Compacts(model, m, n) && Compacts(durable, d, n) && Aligned(m, d)
    && SameShape(durable[n..], d) && (n == 0 || n < |durable|)
  }

  lemma SameShapeTrans(a: seq<Message>, b: seq<Message>, c: seq<Message>)
    requires SameShape(a, b) && SameShape(b, c)
    ensures SameShape(a, c)
  {
    forall i | 0 <= i < |a|
      ensures SameExceptText(a[i], c[i])
    {
      assert SameExceptText(a[i], b[i]) && SameExceptText(b[i], c[i]);
    }
  }

  lemma SameShapeAligned(a: seq<Message>, b: seq<Message>, c: seq<Message>, d: seq<Message>)
    requires Aligned(a, b) && SameShape(a, c) && SameShape(b, d)
    ensures Aligned(c, d)
  {
    forall i | 0 <= i < |c|
      ensures Alike(c[i], d[i])
    {
      assert Alike(a[i], b[i]) && SameExceptText(a[i], c[i]) && SameExceptText(b[i], d[i]);
    }
  }

  /** Popping the first turns leaves a suffix that is empty or starts at a real user message. */
  lemma DroppedTurns(h: seq<Message>, k: nat)
    requires k <= |TurnsOf(h)|
    ensures var n := |Flat(TurnsOf(h)[..k])|;
            && n <= |h| && Flat(TurnsOf(h)[k..]) == h[n..]
            && Compacts(h, Flat(TurnsOf(h)[k..]), n) && (k < |TurnsOf(h)| ==> n < |h|)
  {
    var turns := TurnsOf(h);
    TurnsFlat(h);
    TurnHeads(h);
    assert turns == turns[..k] + turns[k..];
    FlatConcat(turns[..k], turns[k..]);
    if k < |turns| {
      assert turns[k] != [] && (k > 0 ==> RealUser(turns[k][0]));
      assert Flat(turns[k..]) == turns[k] + Flat(turns[k..][1..]);
    }
  }

  /** The summary once the first `k` turns are absorbed. */
  ghost function SummaryAfter(p: Policy, summary: string, turns: seq<seq<Message>>, k: nat): string
    requires k <= |turns|
  {
    if k == 0 then summary else p.absorb(SummaryAfter(p, summary, turns, k - 1), turns[k - 1])
  }

  /** The number of messages in the first `k` turns. */
  ghost function CountOf(turns: seq<seq<Message>>, k: nat): nat
    requires k <= |turns|
  {
    if k == 0 then 0 else CountOf(turns, k - 1) + |turns[k - 1]|
  }

  lemma {:induction false} CountIsFlat(turns: seq<seq<Message>>, k: nat)
    requires k <= |turns|
    ensures CountOf(turns, k) == |Flat(turns[..k])|
  {
    if k > 0 {
      CountIsFlat(turns, k - 1);
      FlatTake(turns, k - 1);
    }
  }

  /** The size of the prompt once the first `k` turns are dropped. */
  ghost function PromptSize(p: Policy, model: seq<seq<Message>>,
                            durable: seq<seq<Message>>, summary: string, covered: nat, k: nat): nat
    requires k <= |model| && k <= |durable|
  {
    p.size(Flat(model[k..]), SummaryAfter(p, summary, durable, k), covered + CountOf(durable, k))
  }

  /** Of the turns, only as many as needed are dropped: with fewer the prompt is over budget. */
  ghost predicate Needed(p: Policy, model: seq<seq<Message>>,
                         durable: seq<seq<Message>>, summary: string, covered: nat, budget: nat, k: nat)
    requires k <= |model| && k <= |durable|
  {
    forall j :: 0 <= j < k ==> PromptSize(p, model, durable, summary, covered, j) > budget
  }

  /** The while loop of `prepare`: summarise the oldest turns until the rest fits or one is left.
      `false` is the index error of popping from a durable history with too few turns. */
  method PopTurns(p: Policy, model: seq<seq<Message>>, durable: seq<seq<Message>>,
                  summary0: string, covered0: nat, budget: nat)
    returns (ok: bool, k: nat, summary: string, covered: nat)
    ensures !ok ==> |durable| + 1 < |model|
    ensures k <= |model| && k <= |durable| && (model != [] ==> k < |model|)
    ensures summary == SummaryAfter(p, summary0, durable, k) && covered == covered0 + CountOf(durable, k)
    ensures Needed(p, model, durable, summary0, covered0, budget, k)
    ensures ok && k + 1 < |model| ==> PromptSize(p, model, durable, summary0, covered0, k) <= budget
  {
    ok, summary, covered, k := true, summary0, covered0, 0;
    while |model| - k > 1
      invariant k <= |model| && k <= |durable| && (model != [] ==> k < |model|)
      invariant covered == covered0 + CountOf(durable, k) && summary == SummaryAfter(p, summary0, durable, k)
      invariant Needed(p, model, durable, summary0, covered0, budget, k)
    {
      if p.size(Flat(model[k..]), summary, covered) <= budget {
        break;
      }
      if k == |durable| {
        ok := false;
        break;
      }
      summary := p.absorb(summary, durable[k]);
      covered := covered + |durable[k]|;
      k := k + 1;
    }
  }

  /** `k` is the least number of turns to drop for the prompt to fit, or leaves one turn. */
  ghost predicate LeastDrop(p: Policy, model: seq<Message>, durable: seq<Message>, summary: string, covered: nat,
                            budget: nat, k: nat)
  {
    var mt, dt := TurnsOf(model), TurnsOf(durable);
    && k <= |mt| && k <= |dt| && (mt != [] ==> k < |mt|)
    && Needed(p, mt, dt, summary, covered, budget, k)
    && (k + 1 < |mt| ==> PromptSize(p, mt, dt, summary, covered, k) <= budget)
  }

  /** What is left of both histories once `k` turns are dropped, and the summary then. */
  ghost predicate Left(p: Policy, model: seq<Message>, durable: seq<Message>, summary0: string,
                       m: seq<Message>, d: seq<Message>, summary: string, k: nat)
  {
    && k <= |TurnsOf(model)| && k <= |TurnsOf(durable)|
    && m == Flat(TurnsOf(model)[k..]) && d == Flat(TurnsOf(durable)[k..])
    && summary == SummaryAfter(p, summary0, TurnsOf(durable), k)
  }

  /** Drop the oldest turns from both histories, no more than needed. */
  method DropTurns(p: Policy, model: seq<Message>, durable: seq<Message>, summary0: string, covered0: nat, budget: nat)
    returns (ok: bool, fits: bool, m: seq<Message>, d: seq<Message>, summary: string, covered: nat, ghost n: nat,
             ghost k: nat)
    ensures Compacts(durable, d, n) && covered == covered0 + n
    ensures ok ==> LeastDrop(p, model, durable, summary0, covered0, budget, k)
    ensures ok ==>
      Left(p, model, durable, summary0, m, d, summary, k) && covered == covered0 + CountOf(TurnsOf(durable), k)
    ensures ok ==> (fits <==> PromptSize(p, TurnsOf(model), TurnsOf(durable), summary0, covered0, k) <= budget)
    ensures Aligned(model, durable) ==> ok && CompactsBoth(model, durable, m, d, n)
  {
    var modelTurns := MakeTurns(model);
    var durableTurns := MakeTurns(durable);
    var dropped;
    ok, dropped, summary, covered := PopTurns(p, modelTurns, durableTurns, summary0, covered0, budget);
    fits := p.size(Flat(modelTurns[dropped..]), summary, covered) <= budget;
    CountIsFlat(durableTurns, dropped);
    DroppedTurns(durable, dropped);
    if Aligned(model, durable) {
      AlignedTurns(model, durable);
      DroppedSuffix(model, durable, dropped);
    }
    m, d := Flat(modelTurns[dropped..]), Flat(durableTurns[dropped..]);
    n, k := |Flat(durableTurns[..dropped])|, dropped;
  }

  lemma FlatTake(turns: seq<seq<Message>>, k: nat)
    requires k < |turns|
    ensures |Flat(turns[..k + 1])| == |Flat(turns[..k])| + |turns[k]|
  {
    assert turns[..k + 1] == turns[..k] + [turns[k]];
    FlatSnoc(turns[..k], turns[k]);
  }

  function Merged(e: Engine, existing: string, addition: string): string {
    LastOf(JoinedLines(Trimmed(existing), Trimmed(addition)), e.maxSummary, "[Earlier compacted context omitted]\n")
  }

  function JoinedLines(a: string, b: string): string {
    if a == "" then b else if b == "" then a else a + "\n" + b
  }

  function LastOf(all: string, max: nat, note: string): string {
    if |all| <= max then all else note + all[|all| - max..]
  }

  ghost predicate EndsWith(t: string, s: string) {
    |s| <= |t| && t[|t| - |s|..] == s
  }

  /** A new summary keeps the newest part, and the older one too as long as both fit. */
  lemma MergedKeeps(e: Engine, existing: string, addition: string)
    ensures var a, b, m := Trimmed(existing), Trimmed(addition), Merged(e, existing, addition);
            && (|b| <= e.maxSummary ==> EndsWith(m, b))
            && (|a| + 1 + |b| <= e.maxSummary ==> StartsWith(m, a) && |m| <= |a| + 1 + |b|)
  {
    JoinedKeeps(Trimmed(existing), Trimmed(addition));
    LastKeeps(JoinedLines(Trimmed(existing), Trimmed(addition)), Trimmed(addition), e.maxSummary,
              "[Earlier compacted context omitted]\n");
  }

  lemma JoinedKeeps(a: string, b: string)
    ensures StartsWith(JoinedLines(a, b), a) && EndsWith(JoinedLines(a, b), b)
    ensures |JoinedLines(a, b)| <= |a| + 1 + |b|
  {
  }

  lemma LastKeeps(all: string, b: string, max: nat, note: string)
    requires EndsWith(all, b)
    ensures |b| <= max ==> EndsWith(LastOf(all, max, note), b)
    ensures |all| <= max ==> LastOf(all, max, note) == all
  {
    if |b| <= max < |all| {
      var t := note + all[|all| - max..];
      assert t[|t| - |b|..] == all[|all| - |b|..];
    }
  }

  lemma DroppedSuffix(model: seq<Message>, durable: seq<Message>, k: nat)
    requires Aligned(model, durable) && k <= |TurnsOf(model)| == |TurnsOf(durable)|
    requires TurnsOf(model) != [] ==> k < |TurnsOf(model)|
    requires SameLengths(TurnsOf(model), TurnsOf(durable))
    ensures var n := |Flat(TurnsOf(durable)[..k])|;
            && Compacts(model, Flat(TurnsOf(model)[k..]), n)
            && n <= |durable| && SameShape(durable[n..], Flat(TurnsOf(durable)[k..])) && (n == 0 || n < |durable|)
            && Aligned(Flat(TurnsOf(model)[k..]), Flat(TurnsOf(durable)[k..]))
  {
    var mt, dt := TurnsOf(model), TurnsOf(durable);
    AlignedFlat(mt[..k], dt[..k]);
    AlignedFlat(mt[k..], dt[k..]);
    DroppedTurns(model, k);
    DroppedTurns(durable, k);
    if mt == [] {
      assert dt[..k] == [];
    }
  }

  lemma SkeletonTrans(a: seq<Message>, b: seq<Message>, c: seq<Message>)
    requires SameSkeleton(a, b) && SameSkeleton(b, c)
    ensures SameSkeleton(a, c)
  {
    forall i | 0 <= i < |a|
      ensures SameBones(a[i], c[i])
    {
      assert SameBones(a[i], b[i]) && SameBones(b[i], c[i]);
    }
  }

  lemma ShapeIsSkeleton(a: seq<Message>, b: seq<Message>)
    requires SameShape(a, b)
    ensures SameSkeleton(a, b)
  {
    forall i | 0 <= i < |a|
      ensures SameBones(a[i], b[i])
    {
      assert SameExceptText(a[i], b[i]);
    }
  }

  lemma CompactsMore(before: seq<Message>, mid: seq<Message>, after: seq<Message>, n: nat)
    requires Compacts(before, mid, n) && SameSkeleton(mid, after)
    ensures Compacts(before, after, n)
  {
    SkeletonTrans(before[n..], mid, after);
  }

  lemma RecutBoth(model: seq<Message>, durable: seq<Message>, m: seq<Message>, d: seq<Message>,
                  m1: seq<Message>, d1: seq<Message>, n: nat)
    requires CompactsBoth(model, durable, m, d, n) && Recut(m, d, m1, d1)
    ensures CompactsBoth(model, durable, m1, d1, n)
  {
    ShapeIsSkeleton(m, m1);
    CompactsMore(model, m, m1, n);
    CompactsMore(durable, d, d1, n);
    SameShapeAligned(m, d, m1, d1);
    SameShapeTrans(durable[n..], d, d1);
  }

  /** Two passes in a row. */
  lemma RecutTrans(model: seq<Message>, durable: seq<Message>, m: seq<Message>, d: seq<Message>, m1: seq<Message>,
                   d1: seq<Message>)
    requires Recut(model, durable, m, d) && Recut(m, d, m1, d1)
    ensures Recut(model, durable, m1, d1)
  {
    SameShapeTrans(model, m, m1);
    SkeletonTrans(durable, d, d1);
    if Aligned(model, durable) {
      SameShapeAligned(model, durable, m, d);
      SameShapeTrans(durable, d, d1);
    }
  }

  /** What `prepare` still tries when the kept turns do not fit: trim, squeeze the summary, cut. */
  method Squeeze(p: Policy, model: seq<Message>, durable: seq<Message>, summary0: string, covered: nat, budget: nat)
    returns (ok: bool, m: seq<Message>, d: seq<Message>, summary: string)
    ensures |model| <= |durable| ==> ok
    ensures ok ==> Recut(model, durable, m, d)
    ensures ok && p.size(m, summary, covered) > budget ==> summary == "" && FullyCut(m, CurrentTurnIndex(model))
  {
    summary := summary0;
    ok, m, d := TrimStale(model, durable);
    if !ok {
      return;
    }
    if !Fits(p, m, covered, budget)(summary) && summary != "" {
      ghost var kept, chain;
      summary, kept, chain := FitSummary(Fits(p, m, covered, budget), summary);
    }
    if !Fits(p, m, covered, budget)(summary) {
      var m1, d1;
      ok, m1, d1 := CompactTurn(m, d);
      if ok {
        RecutTrans(model, durable, m, d, m1, d1);
        ShapeTurnIndex(model, m);
        CutIsFull(m, m1, CurrentTurnIndex(m));
      }
      m, d := m1, d1;
    }
  }

  /**
   `ContextEngine.prepare`.  It fails or returns a durable history with covered + retained unchanged,
   a whole-turn suffix whose messages keep role, ids and calls, and a prompt that fits the window
   together with the schemas and the reserve.  A prompt that fits already is passed on as it is, and
   only such a one is; otherwise, if dropping turns suffices, the least number is dropped and nothing
   else changes.  For aligned histories no index error occurs, both are cut at the same place, user
   messages stay as they are, and the results are aligned.
   */
  method Prepare(e: Engine, model: seq<Message>, durable: seq<Message>, schemas: nat, context: string,
                 summary0: string, covered0: nat)
    returns (r: Prepared, ghost n: nat, ghost k: nat)
    requires e.Valid()
    ensures r.Misaligned? <==> |model| != |durable|
    ensures r.SchemasTooLarge? <==> |model| == |durable| && e.window < e.reserve + schemas + 256
    ensures r.Ready? ==> Compacts(durable, r.durable, n)
    ensures r.Ready? ==> r.covered == covered0 + n && r.covered + |r.durable| == covered0 + |durable|
    ensures r.Ready? ==> r.messages == Assemble(e, r.model, r.summary, r.covered, context)
    ensures r.Ready? ==> e.tokens(r.messages) + schemas + e.reserve <= e.window
    ensures r.Ready? ==> r.tokensAfter == e.tokens(r.messages) + schemas
    ensures r.Ready? && !r.compacted ==> r.model == model && r.durable == durable && r.summary == summary0
    ensures |model| == |durable| && !r.SchemasTooLarge? ==>
      (e.tokens(Assemble(e, model, summary0, covered0, context)) + schemas + e.reserve <= e.window
       <==> r.Ready? && !r.compacted)
    ensures Aligned(model, durable) ==> !r.IndexFault?
    ensures Aligned(model, durable) && r.Ready? ==> CompactsBoth(model, durable, r.model, r.durable, n)
    ensures r.BudgetExceeded? || (r.Ready? && r.compacted) ==>
      Dropped(e, model, durable, summary0, covered0, context, e.window - e.reserve - schemas, r, k)
    ensures r.BudgetExceeded? ==>
      Hopeless(PolicyOf(e, context), model, durable, covered0, e.window - e.reserve - schemas, k)
  {
    n, k := 0, 0;
    if |model| != |durable| {
      return Misaligned, 0, 0;
    }
    if e.window < e.reserve + schemas + 256 {
      return SchemasTooLarge, 0, 0;
    }
    var budget := e.window - e.reserve - schemas;
    var messages := Assemble(e, model, summary0, covered0, context);
    if e.tokens(messages) <= budget {
      assert model[0..] == model && durable[0..] == durable;
      return Ready(messages, model, durable, summary0, covered0, e.tokens(messages) + schemas, false), 0, 0;
    }
    r, n, k := Compact(e, model, durable, schemas, context, summary0, covered0, budget);
  }

  /** The least number of turns was dropped; where that suffices, nothing else was changed. */
  ghost predicate Dropped(e: Engine, model: seq<Message>, durable: seq<Message>, summary: string, covered: nat,
                          context: string, budget: nat, r: Prepared, k: nat)
  {
    var p := PolicyOf(e, context);
    && LeastDrop(p, model, durable, summary, covered, budget, k)
    && (PromptSize(p, TurnsOf(model), TurnsOf(durable), summary, covered, k) <= budget ==>
          r.Ready? && Left(p, model, durable, summary, r.model, r.durable, r.summary, k))
  }

  /** `prepare` for a prompt that does not fit. */
  method Compact(e: Engine, model: seq<Message>, durable: seq<Message>, schemas: nat, context: string,
                 summary0: string, covered0: nat, budget: nat)
    returns (r: Prepared, ghost n: nat, ghost k: nat)
    requires |model| == |durable| && budget + e.reserve + schemas == e.window
    ensures (r.Ready? && r.compacted) || r.IndexFault? || r.BudgetExceeded?
    ensures r.Ready? ==> Compacts(durable, r.durable, n)
    ensures r.Ready? ==> r.covered == covered0 + n && r.covered + |r.durable| == covered0 + |durable|
    ensures r.Ready? ==> r.messages == Assemble(e, r.model, r.summary, r.covered, context)
    ensures r.Ready? ==> e.tokens(r.messages) <= budget && r.tokensAfter == e.tokens(r.messages) + schemas
    ensures Aligned(model, durable) ==> !r.IndexFault?
    ensures Aligned(model, durable) && r.Ready? ==> CompactsBoth(model, durable, r.model, r.durable, n)
    ensures !r.IndexFault? ==> Dropped(e, model, durable, summary0, covered0, context, budget, r, k)
    ensures r.BudgetExceeded? ==> Hopeless(PolicyOf(e, context), model, durable, covered0, budget, k)
  {
    var ok, fits, m, d, summary, covered;
    ok, fits, m, d, summary, covered, n, k := Shrink(PolicyOf(e, context), model, durable, summary0, covered0, budget);
    if !ok {
      return IndexFault, n, k;
    }
    r := BudgetExceeded;
    if fits {
      var messages := Assemble(e, m, summary, covered, context);
      r := Ready(messages, m, d, summary, covered, e.tokens(messages) + schemas, true);
    }
  }

  /** Even with all texts of the kept turns cut and no summary, the prompt does not fit. */
  ghost predicate Hopeless(p: Policy, model: seq<Message>, durable: seq<Message>, covered: nat, budget: nat, k: nat)
  {
    && k <= |TurnsOf(model)| && k <= |TurnsOf(durable)|
    && var kept := Flat(TurnsOf(model)[k..]);
       exists m :: CutDown(kept, m) && p.size(m, "", covered + CountOf(TurnsOf(durable), k)) > budget
  }

  ghost predicate CutDown(kept: seq<Message>, m: seq<Message>) {
    SameShape(kept, m) && FullyCut(m, CurrentTurnIndex(kept))
  }

  /** Drop turns, then squeeze what is left if that does not suffice. */
  method Shrink(p: Policy, model: seq<Message>, durable: seq<Message>, summary0: string, covered0: nat, budget: nat)
    returns (ok: bool, fits: bool, m: seq<Message>, d: seq<Message>, summary: string, covered: nat, ghost n: nat,
             ghost k: nat)
    ensures ok ==> Compacts(durable, d, n) && covered == covered0 + n
    ensures Aligned(model, durable) ==> ok && CompactsBoth(model, durable, m, d, n)
    ensures ok ==> LeastDrop(p, model, durable, summary0, covered0, budget, k)
    ensures ok ==> (fits <==> p.size(m, summary, covered) <= budget)
    ensures ok && !fits ==> Hopeless(p, model, durable, covered0, budget, k)
    ensures ok && PromptSize(p, TurnsOf(model), TurnsOf(durable), summary0, covered0, k) <= budget ==>
      fits && Left(p, model, durable, summary0, m, d, summary, k)
  {
    ok, fits, m, d, summary, covered, n, k := DropTurns(p, model, durable, summary0, covered0, budget);
    if ok && !fits {
      ghost var kept := m;
      ok, m, d, summary := SqueezeKept(p, model, durable, m, d, summary, covered, budget, n);
      assert ok && p.size(m, summary, covered) > budget ==> CutDown(kept, m);
      fits := p.size(m, summary, covered) <= budget;
    }
  }

  method SqueezeKept(p: Policy, ghost model: seq<Message>, ghost durable: seq<Message>, m0: seq<Message>,
                     d0: seq<Message>,
                     summary0: string, covered: nat, budget: nat, ghost n: nat)
    returns (ok: bool, m: seq<Message>, d: seq<Message>, summary: string)
    requires Compacts(durable, d0, n) && (Aligned(model, durable) ==> CompactsBoth(model, durable, m0, d0, n))
    ensures ok ==> Compacts(durable, d, n) && SameShape(m0, m)
    ensures Aligned(model, durable) ==> ok && CompactsBoth(model, durable, m, d, n)
    ensures ok && p.size(m, summary, covered) > budget ==> summary == "" && FullyCut(m, CurrentTurnIndex(m0))
  {
    ok, m, d, summary := Squeeze(p, m0, d0, summary0, covered, budget);
    if ok {
      CompactsMore(durable, d0, d, n);
      if Aligned(model, durable) {
        RecutBoth(model, durable, m0, d0, m, d, n);
      }
    }
  }

  // ---- histories that are not in step ----------------------------------------------------

  /** For the two forms of a user message, a block list and a text: they are in step exactly if the
      text does not read as a runtime context. */
  lemma UserFormsAlike(blocks: Message, text: Message)
    requires blocks.role.User? && blocks.content.Blocks? && text.role.User? && text.content.Text?
    ensures Alike(blocks, text) <==> !text.RuntimeContext()
  {
  }

  /** A user text that reads as a runtime context: the turns of the two histories differ, and dropping
      one turn from each leaves the model's last message and nothing durable. */
  lemma TaggedTextLosesTurn(q: Message, a: Message, runtime: Message, blocks: Message, text: Message)
    requires RealUser(q) && a.role.Assistant? && runtime.RuntimeContext()
    requires blocks.role.User? && blocks.content.Blocks? && text.RuntimeContext()
    ensures TurnsOf([q, a, runtime, blocks]) == [[q, a, runtime], [blocks]]
    ensures TurnsOf([q, a, runtime, text]) == [[q, a, runtime, text]]
    ensures Flat(TurnsOf([q, a, runtime, blocks])[1..]) == [blocks] && Flat(TurnsOf([q, a, runtime, text])[1..]) == []
  {
    SplitSnoc([], q);
    SplitSnoc([q], a);
    SplitSnoc([q, a], runtime);
    SplitSnoc([q, a, runtime], blocks);
    SplitSnoc([q, a, runtime], text);
    assert [] + [q] == [q] && [q] + [a] == [q, a] && [q, a] + [runtime] == [q, a, runtime];
    assert [q, a, runtime] + [blocks] == [q, a, runtime, blocks] && [q, a, runtime] + [text] == [q, a, runtime, text];
    assert [[q, a, runtime], [blocks]][1..] == [[blocks]] && [[blocks]][1..] == [];
    assert [[q, a, runtime, text]][1..] == [];
  }

  lemma SplitSnoc(h: seq<Message>, m: Message)
    ensures var (turns, current) := Split(h);
            Split(h + [m]) == if Starts(current, m) then (turns + [current], [m]) else (turns, current + [m])
  {
    assert (h + [m])[..|h|] == h;
  }

  // ---- compaction keeps conversations well formed ----------------------------------------

  /** Closed pairing survives compaction, in both directions. */
  lemma CompactsClosed(before: seq<Message>, after: seq<Message>, n: nat)
    requires Compacts(before, after, n)
    ensures Closed(before) ==> Closed(after)
    ensures NoOrphans(before) ==> NoOrphans(after)
  {
    if Closed(before) {
      KeptClosed(before, after, n);
    }
    if NoOrphans(before) {
      KeptOwned(before, after, n);
    }
  }

  lemma KeptClosed(before: seq<Message>, after: seq<Message>, n: nat)
    requires Compacts(before, after, n) && Closed(before)
    ensures Closed(after)
  {
    KeptBones(before, after, n);
    forall i | 0 <= i < |after|
      ensures CompleteAt(after, i)
    {
      assert CompleteAt(before, n + i);
      forall c | c in after[i].calls && c != "" && after[i].role.Assistant?
        ensures Answered(after, i, c)
      {
        var j: nat :| Answers(before, n + i, c, j);
        assert Answers(after, i, c, j - n);
      }
    }
  }

  lemma KeptOwned(before: seq<Message>, after: seq<Message>, n: nat)
    requires Compacts(before, after, n) && NoOrphans(before)
    ensures NoOrphans(after)
  {
    KeptBones(before, after, n);
    forall j | 0 <= j < |after| && after[j].role.Tool?
      ensures Owned(after, j)
    {
      assert Owned(before, n + j);
      var i: nat :| CallOf(before, i, n + j);
      assert n == 0 || before[n].Turn();
      assert before[n + j].role.Tool? && !(i + 1 <= n < n + j);
      assert CallOf(after, i - n, j);
    }
  }

  lemma KeptBones(before: seq<Message>, after: seq<Message>, n: nat)
    requires Compacts(before, after, n)
    ensures forall k :: 0 <= k < |after| ==> SameBones(before[n + k], after[k])
  {
    assert forall k :: 0 <= k < |after| ==> SameBones(before[n..][k], after[k]);
  }
}
