/**
 Model conversations: messages, what it means that every tool call is answered in time, and what
 splicing tool messages into a conversation does to that.
 */
module Conversation {

  datatype Role = User | Assistant | Tool

  /** Message content: plain text, or a list of typed blocks with this joined text. */
  datatype Content = Text(text: string) | Blocks(text: string)

  /** `calls` are the ids of an assistant's tool calls; `callId` is what a tool message answers. */
  datatype Message = Message(role: Role, content: Content, calls: seq<string>, callId: string)
  {
    /** User and assistant messages end the run of tool messages after a call. */
    predicate Turn() { role.User? || role.Assistant? }

    /** The synthetic runtime-context message put before a turn's user message. */
    predicate RuntimeContext() {
      role.User? && content.Text? && StartsWith(Stripped(content.text), "<runtime_context>")
    }
  }

  predicate StartsWith(s: string, prefix: string) { prefix <= s }

  predicate Space(c: char) { c == ' ' || c == '\t' || c == '\n' || c == '\r' }

  function Stripped(s: string): string {
    if s != "" && Space(s[0]) then Stripped(s[1..]) else s
  }

  /** `strip()`, on both sides. */
  function Trimmed(s: string): string { TrimmedRight(Stripped(s)) }

  function TrimmedRight(s: string): string {
    if s != "" && Space(s[|s| - 1]) then TrimmedRight(s[..|s| - 1]) else s
  }

  // ---- answered calls --------------------------------------------------------------------

  /** No user or assistant message at positions `from` up to `to`. */
  ghost predicate NoTurn(ms: seq<Message>, from: nat, to: nat) {
    forall x :: from <= x < to && x < |ms| ==> !ms[x].Turn()
  }

  /** Position `j` answers call `c` of the message at `i`, before the next user or assistant message. */
  ghost predicate Answers(ms: seq<Message>, i: nat, c: string, j: nat) {
    i < j < |ms| && ms[j].role.Tool? && ms[j].callId == c && NoTurn(ms, i + 1, j)
  }

  ghost predicate Answered(ms: seq<Message>, i: nat, c: string) {
    exists j :: Answers(ms, i, c, j)
  }

  /** Every (non-empty) call id of the message at `i` is answered. */
  ghost predicate CompleteAt(ms: seq<Message>, i: nat)
    requires i < |ms|
  {
    ms[i].role.Assistant? ==> forall c :: c in ms[i].calls && c != "" ==> Answered(ms, i, c)
  }

  /** The closed conversations: every tool call has its response in time. */
  ghost predicate Closed(ms: seq<Message>) {
    forall i :: 0 <= i < |ms| ==> CompleteAt(ms, i)
  }

  ghost predicate EndsWithAssistant(ms: seq<Message>) {
    ms != [] && ms[|ms| - 1].role.Assistant?
  }

  /** The message at `i` asks for the call that the tool message at `j`, in its run, answers. */
  ghost predicate CallOf(ms: seq<Message>, i: nat, j: nat) {
    i < j < |ms| && ms[i].role.Assistant? && ms[j].callId in ms[i].calls && NoTurn(ms, i + 1, j)
  }

  ghost predicate Owned(ms: seq<Message>, j: nat) {
    exists i :: CallOf(ms, i, j)
  }

  /** Every tool message answers a call of the assistant message whose run it is in. */
  ghost predicate NoOrphans(ms: seq<Message>) {
    forall j :: 0 <= j < |ms| && ms[j].role.Tool? ==> Owned(ms, j)
  }

  // ---- inserting tool messages -----------------------------------------------------------

  function Spliced(ms: seq<Message>, at: nat, block: seq<Message>): seq<Message>
    requires at <= |ms|
  {
    ms[..at] + block + ms[at..]
  }

  ghost predicate AllTools(block: seq<Message>) {
    forall b :: 0 <= b < |block| ==> block[b].role.Tool?
  }

  /** Where position `q` goes. */
  function Moved(at: nat, n: nat, q: nat): nat {
    if q < at then q else q + n
  }

  lemma SplicedAnswer(ms: seq<Message>, at: nat, block: seq<Message>, q: nat, c: string, j: nat)
    requires at <= |ms| && AllTools(block) && Answers(ms, q, c, j)
    ensures Answers(Spliced(ms, at, block), Moved(at, |block|, q), c, Moved(at, |block|, j))
  {
  }

  lemma SplicedOnly(ms: seq<Message>, at: nat, block: seq<Message>, q: nat, c: string, j: nat)
    requires at <= |ms| && q < |ms| && AllTools(block)
    requires Answers(Spliced(ms, at, block), Moved(at, |block|, q), c, j)
    ensures Answered(ms, q, c)
         || (q < at && NoTurn(ms, q + 1, at) && exists b :: 0 <= b < |block| && block[b].callId == c)
  {
    var out, n := Spliced(ms, at, block), |block|;
    if at <= j < at + n {
      assert block[j - at].callId == c;
      forall x | q + 1 <= x < at && x < |ms|
        ensures !ms[x].Turn()
      {
        assert out[x] == ms[x];
      }
    } else {
      var i := if j < at then j else j - n;
      forall x | q + 1 <= x < i && x < |ms|
        ensures !ms[x].Turn()
      {
        assert out[Moved(at, n, x)] == ms[x];
      }
      assert Answers(ms, q, c, i);
    }
  }

  /** Splicing tool messages keeps every answer, and adds one only in the run it lands in. */
  lemma SplicedAnswered(ms: seq<Message>, at: nat, block: seq<Message>, q: nat, c: string)
    requires at <= |ms| && q < |ms| && AllTools(block)
    ensures Answered(Spliced(ms, at, block), Moved(at, |block|, q), c) <==>
            Answered(ms, q, c)
            || (q < at && NoTurn(ms, q + 1, at) && exists b :: 0 <= b < |block| && block[b].callId == c)
  {
    var out := Spliced(ms, at, block);
    if Answered(ms, q, c) {
      var j :| Answers(ms, q, c, j);
      SplicedAnswer(ms, at, block, q, c, j);
    } else if q < at && NoTurn(ms, q + 1, at) && exists b :: 0 <= b < |block| && block[b].callId == c {
      var b :| 0 <= b < |block| && block[b].callId == c;
      assert Answers(out, q, c, at + b);
    }
    if Answered(out, Moved(at, |block|, q), c) {
      var j :| Answers(out, Moved(at, |block|, q), c, j);
      SplicedOnly(ms, at, block, q, c, j);
    }
  }

  /** Tool messages may be spliced into a closed conversation anywhere. */
  lemma SplicedClosed(ms: seq<Message>, at: nat, block: seq<Message>)
    requires at <= |ms| && AllTools(block) && Closed(ms)
    ensures Closed(Spliced(ms, at, block))
  {
    var out, n := Spliced(ms, at, block), |block|;
    forall k | 0 <= k < |out|
      ensures CompleteAt(out, k)
    {
      if k < at || k >= at + n {
        var q := if k < at then k else k - n;
        assert out[k] == ms[q] && CompleteAt(ms, q);
        forall c | c in out[k].calls && c != "" && out[k].role.Assistant?
          ensures Answered(out, k, c)
        {
          SplicedAnswered(ms, at, block, q, c);
        }
      }
    }
  }

  /** Splicing tool messages changes nobody's owner. */
  lemma SplicedOwned(ms: seq<Message>, at: nat, block: seq<Message>, q: nat)
    requires at <= |ms| && q < |ms| && AllTools(block)
    ensures Owned(Spliced(ms, at, block), Moved(at, |block|, q)) <==> Owned(ms, q)
  {
    var out, n := Spliced(ms, at, block), |block|;
    if Owned(ms, q) {
      var i: nat :| CallOf(ms, i, q);
      assert CallOf(out, Moved(at, n, i), Moved(at, n, q));
    }
    if Owned(out, Moved(at, n, q)) {
      var i: nat :| CallOf(out, i, Moved(at, n, q));
      SplicedOwner(ms, at, block, q, i);
    }
  }

  lemma SplicedOwner(ms: seq<Message>, at: nat, block: seq<Message>, q: nat, i: nat)
    requires at <= |ms| && q < |ms| && AllTools(block) && CallOf(Spliced(ms, at, block), i, Moved(at, |block|, q))
    ensures Owned(ms, q)
  {
    var out, n := Spliced(ms, at, block), |block|;
    assert i < at || i >= at + n;
    var k := if i < at then i else i - n;
    forall x | k + 1 <= x < q && x < |ms|
      ensures !ms[x].Turn()
    {
      assert out[Moved(at, n, x)] == ms[x];
    }
    assert CallOf(ms, k, q);
  }
}
