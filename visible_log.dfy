/**
 * The visible `messages` log a call of the engine leaves: it only grows,
 * every tool result it shows comes right after the call it answers, and it
 * shows one result per answered round and one call per tool call made.
 */
module VisibleLog {
  import opened Wrappers
  import opened Protocol
  import opened Conversation
  import opened EngineProperties

  datatype Kind = SaidKind | CallKind | ResultKind

  function KindOf(v: Visible): Kind
  {
    match v
    case Said(_, _) => SaidKind
    case ToolCallShown(_, _, _) => CallKind
    case ToolResultShown(_, _) => ResultKind
  }

  /** How many entries of `ms` are of kind `k`. */
  function CountKind(ms: seq<Visible>, k: Kind): nat
  {
    if ms == [] then 0 else (if KindOf(ms[0]) == k then 1 else 0) + CountKind(ms[1..], k)
  }

  lemma {:induction false} CountKindAppend(a: seq<Visible>, b: seq<Visible>, k: Kind)
    ensures CountKind(a + b, k) == CountKind(a, k) + CountKind(b, k)
  {
    if a == [] {
      assert a + b == b;
    } else {
      assert (a + b)[0] == a[0] && (a + b)[1..] == a[1..] + b;
      CountKindAppend(a[1..], b, k);
    }
  }

  /**
   * Every tool result shown follows the call it answers, and every call
   * shown is followed by its result, except a last call whose tool call
   * failed when `failedLast` holds.
   */
  predicate CallsAnswered(ms: seq<Visible>, failedLast: bool)
  {
    forall i | 0 <= i < |ms| :: AnsweredAt(ms, i, failedLast)
  }

  predicate AnsweredAt(ms: seq<Visible>, i: nat, failedLast: bool)
    requires i < |ms|
  {
    && (ms[i].ToolResultShown? ==> 0 < i && ms[i - 1].ToolCallShown? && ms[i - 1].name == ms[i].forTool)
    && (ms[i].ToolCallShown? ==>
          if i + 1 < |ms| then ms[i + 1].ToolResultShown? && ms[i + 1].forTool == ms[i].name
          else failedLast)
  }

  lemma CallsAnsweredAppend(a: seq<Visible>, b: seq<Visible>, failedLast: bool)
    requires CallsAnswered(a, false) && CallsAnswered(b, failedLast)
    ensures CallsAnswered(a + b, failedLast)
  {
    var m := a + b;
    forall i | 0 <= i < |m|
      ensures AnsweredAt(m, i, failedLast)
    {
      if i < |a| {
        assert AnsweredAt(a, i, false);
        assert m[i] == a[i];
        if i + 1 < |a| {
          assert m[i + 1] == a[i + 1];
        }
        if 0 < i {
          assert m[i - 1] == a[i - 1];
        }
        if i + 1 == |a| && b != [] {
          assert AnsweredAt(b, 0, failedLast);
          assert m[i + 1] == b[0];
        }
      } else {
        assert AnsweredAt(b, i - |a|, failedLast);
        assert m[i] == b[i - |a|];
        if i > |a| {
          assert m[i - 1] == b[i - 1 - |a|];
        }
        if i + 1 < |m| {
          assert m[i + 1] == b[i + 1 - |a|];
        }
      }
    }
  }

  /** A reply's shown text is assistant text only, so it neither counts as a call or result nor breaks pairing. */
  lemma ShownThen(reply: seq<ReplyBlock>, tail: seq<Visible>, failedLast: bool)
    requires CallsAnswered(tail, failedLast)
    ensures CallsAnswered(Shown(reply) + tail, failedLast)
    ensures CountKind(Shown(reply) + tail, CallKind) == CountKind(tail, CallKind)
    ensures CountKind(Shown(reply) + tail, ResultKind) == CountKind(tail, ResultKind)
  {
    var s := Shown(reply);
    CountKindAppend(s, tail, CallKind);
    CountKindAppend(s, tail, ResultKind);
    if s != [] {
      assert s == [Said(Assistant, VisibleText(reply))];
      assert s[1..] == [];
      assert AnsweredAt(s, 0, false);
    }
    CallsAnsweredAppend(s, tail, failedLast);
  }

  /** Splitting a log that starts with `q + r`. */
  lemma SuffixSplit(m: seq<Visible>, q: seq<Visible>, r: seq<Visible>)
    requires |q| + |r| <= |m| && m[..|q| + |r|] == q + r
    ensures m[..|q|] == q && m[|q|..] == r + m[|q| + |r|..]
  {
    assert m[..|q|] == m[..|q| + |r|][..|q|];
    assert m[|q|..] == m[|q|..|q| + |r|] + m[|q| + |r|..];
    assert m[|q|..|q| + |r|] == m[..|q| + |r|][|q|..];
  }

  /** A tool round shows the call and then its result. */
  lemma RoundEntries(name: string, id: string, input: Json, text: string)
    ensures var t := [ToolCallShown(name, id, input), ToolResultShown(name, text)];
      CallsAnswered(t, false) && CountKind(t, CallKind) == 1 && CountKind(t, ResultKind) == 1
  {
    var t := [ToolCallShown(name, id, input), ToolResultShown(name, text)];
    assert AnsweredAt(t, 0, false) && AnsweredAt(t, 1, false);
    assert t[1..] == [ToolResultShown(name, text)] && t[1..][1..] == [];
    assert CountKind(t[1..], CallKind) == 0 && CountKind(t[1..], ResultKind) == 1;
  }

  /** A failed tool call is shown as a call without a result. */
  lemma FailedEntries(name: string, id: string, input: Json)
    ensures var t := [ToolCallShown(name, id, input)];
      CallsAnswered(t, true) && CountKind(t, CallKind) == 1 && CountKind(t, ResultKind) == 0
  {
    var t := [ToolCallShown(name, id, input)];
    assert AnsweredAt(t, 0, true);
    assert t[1..] == [];
  }

  /** The entries one pass adds to the log, by how the pass ends. */
  lemma PassEntries(c: Chat, reply: seq<ReplyBlock>, env: Env)
    ensures var h := Handle(c, reply, env);
      var m := if h.Done? then h.outcome.chat.messages else h.next.messages;
      var failed := h.Done? && h.outcome.result.Err?;
      && |c.messages| <= |m| && m[..|c.messages|] == c.messages
      && CallsAnswered(m[|c.messages|..], failed)
      && CountKind(m[|c.messages|..], ResultKind) == (if h.Again? then 1 else 0)
      && CountKind(m[|c.messages|..], CallKind) == (if h.Done? && h.outcome.result.Ok? then 0 else 1)
  {
    HandleMessages(c, reply, env);
    var h := Handle(c, reply, env);
    var m := if h.Done? then h.outcome.chat.messages else h.next.messages;
    var tail: seq<Visible>;
    if h.Again? {
      var use := reply[FirstToolUse(reply).value];
      var d := env.call(|c.sent|, use.name, use.input);
      tail := [ToolCallShown(use.name, use.id, use.input), ToolResultShown(use.name, FormatResult(d.value.content))];
      RoundEntries(use.name, use.id, use.input, FormatResult(d.value.content));
    } else if h.outcome.result.Err? {
      var use := reply[FirstToolUse(reply).value];
      tail := [ToolCallShown(use.name, use.id, use.input)];
      FailedEntries(use.name, use.id, use.input);
    } else {
      tail := [];
    }
    assert m == c.messages + (Shown(reply) + tail);
    assert m[|c.messages|..] == Shown(reply) + tail;
    ShownThen(reply, tail, h.Done? && h.outcome.result.Err?);
  }

  /** From any chat, the loop only appends to the visible log. */
  lemma {:induction false} RespondKeepsLog(c: Chat, script: seq<Reply>, env: Env)
    requires 0 < |c.sent| <= |script|
    ensures |c.sent| <= |Respond(c, script, env).chat.sent|
    ensures var m := Respond(c, script, env).chat.messages;
      |c.messages| <= |m| && m[..|c.messages|] == c.messages
    decreases |script| - |c.sent|
  {
    var reply := script[|c.sent| - 1].content;
    HandleHistory(c, reply, env);
    PassEntries(c, reply, env);
    RespondStep(c, script, env);
    var h := Handle(c, reply, env);
    if h.Again? && |h.next.sent| <= |script| {
      RespondKeepsLog(h.next, script, env);
      var m := Respond(h.next, script, env).chat.messages;
      assert m[..|c.messages|] == m[..|h.next.messages|][..|c.messages|];
    }
  }

  /**
   * What the loop appends to the log from `c` on: the entries of this pass,
   * then those of the passes after it.
   */
  lemma RespondLogSplits(c: Chat, script: seq<Reply>, env: Env)
    requires 0 < |c.sent| <= |script|
    requires Handle(c, script[|c.sent| - 1].content, env).Again?
    requires |Handle(c, script[|c.sent| - 1].content, env).next.sent| <= |script|
    ensures var next := Handle(c, script[|c.sent| - 1].content, env).next;
      var m := Respond(next, script, env).chat.messages;
      && Respond(c, script, env) == Respond(next, script, env)
      && |c.messages| <= |next.messages| <= |m|
      && m[|c.messages|..] == next.messages[|c.messages|..] + m[|next.messages|..]
  {
    var reply := script[|c.sent| - 1].content;
    PassEntries(c, reply, env);
    RespondStep(c, script, env);
    var next := Handle(c, reply, env).next;
    RespondKeepsLog(next, script, env);
    var m := Respond(next, script, env).chat.messages;
    var pass := next.messages[|c.messages|..];
    assert next.messages == c.messages + pass;
    SuffixSplit(m, c.messages, pass);
  }

  /**
   * From any chat, the loop shows each result right after its call; only a
   * call the router refused stays unanswered, as the last entry.
   */
  lemma {:induction false} RespondPairsCalls(c: Chat, script: seq<Reply>, env: Env)
    requires 0 < |c.sent| <= |script|
    ensures |c.messages| <= |Respond(c, script, env).chat.messages|
    ensures var o := Respond(c, script, env);
      CallsAnswered(o.chat.messages[|c.messages|..], o.result.Err? && o.result.error != ModelCallFailed)
    decreases |script| - |c.sent|
  {
    var reply := script[|c.sent| - 1].content;
    RespondKeepsLog(c, script, env);
    PassEntries(c, reply, env);
    RespondStep(c, script, env);
    var h := Handle(c, reply, env);
    if h.Again? && |h.next.sent| <= |script| {
      var next := h.next;
      RespondPairsCalls(next, script, env);
      RespondLogSplits(c, script, env);
      var o := Respond(next, script, env);
      var m := o.chat.messages;
      CallsAnsweredAppend(next.messages[|c.messages|..], m[|next.messages|..],
                          o.result.Err? && o.result.error != ModelCallFailed);
    }
  }

  /**
   * From any chat, the loop shows one result per answered tool round and one
   * call per tool call, the refused one included.
   */
  lemma {:induction false} RespondCountsEntries(c: Chat, script: seq<Reply>, env: Env)
    requires 0 < |c.sent| <= |script|
    ensures |c.sent| <= |Respond(c, script, env).chat.sent|
    ensures |c.messages| <= |Respond(c, script, env).chat.messages|
    ensures var o := Respond(c, script, env);
      var added := o.chat.messages[|c.messages|..];
      var refused := o.result.Err? && o.result.error != ModelCallFailed;
      && CountKind(added, ResultKind) == |o.chat.sent| - |c.sent|
      && CountKind(added, CallKind) == |o.chat.sent| - |c.sent| + (if refused then 1 else 0)
    decreases |script| - |c.sent|
  {
    var reply := script[|c.sent| - 1].content;
    RespondKeepsLog(c, script, env);
    HandleHistory(c, reply, env);
    PassEntries(c, reply, env);
    RespondStep(c, script, env);
    var h := Handle(c, reply, env);
    if h.Again? && |h.next.sent| <= |script| {
      var next := h.next;
      RespondCountsEntries(next, script, env);
      RespondLogSplits(c, script, env);
      var m := Respond(next, script, env).chat.messages;
      CountKindAppend(next.messages[|c.messages|..], m[|next.messages|..], ResultKind);
      CountKindAppend(next.messages[|c.messages|..], m[|next.messages|..], CallKind);
    }
  }
}
