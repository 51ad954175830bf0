/**
 * What every call of the conversation engine guarantees, proved about the
 * functions of module Conversation: each tool round is one assistant turn
 * echoing the reply up to its first tool_use and one user turn answering
 * that id, recorded before the next model call; the loop ends exactly when
 * a reply has no tool_use, the script runs out, or the tool is unknown; the
 * visible log shows each tool call followed by its result; and the history
 * never holds an unanswered tool_use.
 */
module EngineProperties {
  import opened Wrappers
  import opened Protocol
  import opened Registry
  import opened McpClient
  import opened Conversation

  /**
   * `after` is `before` plus one tool round for `reply`: the assistant turn
   * echoing the reply through its first tool_use, then a user turn holding
   * one tool_result for that id with the routed server's decoded content,
   * as answered in round `n`.
   */
  predicate AnsweredRound(before: seq<Turn>, after: seq<Turn>, reply: seq<ReplyBlock>, n: nat, env: Env)
  {
    match FirstToolUse(reply)
    case None => false
    case Some(k) =>
      var use := reply[k];
      var d := env.call(n, use.name, use.input);
      && d.Ok?
      && after == before + [Turn(Assistant, Echo(reply[..k + 1])),
                            Turn(User, [ToolResultPart(use.id, d.value.content)])]
  }

  /** The request the loop sends for `history`, with the client's model, max_tokens and tool schemas. */
  predicate SentFor(req: Request, history: seq<Turn>, env: Env)
  {
    req == Request(env.model, MAX_TOKENS, history, env.tools)
  }

  /** `reply` makes a tool call the router refuses in round `n`, and `e` is the error that escapes for it. */
  predicate RefusedCall(reply: seq<ReplyBlock>, n: nat, env: Env, e: ChatError)
  {
    match FirstToolUse(reply)
    case None => false
    case Some(k) =>
      var d := env.call(n, reply[k].name, reply[k].input);
      d.Err? && e == ToolCallFailed(d.error)
  }

  // ------------------------------------------------------------ one pass

  // The Handle* lemmas and RespondStep below unfold Handle or Respond one
  // level. They are proof steps for the loop lemmas and the method proofs
  // that use them, not results of their own.

  /** How one pass changes the history and the requests sent. */
  lemma HandleHistory(c: Chat, reply: seq<ReplyBlock>, env: Env)
    ensures var h := Handle(c, reply, env);
      && (h.Again? ==>
            && AnsweredRound(c.history, h.next.history, reply, |c.sent|, env)
            && h.next.sent == c.sent + [Request(env.model, MAX_TOKENS, h.next.history, env.tools)])
      && (h.Done? ==> h.outcome.chat.sent == c.sent)
      && (h.Done? && h.outcome.result.Ok? ==>
            && h.outcome.result.value == reply
            && FirstToolUse(reply).None?
            && h.outcome.chat.history == c.history + Closing(reply))
      && (h.Done? && h.outcome.result.Err? ==>
            RefusedCall(reply, |c.sent|, env, h.outcome.result.error) && h.outcome.chat.history == c.history)
  {
  }

  /** Where one pass stops, and why. */
  lemma HandleEnds(c: Chat, reply: seq<ReplyBlock>, env: Env)
    ensures var h := Handle(c, reply, env);
      && (h.Again? ==> FirstToolUse(reply).Some?)
      && (h.Done? ==> h.outcome.chat.sent == c.sent)
      && (h.Done? && h.outcome.result.Ok? ==> h.outcome.result.value == reply && FirstToolUse(reply).None?)
      && (h.Done? && h.outcome.result.Err? ==>
            RefusedCall(reply, |c.sent|, env, h.outcome.result.error) && h.outcome.result.error != ModelCallFailed)
  {
  }

  /** A pass goes on only for a reply with a tool_use, and one that stops sends nothing more. */
  lemma HandleStops(c: Chat, reply: seq<ReplyBlock>, env: Env)
    ensures var h := Handle(c, reply, env);
      && (h.Again? ==> FirstToolUse(reply).Some?)
      && (h.Done? ==> h.outcome.chat.sent == c.sent)
  {
  }

  /** A pass that goes on records one answered round and sends its history. */
  lemma HandleAdvances(c: Chat, reply: seq<ReplyBlock>, env: Env)
    ensures var h := Handle(c, reply, env);
      h.Again? ==>
        && AnsweredRound(c.history, h.next.history, reply, |c.sent|, env)
        && h.next.sent == c.sent + [Request(env.model, MAX_TOKENS, h.next.history, env.tools)]
  {
  }

  /** After one pass, the history is the latest request's, plus the closing turn on a normal return. */
  lemma HandleClosesHistory(c: Chat, reply: seq<ReplyBlock>, env: Env)
    requires 0 < |c.sent| && c.sent[|c.sent| - 1].messages == c.history
    ensures var h := Handle(c, reply, env);
      && (h.Again? ==> h.next.sent[|h.next.sent| - 1].messages == h.next.history)
      && (h.Done? ==> h.outcome.chat.sent == c.sent)
      && (h.Done? && h.outcome.result.Ok? ==> h.outcome.chat.history == c.history + Closing(h.outcome.result.value))
      && (h.Done? && h.outcome.result.Err? ==> h.outcome.chat.history == c.history)
  {
  }

  /** How one pass extends the visible log. */
  lemma HandleMessages(c: Chat, reply: seq<ReplyBlock>, env: Env)
    ensures var h := Handle(c, reply, env);
      && (h.Again? ==>
            var use := reply[FirstToolUse(reply).value];
            var d := env.call(|c.sent|, use.name, use.input);
            h.next.messages == c.messages + Shown(reply) +
              [ToolCallShown(use.name, use.id, use.input), ToolResultShown(use.name, FormatResult(d.value.content))])
      && (h.Done? && h.outcome.result.Ok? ==> h.outcome.chat.messages == c.messages + Shown(reply))
      && (h.Done? && h.outcome.result.Err? ==>
            var use := reply[FirstToolUse(reply).value];
            h.outcome.chat.messages == c.messages + Shown(reply) + [ToolCallShown(use.name, use.id, use.input)])
  {
  }

  // ------------------------------------------------------------ the loop

  /** How Respond continues from `c`: the outcome of this pass, a failed next call, or the passes after it. */
  lemma RespondStep(c: Chat, script: seq<Reply>, env: Env)
    requires 0 < |c.sent| <= |script|
    ensures var h := Handle(c, script[|c.sent| - 1].content, env);
      && (h.Done? ==> Respond(c, script, env) == h.outcome)
      && (h.Again? && |h.next.sent| > |script| ==> Respond(c, script, env) == Outcome(h.next, Err(ModelCallFailed)))
      && (h.Again? && |h.next.sent| <= |script| ==> Respond(c, script, env) == Respond(h.next, script, env))
  {
  }

  /**
   * `s` extends the requests `before`, and every further request follows one
   * answered tool round on the reply before it and carries the client's
   * model, max_tokens and tool schemas.
   */
  ghost predicate RoundsAfter(before: seq<Request>, s: seq<Request>, script: seq<Reply>, env: Env)
  {
    && 0 < |before| <= |s| <= |script| + 1
    && s[..|before|] == before
    && (forall j | |before| <= j < |s| :: AnsweredRound(s[j - 1].messages, s[j].messages, script[j - 1].content, j, env))
    && (forall j | |before| <= j < |s| :: SentFor(s[j], s[j].messages, env))
  }

  /** One answered round in front of rounds already recorded. */
  lemma RoundsExtend(before: seq<Request>, next: seq<Request>, s: seq<Request>, script: seq<Reply>, env: Env)
    requires 0 < |before| <= |script| && |next| == |before| + 1 && next[..|before|] == before
    requires AnsweredRound(before[|before| - 1].messages, next[|before|].messages, script[|before| - 1].content, |before|, env)
    requires SentFor(next[|before|], next[|before|].messages, env)
    requires RoundsAfter(next, s, script, env)
    ensures RoundsAfter(before, s, script, env)
  {
    assert s[..|before|] == before by {
      assert s[..|next|][..|before|] == s[..|before|];
    }
    assert s[|before|] == next[|before|];
    assert s[|before| - 1] == before[|before| - 1];
  }

  /** No request after the last one adds no round. */
  lemma RoundsNone(s: seq<Request>, script: seq<Reply>, env: Env)
    requires 0 < |s| <= |script| + 1
    ensures RoundsAfter(s, s, script, env)
  {
    assert s[..|s|] == s;
  }

  /** From a chat whose latest request carries its history, the loop only adds answered rounds. */
  lemma {:induction false} RespondRounds(c: Chat, script: seq<Reply>, env: Env)
    requires 0 < |c.sent| <= |script|
    requires c.sent[|c.sent| - 1].messages == c.history
    ensures RoundsAfter(c.sent, Respond(c, script, env).chat.sent, script, env)
    decreases |script| - |c.sent|
  {
    var reply := script[|c.sent| - 1].content;
    HandleEnds(c, reply, env);
    HandleAdvances(c, reply, env);
    RespondStep(c, script, env);
    var h := Handle(c, reply, env);
    var o := Respond(c, script, env);
    if h.Done? {
      assert o.chat.sent == c.sent;
      RoundsNone(c.sent, script, env);
    } else {
      var n := h.next.sent;
      assert n == c.sent + [Request(env.model, MAX_TOKENS, h.next.history, env.tools)];
      assert n[..|c.sent|] == c.sent;
      assert n[|c.sent|].messages == h.next.history;
      assert AnsweredRound(c.sent[|c.sent| - 1].messages, n[|c.sent|].messages, reply, |c.sent|, env);
      assert SentFor(n[|c.sent|], n[|c.sent|].messages, env);
      if |n| > |script| {
        assert o.chat.sent == n;
        RoundsNone(n, script, env);
      } else {
        RespondRounds(h.next, script, env);
        assert o == Respond(h.next, script, env);
      }
      RoundsExtend(c.sent, n, o.chat.sent, script, env);
    }
  }

  /**
   * The history an outcome leaves is the one its last request carried, plus
   * the closing assistant turn when the call returns normally.
   */
  ghost predicate HistoryClosed(o: Outcome)
  {
    && 0 < |o.chat.sent|
    && (o.result.Ok? ==> o.chat.history == o.chat.sent[|o.chat.sent| - 1].messages + Closing(o.result.value))
    && (o.result.Err? ==> o.chat.history == o.chat.sent[|o.chat.sent| - 1].messages)
  }

  /** From a chat whose latest request carries its history, the loop leaves a closed history. */
  lemma {:induction false} RespondHistory(c: Chat, script: seq<Reply>, env: Env)
    requires 0 < |c.sent| <= |script|
    requires c.sent[|c.sent| - 1].messages == c.history
    ensures HistoryClosed(Respond(c, script, env))
    decreases |script| - |c.sent|
  {
    var reply := script[|c.sent| - 1].content;
    RespondStep(c, script, env);
    HandleClosesHistory(c, reply, env);
    var h := Handle(c, reply, env);
    var o := Respond(c, script, env);
    if h.Done? {
      assert o == h.outcome;
    } else if |h.next.sent| > |script| {
      assert o == Outcome(h.next, Err(ModelCallFailed));
    } else {
      RespondHistory(h.next, script, env);
      assert o == Respond(h.next, script, env);
    }
  }

  /** The replies `script[lo..hi]` all ask for a tool. */
  ghost predicate AskedForTools(script: seq<Reply>, lo: int, hi: int)
  {
    forall j | lo <= j < hi && 0 <= j < |script| :: FirstToolUse(script[j].content).Some?
  }

  /** Every reply the loop consumes before its last one asked for a tool. */
  lemma {:induction false} RespondContinues(c: Chat, script: seq<Reply>, env: Env)
    requires 0 < |c.sent| <= |script|
    ensures |c.sent| <= |Respond(c, script, env).chat.sent| <= |script| + 1
    ensures AskedForTools(script, |c.sent| - 1, |Respond(c, script, env).chat.sent| - 1)
    decreases |script| - |c.sent|
  {
    var reply := script[|c.sent| - 1].content;
    HandleStops(c, reply, env);
    RespondStep(c, script, env);
    var h := Handle(c, reply, env);
    var o := Respond(c, script, env);
    if h.Done? {
      assert o == h.outcome;
      assert |o.chat.sent| == |c.sent|;
    } else if |h.next.sent| > |script| {
      assert o == Outcome(h.next, Err(ModelCallFailed));
      assert |o.chat.sent| == |c.sent| + 1;
      assert FirstToolUse(script[|c.sent| - 1].content).Some?;
    } else {
      RespondContinues(h.next, script, env);
      assert o == Respond(h.next, script, env);
      assert |h.next.sent| == |c.sent| + 1;
      assert FirstToolUse(script[|c.sent| - 1].content).Some?;
      assert AskedForTools(script, |c.sent|, |o.chat.sent| - 1);
    }
  }

  /** The model call fails exactly when the loop sends one request more than there are replies. */
  lemma {:induction false} RespondRunsOut(c: Chat, script: seq<Reply>, env: Env)
    requires 0 < |c.sent| <= |script|
    ensures |c.sent| <= |Respond(c, script, env).chat.sent| <= |script| + 1
    ensures var o := Respond(c, script, env);
      o.result == Err(ModelCallFailed) <==> |o.chat.sent| == |script| + 1
    decreases |script| - |c.sent|
  {
    var reply := script[|c.sent| - 1].content;
    HandleEnds(c, reply, env);
    RespondStep(c, script, env);
    var h := Handle(c, reply, env);
    var o := Respond(c, script, env);
    if h.Done? {
      assert o == h.outcome;
      assert |o.chat.sent| == |c.sent|;
    } else if |h.next.sent| > |script| {
      assert o == Outcome(h.next, Err(ModelCallFailed));
    } else {
      RespondRunsOut(h.next, script, env);
      assert o == Respond(h.next, script, env);
    }
  }

  /** A normal return hands back the last reply consumed, and that reply has no tool_use. */
  ghost predicate ReturnedAtEnd(o: Outcome, script: seq<Reply>)
  {
    var n := |o.chat.sent|;
    o.result.Ok? ==>
      0 < n <= |script| && o.result.value == script[n - 1].content && FirstToolUse(script[n - 1].content).None?
  }

  /** A normal return hands back the last reply consumed, which has no tool_use. */
  lemma {:induction false} RespondReturns(c: Chat, script: seq<Reply>, env: Env)
    requires 0 < |c.sent| <= |script|
    ensures |c.sent| <= |Respond(c, script, env).chat.sent| <= |script| + 1
    ensures ReturnedAtEnd(Respond(c, script, env), script)
    decreases |script| - |c.sent|
  {
    var reply := script[|c.sent| - 1].content;
    HandleEnds(c, reply, env);
    RespondStep(c, script, env);
    var h := Handle(c, reply, env);
    var o := Respond(c, script, env);
    if h.Done? {
      assert o == h.outcome;
      assert |o.chat.sent| == |c.sent|;
      assert script[|o.chat.sent| - 1].content == reply;
    } else if |h.next.sent| > |script| {
      assert o == Outcome(h.next, Err(ModelCallFailed));
    } else {
      RespondReturns(h.next, script, env);
      assert o == Respond(h.next, script, env);
    }
  }

  /** An error other than a failed model call is the refusal of the last reply's first tool call. */
  ghost predicate RefusedAtEnd(o: Outcome, script: seq<Reply>, env: Env)
  {
    var n := |o.chat.sent|;
    o.result.Err? && o.result.error != ModelCallFailed ==>
      0 < n <= |script| && RefusedCall(script[n - 1].content, n, env, o.result.error)
  }

  /** Any other error is the router's refusal of the last reply's first tool call. */
  lemma {:induction false} RespondRefuses(c: Chat, script: seq<Reply>, env: Env)
    requires 0 < |c.sent| <= |script|
    ensures |c.sent| <= |Respond(c, script, env).chat.sent| <= |script| + 1
    ensures RefusedAtEnd(Respond(c, script, env), script, env)
    decreases |script| - |c.sent|
  {
    var reply := script[|c.sent| - 1].content;
    HandleEnds(c, reply, env);
    RespondStep(c, script, env);
    var h := Handle(c, reply, env);
    var o := Respond(c, script, env);
    if h.Done? {
      assert o == h.outcome;
      assert |o.chat.sent| == |c.sent|;
      if o.result.Err? {
        assert RefusedCall(reply, |c.sent|, env, o.result.error);
        assert script[|o.chat.sent| - 1].content == reply;
      }
    } else if |h.next.sent| > |script| {
      assert o.result == Err(ModelCallFailed);
    } else {
      RespondRefuses(h.next, script, env);
      assert o == Respond(h.next, script, env);
    }
  }
}
