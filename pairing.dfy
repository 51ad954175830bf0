/**
 * The message history the engine sends stays well formed for the model
 * API: a tool_use appears only as the last part of an assistant turn, the
 * turn right after it is a user turn holding exactly one tool_result for
 * that id, and every tool_result answers the tool_use just before it.
 */
module Pairing {
  import opened Wrappers
  import opened Protocol
  import opened Conversation
  import opened EngineProperties

  /** The id of the tool_use an assistant turn ends with, if any. */
  function CallId(t: Turn): Option<string>
  {
    if t.role == Assistant && |t.content| > 0 && t.content[|t.content| - 1].ToolUsePart?
    then Some(t.content[|t.content| - 1].id) else None
  }

  /** Only the last part of an assistant turn may be a tool_use. */
  predicate Tidy(t: Turn)
  {
    forall i | 0 <= i < |t.content| :: t.content[i].ToolUsePart? ==> t.role == Assistant && i == |t.content| - 1
  }

  /** `t` is the user turn that answers tool_use `id`. */
  predicate Answers(t: Turn, id: string)
  {
    t.role == User && |t.content| == 1 && t.content[0].ToolResultPart? && t.content[0].toolUseId == id
  }

  /** Every tool_result in `h[i]` answers the tool_use that `h[i - 1]` ends with. */
  predicate ResultsAnswerPrevious(h: seq<Turn>, i: nat)
    requires i < |h|
  {
    forall j | 0 <= j < |h[i].content| ::
      h[i].content[j].ToolResultPart? ==> 0 < i && CallId(h[i - 1]) == Some(h[i].content[j].toolUseId)
  }

  predicate PairedAt(h: seq<Turn>, i: nat)
    requires i < |h|
  {
    && Tidy(h[i])
    && (CallId(h[i]).Some? ==> i + 1 < |h| && Answers(h[i + 1], CallId(h[i]).value))
    && ResultsAnswerPrevious(h, i)
  }

  predicate WellPaired(h: seq<Turn>)
  {
    forall i | 0 <= i < |h| :: PairedAt(h, i)
  }

  /** Two well-paired histories in a row form one. */
  lemma WellPairedAppend(a: seq<Turn>, b: seq<Turn>)
    requires WellPaired(a) && WellPaired(b)
    ensures WellPaired(a + b)
  {
    var h := a + b;
    forall i | 0 <= i < |h|
      ensures PairedAt(h, i)
    {
      if i < |a| {
        assert PairedAt(a, i);
        assert h[i] == a[i];
        if 0 < i {
          assert h[i - 1] == a[i - 1];
        }
        if i + 1 < |a| {
          assert h[i + 1] == a[i + 1];
        }
      } else {
        var k := i - |a|;
        assert PairedAt(b, k);
        assert h[i] == b[k];
        if 0 < k {
          assert h[i - 1] == b[k - 1];
        }
        if k + 1 < |b| {
          assert h[i + 1] == b[k + 1];
        }
      }
    }
  }

  /** The user's query turn on its own is well paired. */
  lemma QueryPaired(query: string)
    ensures WellPaired([Turn(User, [TextPart(query)])])
  {
    var h := [Turn(User, [TextPart(query)])];
    assert PairedAt(h, 0);
  }

  /** The closing turn of a reply without tool_use is well paired. */
  lemma ClosingPaired(reply: seq<ReplyBlock>)
    requires FirstToolUse(reply).None?
    ensures WellPaired(Closing(reply))
  {
    EchoWithoutToolUse(reply);
    if Closing(reply) != [] {
      assert PairedAt(Closing(reply), 0);
    }
  }

  /** An echoed reply never holds a tool_result. */
  lemma {:induction false} EchoHasNoResults(blocks: seq<ReplyBlock>)
    ensures forall i | 0 <= i < |Echo(blocks)| :: !Echo(blocks)[i].ToolResultPart?
  {
    if blocks != [] {
      EchoHasNoResults(blocks[1..]);
    }
  }

  /** The two turns of a tool round are well paired. */
  lemma RoundTurnsPaired(reply: seq<ReplyBlock>, content: seq<ContentItem>)
    requires FirstToolUse(reply).Some?
    ensures var k := FirstToolUse(reply).value;
      WellPaired([Turn(Assistant, Echo(reply[..k + 1])), Turn(User, [ToolResultPart(reply[k].id, content)])])
  {
    var k := FirstToolUse(reply).value;
    var call := Turn(Assistant, Echo(reply[..k + 1]));
    var answer := Turn(User, [ToolResultPart(reply[k].id, content)]);
    EchoThroughFirstToolUse(reply);
    EchoHasNoResults(reply[..k + 1]);
    assert Tidy(call) && CallId(call) == Some(reply[k].id);
    assert Tidy(answer) && CallId(answer).None?;
    var round := [call, answer];
    assert ResultsAnswerPrevious(round, 0);
    assert ResultsAnswerPrevious(round, 1);
    assert PairedAt(round, 0) && PairedAt(round, 1);
  }

  lemma RoundPaired(before: seq<Turn>, after: seq<Turn>, reply: seq<ReplyBlock>, n: nat, env: Env)
    requires AnsweredRound(before, after, reply, n, env)
    ensures |before| <= |after| && after == before + after[|before|..]
    ensures WellPaired(after[|before|..])
  {
    var k := FirstToolUse(reply).value;
    var use := reply[k];
    var content := env.call(n, use.name, use.input).value.content;
    RoundTurnsPaired(reply, content);
    assert after[|before|..] == [Turn(Assistant, Echo(reply[..k + 1])), Turn(User, [ToolResultPart(use.id, content)])];
  }

  /** The loop keeps a well-paired history well paired, however it ends. */
  lemma {:induction false} RespondKeepsPairing(c: Chat, script: seq<Reply>, env: Env)
    requires 0 < |c.sent| <= |script|
    requires WellPaired(c.history)
    ensures WellPaired(Respond(c, script, env).chat.history)
    decreases |script| - |c.sent|
  {
    var reply := script[|c.sent| - 1].content;
    HandleHistory(c, reply, env);
    RespondStep(c, script, env);
    var h := Handle(c, reply, env);
    if h.Again? {
      RoundPaired(c.history, h.next.history, reply, |c.sent|, env);
      WellPairedAppend(c.history, h.next.history[|c.history|..]);
      if |h.next.sent| <= |script| {
        RespondKeepsPairing(h.next, script, env);
      }
    } else if h.outcome.result.Ok? {
      ClosingPaired(reply);
      WellPairedAppend(c.history, Closing(reply));
    }
  }
}
