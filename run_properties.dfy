/**
 * What one call of `get_chat_response(query)` guarantees, from the history
 * and visible log before it: its requests, where it stops, what it shows,
 * and that the history stays well paired.
 */
module RunProperties {
  import opened Wrappers
  import opened Protocol
  import opened Conversation
  import opened EngineProperties
  import opened VisibleLog
  import opened Pairing
  import opened Text
  import McpClient

  /** The user turn a query adds to the history. */
  function QueryTurn(query: string): Turn
  {
    Turn(User, [TextPart(query)])
  }

  /** How Run starts: the first request, then the loop unless the script is empty. */
  lemma RunStart(history: seq<Turn>, messages: seq<Visible>, query: string, script: seq<Reply>, env: Env)
    ensures var first := Ask(Chat(history + [QueryTurn(query)], messages, []), env);
      && first.sent == [Request(env.model, MAX_TOKENS, history + [QueryTurn(query)], env.tools)]
      && (|script| == 0 ==> Run(history, messages, query, script, env) == Outcome(first, Err(ModelCallFailed)))
      && (|script| > 0 ==> Run(history, messages, query, script, env) == Respond(first, script, env))
  {
  }

  /**
   * The requests one call sends: the first carries the old history and the
   * query turn; each later one carries the history after one answered tool
   * round on the reply before it; all use the client's model, max_tokens
   * and tools; and the history it leaves is the last request's plus the
   * closing assistant turn on a normal return.
   */
  lemma RunTranscript(history: seq<Turn>, messages: seq<Visible>, query: string, script: seq<Reply>, env: Env)
    ensures var s := Run(history, messages, query, script, env).chat.sent;
      1 <= |s| <= |script| + 1 &&
      s[0] == Request(env.model, MAX_TOKENS, history + [QueryTurn(query)], env.tools)
    ensures var s := Run(history, messages, query, script, env).chat.sent;
      forall j | 1 <= j < |s| ::
        AnsweredRound(s[j - 1].messages, s[j].messages, script[j - 1].content, j, env) && SentFor(s[j], s[j].messages, env)
    ensures var o := Run(history, messages, query, script, env);
      var closing := if o.result.Ok? then Closing(o.result.value) else [];
      o.chat.history == o.chat.sent[|o.chat.sent| - 1].messages + closing
  {
    RunStart(history, messages, query, script, env);
    var first := Ask(Chat(history + [QueryTurn(query)], messages, []), env);
    if |script| > 0 {
      RespondRounds(first, script, env);
      RespondHistory(first, script, env);
      var s := Respond(first, script, env).chat.sent;
      assert s[0] == s[..1][0];
    }
  }

  /** Along the requests of a call, each history extends the one before by one round of two turns. */
  lemma {:induction false} RoundsGrow(s: seq<Request>, script: seq<Reply>, env: Env, j: nat)
    requires 0 < |s| <= |script| + 1 && j < |s|
    requires forall i | 1 <= i < |s| :: AnsweredRound(s[i - 1].messages, s[i].messages, script[i - 1].content, i, env)
    ensures |s[j].messages| == |s[0].messages| + 2 * j
    ensures s[j].messages[..|s[0].messages|] == s[0].messages
  {
    if j > 0 {
      RoundsGrow(s, script, env, j - 1);
      assert AnsweredRound(s[j - 1].messages, s[j].messages, script[j - 1].content, j, env);
      var k := FirstToolUse(script[j - 1].content).value;
      assert |s[j].messages| == |s[j - 1].messages| + 2;
      assert s[j].messages[..|s[j - 1].messages|] == s[j - 1].messages;
      assert s[j].messages[..|s[0].messages|] == s[j].messages[..|s[j - 1].messages|][..|s[0].messages|];
    }
  }

  /**
   * The history after a call starts with the old history and the query
   * turn, and has two turns per answered tool round plus the closing turn.
   */
  lemma RunExtendsHistory(history: seq<Turn>, messages: seq<Visible>, query: string, script: seq<Reply>, env: Env)
    ensures var o := Run(history, messages, query, script, env);
      var closing := if o.result.Ok? then Closing(o.result.value) else [];
      && 1 <= |o.chat.sent|
      && |o.chat.history| == |history| + 1 + 2 * (|o.chat.sent| - 1) + |closing|
      && o.chat.history[..|history| + 1] == history + [QueryTurn(query)]
  {
    RunTranscript(history, messages, query, script, env);
    var o := Run(history, messages, query, script, env);
    var s := o.chat.sent;
    RoundsGrow(s, script, env, |s| - 1);
    var last := s[|s| - 1].messages;
    assert o.chat.history[..|history| + 1] == last[..|history| + 1];
  }

  /**
   * Where a call stops: every reply before the last one consumed asked for
   * a tool; the model call fails exactly when the script runs out; a normal
   * return hands back the last reply, which has no tool_use; and any other
   * error is the router refusing the last reply's first tool call.
   */
  lemma RunEnds(history: seq<Turn>, messages: seq<Visible>, query: string, script: seq<Reply>, env: Env)
    ensures var n := |Run(history, messages, query, script, env).chat.sent|;
      1 <= n <= |script| + 1 && forall j | 0 <= j < n - 1 :: FirstToolUse(script[j].content).Some?
    ensures var o := Run(history, messages, query, script, env);
      o.result == Err(ModelCallFailed) <==> |o.chat.sent| == |script| + 1
    ensures var o := Run(history, messages, query, script, env);
      var n := |o.chat.sent|;
      o.result.Ok? ==>
        n <= |script| && o.result.value == script[n - 1].content && FirstToolUse(script[n - 1].content).None?
    ensures var o := Run(history, messages, query, script, env);
      var n := |o.chat.sent|;
      o.result.Err? && o.result.error != ModelCallFailed ==>
        n <= |script| && RefusedCall(script[n - 1].content, n, env, o.result.error)
  {
    RunStart(history, messages, query, script, env);
    var first := Ask(Chat(history + [QueryTurn(query)], messages, []), env);
    if |script| > 0 {
      RespondContinues(first, script, env);
      RespondRunsOut(first, script, env);
      RespondReturns(first, script, env);
      RespondRefuses(first, script, env);
    }
  }

  /**
   * What a call shows: the old log is kept, one result per answered tool
   * round, one call per tool call made, each result right after its call,
   * and a call without result only as the last entry of a refused call.
   */
  lemma RunShows(history: seq<Turn>, messages: seq<Visible>, query: string, script: seq<Reply>, env: Env)
    ensures var m := Run(history, messages, query, script, env).chat.messages;
      |messages| <= |m| && m[..|messages|] == messages
    ensures var o := Run(history, messages, query, script, env);
      var added := o.chat.messages[|messages|..];
      var refused := o.result.Err? && o.result.error != ModelCallFailed;
      && CallsAnswered(added, refused)
      && CountKind(added, ResultKind) == |o.chat.sent| - 1
      && CountKind(added, CallKind) == |o.chat.sent| - 1 + (if refused then 1 else 0)
  {
    RunStart(history, messages, query, script, env);
    var first := Ask(Chat(history + [QueryTurn(query)], messages, []), env);
    if |script| > 0 {
      RespondKeepsLog(first, script, env);
      RespondPairsCalls(first, script, env);
      RespondCountsEntries(first, script, env);
    } else {
      assert Run(history, messages, query, script, env).chat.messages[|messages|..] == [];
    }
  }

  /** A call keeps a well-paired history well paired, whether it returns or raises. */
  lemma RunKeepsPairing(history: seq<Turn>, messages: seq<Visible>, query: string, script: seq<Reply>, env: Env)
    requires WellPaired(history)
    ensures WellPaired(Run(history, messages, query, script, env).chat.history)
  {
    RunStart(history, messages, query, script, env);
    var first := Ask(Chat(history + [QueryTurn(query)], messages, []), env);
    QueryPaired(query);
    WellPairedAppend(history, [QueryTurn(query)]);
    if |script| > 0 {
      RespondKeepsPairing(first, script, env);
    }
  }

  /** Along the requests of a call, a well-paired first history keeps every later one well paired. */
  lemma {:induction false} RequestsPaired(s: seq<Request>, script: seq<Reply>, env: Env, j: nat)
    requires 0 < |s| <= |script| + 1 && j < |s|
    requires WellPaired(s[0].messages)
    requires forall i | 1 <= i < |s| :: AnsweredRound(s[i - 1].messages, s[i].messages, script[i - 1].content, i, env)
    ensures WellPaired(s[j].messages)
  {
    if j > 0 {
      RequestsPaired(s, script, env, j - 1);
      assert AnsweredRound(s[j - 1].messages, s[j].messages, script[j - 1].content, j, env);
      RoundPaired(s[j - 1].messages, s[j].messages, script[j - 1].content, j, env);
      WellPairedAppend(s[j - 1].messages, s[j].messages[|s[j - 1].messages|..]);
    }
  }

  /**
   * Every request a call sends carries a well-paired history: the model API
   * never sees a tool_use without the tool_result answering it.
   */
  lemma RunRequestsPaired(history: seq<Turn>, messages: seq<Visible>, query: string, script: seq<Reply>, env: Env)
    requires WellPaired(history)
    ensures var s := Run(history, messages, query, script, env).chat.sent;
      forall j | 0 <= j < |s| :: WellPaired(s[j].messages)
  {
    RunTranscript(history, messages, query, script, env);
    QueryPaired(query);
    WellPairedAppend(history, [QueryTurn(query)]);
    var s := Run(history, messages, query, script, env).chat.sent;
    forall j | 0 <= j < |s| ensures WellPaired(s[j].messages) {
      RequestsPaired(s, script, env, j);
    }
  }

  /** Stripping the server's padded answer: one leading and one trailing blank go. */
  lemma PaddedPriceStripped()
    ensures Strip(" 65000 USD ") == "65000 USD"
  {
    var t := " 65000 USD ";
    assert IsSpace(t[0]) && IsSpace(t[10]) && !IsSpace(t[1]) && !IsSpace(t[9]);
    StripIsUnique(t, 1, 10);
    assert t[1..10] == "65000 USD";
  }

  /** The server's padded answer is shown stripped. */
  lemma PaddedPriceShown()
    ensures FormatResult([TextContent(" 65000 USD ")]) == "65000 USD"
  {
    FormatAppendsText([], TextContent(" 65000 USD "));
    PaddedPriceStripped();
  }

  /** The scenario's first reply: some text, then the tool call. */
  lemma CheckingReply(input: Json)
    ensures var reply := [TextBlock("Checking."), ToolUseBlock("t1", "do_task", input)];
      && FirstToolUse(reply) == Some(1)
      && Shown(reply) == [Said(Assistant, "Checking.")]
      && Echo(reply[..2]) == [TextPart("Checking."), ToolUsePart("t1", "do_task", input)]
  {
    var reply := [TextBlock("Checking."), ToolUseBlock("t1", "do_task", input)];
    assert FirstToolUse(reply[1..]) == Some(0);
    assert reply[..2] == reply;
    assert reply[1..][1..] == [];
    assert VisibleText(reply[1..]) == "" + VisibleText([]);
    assert VisibleText(reply) == "Checking." + "";
    assert "Checking." + "" == "Checking.";
    assert Echo(reply[1..]) == [ToolUsePart("t1", "do_task", input)] + Echo([]);
    assert Echo(reply) == [TextPart("Checking.")] + [ToolUsePart("t1", "do_task", input)];
  }

  /** The first pass of the scenario: the tool round is recorded and the second request sent. */
  lemma PriceRound(c: Chat, env: Env, input: Json)
    requires env.call(|c.sent|, "do_task", input) == Ok(ToolResult([TextContent(" 65000 USD ")], false))
    ensures var h := Handle(c, [TextBlock("Checking."), ToolUseBlock("t1", "do_task", input)], env);
      && h.Again?
      && h.next.history == c.history + [
           Turn(Assistant, [TextPart("Checking."), ToolUsePart("t1", "do_task", input)]),
           Turn(User, [ToolResultPart("t1", [TextContent(" 65000 USD ")])])]
      && h.next.messages == c.messages + [
           Said(Assistant, "Checking."),
           ToolCallShown("do_task", "t1", input),
           ToolResultShown("do_task", "65000 USD")]
      && |h.next.sent| == |c.sent| + 1
  {
    var reply := [TextBlock("Checking."), ToolUseBlock("t1", "do_task", input)];
    CheckingReply(input);
    PaddedPriceShown();
  }

  /** The second pass of the scenario: a text-only reply closes the call. */
  lemma PriceAnswer(c: Chat, env: Env)
    ensures var h := Handle(c, [TextBlock("65000 USD.")], env);
      && h.Done?
      && h.outcome.result == Ok([TextBlock("65000 USD.")])
      && h.outcome.chat.history == c.history + [Turn(Assistant, [TextPart("65000 USD.")])]
      && h.outcome.chat.messages == c.messages + [Said(Assistant, "65000 USD.")]
      && h.outcome.chat.sent == c.sent
  {
    var last := [TextBlock("65000 USD.")];
    assert last[1..] == [];
    assert FirstToolUse(last).None?;
    assert VisibleText(last) == "65000 USD.";
    assert Echo(last) == [TextPart("65000 USD.")];
  }

  lemma Regroup<T>(h: seq<T>, q: T, a: T, u: T, c: T)
    ensures (h + [q]) + [a, u] + [c] == h + [q, a, u, c]
  {
  }

  /** The scenario's call is the first pass followed by the second. */
  lemma PriceRun(history: seq<Turn>, messages: seq<Visible>, script: seq<Reply>, env: Env, input: Json)
    requires script == [Reply([TextBlock("Checking."), ToolUseBlock("t1", "do_task", input)]),
                        Reply([TextBlock("65000 USD.")])]
    requires env.call(1, "do_task", input) == Ok(ToolResult([TextContent(" 65000 USD ")], false))
    ensures var first := Ask(Chat(history + [QueryTurn("price of bitcoin")], messages, []), env);
      Handle(first, script[0].content, env).Again?
    ensures var first := Ask(Chat(history + [QueryTurn("price of bitcoin")], messages, []), env);
      var next := Handle(first, script[0].content, env).next;
      Run(history, messages, "price of bitcoin", script, env) == Handle(next, script[1].content, env).outcome
  {
    var first := Ask(Chat(history + [QueryTurn("price of bitcoin")], messages, []), env);
    RunStart(history, messages, "price of bitcoin", script, env);
    RespondStep(first, script, env);
    PriceRound(first, env, input);
    var next := Handle(first, script[0].content, env).next;
    RespondStep(next, script, env);
    PriceAnswer(next, env);
  }

  /**
   * A query answered after one tool round: the model says it will look the
   * price up and calls `do_task`, the server answers with padded text, and
   * the second reply, in text only, is returned after two requests.
   */
  lemma OneToolRoundReturns(history: seq<Turn>, messages: seq<Visible>, script: seq<Reply>, env: Env, input: Json)
    requires script == [Reply([TextBlock("Checking."), ToolUseBlock("t1", "do_task", input)]),
                        Reply([TextBlock("65000 USD.")])]
    requires env.call(1, "do_task", input) == Ok(ToolResult([TextContent(" 65000 USD ")], false))
    ensures var o := Run(history, messages, "price of bitcoin", script, env);
      o.result == Ok([TextBlock("65000 USD.")]) && |o.chat.sent| == 2
  {
    var first := Ask(Chat(history + [QueryTurn("price of bitcoin")], messages, []), env);
    PriceRun(history, messages, script, env, input);
    PriceRound(first, env, input);
    PriceAnswer(Handle(first, script[0].content, env).next, env);
  }

  /** The history of that call: query, the tool round, and the closing answer. */
  lemma OneToolRoundHistory(history: seq<Turn>, messages: seq<Visible>, script: seq<Reply>, env: Env, input: Json)
    requires script == [Reply([TextBlock("Checking."), ToolUseBlock("t1", "do_task", input)]),
                        Reply([TextBlock("65000 USD.")])]
    requires env.call(1, "do_task", input) == Ok(ToolResult([TextContent(" 65000 USD ")], false))
    ensures Run(history, messages, "price of bitcoin", script, env).chat.history == history + [
      QueryTurn("price of bitcoin"),
      Turn(Assistant, [TextPart("Checking."), ToolUsePart("t1", "do_task", input)]),
      Turn(User, [ToolResultPart("t1", [TextContent(" 65000 USD ")])]),
      Turn(Assistant, [TextPart("65000 USD.")])]
  {
    OneToolRoundReturns(history, messages, script, env, input);
    RunTranscript(history, messages, "price of bitcoin", script, env);
    CheckingReply(input);
    var last := [TextBlock("65000 USD.")];
    assert last[1..] == [];
    assert Echo(last) == [TextPart("65000 USD.")];
    var call := Turn(Assistant, [TextPart("Checking."), ToolUsePart("t1", "do_task", input)]);
    var answer := Turn(User, [ToolResultPart("t1", [TextContent(" 65000 USD ")])]);
    var closing := Turn(Assistant, [TextPart("65000 USD.")]);
    var s := Run(history, messages, "price of bitcoin", script, env).chat.sent;
    assert AnsweredRound(s[0].messages, s[1].messages, script[0].content, 1, env);
    assert s[1].messages == (history + [QueryTurn("price of bitcoin")]) + [call, answer];
    Regroup(history, QueryTurn("price of bitcoin"), call, answer, closing);
  }

  /** What that call shows: both texts, the call, and its stripped result. */
  lemma OneToolRoundShows(history: seq<Turn>, messages: seq<Visible>, script: seq<Reply>, env: Env, input: Json)
    requires script == [Reply([TextBlock("Checking."), ToolUseBlock("t1", "do_task", input)]),
                        Reply([TextBlock("65000 USD.")])]
    requires env.call(1, "do_task", input) == Ok(ToolResult([TextContent(" 65000 USD ")], false))
    ensures Run(history, messages, "price of bitcoin", script, env).chat.messages == messages + [
      Said(Assistant, "Checking."),
      ToolCallShown("do_task", "t1", input),
      ToolResultShown("do_task", "65000 USD"),
      Said(Assistant, "65000 USD.")]
  {
    var first := Ask(Chat(history + [QueryTurn("price of bitcoin")], messages, []), env);
    PriceRun(history, messages, script, env, input);
    PriceRound(first, env, input);
    PriceAnswer(Handle(first, script[0].content, env).next, env);
  }

  /**
   * A query whose reply calls a tool no server offers: the call is shown,
   * the error escapes, and the history keeps only the query turn.
   */
  lemma UnknownToolCall(history: seq<Turn>, messages: seq<Visible>, script: seq<Reply>, env: Env, input: Json)
    requires |script| >= 1 && script[0] == Reply([ToolUseBlock("t1", "nope", input)])
    requires env.call(1, "nope", input) == Err(McpClient.ToolNotFound("nope"))
    ensures var o := Run(history, messages, "hi", script, env);
      && o.result == Err(ToolCallFailed(McpClient.ToolNotFound("nope")))
      && |o.chat.sent| == 1
      && o.chat.history == history + [QueryTurn("hi")]
      && o.chat.messages == messages + [ToolCallShown("nope", "t1", input)]
  {
    var first := Ask(Chat(history + [QueryTurn("hi")], messages, []), env);
    RunStart(history, messages, "hi", script, env);
    RespondStep(first, script, env);
    var reply := script[0].content;
    assert FirstToolUse(reply) == Some(0);
    assert VisibleText(reply) == "";
    assert Shown(reply) == [];
    assert Handle(first, reply, env) ==
      Done(Outcome(first.(messages := first.messages + [ToolCallShown("nope", "t1", input)]),
                   Err(ToolCallFailed(McpClient.ToolNotFound("nope")))));
  }
}
