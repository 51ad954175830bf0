/**
 * The Streamlit application's session state and the operations that change
 * it: initialisation, a chat turn (`get_chat_response`, driven by a user
 * query), a model change, and the "New Conversation" reset. The chat turn is
 * an imperative loop, proved to leave exactly the state that the function
 * `Conversation.Run` describes for the client's tool router.
 */
module App {
  import opened Wrappers
  import opened Text
  import opened Protocol
  import opened Registry
  import opened McpClient
  import opened Conversation
  import opened EngineProperties
  import opened Pairing
  import opened RunProperties

  /**
   * The tool servers as they answer in each round of a chat turn: round `n`
   * (the number of model requests sent so far) is answered by `servers(n)`.
   */
  type ToolServers = nat -> ToolServer

  /**
   * The tool router of a client with these sessions, `use_tool` as the loop
   * sees it: a name no session lists is refused with ToolNotFound; otherwise
   * the first session listing it is called, and its result is decoded, or
   * the call's exception escapes.
   */
  function RouterEnv(model: string, tools: seq<ToolSchema>, sessions: seq<Session>, servers: ToolServers, codec: Codec): (env: Env)
    ensures env.model == model && env.tools == tools
    ensures forall n: nat, name: string, args: Json {:trigger env.call(n, name, args)} ::
              OwnerIndex(sessions, name).None? ==> env.call(n, name, args) == Err(ToolNotFound(name))
    ensures forall n: nat, name: string, args: Json {:trigger env.call(n, name, args)} ::
              OwnerIndex(sessions, name).Some? ==>
                var out := servers(n)(sessions[OwnerIndex(sessions, name).value].path, name, args);
                env.call(n, name, args) == if out.Some? then Ok(Decoded(out.value, codec)) else Err(ToolCallRaised(name))
  {
    var env := Env(model, tools, (n: nat, name: string, args: Json) => Dispatch(sessions, servers(n), codec, name, args));
    assert forall n: nat, name: string, args: Json :: env.call(n, name, args) == Dispatch(sessions, servers(n), codec, name, args);
    env
  }

  /** Under the client's context a tool call is routed by `use_tool`: a proof step for `Pass`. */
  lemma ClientRoutes(client: Client, servers: ToolServers, codec: Codec, n: nat, name: string, args: Json)
    ensures ClientEnv(client, servers, codec).call(n, name, args) == Dispatch(client.sessions, servers(n), codec, name, args)
  {
  }

  /** The context a chat turn of `client` runs in. */
  function ClientEnv(client: Client, servers: ToolServers, codec: Codec): Env
    reads client
  {
    RouterEnv(client.model, ToolSchemas(client.availableTools), client.sessions, servers, codec)
  }

  /**
   * Under the client's router, a chat turn fails on a tool call exactly
   * when no connected server lists that tool, or when the owning server's
   * call raises; the error names the tool.
   */
  lemma RouterRefusals(reply: seq<ReplyBlock>, n: nat, sessions: seq<Session>, servers: ToolServers, codec: Codec,
                       model: string, tools: seq<ToolSchema>, e: ChatError)
    requires FirstToolUse(reply).Some?
    ensures var use := reply[FirstToolUse(reply).value];
      var owner := OwnerIndex(sessions, use.name);
      RefusedCall(reply, n, RouterEnv(model, tools, sessions, servers, codec), e) <==>
        || (owner.None? && e == ToolCallFailed(ToolNotFound(use.name)))
        || (owner.Some? && servers(n)(sessions[owner.value].path, use.name, use.input).None? &&
            e == ToolCallFailed(ToolCallRaised(use.name)))
  {
  }

  /**
   * Under the client's router, an answered tool round records the content
   * the owning server returned, decoded.
   */
  lemma RouterAnswersFromOwner(before: seq<Turn>, after: seq<Turn>, reply: seq<ReplyBlock>, n: nat,
                               sessions: seq<Session>, servers: ToolServers, codec: Codec,
                               model: string, tools: seq<ToolSchema>)
    requires AnsweredRound(before, after, reply, n, RouterEnv(model, tools, sessions, servers, codec))
    ensures var k := FirstToolUse(reply).value;
      var owner := OwnerIndex(sessions, reply[k].name);
      && owner.Some?
      && servers(n)(sessions[owner.value].path, reply[k].name, reply[k].input).Some?
      && after == before + [Turn(Assistant, Echo(reply[..k + 1])),
                            Turn(User, [ToolResultPart(reply[k].id,
                                Decoded(servers(n)(sessions[owner.value].path, reply[k].name, reply[k].input).value, codec).content)])]
  {
  }

  /**
   * The unknown-tool scenario under the client's router: when no connected
   * server lists "nope", the call is refused with ToolNotFound whatever the
   * servers would answer, the call is shown, and the history keeps only the
   * query turn.
   */
  lemma RouterUnknownToolCall(history: seq<Turn>, messages: seq<Visible>, script: seq<Reply>, input: Json,
                              sessions: seq<Session>, servers: ToolServers, codec: Codec,
                              model: string, tools: seq<ToolSchema>)
    requires |script| >= 1 && script[0] == Reply([ToolUseBlock("t1", "nope", input)])
    requires forall j | 0 <= j < |sessions| :: !HasName(sessions[j].tools, "nope")
    ensures var o := Run(history, messages, "hi", script, RouterEnv(model, tools, sessions, servers, codec));
      && o.result == Err(ToolCallFailed(ToolNotFound("nope")))
      && |o.chat.sent| == 1
      && o.chat.history == history + [QueryTurn("hi")]
      && o.chat.messages == messages + [ToolCallShown("nope", "t1", input)]
  {
    var env := RouterEnv(model, tools, sessions, servers, codec);
    assert env.call(1, "nope", input) == Err(ToolNotFound("nope"));
    UnknownToolCall(history, messages, script, env, input);
  }

  // ------------------------------------------------------ the loop's parts

  /** `text_content`: the loop over the reply that concatenates its text blocks. */
  method CollectText(blocks: seq<ReplyBlock>) returns (text: string)
    ensures text == VisibleText(blocks)
  {
    text := "";
    var i := 0;
    while i < |blocks|
      invariant 0 <= i <= |blocks|
      invariant text == VisibleText(blocks[..i])
    {
      assert blocks[..i + 1] == blocks[..i] + [blocks[i]];
      VisibleTextAppend(blocks[..i], [blocks[i]]);
      assert VisibleText([blocks[i]]) == TextOf(blocks[i]) by {
        assert [blocks[i]][1..] == [];
      }
      if blocks[i].TextBlock? {
        text := text + blocks[i].text;
      }
      i := i + 1;
    }
    assert blocks[..|blocks|] == blocks;
  }

  /**
   * `assistant_content`: the loop that echoes text and tool_use blocks and
   * stops at the first tool_use, whose position it reports.
   */
  method ScanReply(blocks: seq<ReplyBlock>) returns (content: seq<Part>, call: Option<nat>)
    ensures call == FirstToolUse(blocks)
    ensures call.Some? ==> call.value < |blocks| && content == Echo(blocks[..call.value + 1])
    ensures call.None? ==> content == Echo(blocks)
  {
    content := [];
    call := None;
    var i := 0;
    while i < |blocks|
      invariant 0 <= i <= |blocks|
      invariant content == Echo(blocks[..i])
      invariant forall j | 0 <= j < i :: !blocks[j].ToolUseBlock?
    {
      EchoStep(blocks, i);
      if blocks[i].TextBlock? {
        content := content + [TextPart(blocks[i].text)];
      } else if blocks[i].ToolUseBlock? {
        content := content + [ToolUsePart(blocks[i].id, blocks[i].name, blocks[i].input)];
        FirstToolUseIs(blocks, i);
        call := Some(i);
        return;
      }
      i := i + 1;
    }
    assert blocks[..|blocks|] == blocks;
  }

  /** `formatted_result`: the stripped text of every item that has one, joined with ", ". */
  method FormatToolResult(items: seq<ContentItem>) returns (formatted: string)
    ensures formatted == FormatResult(items)
  {
    var textItems: seq<string> := [];
    var i := 0;
    while i < |items|
      invariant 0 <= i <= |items|
      invariant textItems == StrippedTexts(items[..i])
    {
      assert items[..i + 1] == items[..i] + [items[i]];
      StrippedTextsAppend(items[..i], [items[i]]);
      assert [items[i]][1..] == [];
      var t := ItemText(items[i]);
      if t.Some? {
        textItems := textItems + [Strip(t.value)];
      }
      i := i + 1;
    }
    assert items[..|items|] == items;
    formatted := Join(textItems, ", ");
  }

  /** One pass of the loop on `reply` from `c` stopped (`done`) with result `r`, or went on, leaving `c'`. */
  predicate Passed(c: Chat, reply: seq<ReplyBlock>, env: Env, done: bool, r: Result<seq<ReplyBlock>, ChatError>, c': Chat)
  {
    var h := Handle(c, reply, env);
    && done == h.Done?
    && (h.Done? ==> Outcome(c', r) == h.outcome)
    && (h.Again? ==> c' == h.next)
  }

  // The three Passed* lemmas name the three ways a pass ends; they unfold
  // Handle once and are proof steps for `Pass`.

  /** A reply without tool_use closes the history and stops the loop. */
  lemma PassedClosing(c: Chat, reply: seq<ReplyBlock>, env: Env, c': Chat)
    requires FirstToolUse(reply).None?
    requires c' == Chat(c.history + Closing(reply), c.messages + Shown(reply), c.sent)
    ensures Passed(c, reply, env, true, Ok(reply), c')
  {
  }

  /** A refused tool call shows the call and stops the loop with the error. */
  lemma PassedRefused(c: Chat, reply: seq<ReplyBlock>, env: Env, e: ClientError, c': Chat)
    requires FirstToolUse(reply).Some?
    requires var use := reply[FirstToolUse(reply).value];
      && env.call(|c.sent|, use.name, use.input) == Err(e)
      && c' == Chat(c.history, c.messages + Shown(reply) + [ToolCallShown(use.name, use.id, use.input)], c.sent)
    ensures Passed(c, reply, env, true, Err(ToolCallFailed(e)), c')
  {
  }

  /** An answered tool call records the round and sends the next request. */
  lemma PassedRound(c: Chat, reply: seq<ReplyBlock>, env: Env, result: ToolResult, c': Chat)
    requires FirstToolUse(reply).Some?
    requires var k := FirstToolUse(reply).value;
      var use := reply[k];
      var history := c.history + [Turn(Assistant, Echo(reply[..k + 1])), Turn(User, [ToolResultPart(use.id, result.content)])];
      && env.call(|c.sent|, use.name, use.input) == Ok(result)
      && c' == Chat(history,
                    c.messages + Shown(reply) + [ToolCallShown(use.name, use.id, use.input)]
                      + [ToolResultShown(use.name, FormatResult(result.content))],
                    c.sent + [Request(env.model, MAX_TOKENS, history, env.tools)])
    ensures Passed(c, reply, env, false, Ok(reply), c')
  {
  }

  /** How the loop's outcome from `c` follows from one pass: a proof step for `Converse`, unfolding `Respond` once. */
  lemma PassAdvances(c: Chat, script: seq<Reply>, env: Env, done: bool, r: Result<seq<ReplyBlock>, ChatError>, c': Chat)
    requires 0 < |c.sent| <= |script|
    requires Passed(c, script[|c.sent| - 1].content, env, done, r, c')
    ensures done ==> Outcome(c', r) == Respond(c, script, env)
    ensures !done ==> |c'.sent| == |c.sent| + 1
    ensures !done && |c'.sent| <= |script| ==> Respond(c', script, env) == Respond(c, script, env)
    ensures !done && |c'.sent| > |script| ==> Respond(c, script, env) == Outcome(c', Err(ModelCallFailed))
  {
    RespondStep(c, script, env);
  }

  // ------------------------------------------------------ the session state

  /** `st.session_state`: the visible log, the conversation history, the chosen model and the client. */
  class AppState {
    var messages: seq<Visible>
    var history: seq<Turn>
    var model: string
    var previousModel: string
    var client: Client?

    /** Every tool_use in the history is answered by the turn after it. */
    ghost predicate Valid()
      reads this
    {
      WellPaired(history)
    }

    /** `initialize_session_state` on a fresh session. */
    constructor ()
      ensures Valid()
      ensures messages == [] && history == []
      ensures model == DEFAULT_MODEL && previousModel == model && client == null
    {
      messages := [];
      history := [];
      model := DEFAULT_MODEL;
      previousModel := DEFAULT_MODEL;
      client := null;
      assert WellPaired([]);
    }

    /**
     * `get_chat_response(query, client)`: record the query, then call the
     * model and run the tools it asks for until a reply asks for none. The
     * model's replies are `script`; `sent` are the requests made.
     */
    method GetChatResponse(query: string, client: Client, script: seq<Reply>, servers: ToolServers, codec: Codec)
      returns (r: Result<seq<ReplyBlock>, ChatError>, sent: seq<Request>)
      requires client.Valid()
      modifies this`history, this`messages
      ensures var o := Run(old(history), old(messages), query, script, ClientEnv(client, servers, codec));
        && history == o.chat.history
        && messages == o.chat.messages
        && sent == o.chat.sent
        && r == o.result
      ensures old(Valid()) ==> Valid()
    {
      ghost var env := ClientEnv(client, servers, codec);
      if WellPaired(history) {
        RunKeepsPairing(history, messages, query, script, env);
      }
      RunStart(history, messages, query, script, env);
      history := history + [Turn(User, [TextPart(query)])];
      sent := [client.RequestFor(history)];
      if |sent| > |script| {
        r := Err(ModelCallFailed);
        return;
      }
      r, sent := Converse(client, script, servers, codec, sent, env);
    }

    /**
     * The `while True` loop of `get_chat_response`, from the latest request
     * sent: one pass per reply, until a pass stops or a request goes past
     * the script.
     */
    method Converse(client: Client, script: seq<Reply>, servers: ToolServers, codec: Codec, sent: seq<Request>, ghost env: Env)
      returns (r: Result<seq<ReplyBlock>, ChatError>, sent': seq<Request>)
      requires 0 < |sent| <= |script|
      requires client.Valid() && env == ClientEnv(client, servers, codec)
      modifies this`history, this`messages
      ensures var o := Respond(Chat(old(history), old(messages), sent), script, env);
        && history == o.chat.history
        && messages == o.chat.messages
        && sent' == o.chat.sent
        && r == o.result
    {
      ghost var goal := Respond(Chat(history, messages, sent), script, env);
      ghost var c := Chat(history, messages, sent);
      sent' := sent;
      while true
        invariant 0 < |c.sent| <= |script|
        invariant history == c.history && messages == c.messages && sent' == c.sent
        invariant Respond(c, script, env) == goal
        decreases |script| - |c.sent|
      {
        var response := script[|sent'| - 1].content;
        var done;
        done, r, sent' := Pass(response, client, servers, codec, sent', env);
        ghost var c' := Chat(history, messages, sent');
        PassAdvances(c, script, env, done, r, c');
        if done {
          return;
        }
        c := c';
        if |sent'| > |script| {
          r := Err(ModelCallFailed);
          return;
        }
      }
    }

    /**
     * One pass of the `while True` loop on `response`: show its text; with
     * no tool_use, close the history and stop; otherwise show the call, run
     * it, show and record its result, and send the next request. The new
     * entries are built up locally and stored when the pass ends: nothing
     * reads the page state in between, so the state left is the same.
     */
    method Pass(response: seq<ReplyBlock>, client: Client, servers: ToolServers, codec: Codec,
                sent: seq<Request>, ghost env: Env)
      returns (done: bool, r: Result<seq<ReplyBlock>, ChatError>, sent': seq<Request>)
      requires client.Valid() && env == ClientEnv(client, servers, codec)
      modifies this`history, this`messages
      ensures Passed(Chat(old(history), old(messages), sent), response, env, done, r, Chat(history, messages, sent'))
    {
      ghost var c := Chat(history, messages, sent);
      sent' := sent;
      var text := CollectText(response);
      var shown := messages;
      if text != "" {
        shown := shown + [Said(Assistant, text)];
      }
      assert shown == c.messages + Shown(response);
      var assistantContent, call := ScanReply(response);
      if call.None? {
        var closed := history;
        if assistantContent != [] {
          closed := closed + [Turn(Assistant, assistantContent)];
        }
        assert closed == c.history + Closing(response);
        PassedClosing(c, response, env, Chat(closed, shown, sent'));
        history, messages := closed, shown;
        done, r := true, Ok(response);
        return;
      }
      var use := response[call.value];
      var called := shown + [ToolCallShown(use.name, use.id, use.input)];
      var toolResult := client.UseTool(use.name, use.input, use.id, servers(|sent|), codec);
      ClientRoutes(client, servers, codec, |sent|, use.name, use.input);
      if toolResult.Err? {
        PassedRefused(c, response, env, toolResult.error, Chat(history, called, sent'));
        messages := called;
        done, r := true, Err(ToolCallFailed(toolResult.error));
        return;
      }
      var formatted := FormatToolResult(toolResult.value.content);
      var answered := history + [Turn(Assistant, assistantContent),
                                 Turn(User, [ToolResultPart(use.id, toolResult.value.content)])];
      sent' := sent + [client.RequestFor(answered)];
      PassedRound(c, response, env, toolResult.value, Chat(answered, called + [ToolResultShown(use.name, formatted)], sent'));
      history, messages := answered, called + [ToolResultShown(use.name, formatted)];
      done, r := false, Ok(response);
    }

    /**
     * The page flow on a submitted query, with the client the page set up
     * before reaching it: an empty input does nothing; otherwise the query
     * is shown, then the chat turn runs. An error is reported on the page
     * and the state the turn left stays. `asked` says whether a turn ran.
     */
    method Submit(query: string, script: seq<Reply>, servers: ToolServers, codec: Codec)
      returns (asked: bool, r: Result<seq<ReplyBlock>, ChatError>, sent: seq<Request>)
      requires client != null && client.Valid()
      modifies this`history, this`messages
      ensures asked <==> query != ""
      ensures !asked ==> history == old(history) && messages == old(messages) && sent == []
      ensures asked ==>
        var o := Run(old(history), old(messages) + [Said(User, query)], query, script, ClientEnv(client, servers, codec));
        && history == o.chat.history
        && messages == o.chat.messages
        && sent == o.chat.sent
        && r == o.result
      ensures old(Valid()) ==> Valid()
    {
      if query == "" {
        return false, Ok([]), [];
      }
      messages := messages + [Said(User, query)];
      r, sent := GetChatResponse(query, client, script, servers, codec);
      asked := true;
    }

    /**
     * `on_model_change`: when the chosen model differs from the previous
     * one, clear both logs, remember the model and pass it to the client.
     */
    method OnModelChange()
      modifies this, client
      ensures model == old(model) && client == old(client) && previousModel == model
      ensures old(previousModel) != old(model) ==>
        && messages == [] && history == []
        && (client != null ==> client.model == model)
      ensures old(previousModel) == old(model) ==>
        && messages == old(messages) && history == old(history)
        && (client != null ==> client.model == old(client.model))
      ensures client != null ==>
        client.sessions == old(client.sessions) && client.availableTools == old(client.availableTools)
      ensures old(Valid()) ==> Valid()
    {
      if previousModel != model {
        messages := [];
        history := [];
        previousModel := model;
        if client != null {
          client.model := model;
        }
      }
      assert WellPaired([]);
    }

    /** The "New Conversation" button: both logs cleared, nothing else touched. */
    method NewConversation()
      modifies this`messages, this`history
      ensures messages == [] && history == []
      ensures Valid()
    {
      messages := [];
      history := [];
      assert WellPaired([]);
    }
  }
}
