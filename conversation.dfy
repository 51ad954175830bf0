/**
 * The conversation engine of `get_chat_response` as a function of its
 * inputs: the history and visible log before the call, the user query, the
 * model's replies (a finite script: the reply to the j-th request is
 * `script[j]`, and a request past its end is a failing model call) and the
 * fixed context (the client's model name and tool schemas, and the tool
 * router that `use_tool` stands for).
 * The lemmas state what every run of the loop guarantees.
 */
module Conversation {
  import opened Wrappers
  import opened Text
  import opened Protocol
  import opened Registry
  import opened McpClient

  /** One entry of the visible `messages` log. */
  datatype Visible =
    | Said(role: Role, text: string)                       // "type": "text"
    | ToolCallShown(name: string, id: string, input: Json) // "type": "tool_call"
    | ToolResultShown(forTool: string, text: string)       // "type": "tool_result"

  /** The exceptions that escape `get_chat_response`. */
  datatype ChatError = ModelCallFailed | ToolCallFailed(cause: ClientError)

  /** What the engine has recorded so far: history, visible log, and every request sent to the model. */
  datatype Chat = Chat(history: seq<Turn>, messages: seq<Visible>, sent: seq<Request>)

  /** Where a call ends: the recorded state and the content of the last reply, or the escaping error. */
  datatype Outcome = Outcome(chat: Chat, result: Result<seq<ReplyBlock>, ChatError>)

  /**
   * `mcp_client.use_tool`, as seen by the loop: a tool name and input to the
   * routed, decoded result or the error it raises. The first argument is the
   * round, the number of model requests sent so far in the call: the servers
   * answer afresh each time, so the same name and input may be answered
   * differently in different rounds.
   */
  type ToolCall = (nat, string, Json) -> Result<ToolResult, ClientError>

  /** The context that stays fixed during one call: the client's model and tool schemas, and its tool router. */
  datatype Env = Env(model: string, tools: seq<ToolSchema>, call: ToolCall)

  // ---------------------------------------------------------------- replies

  function TextOf(block: ReplyBlock): string
  {
    if block.TextBlock? then block.text else ""
  }

  /** `text_content`: the texts of the text blocks, concatenated in order. */
  function VisibleText(blocks: seq<ReplyBlock>): string
  {
    if blocks == [] then "" else TextOf(blocks[0]) + VisibleText(blocks[1..])
  }

  lemma {:induction false} VisibleTextAppend(a: seq<ReplyBlock>, b: seq<ReplyBlock>)
    ensures VisibleText(a + b) == VisibleText(a) + VisibleText(b)
  {
    if a == [] {
      assert a + b == b;
    } else {
      assert (a + b)[0] == a[0] && (a + b)[1..] == a[1..] + b;
      VisibleTextAppend(a[1..], b);
    }
  }

  /** The visible entry for a reply's text: present only when the text is non-empty. */
  function Shown(blocks: seq<ReplyBlock>): seq<Visible>
  {
    if VisibleText(blocks) == "" then [] else [Said(Assistant, VisibleText(blocks))]
  }

  /** How a reply block is echoed into the history: text and tool_use verbatim, other blocks dropped. */
  function EchoBlock(block: ReplyBlock): seq<Part>
  {
    match block
    case TextBlock(t) => [TextPart(t)]
    case ToolUseBlock(id, name, input) => [ToolUsePart(id, name, input)]
    case OtherBlock(_) => []
  }

  /** `assistant_content` built from the given blocks. */
  function Echo(blocks: seq<ReplyBlock>): seq<Part>
  {
    if blocks == [] then [] else EchoBlock(blocks[0]) + Echo(blocks[1..])
  }

  lemma {:induction false} EchoAppend(a: seq<ReplyBlock>, b: seq<ReplyBlock>)
    ensures Echo(a + b) == Echo(a) + Echo(b)
  {
    if a == [] {
      assert a + b == b;
    } else {
      assert (a + b)[0] == a[0] && (a + b)[1..] == a[1..] + b;
      EchoAppend(a[1..], b);
    }
  }

  /** The position of the first tool_use block of a reply. */
  function FirstToolUse(blocks: seq<ReplyBlock>): (r: Option<nat>)
    ensures r.Some? ==> r.value < |blocks| && blocks[r.value].ToolUseBlock?
    ensures r.Some? ==> forall j | 0 <= j < r.value :: !blocks[j].ToolUseBlock?
    ensures r.None? <==> forall j | 0 <= j < |blocks| :: !blocks[j].ToolUseBlock?
  {
    if blocks == [] then None
    else if blocks[0].ToolUseBlock? then Some(0)
    else match FirstToolUse(blocks[1..])
      case None => None
      case Some(i) => Some(i + 1)
  }

  /** Echoing one block more extends the echo by that block's parts. */
  lemma EchoStep(blocks: seq<ReplyBlock>, i: nat)
    requires i < |blocks|
    ensures Echo(blocks[..i + 1]) == Echo(blocks[..i]) + EchoBlock(blocks[i])
  {
    assert blocks[..i + 1] == blocks[..i] + [blocks[i]];
    EchoAppend(blocks[..i], [blocks[i]]);
    assert [blocks[i]][1..] == [];
  }

  /** A tool_use with none before it is the first one. */
  lemma FirstToolUseIs(blocks: seq<ReplyBlock>, i: nat)
    requires i < |blocks| && blocks[i].ToolUseBlock?
    requires forall j | 0 <= j < i :: !blocks[j].ToolUseBlock?
    ensures FirstToolUse(blocks) == Some(i)
  {
    var r := FirstToolUse(blocks);
    assert r.Some?;
    assert !(r.value < i) && !(i < r.value);
  }

  /** Echoing blocks without a tool_use yields parts without a tool_use. */
  lemma {:induction false} EchoWithoutToolUse(blocks: seq<ReplyBlock>)
    requires forall j | 0 <= j < |blocks| :: !blocks[j].ToolUseBlock?
    ensures forall i | 0 <= i < |Echo(blocks)| :: !Echo(blocks)[i].ToolUsePart?
  {
    if blocks != [] {
      EchoWithoutToolUse(blocks[1..]);
    }
  }

  /**
   * The assistant turn of a tool round echoes the reply up to and including
   * its first tool_use: that tool_use is its last part, with id, name and
   * input unchanged, and it holds no other tool_use.
   */
  lemma EchoThroughFirstToolUse(blocks: seq<ReplyBlock>)
    requires FirstToolUse(blocks).Some?
    ensures var k := FirstToolUse(blocks).value;
            var e := Echo(blocks[..k + 1]);
            && |e| > 0
            && e[|e| - 1] == ToolUsePart(blocks[k].id, blocks[k].name, blocks[k].input)
            && forall i | 0 <= i < |e| - 1 :: !e[i].ToolUsePart?
  {
    var k := FirstToolUse(blocks).value;
    EchoStep(blocks, k);
    EchoWithoutToolUse(blocks[..k]);
  }

  // ---------------------------------------------------------- tool results

  /** The text of a content item, when it has one. */
  function ItemText(item: ContentItem): Option<string>
  {
    match item
    case TextContent(t) => Some(t)
    case OtherContent(_, attr) => attr
  }

  /** `text_items`: the stripped text of every item that has one, in order. */
  function StrippedTexts(items: seq<ContentItem>): seq<string>
  {
    if items == [] then []
    else match ItemText(items[0])
      case Some(t) => [Strip(t)] + StrippedTexts(items[1..])
      case None => StrippedTexts(items[1..])
  }

  lemma {:induction false} StrippedTextsAppend(a: seq<ContentItem>, b: seq<ContentItem>)
    ensures StrippedTexts(a + b) == StrippedTexts(a) + StrippedTexts(b)
  {
    if a == [] {
      assert a + b == b;
    } else {
      assert (a + b)[0] == a[0] && (a + b)[1..] == a[1..] + b;
      StrippedTextsAppend(a[1..], b);
    }
  }

  /** `formatted_result` for a tool result's content list. */
  function FormatResult(items: seq<ContentItem>): string
  {
    Join(StrippedTexts(items), ", ")
  }

  /** Formatting skips an item that has no text. */
  lemma FormatSkipsTextless(a: seq<ContentItem>, x: ContentItem, b: seq<ContentItem>)
    requires ItemText(x).None?
    ensures FormatResult(a + [x] + b) == FormatResult(a + b)
  {
    StrippedTextsAppend(a + [x], b);
    StrippedTextsAppend(a, [x]);
    StrippedTextsAppend(a, b);
    assert [x][1..] == [];
    assert StrippedTexts([x]) == [];
    assert StrippedTexts(a + [x] + b) == StrippedTexts(a) + StrippedTexts(b);
  }

  /**
   * A single text-carrying item is rendered as its stripped text, and each
   * further one adds ", " and its stripped text.
   */
  lemma FormatAppendsText(a: seq<ContentItem>, x: ContentItem)
    requires ItemText(x).Some?
    ensures FormatResult([x]) == Strip(ItemText(x).value)
    ensures FormatResult(a + [x]) ==
              if StrippedTexts(a) == [] then Strip(ItemText(x).value)
              else FormatResult(a) + ", " + Strip(ItemText(x).value)
  {
    StrippedTextsAppend(a, [x]);
    assert [x][1..] == [];
    assert StrippedTexts([x]) == [Strip(ItemText(x).value)];
    JoinSnoc(StrippedTexts(a), Strip(ItemText(x).value), ", ");
  }

  // ----------------------------------------------------------- the engine

  /** A call of the model API with the current history; its reply is the script entry of the same index. */
  function Ask(c: Chat, env: Env): Chat
  {
    c.(sent := c.sent + [Request(env.model, MAX_TOKENS, c.history, env.tools)])
  }

  /** The assistant turn a reply without tool_use closes the call with: none when it echoes nothing. */
  function Closing(blocks: seq<ReplyBlock>): seq<Turn>
  {
    if Echo(blocks) == [] then [] else [Turn(Assistant, Echo(blocks))]
  }

  /** What one pass of the loop leaves: the call's outcome, or the chat with the next request sent. */
  datatype Step = Done(outcome: Outcome) | Again(next: Chat)

  /**
   * One pass of the `while True` loop on `reply`: show its text; with no
   * tool_use, close the history and return; otherwise show the call, route
   * it, and on success record the round and send the next request.
   */
  function Handle(c: Chat, reply: seq<ReplyBlock>, env: Env): (r: Step)
    ensures r.Again? ==> |r.next.sent| == |c.sent| + 1
  {
    var shown := c.(messages := c.messages + Shown(reply));
    match FirstToolUse(reply)
    case None =>
      Done(Outcome(shown.(history := shown.history + Closing(reply)), Ok(reply)))
    case Some(k) =>
      var use := reply[k];
      var called := shown.(messages := shown.messages + [ToolCallShown(use.name, use.id, use.input)]);
      match env.call(|c.sent|, use.name, use.input)
      case Err(e) => Done(Outcome(called, Err(ToolCallFailed(e))))
      case Ok(result) =>
        var answered := called.(
          messages := called.messages + [ToolResultShown(use.name, FormatResult(result.content))],
          history := called.history + [Turn(Assistant, Echo(reply[..k + 1])),
                                       Turn(User, [ToolResultPart(use.id, result.content)])]);
        Again(Ask(answered, env))
  }

  /** The passes of the loop from the reply to the latest request on; a request past the script fails. */
  function Respond(c: Chat, script: seq<Reply>, env: Env): Outcome
    requires 0 < |c.sent| <= |script|
    decreases |script| - |c.sent|
  {
    match Handle(c, script[|c.sent| - 1].content, env)
    case Done(o) => o
    case Again(next) =>
      if |next.sent| > |script| then Outcome(next, Err(ModelCallFailed))
      else Respond(next, script, env)
  }

  /** `get_chat_response(query)` from the given history and visible log. */
  function Run(history: seq<Turn>, messages: seq<Visible>, query: string, script: seq<Reply>, env: Env): Outcome
  {
    var asked := Ask(Chat(history + [Turn(User, [TextPart(query)])], messages, []), env);
    if |asked.sent| > |script| then Outcome(asked, Err(ModelCallFailed))
    else Respond(asked, script, env)
  }
}
