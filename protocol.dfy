/**
 * The value shapes exchanged with tool servers (the Model Context Protocol
 * types `Tool`, `TextContent`, `CallToolResult`) and with the model API
 * (content blocks of a reply, role-tagged turns of the conversation history).
 */
module Protocol {
  import opened Wrappers

  /** A JSON value: tool inputs and input schemas are carried through unchanged. */
  datatype Json =
    | JNull
    | JBool(b: bool)
    | JNumber(n: int)
    | JString(s: string)
    | JArray(elems: seq<Json>)
    | JObject(fields: seq<(string, Json)>)

  /** A tool as a server's `list_tools` describes it. */
  datatype Tool = Tool(name: string, description: string, inputSchema: Json)

  /** One entry of the `tools` argument of the model API: keys name, description, input_schema. */
  datatype ToolSchema = ToolSchema(name: string, description: string, inputSchema: Json)

  /**
   * One content item of a tool result. `TextContent` is the item whose type
   * is "text"; any other item has a `kind`, never "text" (see `WellKinded`),
   * and, when the object has a `text` attribute, its value.
   */
  datatype ContentItem =
    | TextContent(text: string)
    | OtherContent(kind: string, attrText: Option<string>)

  /** Items built from a server's answer: an item of type "text" is always a `TextContent`. */
  predicate WellKinded(item: ContentItem)
  {
    item.OtherContent? ==> item.kind != "text"
  }

  /** What a server's `call_tool` returns. */
  datatype ToolResult = ToolResult(content: seq<ContentItem>, isError: bool)

  /** One content block of a model reply. Blocks other than text and tool_use are ignored by the core. */
  datatype ReplyBlock =
    | TextBlock(text: string)
    | ToolUseBlock(id: string, name: string, input: Json)
    | OtherBlock(kind: string)

  /** The content of one model reply. */
  datatype Reply = Reply(content: seq<ReplyBlock>)

  /** One item of a history turn: text, an echoed tool_use, or a tool_result answering a tool_use id. */
  datatype Part =
    | TextPart(text: string)
    | ToolUsePart(id: string, name: string, input: Json)
    | ToolResultPart(toolUseId: string, result: seq<ContentItem>)

  datatype Role = User | Assistant

  /** One entry of `conversation_history`: `{"role": ..., "content": [...]}`. */
  datatype Turn = Turn(role: Role, content: seq<Part>)

  /** The `max_tokens` argument of every model call. */
  const MAX_TOKENS: nat := 1000

  /** One call of the model API: the model name, max_tokens, the full history and the tool schemas. */
  datatype Request = Request(model: string, maxTokens: nat, messages: seq<Turn>, tools: seq<ToolSchema>)
}
