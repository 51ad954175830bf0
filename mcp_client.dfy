/**
 * `MCPClient`: connecting tool servers, keeping `sessions` and
 * `available_tools`, routing a tool call to its server, normalising the
 * escaped text of tool results, and building the tool schemas and the
 * status line. Launching a server, calling a tool on it and the
 * `unicode_escape` codec are parameters (oracles) of the operations.
 */
module McpClient {
  import opened Wrappers
  import opened Text
  import opened Protocol
  import opened Registry

  const DEFAULT_MODEL: string := "claude-3-7-sonnet-20250219"

  /** `StdioServerParameters(command=..., args=[...], env=...)`. */
  datatype ServerParams = ServerParams(command: string, args: seq<string>, env: Option<map<string, string>>)

  /**
   * Starting the server process with the given parameters, the session
   * handshake and `list_tools`: the listed tools, or `None` when any of
   * these steps raised.
   */
  type Launcher = ServerParams -> Option<seq<Tool>>

  /**
   * `call_tool(name, args)` on the session of the server launched from the
   * given path: the server's result, or `None` when the call raised (an MCP
   * error, a broken pipe).
   */
  type ToolServer = (string, string, Json) -> Option<ToolResult>

  /**
   * `text.encode('utf-8').decode('unicode_escape')`: the decoded text, or
   * `None` when the codec raises.
   */
  type Codec = string -> Option<string>

  /** The exceptions `connect_to_server` and `use_tool` let escape. */
  datatype ClientError =
    | NotAScript(path: string)   // ValueError: neither .py nor .js
    | LaunchFailed(path: string) // the transport, the handshake or list_tools raised
    | ToolNotFound(name: string) // ValueError: no connected server has the tool
    | ToolCallRaised(name: string) // `call_tool` on the owning session raised

  /** The two characters backslash and `u` whose presence triggers decoding. */
  const ESCAPE_MARKER: string := "\\u"

  /**
   * What `decode_results` does to one content item: the item keeps its kind,
   * and it changes only when it is text containing backslash-u that the
   * codec decodes, into that decoding.
   */
  function DecodeItem(item: ContentItem, codec: Codec): (r: ContentItem)
    ensures r.TextContent? <==> item.TextContent?
    ensures r != item ==> item.TextContent? && Contains(item.text, ESCAPE_MARKER) && codec(item.text) == Some(r.text)
    ensures item.TextContent? && Contains(item.text, ESCAPE_MARKER) && codec(item.text).Some? ==>
              r == TextContent(codec(item.text).value)
  {
    match item
    case TextContent(t) =>
      if Contains(t, ESCAPE_MARKER) then
        match codec(t)
        case Some(d) => TextContent(d)
        case None => item
      else item
    case OtherContent(_, _) => item
  }

  /**
   * The result `decode_results` builds: one item per item, each of the same
   * kind and changed only by a successful decoding of its escapes; `isError`
   * is copied, and well-kinded items stay well kinded.
   */
  function Decoded(results: ToolResult, codec: Codec): (r: ToolResult)
    ensures |r.content| == |results.content| && r.isError == results.isError
    ensures forall i | 0 <= i < |r.content| :: r.content[i].TextContent? <==> results.content[i].TextContent?
    ensures forall i | 0 <= i < |r.content| :: r.content[i] != results.content[i] ==>
              && results.content[i].TextContent?
              && Contains(results.content[i].text, ESCAPE_MARKER)
              && codec(results.content[i].text) == Some(r.content[i].text)
    ensures (forall i | 0 <= i < |results.content| :: WellKinded(results.content[i])) ==>
              forall i | 0 <= i < |r.content| :: WellKinded(r.content[i])
  {
    ToolResult(
      seq(|results.content|, i requires 0 <= i < |results.content| => DecodeItem(results.content[i], codec)),
      results.isError)
  }

  /**
   * `use_tool` as a value: the decoded reply of the owning server, ToolNotFound
   * when no server lists the name, or ToolCallRaised when the owner's call raised.
   */
  function Dispatch(sessions: seq<Session>, server: ToolServer, codec: Codec, name: string, args: Json)
    : (r: Result<ToolResult, ClientError>)
    ensures r.Err? && r.error.ToolNotFound? <==> forall j | 0 <= j < |sessions| :: !HasName(sessions[j].tools, name)
    ensures r.Err? ==> r.error == ToolNotFound(name) || r.error == ToolCallRaised(name)
    ensures OwnerIndex(sessions, name).Some? ==>
              var out := server(sessions[OwnerIndex(sessions, name).value].path, name, args);
              && (r.Ok? <==> out.Some?)
              && (r.Ok? ==> r.value == Decoded(out.value, codec))
  {
    match OwnerIndex(sessions, name)
    case None => Err(ToolNotFound(name))
    case Some(k) =>
      match server(sessions[k].path, name, args)
      case None => Err(ToolCallRaised(name))
      case Some(result) => Ok(Decoded(result, codec))
  }

  /**
   * Decoding twice is not decoding once: with the codec behaving as
   * `unicode_escape` does on these two texts, an escaped backslash-u
   * survives the first pass as a fresh escape and the second pass decodes it.
   */
  lemma DecodeNotIdempotent()
    ensures var codec: Codec := t => if t == "\\\\u0041" then Some("\\u0041")
                                     else if t == "\\u0041" then Some("A") else None;
      var x := ToolResult([TextContent("\\\\u0041")], false);
      && Decoded(x, codec) == ToolResult([TextContent("\\u0041")], false)
      && Decoded(Decoded(x, codec), codec) == ToolResult([TextContent("A")], false)
  {
    var once, twice := "\\\\u0041", "\\u0041";
    assert OccursAt(once, ESCAPE_MARKER, 1);
    assert OccursAt(twice, ESCAPE_MARKER, 0);
  }

  /** The `anthropic_tools` list `get_response` passes to the model API. */
  function ToolSchemas(tools: seq<Tool>): seq<ToolSchema>
  {
    seq(|tools|, i requires 0 <= i < |tools| => ToolSchema(tools[i].name, tools[i].description, tools[i].inputSchema))
  }

  function Names(tools: seq<Tool>): seq<string>
  {
    seq(|tools|, i requires 0 <= i < |tools| => tools[i].name)
  }

  /** The string `get_available_tools_info` returns. */
  function ToolsInfo(sessionCount: nat, tools: seq<Tool>): string
  {
    "Connected to " + Decimal(sessionCount) + " servers with " + Decimal(|tools|) +
    " total tools\nAvailable tools: " + Join(Names(tools), ", ")
  }

  /** Some schema offered to the model carries `name`. */
  predicate Offered(schemas: seq<ToolSchema>, name: string)
  {
    exists k | 0 <= k < |schemas| :: schemas[k].name == name
  }

  /**
   * The schema list offered to the model has one entry per catalogue tool,
   * in catalogue order, carrying that tool's name, description and input
   * schema; the offered names are pairwise distinct and include every tool
   * name of every connected server.
   */
  lemma SchemasFollowCatalog(sessions: seq<Session>)
    ensures |ToolSchemas(Catalog(sessions))| == |Catalog(sessions)|
    ensures forall i | 0 <= i < |Catalog(sessions)| ::
      var s, t := ToolSchemas(Catalog(sessions))[i], Catalog(sessions)[i];
      s.name == t.name && s.description == t.description && s.inputSchema == t.inputSchema
    ensures var schemas := ToolSchemas(Catalog(sessions));
      forall i, j | 0 <= i < j < |schemas| :: schemas[i].name != schemas[j].name
    ensures forall i, j | 0 <= i < |sessions| && 0 <= j < |sessions[i].tools| ::
      Offered(ToolSchemas(Catalog(sessions)), sessions[i].tools[j].name)
  {
    CatalogNamesDistinct(sessions);
    CatalogCoversSessions(sessions);
    var schemas := ToolSchemas(Catalog(sessions));
    forall i, j | 0 <= i < |sessions| && 0 <= j < |sessions[i].tools|
      ensures Offered(schemas, sessions[i].tools[j].name)
    {
      assert HasName(Catalog(sessions), sessions[i].tools[j].name);
      var k :| 0 <= k < |Catalog(sessions)| && Catalog(sessions)[k].name == sessions[i].tools[j].name;
      assert schemas[k].name == sessions[i].tools[j].name;
    }
  }

  /**
   * The status line opens "Connected to ", then the session count's numeral,
   * " servers with " and the tool count's numeral; each numeral reads back as
   * its count. After " total tools\nAvailable tools: " it ends with the
   * tools' names, in catalog order, joined by ", ".
   */
  lemma ToolsInfoReportsCounts(sessionCount: nat, tools: seq<Tool>)
    ensures var info, a, b := ToolsInfo(sessionCount, tools), Decimal(sessionCount), Decimal(|tools|);
      var p, q := |"Connected to "|, |"Connected to "| + |a| + |" servers with "|;
      var k := q + |b| + |" total tools\nAvailable tools: "|;
      && info[..p] == "Connected to "
      && info[p..p + |a|] == a && ParseDecimal(a) == sessionCount
      && info[p + |a|..q] == " servers with "
      && info[q..q + |b|] == b && ParseDecimal(b) == |tools|
      && info[q + |b|..k] == " total tools\nAvailable tools: "
      && info[k..] == Join(Names(tools), ", ")
    ensures |Names(tools)| == |tools| && forall i | 0 <= i < |tools| :: Names(tools)[i] == tools[i].name
  {
    SlicesOfJoin("Connected to ", Decimal(sessionCount), " servers with ", Decimal(|tools|),
      " total tools\nAvailable tools: ", Join(Names(tools), ", "));
    DecimalRoundTrip(sessionCount);
    DecimalRoundTrip(|tools|);
  }

  /** The six pieces of `x + a + y + b + t + u` sit where their lengths say. */
  lemma SlicesOfJoin(x: string, a: string, y: string, b: string, t: string, u: string)
    ensures var s, q := x + a + y + b + t + u, |x| + |a| + |y|;
      && s[..|x|] == x && s[|x|..|x| + |a|] == a
      && s[|x| + |a|..q] == y && s[q..q + |b|] == b
      && s[q + |b|..q + |b| + |t|] == t && s[q + |b| + |t|..] == u
  {
    var s := x + a + y + b + t + u;
    assert s == x + (a + (y + (b + (t + u))));
  }

  class Client {
    /** The `sessions` dictionary, in insertion order. */
    var sessions: seq<Session>
    var availableTools: seq<Tool>
    var model: string

    /** Only accepted paths are stored, and `available_tools` always reflects `sessions`. */
    ghost predicate Valid()
      reads this
    {
      ValidSessions(sessions) && availableTools == Catalog(sessions)
    }

    constructor (model: string)
      ensures Valid()
      ensures sessions == [] && availableTools == [] && this.model == model
    {
      sessions := [];
      availableTools := [];
      this.model := model;
    }

    /**
     * `connect_to_server`: an empty path returns without effect; a path
     * ending in neither .py nor .js raises; otherwise the server is launched
     * with "python" for .py and "node" otherwise, its tools are stored under
     * the path (replacing an earlier list for the same path) and the
     * catalogue is recomputed. When launching fails nothing is registered.
     */
    method ConnectToServer(path: string, env: Option<map<string, string>>, launch: Launcher)
      returns (r: Result<(), ClientError>)
      requires Valid()
      modifies this
      ensures Valid() && model == old(model)
      ensures path == "" ==> r == Ok(())
      ensures path != "" && !IsScriptPath(path) ==> r == Err(NotAScript(path))
      ensures var params := ServerParams(if EndsWith(path, ".py") then "python" else "node", [path], env);
              path != "" && IsScriptPath(path) ==>
                if launch(params).None? then r == Err(LaunchFailed(path))
                else r == Ok(()) && sessions == Put(old(sessions), path, launch(params).value)
      ensures !(path != "" && IsScriptPath(path) && r.Ok?) ==>
                sessions == old(sessions) && availableTools == old(availableTools)
    {
      if path == "" {
        return Ok(());
      }
      var isPython := EndsWith(path, ".py");
      var isJs := EndsWith(path, ".js");
      if !(isPython || isJs) {
        return Err(NotAScript(path));
      }
      var command := if isPython then "python" else "node";
      var listed := launch(ServerParams(command, [path], env));
      if listed.None? {
        return Err(LaunchFailed(path));
      }
      sessions := Put(sessions, path, listed.value);
      UpdateAvailableTools();
      r := Ok(());
    }

    /**
     * `_update_available_tools`: concatenate the tool lists of all sessions
     * in insertion order, then keep the first tool of each name.
     */
    method UpdateAvailableTools()
      modifies this`availableTools
      ensures availableTools == Catalog(sessions)
    {
      var tools: seq<Tool> := [];
      var i := 0;
      while i < |sessions|
        invariant 0 <= i <= |sessions|
        invariant tools == Concat(sessions[..i])
      {
        ConcatSnoc(sessions[..i], sessions[i]);
        assert sessions[..i + 1] == sessions[..i] + [sessions[i]];
        tools := tools + sessions[i].tools;
        i := i + 1;
      }
      assert sessions[..i] == sessions;
      var toolNames: set<string> := {};
      var uniqueTools: seq<Tool> := [];
      var k := 0;
      while k < |tools|
        invariant 0 <= k <= |tools|
        invariant uniqueTools + DedupFrom(tools[k..], toolNames) == DedupFrom(tools, {})
      {
        var tool := tools[k];
        assert tools[k..][1..] == tools[k + 1..];
        if tool.name !in toolNames {
          toolNames := toolNames + {tool.name};
          uniqueTools := uniqueTools + [tool];
        }
        k := k + 1;
      }
      availableTools := uniqueTools;
    }

    /** The request `get_response` sends for a history. */
    function RequestFor(history: seq<Turn>): Request
      reads this
    {
      Request(model, MAX_TOKENS, history, ToolSchemas(availableTools))
    }

    /**
     * `use_tool`: scan the sessions in insertion order for the first whose
     * tools carry the name and call the tool on that server, returning the
     * decoded result; raise ToolNotFound, calling no server, when no session
     * has it, and let the exception of a raising `call_tool` escape. The
     * registry is only read.
     */
    method UseTool(name: string, args: Json, id: string, server: ToolServer, codec: Codec)
      returns (r: Result<ToolResult, ClientError>)
      requires Valid()
      ensures r == Dispatch(sessions, server, codec, name, args)
      ensures r.Err? && r.error.ToolNotFound? <==> forall j | 0 <= j < |sessions| :: !HasName(sessions[j].tools, name)
      ensures r.Err? ==> r.error == ToolNotFound(name) || r.error == ToolCallRaised(name)
    {
      var serverPath: Option<string> := None;
      var i := 0;
      while i < |sessions|
        invariant 0 <= i <= |sessions|
        invariant forall j | 0 <= j < i :: !HasName(sessions[j].tools, name)
        invariant serverPath.None?
      {
        if HasName(sessions[i].tools, name) {
          OwnerIndexIs(sessions, name, i);
          serverPath := Some(sessions[i].path);
          break;
        }
        i := i + 1;
      }
      if serverPath.None? {
        return Err(ToolNotFound(name));
      }
      var result := server(serverPath.value, name, args);
      if result.None? {
        return Err(ToolCallRaised(name));
      }
      var decoded := DecodeResults(result.value, codec);
      r := Ok(decoded);
    }

    /**
     * `decode_results`: text items containing backslash-u are replaced by
     * their decoding, unless the codec fails; everything else is kept.
     */
    method DecodeResults(results: ToolResult, codec: Codec) returns (r: ToolResult)
      ensures r == Decoded(results, codec)
      ensures |r.content| == |results.content| && r.isError == results.isError
      ensures forall i | 0 <= i < |results.content| && results.content[i].OtherContent? ::
                r.content[i] == results.content[i]
      ensures forall i | 0 <= i < |results.content| && results.content[i].TextContent? ::
                var t := results.content[i].text;
                r.content[i] == if Contains(t, ESCAPE_MARKER) && codec(t).Some? then TextContent(codec(t).value)
                                else results.content[i]
      ensures (forall i | 0 <= i < |results.content| :: WellKinded(results.content[i])) ==>
                forall i | 0 <= i < |r.content| :: WellKinded(r.content[i])
    {
      var decodedContents: seq<ContentItem> := [];
      var i := 0;
      while i < |results.content|
        invariant 0 <= i <= |results.content|
        invariant |decodedContents| == i
        invariant forall j | 0 <= j < i :: decodedContents[j] == DecodeItem(results.content[j], codec)
      {
        var content := results.content[i];
        match content {
          case TextContent(t) =>
            if Contains(t, ESCAPE_MARKER) {
              var decodedText := codec(t);
              if decodedText.Some? {
                decodedContents := decodedContents + [TextContent(decodedText.value)];
              } else {
                decodedContents := decodedContents + [content];
              }
            } else {
              decodedContents := decodedContents + [content];
            }
          case OtherContent(_, _) =>
            decodedContents := decodedContents + [content];
        }
        i := i + 1;
      }
      r := ToolResult(decodedContents, results.isError);
    }

    /** `get_available_tools_info`. */
    function AvailableToolsInfo(): string
      reads this
    {
      ToolsInfo(|sessions|, availableTools)
    }
  }
}
