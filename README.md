# human-use MCP chat core in Dafny

This project models the core of the human-use chat application: an `MCPClient` that connects several Model Context Protocol (MCP) tool servers, and a Streamlit page whose `get_chat_response` loop runs a model ↔ tool cycle until the model stops asking for tools.

- **Registry and routing.** The client keeps `sessions`, an insertion-ordered dictionary from server script path to the tools that server listed. From it, `_update_available_tools` recomputes `available_tools`, deduplicated by name with the first occurrence winning. `use_tool` routes a call to the first session, in insertion order, whose tools carry the name. `decode_results` replaces text items containing a backslash-u escape by their `unicode_escape` decoding.
- **The conversation loop.** `get_chat_response` appends the query to the history and calls the model.
  - For each reply it shows the concatenated text.
  - On the first `tool_use` it shows the call and runs it. It then shows the formatted result and records an assistant turn (the reply up to that `tool_use`) and a user turn (one `tool_result` for that id). Then it asks the model again.
  - A reply without `tool_use` closes the history with its echo and ends the loop.
- **Page state.** The session state holds the visible log `messages`, the `conversation_history`, the chosen model and the client. A model change and the "New Conversation" button reset it.

The model is written in two layers.

- **Pure layer.** Module `Conversation` describes one call of the loop as the function `Run`. Modules `EngineProperties`, `VisibleLog`, `Pairing` and `RunProperties` prove what every call guarantees:
  - the requests sent;
  - the tool rounds recorded;
  - where the loop stops and why;
  - what the visible log shows;
  - that every `tool_use` in the history is answered by the turn after it.
- **Imperative layer.** Class `McpClient.Client` and class `App.AppState` hold the mutable state. Their methods are loops written like the source loops. Each method is proved to leave exactly the state the pure layer describes.

External effects are parameters of the operations:
- the model API is a finite script of replies, where the j-th request gets `script[j]` and a request past the end is a failing model call;
- launching a server is a `Launcher`;
- calling a tool on a server is a `ToolServer`, which returns `None` when `call_tool` raises. A chat turn gets `ToolServers`: the call made after `n` model requests is answered by the `n`-th `ToolServer`. Each round asks the servers afresh, so the same name and input may be answered differently in different rounds;
- the `unicode_escape` codec is a partial function `Codec`.

Where the documented behaviour and the code differ, the model follows the code:
- an empty server path logs an error and returns without raising (mcp_client.py:65-67), instead of raising a connection error;
- an unknown tool raises `ValueError` (mcp_client.py:169-170), and a raising `call_tool` (mcp_client.py:175) is not caught either. Both escape `get_chat_response` and are reported by the page (app.py:781-784), instead of being fed back as an error result;
- decoding is not idempotent (`McpClient.DecodeNotIdempotent`);
- only the first `tool_use` of a reply is run.

## Model

| member | source | states |
|---|---|---|
| Registry.IndexOf | mcp_client.py:100-103 | the position of a dictionary key, which is the first entry with that path; None exactly when no entry has it |
| Registry.IndexOfIs | mcp_client.py:100-103 | that characterisation determines the key's position |
| Registry.Put | mcp_client.py:100-103 | `sessions[path] = ...`: the path then maps to the new tools; an existing key keeps its place and every key keeps its order; a new key is appended; entries for other paths are unchanged; distinct keys and script-only paths are preserved |
| Registry.ConcatSnoc | mcp_client.py:110-112 | the `tools.extend` loop over one more session appends that session's tools |
| Registry.FirstIndex | mcp_client.py:117-120 | the position of the first tool with a name; None exactly when no tool has it |
| Registry.FirstIndexIs | mcp_client.py:117-120 | that characterisation determines the position |
| Registry.HasNameAppend | mcp_client.py:165 | `any(tool.name == name ...)` over two lists in a row holds exactly when it holds over one of them |
| Registry.FirstIndexAppend | mcp_client.py:117-120 | the first tool of a name in `a + b` is in `a` when `a` has the name, else it is shifted from `b` |
| Registry.DedupAvoidsSeen | mcp_client.py:114-120 | the filtering loop keeps no name already in `tool_names` |
| Registry.DedupDistinct | mcp_client.py:114-120 | the filtering loop keeps each name at most once |
| Registry.DedupNames | mcp_client.py:114-120 | the filtering loop keeps every name of its input that is not yet seen, and no other |
| Registry.DedupKeepsFirst | mcp_client.py:114-120 | each tool the filtering loop keeps is the first tool of its name in the input |
| Registry.DedupSubsequence | mcp_client.py:114-120 | the filtering loop's output is an order-preserving subsequence of its input |
| Registry.OwnerIndex | mcp_client.py:162-167 | the session `use_tool` routes a name to: the first in insertion order whose tools carry it; None exactly when none does |
| Registry.OwnerIndexIs | mcp_client.py:162-167 | that characterisation determines the owning session |
| Registry.FirstInConcat | mcp_client.py:162-167 | a name occurs in the concatenated tool lists exactly when some session owns it, and its first occurrence there is the owner's first tool of that name |
| Registry.CatalogNamesDistinct | mcp_client.py:108-122 | names in `available_tools` are pairwise distinct |
| Registry.CatalogCoversSessions | mcp_client.py:108-122 | every tool name of every session is in `available_tools`, and every name there belongs to some session |
| Registry.CatalogFirstOccurrences | mcp_client.py:108-122 | `available_tools` is an order-preserving subsequence of the concatenation, and each entry is the first occurrence of its name |
| Registry.CatalogFollowsOwner | mcp_client.py:108-122 | each catalogue entry is the first tool of its name in the session `use_tool` would route that name to, so the server connected first wins a clash |
| McpClient.Client.constructor | mcp_client.py:47-53 | a new client has no sessions, no tools and the given model |
| McpClient.Client.ConnectToServer | mcp_client.py:58-106 | an empty path returns and changes nothing; a path ending in neither .py nor .js raises and changes nothing; the launch command is "python" for .py and "node" otherwise; a failed launch registers nothing; a successful one stores exactly the listed tools under the path with `Put` and leaves `available_tools` equal to the catalogue of the new sessions; the model is unchanged |
| McpClient.Client.UpdateAvailableTools | mcp_client.py:108-122 | the two loops leave `available_tools` equal to the deduplicated concatenation of the sessions' tools, in session-then-tool order |
| McpClient.Client.UseTool | mcp_client.py:151-176 | calls the owning session's server and returns its decoded result; raises ToolNotFound, without calling any server, exactly when no session lists the name; otherwise fails only with ToolCallRaised, when the owner's `call_tool` raises; reads the registry only |
| McpClient.Client.DecodeResults | mcp_client.py:178-205 | same length and `isError`; non-text items kept; a text item is replaced by its decoding only when it contains backslash-u and the codec succeeds, and is otherwise kept; when no non-text input item has type "text" (`WellKinded`), no output item has either |
| McpClient.DecodeItem | mcp_client.py:190-203 | one content item keeps its kind; it changes only when it is text containing backslash-u and the codec decodes it, and then it becomes that decoding |
| McpClient.Decoded | mcp_client.py:178-205 | one output item per input item, each of the same kind and changed only by a successful decoding of its escapes; `isError` copied; well-kinded items stay well kinded |
| McpClient.Dispatch | mcp_client.py:151-176 | `use_tool` as a value: ToolNotFound exactly when no session lists the name; any other error is ToolCallRaised for that name; with an owner, the call succeeds exactly when the owner's `call_tool` returns, and then gives that answer decoded |
| McpClient.DecodeNotIdempotent | mcp_client.py:193-195 | with `unicode_escape` behaviour on the two texts involved, decoding twice differs from decoding once |
| McpClient.SchemasFollowCatalog | mcp_client.py:134-138 | the schema list has one entry per catalogue tool, in order, with its name, description and input schema; the names offered are distinct and cover every tool of every session |
| McpClient.ToolsInfoReportsCounts | mcp_client.py:207-213 | the status line opens with "Connected to ", the session count's numeral, " servers with " and the tool count's numeral, at those positions; each numeral reads back as its count; after " total tools\nAvailable tools: " it ends with the ", "-join of the tools' names, one per tool, in catalogue order |
| Text.SkipSpace | app.py:164 | the first index at or after `i` that is not white space: everything skipped is space and the stop is not |
| Text.DropSpace | app.py:164 | the end of a slice after its trailing white space: everything dropped is space and the new last character is not |
| Text.StripCutsOnlySpace | app.py:164 | `strip()` keeps one slice of the text, cuts only white space on either side, and the kept slice neither starts nor ends with it |
| Text.StripIsUnique | app.py:164 | any slice with those properties is the result of `strip()` |
| Text.JoinSnoc | app.py:170 | `", ".join` of one more part appends the separator and that part, or is the part alone |
| Text.Decimal | mcp_client.py:213 | `str(n)` is never empty |
| Text.DecimalRoundTrip | mcp_client.py:213 | `str(n)` is all digits, has no leading zero unless it is "0", and reads back as `n` |
| Conversation.VisibleTextAppend | app.py:118-121 | the text of two block lists in a row is their texts concatenated |
| Conversation.EchoAppend | app.py:129-140 | the echo of two block lists in a row is their echoes concatenated |
| Conversation.FirstToolUse | app.py:129-140 | the position of the first tool_use block; None exactly when the reply has none |
| Conversation.EchoWithoutToolUse | app.py:129-140 | echoing blocks without tool_use gives parts without tool_use |
| Conversation.EchoThroughFirstToolUse | app.py:129-140 | the assistant turn of a tool round ends with the first tool_use, with id, name and input unchanged, and holds no other |
| Conversation.StrippedTextsAppend | app.py:161-168 | the text items of two content lists in a row are their text items concatenated |
| Conversation.FormatSkipsTextless | app.py:162-168 | an item without text does not change the formatted result |
| Conversation.FormatAppendsText | app.py:161-170 | a single text item formats as its stripped text, and each further one adds ", " and its stripped text |
| Conversation.Handle | app.py:114-218 | a pass that goes on sends exactly one more request |
| EngineProperties.HandleHistory | app.py:186-213 | a pass that goes on records one answered round and sends the new history; a pass that stops sends nothing more; a normal stop hands back a reply without tool_use and closes the history; an error stop is a refused tool call and leaves the history unchanged (a one-level unfolding used as a proof step) |
| EngineProperties.HandleEnds | app.py:208-218 | a pass goes on only for a reply with a tool_use; a pass that stops sends nothing; a normal stop returns the reply and the reply has no tool_use; an error stop is the router refusing the call, never a failed model call (a one-level unfolding used as a proof step) |
| EngineProperties.HandleStops | app.py:204-218 | a pass goes on only for a reply with a tool_use, and a pass that stops sends nothing more (a one-level unfolding used as a proof step) |
| EngineProperties.HandleAdvances | app.py:186-206 | a pass that goes on appends the assistant and tool_result turns of one round, then sends the new history with the client's model, max_tokens and tools (a one-level unfolding used as a proof step) |
| EngineProperties.HandleClosesHistory | app.py:204-214 | if the latest request carried the history, it still does after a pass that goes on; a stop leaves that history plus the closing turn on a normal return, and unchanged on an error (a one-level unfolding used as a proof step) |
| EngineProperties.HandleMessages | app.py:123-177 | a pass shows the reply's text when non-empty, then the tool call, then its formatted result; a refused call is shown without a result (a one-level unfolding used as a proof step) |
| EngineProperties.RespondStep | app.py:114-218 | the loop's outcome is that of the pass when it stops, a failed model call past the script, or otherwise the outcome of the passes after it (a one-level unfolding used as a proof step) |
| EngineProperties.RespondRounds | app.py:186-206 | every request after the current one follows one answered tool round on the previous reply and carries the client's model, max_tokens and tool schemas; earlier requests are kept |
| EngineProperties.RespondHistory | app.py:204-214 | the loop leaves the history its last request carried, plus the closing assistant turn when it returns normally |
| EngineProperties.RespondContinues | app.py:204-206 | every reply consumed before the last one asked for a tool |
| EngineProperties.RespondRunsOut | app.py:204-205 | the model call fails exactly when the loop sends one request more than there are replies |
| EngineProperties.RespondReturns | app.py:208-220 | a normal return hands back the last reply consumed, and that reply has no tool_use |
| EngineProperties.RespondRefuses | app.py:155 | any other error is the router refusing the first tool call of the last reply consumed |
| Pairing.WellPairedAppend | app.py:187-202 | two well-paired histories in a row are well paired |
| Pairing.QueryPaired | app.py:106-109 | the user's query turn on its own is well paired |
| Pairing.ClosingPaired | app.py:209-213 | the closing turn of a reply without tool_use is well paired |
| Pairing.EchoHasNoResults | app.py:129-140 | an echoed reply holds no tool_result |
| Pairing.RoundTurnsPaired | app.py:187-202 | the assistant turn ending in tool_use `k` and the user turn with one tool_result for `k` are well paired |
| Pairing.RoundPaired | app.py:187-202 | an answered round extends the history by a well-paired pair of turns |
| Pairing.RespondKeepsPairing | app.py:114-218 | the loop keeps a well-paired history well paired, however it ends |
| VisibleLog.ShownThen | app.py:123-124 | the reply's text entry is neither a call nor a result, and putting it in front keeps calls paired with their results |
| VisibleLog.RoundEntries | app.py:143-177 | a tool round shows the call and then its result for the same tool |
| VisibleLog.FailedEntries | app.py:143-155 | a refused tool call is shown as one call and no result, the only way a call may stay unanswered |
| VisibleLog.PassEntries | app.py:123-177 | one pass only appends to the log; what it appends shows each result after its call, with one result when the pass goes on and one call unless it returns normally |
| VisibleLog.RespondKeepsLog | app.py:124 | the loop only appends to the visible log |
| VisibleLog.RespondLogSplits | app.py:114-206 | what the loop appends is this pass's entries followed by those of the passes after it |
| VisibleLog.RespondPairsCalls | app.py:143-177 | the loop shows each result right after its call; only a refused call stays unanswered, as the last entry |
| VisibleLog.RespondCountsEntries | app.py:143-177 | the loop shows one result per answered round and one call per tool call, the refused one included |
| RunProperties.RunStart | app.py:105-112 | the first request carries the old history plus one user turn with the query's text; with no reply the call fails, otherwise the loop runs |
| RunProperties.RunTranscript | app.py:105-213 | the requests of a call: the first with the query turn, each later one after one answered round on the previous reply, all with the client's model, max_tokens and tools; the final history is the last request's plus the closing turn on a normal return |
| RunProperties.RoundsGrow | app.py:187-202 | along the requests, each history extends the previous one by exactly two turns |
| RunProperties.RunExtendsHistory | app.py:105-213 | the history after a call starts with the old history and the query turn, and has two turns per tool round plus the closing turn |
| RunProperties.RunEnds | app.py:114-220 | every reply before the last one consumed asked for a tool; the model call fails exactly when the script runs out; a normal return hands back a last reply without tool_use; any other error is the router refusing the last reply's first call |
| RunProperties.RunShows | app.py:123-177 | the old log is kept; one result per answered round and one call per tool call; each result follows its call; an unanswered call appears only last, after a refused call |
| RunProperties.RunKeepsPairing | app.py:90-220 | a call keeps a well-paired history well paired, whether it returns or raises |
| RunProperties.RunRequestsPaired | app.py:105-206 | from a well-paired history, every request a call sends carries a well-paired history, so the model API never receives a tool_use without its tool_result |
| RunProperties.PaddedPriceStripped | app.py:164 | a padded server answer loses exactly its leading and trailing blank |
| RunProperties.PaddedPriceShown | app.py:158-170 | that answer is shown stripped |
| RunProperties.CheckingReply | app.py:118-140 | a reply of text then a tool call: the text is shown and both blocks are echoed |
| RunProperties.PriceRound | app.py:114-206 | for that reply the round is recorded as two turns, three entries are shown, and one request is sent |
| RunProperties.PriceAnswer | app.py:208-214 | a text-only reply closes the history with one assistant turn and ends the loop |
| RunProperties.PriceRun | app.py:90-220 | the two-reply call is the first pass followed by the second |
| RunProperties.OneToolRoundReturns | app.py:90-220 | a query answered after one tool round returns the second reply after two requests |
| RunProperties.OneToolRoundHistory | app.py:90-220 | the history of that call: the query, the tool round and the closing answer |
| RunProperties.OneToolRoundShows | app.py:90-220 | what that call shows: both texts, the call, and its stripped result |
| RunProperties.UnknownToolCall | app.py:155 | a call to a tool no server offers is shown, the error escapes, and the history keeps only the query turn |
| App.RouterEnv | mcp_client.py:151-176 | the loop's tool call under the client, in any round: ToolNotFound when no session owns the name; otherwise that round's server is called on the owning session's path, its answer decoded, and a raising call gives ToolCallRaised |
| App.RouterRefusals | mcp_client.py:162-176 | under the client's router, a tool call in a round is refused exactly when no connected server lists the tool, or when the owning server's `call_tool` raises in that round; the error names the tool |
| App.RouterAnswersFromOwner | app.py:187-202 | under the client's router, an answered round means the owner exists and its call returned in that round; the round records that answer, decoded, for the call's id |
| App.RouterUnknownToolCall | mcp_client.py:162-170 | under the client's router, a reply calling a tool no connected server lists ends the turn with ToolNotFound whatever the servers would answer: the call is shown and the history keeps only the query turn |
| App.CollectText | app.py:118-121 | the loop concatenating text blocks computes the reply's visible text |
| App.ScanReply | app.py:129-140 | the loop building `assistant_content` stops at the first tool_use, reports its position, and has echoed exactly the blocks up to it, or the whole reply when there is none |
| App.FormatToolResult | app.py:158-173 | `formatted_result` is the ", "-join of the stripped texts of the items that have text |
| App.PassAdvances | app.py:114-218 | how the loop's outcome follows from one imperative pass: stop, one more request within the script, or a request past it (a one-level unfolding used as a proof step) |
| App.AppState.constructor | app.py:34-51 | fresh session state: empty logs, the default model as model and previous model, no client; well paired |
| App.AppState.GetChatResponse | app.py:90-220 | the history, visible log, requests sent and result are exactly those of `Run` under the client's model, tools and router; a well-paired history stays well paired |
| App.AppState.Converse | app.py:114-218 | the `while True` loop leaves exactly the outcome `Respond` gives from the latest request |
| App.AppState.Pass | app.py:114-214 | one pass of the loop body leaves exactly the state that `Handle` gives, stopping exactly when `Handle` does |
| App.AppState.Submit | app.py:760-784 | an empty input does nothing and sends nothing; otherwise the query is shown, then the chat turn runs from that log with the client the page set up; the state it leaves stays even on an error |
| App.AppState.OnModelChange | app.py:239-249 | when the model differs from the previous one: both logs cleared, the previous model updated, and the client's model set; otherwise nothing changes; the client's sessions and tools never change |
| App.AppState.NewConversation | app.py:730-733 | both logs are cleared and the state is well paired |

## Left out

- Streamlit presentation: CSS, chat rendering, avatars, spinners, the sidebar and `st.rerun()`. It does not change the modelled state.
- The model API call (mcp_client.py:141-147) is a foreign network client. It is a script of replies, and a request past its end stands for any exception it raises. The system prompt (mcp_client.py:54-56) and `read_human_prompting` are not part of the request modelled, because they are constant text read from a file.
- Server transport (`AsyncExitStack`, `stdio_client`, `ClientSession.initialize`, `list_tools`, `call_tool`, `cleanup`): launching is the `Launcher` parameter and a tool call is the `ToolServers` parameter, one `ToolServer` per round. The session object is not stored; a session is its path and tool list.
- `Codec` abstracts the `unicode_escape` codec, which is left unmodelled; `None` stands for the codec raising. The logging of a decode failure is left out.
- Asynchrony: `await` points are sequential calls, and no concurrency is modelled.
- The logging and console output of `connect_to_server`: the `logger.error` calls (mcp_client.py:66, 87), the `logger.debug` calls (mcp_client.py:82-83) and the `print` calls (mcp_client.py:71, 97). They change no modelled state.
- `format_tool_input`, a wrapper over `json.dumps` that the core does not call.
- `chat_loop` and `main` in mcp_client.py, a console loop outside the core.
- `initialize_client`, the environment-variable lookups and the `client_initialized`, `sidebar_visible` and `animation_speed` flags. `toggle_sidebar` (app.py:234-236) flips `sidebar_visible` and the page layout reads it (app.py:670, 688), but no modelled operation reads or writes any of these flags.
- `api_messages`, built at app.py:772-777 and never used.
- App.FormatToolResult: the `str(tool_result.content)` branch (app.py:171-173) is not modelled. `decode_results` always builds a list, so it cannot be reached. Items are either text items or items with an optional `text` attribute; bare strings and dicts do not occur in an MCP result.
- App.AppState.Converse: it reads each reply at the top of the loop, from the script, rather than from the `response` variable assigned by the previous pass. The replies and their order are the same.
- Text.Strip: its contract lives in the lemmas `Text.StripCutsOnlySpace` and `Text.StripIsUnique`, not in its own `ensures`.
- Conversation.Run (app.py:90-220): its contract lives in the lemmas `RunProperties.RunStart`, `RunTranscript`, `RunExtendsHistory`, `RunEnds`, `RunShows`, `RunKeepsPairing` and `RunRequestsPaired`, not in its own `ensures`. `App.AppState.GetChatResponse` is proved to leave exactly its outcome.
- Conversation.Respond (app.py:114-218, the `while True` loop): its contract lives in the lemmas `EngineProperties.RespondRounds`, `RespondHistory`, `RespondContinues`, `RespondRunsOut`, `RespondReturns` and `RespondRefuses`, `VisibleLog.RespondKeepsLog`, `RespondPairsCalls` and `RespondCountsEntries`, and `Pairing.RespondKeepsPairing`, not in its own `ensures`. `App.AppState.Converse` is proved to leave exactly its outcome.
- Registry.Catalog (mcp_client.py:108-122, `_update_available_tools`): its contract lives in the lemmas `Registry.CatalogNamesDistinct`, `CatalogCoversSessions`, `CatalogFirstOccurrences` and `CatalogFollowsOwner`, not in its own `ensures`. `McpClient.Client.UpdateAvailableTools` is proved to compute it.
- McpClient.ToolSchemas (mcp_client.py:134-138): its contract lives in the lemma `McpClient.SchemasFollowCatalog`, not in its own `ensures`.
- McpClient.ToolsInfo (mcp_client.py:213): its contract lives in the lemma `McpClient.ToolsInfoReportsCounts`, not in its own `ensures`.
- McpClient.Client.AvailableToolsInfo (mcp_client.py:207-213): it returns `ToolsInfo` of the session count and `available_tools`, so its contract is that of `McpClient.ToolsInfoReportsCounts`; it has no `ensures` of its own.
- McpClient.Client.RequestFor (mcp_client.py:133-147): it builds the request with the client's model, `max_tokens` 1000, the history and `ToolSchemas` of `available_tools`. Its contract lives in `App.AppState.GetChatResponse`, which proves that the requests it makes are those of `Run` (described by `RunProperties.RunStart` and `RunTranscript`), not in its own `ensures`.
- App.AppState.OnModelChange: the select box assigning `model` before the callback (app.py:718-724) is outside the method; the method starts from the newly selected model.
- Tool servers (rapidata_human_api.py, image_generation.py, browser_use_mcp.py) are behind the `ToolServer` parameter.
