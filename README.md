# local_mind: a Dafny model of the agent core

local_mind is a local chat assistant with two agents. The retrieval ("RAG") agent answers from
an index built over a directory of documents. The research agent answers with a web-search tool.
Both agents run the same two-node loop: a model node, then a tool node when the model embeds a
`<tool_call>{"name": …, "arguments": …}</tool_call>` block in its message. The server streams each
turn to the browser as `text/event-stream` frames. The chat page cuts those frames out of the
response and folds them into its message list.

This project models that core in Dafny and proves what it promises:

| module | models |
|---|---|
| `ToolCall` | How a model message is searched for its first tool-call block and decoded (`server/app/utils.py`). |
| `ToolNode` | The `BasicToolNode` dispatcher: a registry built from a tool list, and one call of the node (`server/app/rag.py`). |
| `AgentGraph` | The `chatbot -> (tools -> chatbot)* -> END` graph. It is an explicit step function with a step budget (fuel). |
| `Rag` | The `RAGAgent` index lifecycle, as a class whose methods update `index` and `tools`. Also the `query_info` tool and the retrieval graph's routing. |
| `Research` | The research agent: its single search tool, its routing, and its turns. |
| `EventStream` | The two `event_generator`s of `server/main.py`. Their loops are methods proved against specification functions. Also the empty-input guard. |
| `ClientFrames` | The client's buffer splitting at blank lines, and its `event:`/`data:` line reading. |
| `WebChat` | The chat page's `handleSubmit`. It is a class with the page's state and methods for the read loop and the reducers, proved against the functions `ReadStream`, `ApplyPieces` and `ApplyFrame`. |
| `Linkify` | The timeline's `linkify`: JavaScript's `split` with a capturing URL pattern, and the link or span each part becomes. |
| `Text`, `JsonValue`, `Wrappers` | Shared string scanning, the Python and JavaScript whitespace sets, JSON values, and `Option`/`Result`. |

Anything outside this code is a parameter of the model. That covers the language model,
`json.loads`/`json.dumps`/`JSON.parse`, `uuid4`, the document loader, the index builder,
persist, load, the retriever, the web-search tool, and JavaScript's `String()` of non-string
values. The `query_info` tool is modelled, down to how its `@tool` wrapper takes its argument.

Two consequences of the code's order of statements are worth stating, since they are easy to
misread as the opposite:

- **A failed persist.** `_rebuild_index` assigns `self.index` (server/app/rag.py:77) before it
  calls persist (:78), inside the same `try`.
  - A persist that raises anything but `ValueError` therefore escapes with the new index
    installed and the old tool list kept (`Rag.PersistFailureKeepsOldTools`). The previous
    index does not keep serving.
  - A `ValueError` leaves no index yet registers `query_info` (`Rag.ValueErrorLeavesToolWithoutIndex`).
- **A client disconnect.** When `request.is_disconnected()` holds, the generators `break` out of
  the event loop and then send `done` all the same (server/main.py:95-111, 132-158;
  `EventStream.DisconnectIgnoresRest`).

## Model

| member | source | states |
|---|---|---|
| ToolCall.FindBlock | server/app/utils.py:14 | The group found lies after an opening tag and within the text. |
| ToolCall.FindBlockIsSearch | server/app/utils.py:14 | The two substring searches find what `re.search` finds: the leftmost opening tag that some closing tag follows, and the nearest closing tag after it (the non-greedy group). They find nothing exactly when the pattern matches nowhere. |
| ToolCall.ParseToolCall | server/app/utils.py:13-17 | The parser fails with "no block" exactly when the two tag searches find no block. Otherwise the call is the block's payload, stripped and decoded, with a decoder failure reported as invalid JSON. |
| ToolCall.ParseToolCallIsSearch | server/app/utils.py:13-17 | The parser fails with "no block" exactly when the pattern matches nowhere. A call it returns is the decoded, stripped group of the match `re.search` finds. |
| ToolCall.ParseFirstBlock | server/app/utils.py:14-17 | Round trip: for `p + OPEN + s + CLOSE + q`, with no opening tag in `p` and no closing tag in `s`, the result is `s` stripped and decoded, whatever `q` holds (later blocks included). |
| ToolCall.NoOpenTagFails | server/app/utils.py:14-16 | A text without an opening tag fails with `NoToolCallBlock`, never with an empty result. |
| ToolCall.UnclosedTagFails | server/app/utils.py:14-16 | An opening tag that no closing tag follows fails exactly as no tag at all. |
| ToolCall.InvalidPayloadFails | server/app/utils.py:17 | A payload the decoder rejects fails with the decoder's own error. |
| ToolCall.NoCloseInPadded | server/app/utils.py:14-17 | Whitespace around a text without a closing tag cannot create one. |
| ToolCall.PayloadWhitespaceIgnored | server/app/utils.py:14-17 | Whitespace (newlines included) around the payload does not change the result. |
| Text.IndexOfFrom | client/components/WebChat.tsx:97 | The search returns the first occurrence at or after the start position, or `None` exactly when there is none. |
| Text.Strip | server/app/utils.py:17 | Stripping leaves the slice after the leading whitespace. That slice neither begins nor ends with whitespace, and only whitespace follows it. |
| Text.StripPadding | server/app/utils.py:17 | Whitespace added on both sides does not change what stripping leaves. |
| Text.TrimBothEnds | client/components/WebChat.tsx:98 | Trimming the start and then the end yields that same slice (the `trim()` the client applies to each frame). |
| Text.StripUnpadded | client/components/WebChat.tsx:98 | Trimming a text that neither begins nor ends with whitespace leaves it unchanged. |
| Text.Split | client/components/WebChat.tsx:102 | `split("\n")` gives at least one piece. No piece holds a line feed, and the pieces joined with line feeds give back the text. |
| Text.SplitJoin | client/components/WebChat.tsx:102 | Splitting pieces that were joined with line feeds gives back exactly those pieces. |
| ToolNode.Registry | server/app/rag.py:24 | The dictionary comprehension maps exactly the listed names. Each name maps to the tool listed last under it. |
| ToolNode.NewToolNode | server/app/rag.py:23-24 | A node's registry holds exactly the listed names, each mapped to a listed tool of that name. |
| ToolNode.LastDuplicateWins | server/app/rag.py:24 | Of two tools with the same name, the one listed later is registered. |
| ToolNode.Lookup | server/app/rag.py:32-34 | A found tool is the one registered under the parsed string name. The error is `NotRegistered(name)` exactly when the name is hashable and not a registered string. |
| ToolNode.ParsedCall | server/app/rag.py:26-31 | An empty message list fails with the `IndexError`, exactly. A parsed call comes from a decoded object of the last message that has both `name` and `arguments`. A parse failure is reported as such. |
| ToolNode.Call | server/app/rag.py:25-39 | Success means the parsed name is registered, the registered tool returned `v` on the parsed arguments, and the answer is one tool message holding `encode(v)`, the name and the call id. A `ToolFailed` error is exactly that tool's exception. |
| ToolNode.UnknownToolNeverInvoked | server/app/rag.py:32-34 | An unregistered name fails with `NotRegistered` carrying it. The outcome is the same whatever the tools would do, so none is invoked. |
| ToolNode.RegisteredToolDispatched | server/app/rag.py:29-39 | For a well-formed call naming a registered tool, the node runs exactly that tool on the arguments. It answers with one tool message, or fails with the tool's exception. |
| AgentGraph.NodeRunnerIsCall | server/app/rag.py:117 | The graph's `tools` node answers exactly as the `BasicToolNode` does, and its answer is a tool message. |
| AgentGraph.NodeRunnerAnswersWithToolMessages | server/app/rag.py:35-39 | Every successful answer of a graph built on a tool node is a tool message. |
| AgentGraph.ChatbotStep | server/app/rag.py:110-119 | The `chatbot` node appends exactly one model message (the model's output). It goes to `tools` or to END exactly as the route function says. |
| AgentGraph.ToolsStep | server/app/rag.py:117-120 | The `tools` node appends exactly the tool node's message and always leads back to `chatbot`. It fails exactly when the tool node fails. |
| AgentGraph.Run | server/app/rag.py:115-122 | A run only appends to the conversation, at most one message per step. A run that exhausts the step budget has taken every step. |
| AgentGraph.Turn | server/app/rag.py:114-122 | A turn starts from its input and only appends to it, at most one message per step. |
| AgentGraph.RoundTrip | server/app/rag.py:119-120 | A `chatbot -> tools` round at the start of a turn leaves the rest of the turn a turn from the extended conversation, with two steps fewer. |
| AgentGraph.TurnTrace | server/app/rag.py:115-122 | Every run is `chatbot -> (tools -> chatbot)* [-> END]` over an append-only list. Model and tool messages alternate; every model message but the last was routed to `tools`; every tool message is the tool node's answer to the conversation before it; a run that ends does so on a model message routed to END. At most one message is added per step. |
| AgentGraph.TraceExtends | server/app/rag.py:119-120 | A `chatbot -> tools` round in front of a trace is again a trace. |
| Research.NewResearchAgent | server/app/research.py:10-12 | The agent's tools are exactly the search tool, and its one dispatcher registers exactly that tool. |
| Research.ResearchRoute | server/app/research.py:18-27 | An empty list goes to END. The route is `tools` exactly when the last message holds both the opening and the closing tag. |
| Research.ResearchGraph | server/app/research.py:28-35 | The graph routes with `ResearchRoute`, and its tool node answers with tool messages. |
| Research.TurnInput | server/main.py:124-128 | A research turn starts from the thread's history followed by the system prompt and the user's message. |
| Research.UnclosedCallEndsTurn | server/app/research.py:24-27 | A model message without a closing tag, an opened and unclosed call included, ends the turn right after it. |
| Research.ClosedCallRouted | server/app/research.py:24-26 | A model message holding a closed call is appended and routed to `tools`. |
| Research.SearchAnswered | server/app/research.py:30-33 | The `tools` node answers a closed call naming the search tool with the search result and returns to `chatbot`. |
| Research.SearchRound | server/app/research.py:16-34 | A closed search call runs one full round: the search runs on the parsed arguments, and the turn goes on from the model message and its tool message. |
| Rag.Rebuild | server/app/rag.py:69-85 | `_rebuild_index`, case by case. No documents gives no index and no tools. A `ValueError` from the loader, the builder or persist gives no index with `query_info` registered, and nothing escapes. Any other loader or builder error changes nothing and escapes. Any other persist error escapes with the new index installed and the old tools. An escaping error keeps the old tools. Success without error means the new index is built from the documents and persisted, with exactly `[query_info]`. |
| Rag.LoadOrRebuild | server/app/rag.py:86-93 | A non-empty store loads the index and registers `query_info`, or lets the load error escape with nothing changed. Otherwise the agent rebuilds. |
| Rag.RebuildKeepsToolsWellFormed | server/app/rag.py:67-85 | Every transition leaves the tool list empty or exactly `[query_info]`. |
| Rag.RebuildForgetsHistory | server/app/rag.py:69-85 | A rebuild that raises nothing leaves a state that does not depend on the state before it. |
| Rag.RebuildIdempotent | server/app/rag.py:69-85 | Rebuilding twice against the same directory and collaborators leaves the same state as rebuilding once. |
| Rag.PersistFailureKeepsOldTools | server/app/rag.py:77-78 | A persist failure other than `ValueError` escapes with the new index installed and the old tools kept. |
| Rag.ValueErrorLeavesToolWithoutIndex | server/app/rag.py:81-85 | After a loader `ValueError`, `query_info` is registered with no index, and every query through it fails. |
| Rag.ExactlyOnePath | server/app/rag.py:86-93 | The load path never reads the data directory, and the rebuild path never reads the store. |
| Rag.ResultEntry | server/app/rag.py:59-65 | An entry has exactly the five keys and the 1-based number. A missing `file_name` or `page_label` becomes "Unknown". The content is the stripped text, and the score is passed through. |
| Rag.QueryPayload | server/app/rag.py:66 | The payload has exactly `query`, `results` and `total_results`, and `total_results` is the number of results. |
| Rag.Entries | server/app/rag.py:57-65 | The entries are numbered 1..n in retrieval order, one per hit. |
| Rag.QueryInfoResult | server/app/rag.py:52-66 | Without an index the query fails with the attribute error. A retriever failure is passed on. Otherwise the result is the payload of the top-4 hits. |
| Rag.QueryArgument | server/app/rag.py:51-52 | The single-parameter `@tool` takes a string input as the query itself, and from an object only a string `query` field. Anything else fails validation. |
| Rag.QueryInfoCallAnswered | server/app/rag.py:32-39 | With `[query_info]` registered, a parsed call to `query_info` whose arguments carry a query answers with a tool message named `query_info` holding the encoded query result, or fails with the query's error. Arguments without a query fail validation. |
| Rag.RagRoute | server/app/rag.py:112-114 | An empty list is an `IndexError`. The route is `tools` exactly when the last message holds an opening tag, closed or not, and END exactly when it holds none. |
| Rag.RagGraph | server/app/rag.py:107-122 | The retrieval graph's tool node answers with tool messages. |
| Rag.UnclosedCallFailsTurn | server/app/rag.py:112-117 | A model message that opens a call and never closes it is sent to `tools`. The parse there fails, so the turn fails with `NoToolCallBlock`. |
| Rag.NoToolsNothingInvoked | server/app/rag.py:32-33 | With no tools registered, any parsed call fails with `NotRegistered` carrying its name. |
| Rag.RagAgent.constructor | server/app/rag.py:42-48 | The fields `__init__` sets before loading: the two directories, no index and no tools. |
| Rag.RagAgent.Create | server/app/rag.py:42-49 | Construction fails exactly when `_load_or_rebuild_index` raises, and then with its exception. Otherwise the new agent's state is what the load-or-rebuild transition gives, and its tools are well formed. |
| Rag.RagAgent.RegisterTools | server/app/rag.py:67-68 | After `clear()` and `append`, the tools are exactly `[query_info]`. The index is unchanged. |
| Rag.RagAgent.OnValueError | server/app/rag.py:81-85 | The handler leaves no index and `[query_info]`. |
| Rag.RagAgent.RebuildIndex | server/app/rag.py:69-85 | The new fields and the escaping exception are exactly the `Rebuild` transition of the old fields. |
| Rag.RagAgent.LoadOrRebuildIndex | server/app/rag.py:86-93 | The new fields and the escaping exception are exactly the `LoadOrRebuild` transition of the old fields. |
| Rag.RagAgent.ReloadIndex | server/app/rag.py:94-100 | `reload_index` never raises. It leaves the rebuild's state, and a loader error other than `ValueError` leaves the fields unchanged. |
| Rag.RagAgent.GetToolNode | server/app/rag.py:103-104 | The node registers exactly the tools listed now. It is a value, so later changes to `tools` cannot reach it. |
| Rag.RagAgent.BuildGraph | server/app/rag.py:107-122 | The graph routes with `RagRoute`, and its tool node answers with tool messages. |
| Rag.RagAgent.QueryInfo | server/app/rag.py:52-66 | The loop that builds `results` one hit at a time yields exactly `QueryInfoResult`. |
| EventStream.RenderedFrameRead | server/main.py:92-113 | A frame as sent (`event:` line, `data:` line with the `json.dumps` of `{"content": text}`, or `{"error": text}` for an error, then a blank line) is cut by the client into exactly its two lines with nothing left over. Read back, they give the frame's event name and its payload, and the payload holds the frame's text under `error` or `content`. This holds for every payload `json.dumps` writes on one line between braces and `JSON.parse` reads back. |
| EventStream.FrameTextFields | client/components/WebChat.tsx:98-110 | The trimmed text of a rendered frame yields its event name and its payload. |
| EventStream.RenderedStreamRead | client/components/WebChat.tsx:92-110 | A whole response body comes apart into its frames' texts in order, with an empty remainder, and each text reads back as its frame. |
| EventStream.NextGate | server/main.py:100-104 | A chunk holding an opening tag sets the flag. Otherwise a chunk holding a closing tag clears it. Every other event leaves it. |
| EventStream.GateIsLastTag | server/main.py:98-104 | The flag is set exactly when the last chunk holding a tag holds an opening tag. A chunk holding both tags counts as opening. |
| EventStream.GateStaysSet | server/main.py:100-104 | After an opening chunk, the flag stays set until a chunk holding a closing tag. |
| EventStream.NoTokensInsideCall | server/main.py:98-106 | From an opening chunk until a closing one, no `token` frame is sent. The opening chunk itself sends nothing. |
| EventStream.QueryText | server/main.py:109 | `query` when it is present and non-empty, else `input`, else "". |
| EventStream.EntryFrames | server/main.py:153-157 | A result has a frame exactly when its url is present and non-empty. The frame shows the result's number, title and url as the line writes them: a backslash and an `n`, not a line break, before the indented url. |
| EventStream.UrlEntries | server/main.py:153-157 | There is at most one `urls` frame per result, and nothing else. |
| EventStream.UrlNumberedByPosition | server/main.py:153-157 | A result with a url is listed under its 1-based position among all results, with the entry text as written. Results without a url still use up their numbers. |
| EventStream.EventFrames | server/main.py:135-157 | One event's frames. A clean chunk with the flag clear is exactly one `token`, and no `token` comes otherwise. A tool start is exactly one `search` frame. The research endpoint turns non-empty results into a header and the entries. The retrieval endpoint never sends `urls`. |
| EventStream.Body | server/main.py:132-157 | The frames of the consumed events are only `token`, `search` and `urls`, every token is clean, and the retrieval endpoint sends no `urls`. |
| EventStream.Consumed | server/main.py:132-134 | Fewer events than exist are consumed exactly when the client is seen gone before one of them. |
| EventStream.Terminal | server/main.py:158-160 | The last frame is `done` or `error`. It is `error`, carrying the message, exactly when the event stream raised and had not been cut short. |
| EventStream.Frames | server/main.py:122-160 | Every stream begins with `user` (the input verbatim) and `start`. It ends with exactly one terminal frame and has no other. `error` comes exactly when the graph raised. The frames between are tokens, searches and url entries. The retrieval stream has no `urls`. |
| EventStream.AppendUrlEntries | server/main.py:153-157 | The inner `enumerate` loop appends exactly the entries of the results, with the entry text as written. |
| EventStream.HandleEvent | server/main.py:135-157 | The loop body yields exactly the event's frames and leaves the next flag. |
| EventStream.ConsumeEvents | server/main.py:132-157 | The `async for` loop consumes exactly the events before the disconnect and yields exactly their frames. |
| EventStream.EventGenerator | server/main.py:122-160 | The generator yields exactly `Frames`. |
| EventStream.TextOnlyTurn | server/main.py:88-113 | A turn of clean text chunks, read to the end, is `user`, `start`, one `token` per chunk, then `done`. |
| EventStream.DisconnectIgnoresRest | server/main.py:95-97 | Once the client is seen gone, neither the remaining events nor how the stream would have ended change the frames, and they end with `done`. |
| EventStream.EntryAsWrittenIsOneLine | server/main.py:157 | As written, an entry whose title and url have no line break holds a backslash and no line break at all. |
| EventStream.EntryIsTwoLines | server/main.py:157 | For a title and url without line breaks, the corrected entry splits into exactly two lines: the number, ". " and the title, then the url indented by three spaces. |
| EventStream.StreamResponse | server/main.py:117-122 | The request is refused with 400 "Missing user_input" exactly when the input is empty. Otherwise the response is the generator's frames. |
| ClientFrames.SplitFrames | client/components/WebChat.tsx:96-99 | The consumed frame texts, each followed by a blank line, and then the remainder, give back the buffer. The remainder holds no blank line, and no frame text holds one. |
| ClientFrames.PrefixBeforeFirst | client/components/WebChat.tsx:97-98 | The text before the first blank line is a frame text. |
| ClientFrames.SplitJoinFrames | client/components/WebChat.tsx:96-99 | Round trip: frame texts joined with blank lines, plus a remainder without one, split back into exactly those texts and that remainder. |
| ClientFrames.SplitAfterFrames | client/components/WebChat.tsx:96-99 | Complete frames at the front of the buffer are consumed first, whatever follows them. |
| ClientFrames.FirstBlankLine | client/components/WebChat.tsx:97 | In a frame text followed by a blank line, `indexOf("\n\n")` finds that blank line. |
| ClientFrames.LastEvent | client/components/WebChat.tsx:102-103 | The last `event: ` line wins. `None` means there is no such line. |
| ClientFrames.LastData | client/components/WebChat.tsx:104-107 | The last `data: ` line whose payload parses wins. Payloads that do not parse are skipped. `None` means none parses. |
| ClientFrames.FrameFields | client/components/WebChat.tsx:101-109 | A frame is kept exactly when its last event type is non-empty and its last parsed data is truthy, and then it yields those two. |
| ClientFrames.ParseFrame | client/components/WebChat.tsx:101-109 | The `forEach` over the lines and the skip test yield exactly `FrameFields`. |
| JsonValue.Prop | client/components/WebChat.tsx:136 | A property is defined exactly when the value is an object holding the key. |
| WebChat.StrictEqualsIsEquality | client/components/WebChat.tsx:119 | `===` implies equality and is symmetric. A parsed array or object never equals anything. Equal primitives and two `undefined`s are equal. |
| WebChat.JoinStringTokens | client/components/WebChat.tsx:122 | Joining string tokens gives their concatenation. |
| WebChat.LastAssistant | client/components/WebChat.tsx:115-117 | The backward scan finds the last assistant message. It finds none exactly when there is no assistant message. |
| WebChat.TokenUpdate | client/components/WebChat.tsx:113-124 | Only the last assistant message changes. It gets the token unless it repeats the last one, and its `content` is recomputed from the tokens. Without an assistant message nothing changes. |
| WebChat.EventUpdate | client/components/WebChat.tsx:126-141 | Only the last assistant message changes. It gets the event unless type and content both repeat the last one. Without an assistant message nothing changes. |
| WebChat.ApplyFrame | client/components/WebChat.tsx:112-152 | `token`, `search` and `urls` go through their reducers. `done` sets `done` and stops typing. `error` appends one error message holding the `error` field and does the same. Any other type changes nothing. |
| WebChat.ReadStream | client/components/WebChat.tsx:91-160 | Once `done` is set, no further chunk changes anything. |
| WebChat.PushToken | client/components/WebChat.tsx:119-121 | The token is appended exactly when the list is empty or its last token is not `===` to it. Either way the list ends with the token. |
| WebChat.PushEvent | client/components/WebChat.tsx:132-139 | The event is appended exactly when the list is empty or its last event differs in type or is not `===` in content. Either way the list ends with that event. |
| WebChat.PushTokenNoRepeats | client/components/WebChat.tsx:119-121 | The deduplicating push keeps neighbouring tokens distinct. |
| WebChat.PushEventNoRepeats | client/components/WebChat.tsx:132-139 | The deduplicating push keeps neighbouring events distinct. |
| WebChat.TokenKeepsWellFormed | client/components/WebChat.tsx:113-124 | The `token` reducer keeps every message well formed: `content` stays the join of `tokens`, with no repeats. |
| WebChat.EventKeepsWellFormed | client/components/WebChat.tsx:126-141 | The `search`/`urls` reducer keeps every message well formed. |
| WebChat.ApplyFrameKeepsWellFormed | client/components/WebChat.tsx:112-152 | Every frame keeps each assistant message's `content` equal to its joined tokens, and keeps its tokens and events without repeats. |
| WebChat.ApplyPiecesKeepsWellFormed | client/components/WebChat.tsx:97-153 | One pass of the inner loop keeps every message well formed. |
| WebChat.ReadStreamKeepsWellFormed | client/components/WebChat.tsx:91-160 | The whole read keeps every message well formed. |
| WebChat.TurnTargetsPlaceholder | client/components/WebChat.tsx:79 | During a turn the reducers target this turn's placeholder and no earlier assistant message. |
| WebChat.ApplyFrameKeepsShape | client/components/WebChat.tsx:112-152 | A frame keeps the earlier messages and the user's message in place. Only error messages follow the assistant message. |
| WebChat.ApplyPiecesKeepsShape | client/components/WebChat.tsx:97-153 | One pass keeps that turn shape. |
| WebChat.ReadStreamKeepsShape | client/components/WebChat.tsx:91-160 | Whatever the stream holds, the whole read keeps that turn shape. |
| WebChat.PiecesIgnoreDone | client/components/WebChat.tsx:97 | Setting `done` does not stop the frames already in the buffer. The pass builds the same messages either way. |
| WebChat.ChunkBoundaryIrrelevant | client/components/WebChat.tsx:92-99 | Feeding `a` and then `b` applies the same frames and keeps the same remainder as feeding `a + b`. |
| WebChat.ClosedEarlyKeepsTyping | client/components/WebChat.tsx:91-93 | A stream that closes before any `done` or `error` frame leaves the typing indicator on. |
| WebChat.TypingUntilDone | client/components/WebChat.tsx:142-151 | Within a pass, the typing indicator goes off exactly when `done` is set. |
| WebChat.CutFrame | client/components/WebChat.tsx:97-99 | Cutting the first frame off the buffer and applying it leaves exactly the rest of the pass and the same remainder. |
| WebChat.FeedFromJoined | client/components/WebChat.tsx:94-97 | Appending a chunk and draining is the same as feeding that chunk. |
| WebChat.SubmitKeepsValid | client/components/WebChat.tsx:72-160 | Starting from well-formed messages, a submit leaves every message well formed. |
| WebChat.SubmitShape | client/components/WebChat.tsx:74-79 | Whatever the response, a submit adds exactly the trimmed user message and one assistant message after the earlier ones, followed by error messages only. |
| WebChat.WebChat.constructor | client/components/WebChat.tsx:56-61 | The page starts with no messages, an empty input, neither loading nor typing, and the given thread id. |
| WebChat.WebChat.SetInput | client/components/WebChat.tsx:259 | The text field sets the input and nothing else. |
| WebChat.WebChat.FindLastAssistant | client/components/WebChat.tsx:115-116 | The `while` scan returns `LastAssistant`'s index, or -1 when there is none. |
| WebChat.WebChat.ReceiveToken | client/components/WebChat.tsx:113-124 | The messages become `TokenUpdate` of the old ones. Nothing else changes. |
| WebChat.WebChat.ReceiveEvent | client/components/WebChat.tsx:126-141 | The messages become `EventUpdate` of the old ones. Nothing else changes. |
| WebChat.WebChat.DrainFrames | client/components/WebChat.tsx:96-153 | The inner loop leaves exactly the messages, typing flag, `done` and remainder of `Feed`. |
| WebChat.WebChat.ReceiveFrame | client/components/WebChat.tsx:109-152 | A skipped frame changes nothing. A kept frame changes the state exactly as `ApplyFrame` does. |
| WebChat.WebChat.HandleSubmit | client/components/WebChat.tsx:72-163 | A blank input or a pending request sends nothing and changes nothing. Otherwise the handler appends the trimmed user message and the placeholder, clears the input, and sends the untrimmed input with the thread id. Its messages and typing flag then become `ReadStream` of the response, and loading is off. |
| Linkify.RunEnd | client/components/WebChat.tsx:15 | The greedy `[^\s]+` run stops at the end of the text or before a whitespace character. |
| Linkify.RunHasNoSpace | client/components/WebChat.tsx:15 | The run holds no whitespace. |
| Linkify.SchemeLength | client/components/WebChat.tsx:15 | `https?://` matches with length 8 exactly at "https://", 7 exactly at "http://", and otherwise not at all. |
| Linkify.MatchIsUrl | client/components/WebChat.tsx:15 | The text a match covers is itself one whole match. |
| Linkify.UrlHasNoSpace | client/components/WebChat.tsx:15 | A URL holds no whitespace. |
| Linkify.UrlEndsAtSpace | client/components/WebChat.tsx:15 | A match ends at the end of the text or before whitespace. |
| Linkify.NextMatch | client/components/WebChat.tsx:15 | The scan stops at the first position from which the pattern matches, and nothing matches before it. It reaches the end exactly when nothing matches at any later position. |
| Linkify.SplitFrom | client/components/WebChat.tsx:15 | The split from a position is well formed. There is an odd number of parts, and they concatenate back to the text. The odd parts are whole URLs, and the even parts hold no URL. Every text part after a URL is empty or starts with whitespace. |
| Linkify.UrlParts | client/components/WebChat.tsx:15 | The whole split of a text is well formed in the same sense. |
| Linkify.LinkifyAsWritten | client/components/WebChat.tsx:11-31 | A non-string is returned unchanged, and only a non-string is. |
| Linkify.Linkify | client/components/WebChat.tsx:11-31 | A non-string is returned unchanged, and only a non-string is. |
| Linkify.SchemesExclusive | client/components/WebChat.tsx:15 | No text starts with both `http://` and `https://`, so the optional `s` never leaves a choice. |
| Linkify.LinkifyKeepsText | client/components/WebChat.tsx:15-29 | The nodes show the text unchanged, in order. |
| Linkify.LinkifyLinksUrls | client/components/WebChat.tsx:15-29 | Every link points at the text it shows, and a node is a link exactly when its text is one whole URL. |
| Linkify.LinkifyShowsUrlsAsLinks | client/components/WebChat.tsx:15-29 | The corrected nodes show the text unchanged. Each link points at the text it shows. A node is a link exactly when its text is one whole URL. |
| Linkify.AsWrittenAgreesAfterFirst | client/components/WebChat.tsx:15-17 | After the first part, the scheme test and the corrected rule give the same nodes. |
| Linkify.AsWrittenLinksSchemeWithoutUrl | client/components/WebChat.tsx:15-17 | "http:// x" holds no URL and is split into itself. As written it becomes a link; the corrected rule makes it a span. |

## Left out

- The language model, `bind_tools` and the prompts' effect are a function from the conversation to a message or an exception. The model's streamed chunks are the event list given to the generators.
- LlamaIndex, the embeddings, the sentence splitter and Tavily are collaborators: a loader result, a builder, persist, load and a retriever. Scores are opaque JSON values.
- `asyncio.Lock`, the watchdog observer and `run_coroutine_threadsafe` (server/app/rag.py:46, 95, 124-134) are concurrency plumbing. `reload_index` is one atomic transition, since its body never awaits.
- The retrieval graph's `query_info` reads the index installed when the graph is built. A reload racing a running turn is not modelled.
- The langgraph compilation and `MemorySaver` are replaced by the step function.
  - Research turns take the thread's checkpointed history as a parameter (`Research.TurnInput`).
  - The retrieval graph is compiled per request, so its turns start from `[HumanMessage(user_input)]` (server/main.py:91); no separate member spells that out.
- `AgentGraph.Run`: the step budget (fuel) stands for langgraph's recursion limit. No config sets `recursion_limit` (server/main.py:90, 124), so the library default of 25 steps applies. `OutOfSteps` stands for the `GraphRecursionError` raised when the limit is hit. The generators' `except Exception` turns it into an `error` frame (server/main.py:112-113, 159-160), as for any other exception the graph raises (`EventStream.Frames` with `Raised`).
- `json.dumps`, `json.loads`, `JSON.parse`, `uuid4` and `encodeURIComponent` are parameters.
- `EventStream.RenderedFrameRead` and `EventStream.RenderedStreamRead` take as premises two facts about these parameters: `json.dumps` writes each payload object on one line between braces, and `JSON.parse` reads it back. Neither library is modelled.
- `Rag.QueryArgument`: the text of the validation error that a malformed argument raises is a stand-in constant (`INVALID_ARGUMENTS`), not the validation library's message.
- `String()` of numbers, arrays and objects in `join` is a parameter too (`WebChat.ValueText`). JSON numbers are reals.
- The tool-start payload's `query` and `input` are optional strings. A payload that is not a dictionary (an `AttributeError` at server/main.py:109) is not modelled. The same holds for result items that are not dictionaries.
- `getattr(last_message, "content", "")` and `inputs.get("messages", [])` (server/app/rag.py:26-28): messages always have content, and the node takes the message list itself.
- `sse_headers`, the upload/list/delete/health routes, `StreamingResponse` and `uvicorn` are transport. They are not part of this model.
- The client's rendering is not modelled: React, markdown, scrolling and `TimelineStep`'s mapping of an array `content` to one `linkify` per line (client/components/WebChat.tsx:44-46).
- The client's clocks are not modelled: `Date` timestamps and `toLocaleTimeString`. Timeline events carry no time.
- `console.log` is not modelled.
- `fetch`, `getReader` and `TextDecoder` are a list of already decoded chunks, plus whether reading ended normally or threw. A throw from `fetch` itself is the empty chunk list ending in `Broken`.
- `copy[i].tokens || []`: an assistant message always has a token list here.
- The reducers push into the message objects shared with the previous state (a shallow copy). The model replaces values instead; aliasing between renders is not captured.
- React's batching of state updates is simplified: each `setMessages` updater is applied at once and in order.
- `WebChat.ReadStream`: its own contract states only that nothing changes once `done` is set. What it does is stated through the lemmas beside it and through `HandleSubmit`'s contract.

## Findings

| source | as written | input that shows it | evidently intended | confidence | as-written member | corrected member |
|---|---|---|---|---|---|---|
| server/main.py:157 | In the nested f-string, `\\n` writes a backslash and the letter `n`, so each url entry is one line with a literal `\n` in it (Python 3.12 and later; older versions reject the line). | title "Docs", url "https://a.b" at position 1 gives `1. Docs\n   https://a.b` on one line | a line break between the title and the indented url | medium, not executed | EventStream.UrlEntryTextAsWritten, EventStream.EntryAsWrittenIsOneLine | EventStream.UrlEntryText, EventStream.EntryIsTwoLines |
| client/components/WebChat.tsx:17 | A part becomes a link whenever it starts with `http://` or `https://`, including a text part where the split found no URL. | "http:// x": the split finds no URL (whitespace follows the scheme), yet the one part becomes a link to "http:// x" | link exactly the parts the split captured, the URLs | low, not executed | Linkify.LinkifyAsWritten, Linkify.AsWrittenLinksSchemeWithoutUrl | Linkify.Linkify, Linkify.LinkifyShowsUrlsAsLinks |

The generators send the url entry as written (`EventStream.EntryFrames` uses `UrlEntryTextAsWritten`), so every stream property above holds of what the server actually sends. `EventStream.UrlEntryText` is the line the code evidently means to write, and `EventStream.EntryIsTwoLines` proves it has the intended shape.
