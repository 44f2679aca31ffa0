/**
 * The retrieval agent: an index over the documents of a data directory, the one tool
 * (`query_info`) that queries it, and the agent graph compiled around that tool.
 * The document loader, the index builder, persisting, loading and the retriever are
 * collaborators given as values or functions; each may fail.
 */
module Rag {
  import opened Wrappers
  import opened Text
  import opened JsonValue
  import opened ToolCall
  import opened ToolNode
  import opened AgentGraph

  /** The knowledge-base tool `_register_tools` defines. */
  const QUERY_INFO: Tool := Tool("query_info", KnowledgeBaseQuery)

  /** `similarity_top_k` of the retriever `query_info` asks for. */
  const TOP_K: nat := 4

  /** What `self.index.as_retriever` raises while no index is installed. */
  const NO_INDEX_ERROR: string := "'NoneType' object has no attribute 'as_retriever'"

  /** What a call whose arguments do not carry a string `query` fails with (the tool's argument validation). */
  const INVALID_ARGUMENTS: string := "query_info expects a string argument 'query'"

  /** An index object, known only by identity. */
  datatype Index = Index(handle: nat)

  datatype Document = Document(text: string, metadata: map<string, Json>)

  /** The exceptions the collaborators raise, split the way the agent's handlers split them. */
  datatype Exception = ValueError(message: string) | OtherError(message: string)

  /** A retrieved node with its score (`NodeWithScore`); the score is passed through unexamined. */
  datatype Hit = Hit(text: string, metadata: map<string, Json>, score: Json)

  /** `index.as_retriever(similarity_top_k=k).retrieve(query)`. */
  type Retriever = (Index, nat, string) -> Result<seq<Hit>, string>

  /** The two fields the lifecycle updates. */
  datatype AgentState = AgentState(index: Option<Index>, tools: seq<Tool>)

  /** The tool list only ever holds nothing or the knowledge-base tool alone. */
  predicate ToolsWellFormed(s: AgentState) {
    s.tools == [] || s.tools == [QUERY_INFO]
  }

  /** The state the `except ValueError` handler of `_rebuild_index` leaves: no index, yet the tool registered. */
  const VALUE_ERROR_STATE: AgentState := AgentState(None, [QUERY_INFO])

  /** `_rebuild_index` from state `s`: the state it leaves and the exception it lets escape.
      `loaded` is what the directory reader yields now, `build` is `VectorStoreIndex.from_documents`,
      `persist` persists an index to the store directory. */
  function Rebuild(s: AgentState, loaded: Result<seq<Document>, Exception>,
                   build: seq<Document> -> Result<Index, Exception>, persist: Index -> Option<Exception>)
    : (r: (AgentState, Option<Exception>))
    ensures loaded == Success([]) ==> r == (AgentState(None, []), None)
    ensures (loaded.Failure? && loaded.error.ValueError?) ==> r == (VALUE_ERROR_STATE, None)
    ensures (loaded.Failure? && loaded.error.OtherError?) ==> r == (s, Some(loaded.error))
    ensures loaded.Success? && loaded.value != [] && build(loaded.value).Failure? ==>
              r == (if build(loaded.value).error.ValueError? then (VALUE_ERROR_STATE, None)
                    else (s, Some(build(loaded.value).error)))
    ensures loaded.Success? && loaded.value != [] && build(loaded.value).Success?
              && persist(build(loaded.value).value).Some? ==>
              r == (if persist(build(loaded.value).value).value.ValueError? then (VALUE_ERROR_STATE, None)
                    else (AgentState(Some(build(loaded.value).value), s.tools), persist(build(loaded.value).value)))
    ensures r.1.Some? ==> r.1.value.OtherError? && r.0.tools == s.tools
    ensures r.1.Some? ==>
              || r.0 == s
              || (&& r.0.index.Some? && loaded.Success? && build(loaded.value) == Success(r.0.index.value)
                  && persist(r.0.index.value) == r.1)
    ensures r.1.None? && r.0.index.Some? ==>
              && r.0.tools == [QUERY_INFO] && loaded.Success? && build(loaded.value) == Success(r.0.index.value)
              && persist(r.0.index.value).None?
    ensures r == (AgentState(r.0.index, [QUERY_INFO]), None) && r.0.index.Some? <==>
              && loaded.Success? && loaded.value != [] && build(loaded.value).Success?
              && r.0.index == Some(build(loaded.value).value) && persist(build(loaded.value).value).None?
  {
    match loaded
    case Failure(ValueError(_)) => (VALUE_ERROR_STATE, None)
    case Failure(e) => (s, Some(e))
    case Success(docs) =>
      if docs == [] then (AgentState(None, []), None)
      else
        match build(docs)
        case Failure(ValueError(_)) => (VALUE_ERROR_STATE, None)
        case Failure(e) => (s, Some(e))
        case Success(idx) =>
          match persist(idx)
          case Some(ValueError(_)) => (VALUE_ERROR_STATE, None)
          case Some(e) => (AgentState(Some(idx), s.tools), Some(e))
          case None => (AgentState(Some(idx), [QUERY_INFO]), None)
  }

  /** `_load_or_rebuild_index`: `listing` is the store directory's entries, `None` when it does not exist;
      `load` is what loading the persisted index yields. */
  function LoadOrRebuild(s: AgentState, listing: Option<seq<string>>, load: Result<Index, Exception>,
                         loaded: Result<seq<Document>, Exception>,
                         build: seq<Document> -> Result<Index, Exception>, persist: Index -> Option<Exception>)
    : (r: (AgentState, Option<Exception>))
    ensures StoreHasEntries(listing) && load.Success? ==> r == (AgentState(Some(load.value), [QUERY_INFO]), None)
    ensures StoreHasEntries(listing) && load.Failure? ==> r == (s, Some(load.error))
    ensures !StoreHasEntries(listing) ==> r == Rebuild(s, loaded, build, persist)
  {
    if StoreHasEntries(listing) then
      match load
      case Failure(e) => (s, Some(e))
      case Success(idx) => (AgentState(Some(idx), [QUERY_INFO]), None)
    else Rebuild(s, loaded, build, persist)
  }

  /** `os.path.exists(store_dir) and os.listdir(store_dir)`. */
  predicate StoreHasEntries(listing: Option<seq<string>>) {
    listing.Some? && listing.value != []
  }

  /** Every transition keeps the tool list to nothing or the knowledge-base tool alone. */
  lemma RebuildKeepsToolsWellFormed(s: AgentState, loaded: Result<seq<Document>, Exception>,
                                    build: seq<Document> -> Result<Index, Exception>, persist: Index -> Option<Exception>,
                                    listing: Option<seq<string>>, load: Result<Index, Exception>)
    requires ToolsWellFormed(s)
    ensures ToolsWellFormed(Rebuild(s, loaded, build, persist).0)
    ensures ToolsWellFormed(LoadOrRebuild(s, listing, load, loaded, build, persist).0)
  {
  }

  /** A rebuild that raises nothing forgets the state before it: the outcome depends only on the
      directory and the collaborators. */
  lemma RebuildForgetsHistory(s1: AgentState, s2: AgentState, loaded: Result<seq<Document>, Exception>,
                              build: seq<Document> -> Result<Index, Exception>, persist: Index -> Option<Exception>)
    requires Rebuild(s1, loaded, build, persist).1.None?
    ensures Rebuild(s2, loaded, build, persist) == Rebuild(s1, loaded, build, persist)
  {
  }

  /** Rebuilding twice against the same directory and collaborators is rebuilding once. */
  lemma RebuildIdempotent(s: AgentState, loaded: Result<seq<Document>, Exception>,
                          build: seq<Document> -> Result<Index, Exception>, persist: Index -> Option<Exception>)
    ensures var once := Rebuild(s, loaded, build, persist).0;
            Rebuild(once, loaded, build, persist).0 == once
  {
  }

  /** A failed persist (other than `ValueError`) escapes after the new index was installed: the index is
      the new one, the tools are the old ones. Starting with no tools, the agent has an index it cannot query. */
  lemma PersistFailureKeepsOldTools(s: AgentState, docs: seq<Document>, idx: Index, message: string,
                                    build: seq<Document> -> Result<Index, Exception>, persist: Index -> Option<Exception>)
    requires docs != [] && build(docs) == Success(idx) && persist(idx) == Some(OtherError(message))
    ensures Rebuild(s, Success(docs), build, persist) == (AgentState(Some(idx), s.tools), Some(OtherError(message)))
  {
  }

  /** The `ValueError` path registers the tool without an index, so every query through it fails. */
  lemma ValueErrorLeavesToolWithoutIndex(s: AgentState, message: string,
                                         build: seq<Document> -> Result<Index, Exception>,
                                         persist: Index -> Option<Exception>, query: string, retrieve: Retriever)
    ensures var after := Rebuild(s, Failure(ValueError(message)), build, persist).0;
            && after.tools == [QUERY_INFO]
            && QueryInfoResult(after.index, query, retrieve) == Failure(NO_INDEX_ERROR)
  {
  }

  /** The load path never reads the data directory and the rebuild path never reads the store. */
  lemma ExactlyOnePath(s: AgentState, listing: Option<seq<string>>, load1: Result<Index, Exception>,
                       load2: Result<Index, Exception>, loaded1: Result<seq<Document>, Exception>,
                       loaded2: Result<seq<Document>, Exception>,
                       build: seq<Document> -> Result<Index, Exception>, persist: Index -> Option<Exception>)
    ensures StoreHasEntries(listing) ==>
              LoadOrRebuild(s, listing, load1, loaded1, build, persist) == LoadOrRebuild(s, listing, load1, loaded2, build, persist)
    ensures !StoreHasEntries(listing) ==>
              LoadOrRebuild(s, listing, load1, loaded1, build, persist) == LoadOrRebuild(s, listing, load2, loaded1, build, persist)
  {
  }

  /** One entry of `results`: the hit at 1-based position `n`. */
  function ResultEntry(n: nat, h: Hit): (r: Json)
    ensures r.Obj? && r.fields.Keys == {"result_number", "file_name", "page_number", "content", "score"}
    ensures r.fields["result_number"] == Num(n as real)
    ensures "file_name" !in h.metadata ==> r.fields["file_name"] == Str("Unknown")
    ensures "file_name" in h.metadata ==> r.fields["file_name"] == h.metadata["file_name"]
    ensures "page_label" !in h.metadata ==> r.fields["page_number"] == Str("Unknown")
    ensures "page_label" in h.metadata ==> r.fields["page_number"] == h.metadata["page_label"]
    ensures r.fields["content"] == Str(PyStrip(h.text))
    ensures r.fields["score"] == h.score
  {
    Obj(map[
      "result_number" := Num(n as real),
      "file_name" := GetOr(h.metadata, "file_name", Str("Unknown")),
      "page_number" := GetOr(h.metadata, "page_label", Str("Unknown")),
      "content" := Str(PyStrip(h.text)),
      "score" := h.score])
  }

  /** The dictionary `query_info` returns for the hits of `query`. */
  function QueryPayload(query: string, results: seq<Json>): (r: Json)
    ensures r.Obj? && r.fields.Keys == {"query", "results", "total_results"}
    ensures r.fields["query"] == Str(query) && r.fields["results"] == Arr(results)
    ensures r.fields["total_results"] == Num(|results| as real)
  {
    Obj(map["query" := Str(query), "results" := Arr(results), "total_results" := Num(|results| as real)])
  }

  /** The entries of the hits in retrieval order, numbered from 1. */
  function Entries(hits: seq<Hit>): (r: seq<Json>)
    ensures |r| == |hits|
    ensures forall i :: 0 <= i < |hits| ==> r[i] == ResultEntry(i + 1, hits[i])
  {
    seq(|hits|, i requires 0 <= i < |hits| => ResultEntry(i + 1, hits[i]))
  }

  /** What calling `query_info(query)` yields while `index` is installed. */
  function QueryInfoResult(index: Option<Index>, query: string, retrieve: Retriever): (r: Result<Json, string>)
    ensures index.None? ==> r == Failure(NO_INDEX_ERROR)
    ensures index.Some? && retrieve(index.value, TOP_K, query).Failure? ==>
              r == Failure(retrieve(index.value, TOP_K, query).error)
    ensures index.Some? && retrieve(index.value, TOP_K, query).Success? ==>
              r == Success(QueryPayload(query, Entries(retrieve(index.value, TOP_K, query).value)))
  {
    match index
    case None => Failure(NO_INDEX_ERROR)
    case Some(ix) =>
      match retrieve(ix, TOP_K, query)
      case Failure(m) => Failure(m)
      case Success(hits) => Success(QueryPayload(query, Entries(hits)))
  }

  /** The query a `@tool` with the single string parameter `query` takes from its input: a string is the
      query itself, an object must carry a string `query`; anything else fails validation. */
  function QueryArgument(args: Json): (q: Option<string>)
    ensures args.Str? ==> q == Some(args.s)
    ensures args.Obj? ==> (q.Some? <==> "query" in args.fields && args.fields["query"].Str?)
    ensures args.Obj? && q.Some? ==> args.fields["query"] == Str(q.value)
    ensures !args.Str? && !args.Obj? ==> q.None?
  {
    match args
    case Str(s) => Some(s)
    case Obj(fields) => if "query" in fields && fields["query"].Str? then Some(fields["query"].s) else None
    case _ => None
  }

  /** The tools of the retrieval graph as invoked by its tool node: `query_info` on its query argument. */
  function RagInvoker(index: Option<Index>, retrieve: Retriever): Invoker {
    (t: Tool, args: Json) =>
      match QueryArgument(args)
      case Some(q) => QueryInfoResult(index, q, retrieve)
      case None => Failure(INVALID_ARGUMENTS)
  }

  /** `route_tools` of the retrieval graph: `tools` exactly when the last message holds an opening tag,
      whether or not it is ever closed; an empty list is an `IndexError`. */
  function RagRoute(messages: seq<Message>): (r: Result<Route, NodeError>)
    ensures r == Failure(NoMessages) <==> messages == []
    ensures r == Success(ToTools) <==> messages != [] && Contains(messages[|messages| - 1].content, OPEN)
    ensures r == Success(ToEnd) <==> messages != [] && !Contains(messages[|messages| - 1].content, OPEN)
  {
    if messages == [] then Failure(NoMessages)
    else if Contains(messages[|messages| - 1].content, OPEN) then Success(ToTools)
    else Success(ToEnd)
  }

  /** The retrieval graph over a tool list and an index: its routing and a tool node built from the list. */
  function RagGraph(tools: seq<Tool>, index: Option<Index>, decode: Decoder, encode: Json -> string,
                    retrieve: Retriever): (g: Graph)
    ensures AnswersWithToolMessages(g)
  {
    var g := Graph(RagRoute, NodeRunner(NewToolNode(tools), decode, RagInvoker(index, retrieve), encode));
    NodeRunnerAnswersWithToolMessages(NewToolNode(tools), decode, RagInvoker(index, retrieve), encode, RagRoute);
    g
  }

  /** A model message that opens a call and never closes it sends the retrieval graph to `tools`,
      whose parse then fails: the turn ends with the parser's error. */
  lemma UnclosedCallFailsTurn(tools: seq<Tool>, index: Option<Index>, decode: Decoder, encode: Json -> string,
                              retrieve: Retriever, env: Env, input: seq<Message>, fuel: nat, p: string, s: string)
    requires fuel >= 2
    requires !Contains(p, OPEN) && !Contains(s, CLOSE)
    requires env.model(input) == Success(p + OPEN + s)
    ensures Turn(RagGraph(tools, index, decode, encode, retrieve), env, input, fuel)
            == Failed(NodeFailed(BadToolCall(NoToolCallBlock)), input + [AiMessage(p + OPEN + s)])
  {
    var g := RagGraph(tools, index, decode, encode, retrieve);
    var c := p + OPEN + s;
    var ms := input + [AiMessage(c)];
    OpenTagAt(c, p, s);
    assert ms[|ms| - 1].content == c;
    assert ChatbotStep(g, env, input) == Success((Some(Tools), ms));
    UnclosedTagFails(p, s, decode);
    assert ParsedCall(ms, decode) == Failure(BadToolCall(NoToolCallBlock));
    NodeRunnerIsCall(NewToolNode(tools), decode, RagInvoker(index, retrieve), encode, ms, env.callId(|ms|));
    assert ToolsStep(g, env, ms) == Failure(NodeFailed(BadToolCall(NoToolCallBlock)));
    assert Run(g, env, Tools, ms, fuel - 1) == Failed(NodeFailed(BadToolCall(NoToolCallBlock)), ms);
  }

  /** With the knowledge-base tool registered, a call to `query_info` with a query argument answers with
      the encoded result of the query as a tool message named `query_info`, or fails with its error; a call
      whose arguments carry no query fails validation. */
  lemma QueryInfoCallAnswered(index: Option<Index>, decode: Decoder, encode: Json -> string, retrieve: Retriever,
                              messages: seq<Message>, id: string, args: Json)
    requires ParsedCall(messages, decode) == Success((Str("query_info"), args))
    ensures var r := RagGraph([QUERY_INFO], index, decode, encode, retrieve).tools(messages, id);
            match QueryArgument(args)
            case None => r == Failure(ToolFailed(INVALID_ARGUMENTS))
            case Some(q) =>
              match QueryInfoResult(index, q, retrieve)
              case Success(v) => r == Success(ToolMessage(encode(v), "query_info", id))
              case Failure(m) => r == Failure(ToolFailed(m))
  {
    var node := NewToolNode([QUERY_INFO]);
    assert "query_info" in node.toolsByName && node.toolsByName["query_info"] == QUERY_INFO;
    assert Lookup(node, Str("query_info")) == Success(("query_info", QUERY_INFO));
    NodeRunnerIsCall(node, decode, RagInvoker(index, retrieve), encode, messages, id);
  }

  /** With no tools registered, a call to any name fails with `NotRegistered` and nothing is queried. */
  lemma NoToolsNothingInvoked(index: Option<Index>, decode: Decoder, encode: Json -> string, retrieve: Retriever,
                              messages: seq<Message>, id: string, name: string, args: Json)
    requires ParsedCall(messages, decode) == Success((Str(name), args))
    ensures RagGraph([], index, decode, encode, retrieve).tools(messages, id) == Failure(NotRegistered(Str(name)))
  {
    var node := NewToolNode([]);
    assert name !in node.toolsByName;
    UnknownToolNeverInvoked(node, messages, decode, RagInvoker(index, retrieve), RagInvoker(index, retrieve),
                            encode, id, name, args);
  }

  /** `RAGAgent`: the data and store directories, the installed index and the registered tools. */
  class RagAgent {
    const dataDir: string
    const storeDir: string
    var index: Option<Index>
    var tools: seq<Tool>

    function State(): AgentState
      reads this
    {
      AgentState(index, tools)
    }

    /** The fields `__init__` sets before it loads or rebuilds. */
    constructor(dataDir: string, storeDir: string)
      ensures this.dataDir == dataDir && this.storeDir == storeDir
      ensures index == None && tools == []
    {
      this.dataDir := dataDir;
      this.storeDir := storeDir;
      index := None;
      tools := [];
    }

    /** `RAGAgent(data_dir, store_dir, llm)`: the new agent after `_load_or_rebuild_index`, or the exception that
        escaped it. */
    static method Create(dataDir: string, storeDir: string, listing: Option<seq<string>>,
                         load: Result<Index, Exception>, loaded: Result<seq<Document>, Exception>,
                         build: seq<Document> -> Result<Index, Exception>, persist: Index -> Option<Exception>)
      returns (r: Result<RagAgent, Exception>)
      ensures var expected := LoadOrRebuild(AgentState(None, []), listing, load, loaded, build, persist);
              && (r.Failure? <==> expected.1.Some?)
              && (r.Failure? ==> r.error == expected.1.value)
              && (r.Success? ==> fresh(r.value) && r.value.State() == expected.0 && ToolsWellFormed(r.value.State()))
    {
      var agent := new RagAgent(dataDir, storeDir);
      var raised := agent.LoadOrRebuildIndex(listing, load, loaded, build, persist);
      RebuildKeepsToolsWellFormed(AgentState(None, []), loaded, build, persist, listing, load);
      if raised.Some? {
        r := Failure(raised.value);
      } else {
        r := Success(agent);
      }
    }

    /** `_register_tools`: the list cleared, then the knowledge-base tool appended. */
    method RegisterTools()
      modifies this
      ensures tools == [QUERY_INFO] && index == old(index)
    {
      tools := [];
      tools := tools + [QUERY_INFO];
    }

    /** The `except ValueError` handler of `_rebuild_index`. */
    method OnValueError()
      modifies this
      ensures State() == VALUE_ERROR_STATE
    {
      index := None;
      tools := [];
      RegisterTools();
    }

    /** `_rebuild_index`, returning the exception that escapes it. */
    method RebuildIndex(loaded: Result<seq<Document>, Exception>,
                        build: seq<Document> -> Result<Index, Exception>, persist: Index -> Option<Exception>)
      returns (raised: Option<Exception>)
      modifies this
      ensures (State(), raised) == Rebuild(old(State()), loaded, build, persist)
    {
      if loaded.Failure? {
        if loaded.error.ValueError? {
          OnValueError();
          raised := None;
        } else {
          raised := Some(loaded.error);
        }
        return;
      }
      var docs := loaded.value;
      if docs == [] {
        index := None;
        tools := [];
        raised := None;
        return;
      }
      var built := build(docs);
      if built.Failure? {
        if built.error.ValueError? {
          OnValueError();
          raised := None;
        } else {
          raised := Some(built.error);
        }
        return;
      }
      index := Some(built.value);
      var failure := persist(built.value);
      if failure.Some? {
        if failure.value.ValueError? {
          OnValueError();
          raised := None;
        } else {
          raised := failure;
        }
        return;
      }
      RegisterTools();
      raised := None;
    }

    /** `_load_or_rebuild_index`, returning the exception that escapes it. */
    method LoadOrRebuildIndex(listing: Option<seq<string>>, load: Result<Index, Exception>,
                              loaded: Result<seq<Document>, Exception>,
                              build: seq<Document> -> Result<Index, Exception>, persist: Index -> Option<Exception>)
      returns (raised: Option<Exception>)
      modifies this
      ensures (State(), raised) == LoadOrRebuild(old(State()), listing, load, loaded, build, persist)
    {
      if StoreHasEntries(listing) {
        if load.Failure? {
          raised := Some(load.error);
          return;
        }
        index := Some(load.value);
        RegisterTools();
        raised := None;
      } else {
        raised := RebuildIndex(loaded, build, persist);
      }
    }

    /** `reload_index`: a rebuild whose exception, if any, is logged and swallowed. */
    method ReloadIndex(loaded: Result<seq<Document>, Exception>,
                       build: seq<Document> -> Result<Index, Exception>, persist: Index -> Option<Exception>)
      modifies this
      ensures State() == Rebuild(old(State()), loaded, build, persist).0
      ensures (loaded.Failure? && loaded.error.OtherError?) ==> State() == old(State())
    {
      var _ := RebuildIndex(loaded, build, persist);
    }

    /** `get_tool_node`: a dispatcher over the tools registered now. It is a value: later
        registrations do not reach a node already handed out. */
    function GetToolNode(): (node: BasicToolNode)
      reads this
      ensures forall n :: n in node.toolsByName <==> IsListed(tools, n)
      ensures forall n :: n in node.toolsByName ==> node.toolsByName[n] in tools && node.toolsByName[n].name == n
    {
      NewToolNode(tools)
    }

    /** `build_graph`: the retrieval graph over the tools registered now. */
    function BuildGraph(decode: Decoder, encode: Json -> string, retrieve: Retriever): (g: Graph)
      reads this
      ensures AnswersWithToolMessages(g)
      ensures g.route == RagRoute
    {
      RagGraph(tools, index, decode, encode, retrieve)
    }

    /** `query_info(query)`: the result dictionaries built one hit at a time, in retrieval order. */
    method QueryInfo(query: string, retrieve: Retriever) returns (r: Result<Json, string>)
      ensures r == QueryInfoResult(index, query, retrieve)
    {
      if index.None? {
        return Failure(NO_INDEX_ERROR);
      }
      var nodes := retrieve(index.value, TOP_K, query);
      if nodes.Failure? {
        return Failure(nodes.error);
      }
      var hits := nodes.value;
      var results: seq<Json> := [];
      var i := 0;
      while i < |hits|
        invariant 0 <= i <= |hits|
        invariant results == Entries(hits[..i])
      {
        assert hits[..i + 1] == hits[..i] + [hits[i]];
        results := results + [ResultEntry(i + 1, hits[i])];
        i := i + 1;
      }
      assert hits[..i] == hits;
      r := Success(QueryPayload(query, results));
    }
  }
}
