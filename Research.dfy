/**
 * The web-research agent: one search tool, one dispatcher built for it when the agent is
 * created, and a graph that only enters `tools` on a call that is both opened and closed.
 */
module Research {
  import opened Wrappers
  import opened Text
  import opened JsonValue
  import opened ToolCall
  import opened ToolNode
  import opened AgentGraph

  /** The Tavily search tool (`TavilySearch(max_results=4, topic="general")`), known to the registry by its name. */
  const SEARCH_TOOL: Tool := Tool("tavily_search", WebSearch)

  /** The system message every research turn starts with. */
  const SYSTEM_PROMPT: string :=
    "You are a helpful assistant.Your name is Parkky. Dont use include_domains argument during search."

  /** The fields `ResearchAgent.__init__` assigns once: the tool list and the dispatcher over it. */
  datatype ResearchAgent = ResearchAgent(tools: seq<Tool>, toolNode: BasicToolNode)

  function NewResearchAgent(): (a: ResearchAgent)
    ensures a.tools == [SEARCH_TOOL]
    ensures a.toolNode.toolsByName == map[SEARCH_TOOL.name := SEARCH_TOOL]
  {
    var tools := [SEARCH_TOOL];
    var node := NewToolNode(tools);
    assert IsListed(tools, SEARCH_TOOL.name);
    assert node.toolsByName.Keys == {SEARCH_TOOL.name} by {
      forall n ensures n in node.toolsByName <==> n == SEARCH_TOOL.name {
        if IsListed(tools, n) {
          var i :| 0 <= i < |tools| && tools[i].name == n;
        }
      }
    }
    ResearchAgent(tools, node)
  }

  /** `route_tools` of the research graph: END on an empty list, `tools` only when the last message
      holds both tags. */
  function ResearchRoute(messages: seq<Message>): (r: Route)
    ensures messages == [] ==> r == ToEnd
    ensures r == ToTools <==>
              && messages != []
              && Contains(messages[|messages| - 1].content, OPEN)
              && Contains(messages[|messages| - 1].content, CLOSE)
  {
    if messages == [] then ToEnd
    else
      var content := messages[|messages| - 1].content;
      if Contains(content, OPEN) && Contains(content, CLOSE) then ToTools else ToEnd
  }

  /** `_build_graph`: the research graph over the agent's dispatcher. `search` is the search tool itself. */
  function ResearchGraph(a: ResearchAgent, decode: Decoder, search: Invoker, encode: Json -> string): (g: Graph)
    ensures AnswersWithToolMessages(g)
    ensures forall ms :: g.route(ms) == Success(ResearchRoute(ms))
  {
    NodeRunnerAnswersWithToolMessages(a.toolNode, decode, search, encode, ms => Success(ResearchRoute(ms)));
    Graph(ms => Success(ResearchRoute(ms)), NodeRunner(a.toolNode, decode, search, encode))
  }

  /** The messages a research turn starts from: the thread's checkpointed history, then the system
      prompt and the user's input. */
  function TurnInput(history: seq<Message>, userInput: string): (ms: seq<Message>)
    ensures history <= ms && |ms| == |history| + 2
    ensures ms[|ms| - 2] == SystemMessage(SYSTEM_PROMPT) && ms[|ms| - 1] == HumanMessage(userInput)
  {
    history + [SystemMessage(SYSTEM_PROMPT), HumanMessage(userInput)]
  }

  /** A model message that opens a call but never closes it ends a research turn. */
  lemma UnclosedCallEndsTurn(a: ResearchAgent, decode: Decoder, search: Invoker, encode: Json -> string,
                             env: Env, input: seq<Message>, fuel: nat, c: string)
    requires fuel >= 1
    requires !Contains(c, CLOSE)
    requires env.model(input) == Success(c)
    ensures Turn(ResearchGraph(a, decode, search, encode), env, input, fuel) == Ended(input + [AiMessage(c)])
  {
    var ms := input + [AiMessage(c)];
    assert ms[|ms| - 1].content == c;
  }

  /** A closed call naming the search tool runs one `chatbot -> tools` round: the search runs on the
      parsed arguments and the turn continues from the model message and its tool message. */
  lemma SearchRound(decode: Decoder, search: Invoker, encode: Json -> string, env: Env, input: seq<Message>,
                    fuel: nat, p: string, s: string, q: string, args: Json, v: Json)
    requires fuel >= 2
    requires !Contains(p, OPEN) && !Contains(s, CLOSE)
    requires env.model(input) == Success(p + OPEN + s + CLOSE + q)
    requires decode(PyStrip(s)) == Success(Obj(map["name" := Str(SEARCH_TOOL.name), "arguments" := args]))
    requires search(SEARCH_TOOL, args) == Success(v)
    ensures var g := ResearchGraph(NewResearchAgent(), decode, search, encode);
            var c := p + OPEN + s + CLOSE + q;
            Turn(g, env, input, fuel) ==
              Turn(g, env, input + [AiMessage(c), ToolMessage(encode(v), SEARCH_TOOL.name, env.callId(|input| + 1))], fuel - 2)
  {
    var a := NewResearchAgent();
    var g := ResearchGraph(a, decode, search, encode);
    var c := p + OPEN + s + CLOSE + q;
    var ms := input + [AiMessage(c)];
    var tm := ToolMessage(encode(v), SEARCH_TOOL.name, env.callId(|ms|));
    ClosedCallRouted(a, decode, search, encode, env, input, p, s, q);
    SearchAnswered(a, decode, search, encode, env, ms, p, s, q, args, v);
    RoundTrip(g, env, input, ms, ms + [tm], fuel);
    assert ms + [tm] == input + [AiMessage(c), tm];
  }

  /** A model message holding a closed call is routed to `tools`. */
  lemma ClosedCallRouted(a: ResearchAgent, decode: Decoder, search: Invoker, encode: Json -> string, env: Env,
                         input: seq<Message>, p: string, s: string, q: string)
    requires !Contains(p, OPEN) && !Contains(s, CLOSE)
    requires env.model(input) == Success(p + OPEN + s + CLOSE + q)
    ensures ChatbotStep(ResearchGraph(a, decode, search, encode), env, input)
              == Success((Some(Tools), input + [AiMessage(p + OPEN + s + CLOSE + q)]))
  {
    var c := p + OPEN + s + CLOSE + q;
    var ms := input + [AiMessage(c)];
    assert ms[|ms| - 1].content == c;
    var head, tail := p + OPEN, s + CLOSE + q;
    assert c == p + OPEN + tail;
    assert c == head + s + CLOSE + q;
    OpenTagAt(c, p, tail);
    CloseTagAt(c, head, s, q);
    ContainsIff(c, OPEN);
    ContainsIff(c, CLOSE);
  }

  /** The `tools` node answers that call with the search result. */
  lemma SearchAnswered(a: ResearchAgent, decode: Decoder, search: Invoker, encode: Json -> string, env: Env,
                       ms: seq<Message>, p: string, s: string, q: string, args: Json, v: Json)
    requires a == NewResearchAgent()
    requires ms != [] && ms[|ms| - 1] == AiMessage(p + OPEN + s + CLOSE + q)
    requires !Contains(p, OPEN) && !Contains(s, CLOSE)
    requires decode(PyStrip(s)) == Success(Obj(map["name" := Str(SEARCH_TOOL.name), "arguments" := args]))
    requires search(SEARCH_TOOL, args) == Success(v)
    ensures ToolsStep(ResearchGraph(a, decode, search, encode), env, ms)
              == Success((Some(Chatbot), ms + [ToolMessage(encode(v), SEARCH_TOOL.name, env.callId(|ms|))]))
  {
    RegisteredToolDispatched(a.toolNode, ms, decode, search, encode, env.callId(|ms|), p, s, q, SEARCH_TOOL.name, args);
    NodeRunnerIsCall(a.toolNode, decode, search, encode, ms, env.callId(|ms|));
  }
}
