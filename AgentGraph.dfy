/**
 * The two-node agent graph both agents compile with langgraph: entry at `chatbot`,
 * a conditional edge `chatbot -> tools | END`, and a fixed edge `tools -> chatbot`,
 * run as an explicit step function over an append-only message list.
 */
module AgentGraph {
  import opened Wrappers
  import opened JsonValue
  import opened ToolCall
  import opened ToolNode

  /** Where the conditional edge out of `chatbot` leads. */
  datatype Route = ToTools | ToEnd

  datatype GraphNode = Chatbot | Tools

  /** The collaborators of a turn: the tool-bound model (`llm_with_tools.invoke`, giving the content of
      its AI message or the message of the exception it raised) and the `uuid4` source, indexed by
      the position the tool message takes. */
  datatype Env = Env(model: seq<Message> -> Result<string, string>, callId: nat -> string)

  /** The `tools` node as the graph sees it: the conversation and a fresh call id in, one message out. */
  type ToolRunner = (seq<Message>, string) -> Result<Message, NodeError>

  /** A compiled graph: the routing function of its conditional edge and its `tools` node. */
  datatype Graph = Graph(route: seq<Message> -> Result<Route, NodeError>, tools: ToolRunner)

  /** The `tools` node of a graph built on a `BasicToolNode` with the given collaborators. */
  function NodeRunner(node: BasicToolNode, decode: Decoder, invoke: Invoker, encode: Json -> string): ToolRunner {
    (ms: seq<Message>, id: string) =>
      match Call(node, ms, decode, invoke, encode, id)
      case Failure(e) => Failure(e)
      case Success(out) => Success(out[0]) // a successful call answers with exactly one message
  }

  /** The runner answers exactly as the tool node does, and what it answers is a tool message. */
  lemma NodeRunnerIsCall(node: BasicToolNode, decode: Decoder, invoke: Invoker, encode: Json -> string,
                         ms: seq<Message>, id: string)
    ensures var r := NodeRunner(node, decode, invoke, encode)(ms, id);
            && (r.Success? ==> r.value.ToolMessage? && Call(node, ms, decode, invoke, encode, id) == Success([r.value]))
            && (r.Failure? ==> Call(node, ms, decode, invoke, encode, id) == Failure(r.error))
  {
  }

  /** The `tools` node of the graph answers with tool messages. */
  ghost predicate AnswersWithToolMessages(g: Graph) {
    forall ms, id :: g.tools(ms, id).Success? ==> g.tools(ms, id).value.ToolMessage?
  }

  lemma NodeRunnerAnswersWithToolMessages(node: BasicToolNode, decode: Decoder, invoke: Invoker,
                                          encode: Json -> string, route: seq<Message> -> Result<Route, NodeError>)
    ensures AnswersWithToolMessages(Graph(route, NodeRunner(node, decode, invoke, encode)))
  {
    forall ms, id ensures NodeRunner(node, decode, invoke, encode)(ms, id).Success? ==>
                            NodeRunner(node, decode, invoke, encode)(ms, id).value.ToolMessage? {
      NodeRunnerIsCall(node, decode, invoke, encode, ms, id);
    }
  }

  datatype TurnError = ModelFailed(message: string) | NodeFailed(error: NodeError)

  /** How a turn stops: at END, with an exception escaping a node, or when the step budget runs out. */
  datatype RunResult =
    | Ended(messages: seq<Message>)
    | Failed(error: TurnError, messages: seq<Message>)
    | OutOfSteps(messages: seq<Message>)

  /** The `chatbot` node: one model message appended, then the conditional edge. */
  function ChatbotStep(g: Graph, env: Env, messages: seq<Message>): (r: Result<(Option<GraphNode>, seq<Message>), TurnError>)
    ensures r.Success? ==>
              exists c ::
                && env.model(messages) == Success(c) && r.value.1 == messages + [AiMessage(c)]
                && (r.value.0 == Some(Tools) <==> g.route(r.value.1) == Success(ToTools))
                && (r.value.0 == None <==> g.route(r.value.1) == Success(ToEnd))
  {
    match env.model(messages)
    case Failure(m) => Failure(ModelFailed(m))
    case Success(c) =>
      var ms := messages + [AiMessage(c)];
      match g.route(ms)
      case Failure(e) => Failure(NodeFailed(e))
      case Success(ToTools) => Success((Some(Tools), ms))
      case Success(ToEnd) => Success((None, ms))
  }

  /** The `tools` node: its message appended; the edge always leads back to `chatbot`. */
  function ToolsStep(g: Graph, env: Env, messages: seq<Message>): (r: Result<(Option<GraphNode>, seq<Message>), TurnError>)
    ensures r.Success? ==> r.value.0 == Some(Chatbot)
    ensures r.Success? <==> g.tools(messages, env.callId(|messages|)).Success?
    ensures r.Success? ==> r.value.1 == messages + [g.tools(messages, env.callId(|messages|)).value]
  {
    match g.tools(messages, env.callId(|messages|))
    case Failure(e) => Failure(NodeFailed(e))
    case Success(m) => Success((Some(Chatbot), messages + [m]))
  }

  /** At most `fuel` node executions starting at node `at`. */
  function Run(g: Graph, env: Env, at: GraphNode, messages: seq<Message>, fuel: nat): (r: RunResult)
    ensures messages <= r.messages && |r.messages| <= |messages| + fuel
    ensures r.OutOfSteps? ==> |r.messages| == |messages| + fuel
    decreases fuel
  {
    if fuel == 0 then OutOfSteps(messages)
    else
      var step := if at == Chatbot then ChatbotStep(g, env, messages) else ToolsStep(g, env, messages);
      match step
      case Failure(e) => Failed(e, messages)
      case Success((None, ms)) => Ended(ms)
      case Success((Some(next), ms)) => Run(g, env, next, ms, fuel - 1)
  }

  /** A turn: the graph entered at `chatbot` with the turn's input messages. */
  function Turn(g: Graph, env: Env, input: seq<Message>, fuel: nat): (r: RunResult)
    ensures input <= r.messages && |r.messages| <= |input| + fuel
  {
    Run(g, env, Chatbot, input, fuel)
  }

  /** A `chatbot -> tools` round at the start of a turn: the turn goes on from the conversation the
      round leaves, with two steps fewer. */
  lemma RoundTrip(g: Graph, env: Env, input: seq<Message>, ms: seq<Message>, ms2: seq<Message>, fuel: nat)
    requires fuel >= 2
    requires ChatbotStep(g, env, input) == Success((Some(Tools), ms))
    requires ToolsStep(g, env, ms) == Success((Some(Chatbot), ms2))
    ensures Turn(g, env, input, fuel) == Turn(g, env, ms2, fuel - 2)
  {
    assert Turn(g, env, input, fuel) == Run(g, env, Tools, ms, fuel - 1);
  }

  /** Model and tool messages alternate, beginning with a model message. */
  predicate Alternating(s: seq<Message>) {
    forall i :: 0 <= i < |s| ==> if i % 2 == 0 then s[i].AiMessage? else s[i].ToolMessage?
  }

  /** Every model message of the turn that is followed by another message was routed to `tools`. */
  ghost predicate RoutedToTools(g: Graph, input: seq<Message>, ms: seq<Message>)
    requires |input| <= |ms|
  {
    forall k :: |input| < k < |ms| && (k - |input|) % 2 == 1 ==> g.route(ms[..k]) == Success(ToTools)
  }

  /** Every tool message of the turn is what the tool node makes of the conversation before it. */
  ghost predicate ToolsAnswered(g: Graph, env: Env, input: seq<Message>, ms: seq<Message>)
    requires |input| <= |ms|
  {
    forall i :: |input| <= i < |ms| && (i - |input|) % 2 == 1 ==>
      g.tools(ms[..i], env.callId(i)) == Success(ms[i])
  }

  /** What a turn appends is `chatbot -> (tools -> chatbot)* [-> END]`: model messages at even
      offsets, each but the last routed to `tools`; each tool message the tool node's answer to the
      conversation before it; and a turn that reaches END does so on a model message routed to END. */
  ghost predicate TraceOf(g: Graph, env: Env, input: seq<Message>, r: RunResult) {
    var ms := r.messages;
    && input <= ms
    && Alternating(ms[|input|..])
    && RoutedToTools(g, input, ms)
    && ToolsAnswered(g, env, input, ms)
    && (r.Ended? ==> (|ms| - |input|) % 2 == 1 && g.route(ms) == Success(ToEnd))
  }

  lemma {:induction false} TurnTrace(g: Graph, env: Env, input: seq<Message>, fuel: nat)
    requires AnswersWithToolMessages(g)
    ensures TraceOf(g, env, input, Turn(g, env, input, fuel))
    ensures |Turn(g, env, input, fuel).messages| <= |input| + fuel
    decreases fuel
  {
    var r := Turn(g, env, input, fuel);
    if fuel == 0 {
      assert r.messages[|input|..] == [];
    } else {
      match ChatbotStep(g, env, input)
      case Failure(_) =>
        assert r.messages[|input|..] == [];
      case Success((None, ms)) =>
        assert r == Ended(ms);
        var c :| env.model(input) == Success(c) && ms == input + [AiMessage(c)];
        assert ms[|input|..] == [AiMessage(c)];
      case Success((Some(next), ms)) =>
        var c :| env.model(input) == Success(c) && ms == input + [AiMessage(c)];
        if fuel == 1 {
          assert r == OutOfSteps(ms);
          assert ms[|input|..] == [AiMessage(c)];
        } else {
          assert next == Tools;
          assert r == Run(g, env, Tools, ms, fuel - 1);
          match ToolsStep(g, env, ms)
          case Failure(_) =>
            assert r == Failed(ToolsStep(g, env, ms).error, ms);
            assert ms[|input|..] == [AiMessage(c)];
          case Success((n2, ms2)) =>
            assert r == Turn(g, env, ms2, fuel - 2);
            TurnTrace(g, env, ms2, fuel - 2);
            TraceExtends(g, env, input, ms, ms2, r);
        }
    }
  }

  /** One `chatbot -> tools` round in front of a trace is again a trace. */
  lemma TraceExtends(g: Graph, env: Env, input: seq<Message>, ms: seq<Message>, ms2: seq<Message>, r: RunResult)
    requires ChatbotStep(g, env, input) == Success((Some(Tools), ms))
    requires ToolsStep(g, env, ms) == Success((Some(Chatbot), ms2))
    requires TraceOf(g, env, ms2, r)
    requires AnswersWithToolMessages(g)
    ensures TraceOf(g, env, input, r)
  {
    var c :| env.model(input) == Success(c) && ms == input + [AiMessage(c)];
    var m := g.tools(ms, env.callId(|ms|)).value;
    assert ms2 == input + [AiMessage(c), m];
    TraceCons(g, env, input, c, m, r);
  }

  /** A model message routed to `tools` and the tool node's answer to it, in front of a trace. */
  lemma TraceCons(g: Graph, env: Env, input: seq<Message>, c: string, m: Message, r: RunResult)
    requires m.ToolMessage?
    requires g.route(input + [AiMessage(c)]) == Success(ToTools)
    requires g.tools(input + [AiMessage(c)], env.callId(|input| + 1)) == Success(m)
    requires TraceOf(g, env, input + [AiMessage(c), m], r)
    ensures TraceOf(g, env, input, r)
  {
    var out := r.messages;
    AlternatingExtends(input, c, m, out);
    RoutedExtends(g, input, c, m, out);
    AnsweredExtends(g, env, input, c, m, out);
  }

  lemma RoutedExtends(g: Graph, input: seq<Message>, c: string, m: Message, out: seq<Message>)
    requires input + [AiMessage(c), m] <= out
    requires g.route(input + [AiMessage(c)]) == Success(ToTools)
    requires RoutedToTools(g, input + [AiMessage(c), m], out)
    ensures RoutedToTools(g, input, out)
  {
    forall k | |input| < k < |out| && (k - |input|) % 2 == 1
      ensures g.route(out[..k]) == Success(ToTools)
    {
      if k == |input| + 1 {
        assert out[..k] == input + [AiMessage(c)];
      } else {
        assert (k - (|input| + 2)) % 2 == 1;
      }
    }
  }

  lemma AnsweredExtends(g: Graph, env: Env, input: seq<Message>, c: string, m: Message, out: seq<Message>)
    requires input + [AiMessage(c), m] <= out
    requires g.tools(input + [AiMessage(c)], env.callId(|input| + 1)) == Success(m)
    requires ToolsAnswered(g, env, input + [AiMessage(c), m], out)
    ensures ToolsAnswered(g, env, input, out)
  {
    forall i | |input| <= i < |out| && (i - |input|) % 2 == 1
      ensures g.tools(out[..i], env.callId(i)) == Success(out[i])
    {
      if i == |input| + 1 {
        assert out[..i] == input + [AiMessage(c)];
        assert out[i] == m;
      } else {
        assert (i - (|input| + 2)) % 2 == 1;
      }
    }
  }

  lemma AlternatingExtends(input: seq<Message>, c: string, m: Message, out: seq<Message>)
    requires m.ToolMessage?
    requires input + [AiMessage(c), m] <= out
    requires Alternating(out[|input| + 2..])
    ensures Alternating(out[|input|..])
  {
    var app := out[|input|..];
    forall i | 0 <= i < |app|
      ensures if i % 2 == 0 then app[i].AiMessage? else app[i].ToolMessage?
    {
      if i >= 2 {
        assert app[i] == out[|input| + 2..][i - 2];
      }
    }
  }
}
