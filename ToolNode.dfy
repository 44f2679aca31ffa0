/**
 * `BasicToolNode`: a name-to-tool registry built once from a list, and the node that
 * parses the last message's tool call, looks the tool up, invokes it and wraps the result.
 */
module ToolNode {
  import opened Wrappers
  import opened JsonValue
  import opened ToolCall

  /** The conversation's messages (langchain's HumanMessage, SystemMessage, AIMessage, ToolMessage). */
  datatype Message =
    | HumanMessage(content: string)
    | SystemMessage(content: string)
    | AiMessage(content: string)
    | ToolMessage(content: string, name: string, toolCallId: string)

  datatype ToolKind = KnowledgeBaseQuery | WebSearch

  /** A registered tool: its name and which capability stands behind it. */
  datatype Tool = Tool(name: string, kind: ToolKind)

  /** Running a tool on its arguments: a result, or the message of the tool's own exception. */
  type Invoker = (Tool, Json) -> Result<Json, string>

  /** `BasicToolNode`: the registry `tools_by_name`, fixed when the node is built. */
  datatype BasicToolNode = BasicToolNode(toolsByName: map<string, Tool>)

  /** The index of the last tool in `tools` named `n`. */
  predicate IsLastNamed(tools: seq<Tool>, i: nat, n: string) {
    i < |tools| && tools[i].name == n && forall j :: i < j < |tools| ==> tools[j].name != n
  }

  /** `{tool.name: tool for tool in tools}`: every listed name is a key, and a name listed
      twice maps to the tool listed last. */
  function Registry(tools: seq<Tool>): (m: map<string, Tool>)
    ensures IsRegistryOf(tools, m)
  {
    if tools == [] then map[]
    else
      var init := tools[..|tools| - 1];
      var t := tools[|tools| - 1];
      RegistrySnoc(init, t, Registry(init));
      assert init + [t] == tools;
      Registry(init)[t.name := t]
  }

  /** `m` maps exactly the listed names, each to the tool listed last under it. */
  ghost predicate IsRegistryOf(tools: seq<Tool>, m: map<string, Tool>) {
    && (forall n :: n in m <==> IsListed(tools, n))
    && (forall i: nat, n :: IsLastNamed(tools, i, n) ==> n in m && m[n] == tools[i])
    && (forall n :: n in m ==> m[n] in tools && m[n].name == n)
  }

  /** Adding the entry of one more tool keeps the map a registry of the longer list. */
  lemma RegistrySnoc(init: seq<Tool>, t: Tool, r: map<string, Tool>)
    requires IsRegistryOf(init, r)
    ensures IsRegistryOf(init + [t], r[t.name := t])
  {
    var tools := init + [t];
    var m := r[t.name := t];
    forall n ensures n in m <==> IsListed(tools, n) {
      if IsListed(tools, n) {
        var u :| u in tools && u.name == n;
        assert u in init || u == t;
      }
      if IsListed(init, n) {
        var u :| u in init && u.name == n;
        assert u in tools;
      }
      if n == t.name {
        assert t in tools;
      }
    }
    forall i: nat, n | IsLastNamed(tools, i, n) ensures n in m && m[n] == tools[i] {
      if i < |init| {
        assert tools[|init|] == t && t.name != n;
        assert IsLastNamed(init, i, n) by {
          forall j | i < j < |init| ensures init[j].name != n {
            assert init[j] == tools[j];
          }
        }
        assert m[n] == r[n] == init[i] == tools[i];
      } else {
        assert tools[i] == t;
      }
    }
    forall n | n in m ensures m[n] in tools && m[n].name == n {
      if n != t.name {
        assert r[n] in init;
      }
    }
  }

  /** Some tool in `tools` is named `n`. */
  predicate IsListed(tools: seq<Tool>, n: string) {
    exists t :: t in tools && t.name == n
  }

  /** `BasicToolNode.__init__`. */
  function NewToolNode(tools: seq<Tool>): (node: BasicToolNode)
    ensures forall n :: n in node.toolsByName <==> IsListed(tools, n)
    ensures forall n :: n in node.toolsByName ==> node.toolsByName[n] in tools && node.toolsByName[n].name == n
  {
    BasicToolNode(Registry(tools))
  }

  /** The ways a call of the node fails, with the Python exception each stands for. */
  datatype NodeError =
    | NoMessages                  // IndexError: messages[-1] of an empty list
    | BadToolCall(cause: ParseError) // ValueError from parse_tool_call_from_content
    | NotAnObject                 // TypeError: the decoded value is not a dict
    | MissingKey(key: string)     // KeyError: no "name" or no "arguments"
    | UnhashableName              // TypeError: a list or dict used as a dict key
    | NotRegistered(name: Json)   // ValueError(f"Tool {name} not registered")
    | ToolFailed(message: string) // the tool's own exception, propagated unchanged

  /** The parsed `(name, arguments)` of the tool call in the last message. */
  function ParsedCall(messages: seq<Message>, decode: Decoder): (r: Result<(Json, Json), NodeError>)
    ensures r == Failure(NoMessages) <==> messages == []
    ensures r.Success? ==>
      && messages != [] && ParseToolCall(messages[|messages| - 1].content, decode).Success?
      && var data := ParseToolCall(messages[|messages| - 1].content, decode).value;
         && data.Obj? && "name" in data.fields && "arguments" in data.fields
         && r.value == (data.fields["name"], data.fields["arguments"])
    ensures messages != [] && ParseToolCall(messages[|messages| - 1].content, decode).Failure? ==>
      r == Failure(BadToolCall(ParseToolCall(messages[|messages| - 1].content, decode).error))
  {
    if messages == [] then Failure(NoMessages)
    else
      match ParseToolCall(messages[|messages| - 1].content, decode)
      case Failure(e) => Failure(BadToolCall(e))
      case Success(data) =>
        if !data.Obj? then Failure(NotAnObject)
        else if "name" !in data.fields then Failure(MissingKey("name"))
        else if "arguments" !in data.fields then Failure(MissingKey("arguments"))
        else Success((data.fields["name"], data.fields["arguments"]))
  }

  /** The registered tool a parsed name selects, or why there is none. */
  function Lookup(node: BasicToolNode, name: Json): (r: Result<(string, Tool), NodeError>)
    ensures r.Success? ==>
      && name == Str(r.value.0) && r.value.0 in node.toolsByName
      && r.value.1 == node.toolsByName[r.value.0]
    ensures r.Failure? ==> r.error == UnhashableName || r.error == NotRegistered(name)
    ensures r == Failure(NotRegistered(name)) <==>
      && !name.Arr? && !name.Obj?
      && !(name.Str? && name.s in node.toolsByName)
  {
    match name
    case Arr(_) => Failure(UnhashableName)
    case Obj(_) => Failure(UnhashableName)
    case Str(n) => if n in node.toolsByName then Success((n, node.toolsByName[n])) else Failure(NotRegistered(name))
    case _ => Failure(NotRegistered(name))
  }

  /** `BasicToolNode.__call__`: the messages to append, exactly one tool message, or the error raised.
      `encode` is `json.dumps`; `callId` is the fresh `uuid4` of this call. */
  function Call(node: BasicToolNode, messages: seq<Message>, decode: Decoder, invoke: Invoker,
                encode: Json -> string, callId: string): (r: Result<seq<Message>, NodeError>)
    ensures r.Success? || (r.Failure? && r.error.ToolFailed?) ==>
      var call := ParsedCall(messages, decode);
      && call.Success? && call.value.0.Str? && call.value.0.s in node.toolsByName
      && var ran := invoke(node.toolsByName[call.value.0.s], call.value.1);
         && (r.Success? ==> ran.Success? && r.value == [ToolMessage(encode(ran.value), call.value.0.s, callId)])
         && (r.Failure? ==> ran == Failure(r.error.message))
  {
    match ParsedCall(messages, decode)
    case Failure(e) => Failure(e)
    case Success((name, args)) =>
      match Lookup(node, name)
      case Failure(e) => Failure(e)
      case Success((n, tool)) =>
        match invoke(tool, args)
        case Failure(m) => Failure(ToolFailed(m))
        case Success(v) => Success([ToolMessage(encode(v), n, callId)])
  }

  /** A name that is not registered fails with `NotRegistered` carrying that name, and no tool
      runs: the outcome is the same whatever the tools would have done. */
  lemma UnknownToolNeverInvoked(node: BasicToolNode, messages: seq<Message>, decode: Decoder,
                                invoke1: Invoker, invoke2: Invoker, encode: Json -> string, callId: string,
                                name: string, args: Json)
    requires ParsedCall(messages, decode) == Success((Str(name), args))
    requires name !in node.toolsByName
    ensures Call(node, messages, decode, invoke1, encode, callId) == Failure(NotRegistered(Str(name)))
    ensures Call(node, messages, decode, invoke1, encode, callId) == Call(node, messages, decode, invoke2, encode, callId)
  {
  }

  /** A call `{"name": n, "arguments": args}` in the last message, for a registered `n`, runs exactly
      the tool registered as `n` on `args` and yields one tool message named `n` holding the
      serialised result. */
  lemma RegisteredToolDispatched(node: BasicToolNode, messages: seq<Message>, decode: Decoder,
                                 invoke: Invoker, encode: Json -> string, callId: string,
                                 p: string, s: string, q: string, n: string, args: Json)
    requires messages != [] && messages[|messages| - 1].content == p + OPEN + s + CLOSE + q
    requires !Text.Contains(p, OPEN) && !Text.Contains(s, CLOSE)
    requires decode(Text.PyStrip(s)) == Success(Obj(map["name" := Str(n), "arguments" := args]))
    requires n in node.toolsByName
    ensures Call(node, messages, decode, invoke, encode, callId) ==
      match invoke(node.toolsByName[n], args)
      case Success(v) => Success([ToolMessage(encode(v), n, callId)])
      case Failure(m) => Failure(ToolFailed(m))
  {
    ParseFirstBlock(p, s, q, decode);
    var data := Obj(map["name" := Str(n), "arguments" := args]);
    assert data.fields["name"] == Str(n);
    assert ParsedCall(messages, decode) == Success((Str(n), args));
  }

  /** A registry built from a list holds the tool listed last under each name. */
  lemma {:induction false} LastDuplicateWins(tools: seq<Tool>, a: Tool, b: Tool)
    requires a.name == b.name
    ensures Registry(tools + [a, b])[a.name] == b
    ensures Registry(tools + [b, a])[a.name] == a
  {
    assert IsLastNamed(tools + [a, b], |tools| + 1, a.name);
    assert IsLastNamed(tools + [b, a], |tools| + 1, a.name);
  }
}
