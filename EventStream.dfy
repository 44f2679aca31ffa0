/**
 * The two `event_generator`s of the server: they turn the graph's internal event stream into
 * the typed frames of a `text/event-stream` response (section 9.2 "Server-sent events" of the
 * WHATWG HTML Living Standard), hiding tool-call markup from the token stream with a gate flag.
 */
module EventStream {
  import opened Wrappers
  import opened Text
  import opened JsonValue
  import opened ToolCall
  import opened ClientFrames

  /** Which of the two streaming endpoints: retrieval (`/rag/stream`) or research (`/research/stream`). */
  datatype Endpoint = RagEndpoint | ResearchEndpoint

  /** One item of a tool's `results`, reduced to the two keys the stream reads; `None` is a missing key. */
  datatype SearchResult = SearchResult(url: Option<string>, title: Option<string>)

  /** An event of `astream_events(..., version="v2")`, reduced to what the generators read. */
  datatype GraphEvent =
    | ChatModelStream(chunk: string)                        // on_chat_model_stream: the chunk's content
    | ToolStart(query: Option<string>, input: Option<string>) // on_tool_start: the input's "query" and "input"
    | ToolEnd(results: seq<SearchResult>)                  // on_tool_end: the output's "results" (missing = [])
    | OtherEvent                                          // every other event kind

  /** How the graph's event stream stops: it is exhausted, or it raises an exception whose `str` is given. */
  datatype StreamEnd = Exhausted | Raised(message: string)

  datatype Kind = User | Start | Token | Search | Urls | Done | Error

  /** An outward frame: its event name and the one string its JSON payload carries. */
  datatype Frame = Frame(kind: Kind, text: string)

  const ASSISTANT: string := "Assistant:"
  const DONE_TEXT: string := "[DONE]"
  /** U+1F50E LEFT-POINTING MAGNIFYING GLASS, then " Searching: ". */
  const SEARCHING: string := "\U{1F50E} Searching: "
  /** U+1F310 GLOBE WITH MERIDIANS, then " Top Search Results:". */
  const TOP_RESULTS: string := "\U{1F310} Top Search Results:"

  const MISSING_INPUT: string := "Missing user_input"

  function KindName(k: Kind): string {
    match k
    case User => "user"
    case Start => "start"
    case Token => "token"
    case Search => "search"
    case Urls => "urls"
    case Done => "done"
    case Error => "error"
  }

  predicate IsTerminal(k: Kind) {
    k == Done || k == Error
  }

  /** The JSON payload of a frame: `{"error": text}` for an error frame, `{"content": text}` otherwise. */
  function Payload(f: Frame): Json {
    if f.kind == Error then Obj(map["error" := Str(f.text)]) else Obj(map["content" := Str(f.text)])
  }

  /** The two lines of a frame: `event: ` and its name, then `data: ` and the JSON-encoded payload
      (`json.dumps`). This is also the text a client cuts out for the frame. */
  function FrameText(f: Frame, encode: Json -> string): string {
    EVENT_PREFIX + KindName(f.kind) + "\n" + DATA_PREFIX + encode(Payload(f))
  }

  /** A frame as sent: its two lines, then a blank line. */
  function Render(f: Frame, encode: Json -> string): string {
    FrameText(f, encode) + SEP
  }

  /** The whole response body: the frames rendered one after another. */
  function Wire(fs: seq<Frame>, encode: Json -> string): string {
    if fs == [] then "" else Render(fs[0], encode) + Wire(fs[1..], encode)
  }

  /** What `json.dumps` makes of an object: one line, between braces. */
  predicate DumpsObject(e: string) {
    |e| >= 2 && e[0] == '{' && e[|e| - 1] == '}' && '\n' !in e
  }

  /** A rendered frame is read back by the client as that frame: the buffer comes apart into its text
      and nothing else, and the text yields the frame's event name and its payload; the payload holds
      the frame's text under `error` or `content`. */
  lemma RenderedFrameRead(f: Frame, encode: Json -> string, parse: JsonParser)
    requires DumpsObject(encode(Payload(f))) && parse(encode(Payload(f))) == Some(Payload(f))
    ensures SplitFrames(Render(f, encode)) == ([FrameText(f, encode)], "")
    ensures FrameFields(JsTrim(FrameText(f, encode)), parse) == Some((KindName(f.kind), Payload(f)))
    ensures Prop(Payload(f), if f.kind == Error then "error" else "content") == Some(Str(f.text))
  {
    FrameTextIsPiece(f, encode);
    assert Render(f, encode) == JoinFrames([FrameText(f, encode)]) + "";
    ContainsIff("", SEP);
    SplitJoinFrames([FrameText(f, encode)], "");
    FrameTextFields(f, encode, parse);
  }

  /** The two lines of a frame's text. */
  lemma FrameTextLines(f: Frame, encode: Json -> string)
    requires DumpsObject(encode(Payload(f)))
    ensures var l1, l2 := EVENT_PREFIX + KindName(f.kind), DATA_PREFIX + encode(Payload(f));
            && FrameText(f, encode) == l1 + ['\n'] + l2 && '\n' !in l1 && '\n' !in l2
  {
    var k := KindName(f.kind);
    var e := encode(Payload(f));
    var l1, l2 := EVENT_PREFIX + k, DATA_PREFIX + e;
    assert '\n' !in k;
    assert '\n' !in l1 by {
      forall j | 0 <= j < |l1| ensures l1[j] != '\n' {
        if j >= 7 { assert l1[j] == k[j - 7]; }
      }
    }
    assert '\n' !in l2 by {
      forall j | 0 <= j < |l2| ensures l2[j] != '\n' {
        if j >= 6 { assert l2[j] == e[j - 6]; }
      }
    }
  }

  /** The only line feed of a frame's text is followed by the `d` of `data: `. */
  lemma FrameTextIsPiece(f: Frame, encode: Json -> string)
    requires DumpsObject(encode(Payload(f)))
    ensures FramePiece(FrameText(f, encode))
  {
    FrameTextLines(f, encode);
    var l1, l2 := EVENT_PREFIX + KindName(f.kind), DATA_PREFIX + encode(Payload(f));
    var t := FrameText(f, encode);
    assert forall j :: 0 <= j < |l1| ==> t[j] == l1[j];
    assert forall j :: |l1| < j < |t| ==> t[j] == l2[j - |l1| - 1];
    assert t[|l1| + 1] == l2[0] == 'd';
  }

  /** A frame's text, trimmed and read line by line, gives its event name and its payload. */
  lemma FrameTextFields(f: Frame, encode: Json -> string, parse: JsonParser)
    requires DumpsObject(encode(Payload(f))) && parse(encode(Payload(f))) == Some(Payload(f))
    ensures FrameFields(JsTrim(FrameText(f, encode)), parse) == Some((KindName(f.kind), Payload(f)))
  {
    var k, j := KindName(f.kind), Payload(f);
    var lines := [EVENT_PREFIX + k, DATA_PREFIX + encode(j)];
    FrameTextSplit(f, encode);
    FrameLinesRead(k, encode(j), j, parse);
    assert k != "" && JsTruthy(j);
    var raw := JsTrim(FrameText(f, encode));
    assert Split(raw, '\n') == lines;
    assert LastEvent(Split(raw, '\n')) == Some(k) && LastData(Split(raw, '\n'), parse) == Some(j);
  }

  /** Trimming leaves a frame's text as it is, and it splits into its two lines. */
  lemma FrameTextSplit(f: Frame, encode: Json -> string)
    requires DumpsObject(encode(Payload(f)))
    ensures JsTrim(FrameText(f, encode)) == FrameText(f, encode)
    ensures Split(FrameText(f, encode), '\n') == [EVENT_PREFIX + KindName(f.kind), DATA_PREFIX + encode(Payload(f))]
  {
    FrameTextLines(f, encode);
    var e := encode(Payload(f));
    var l1, l2 := EVENT_PREFIX + KindName(f.kind), DATA_PREFIX + e;
    var t := FrameText(f, encode);
    assert t[0] == 'e' && t[|t| - 1] == e[|e| - 1] == '}';
    StripUnpadded(t, IsJsSpace);
    assert Join([l1, l2], '\n') == t;
    SplitJoin([l1, l2], '\n');
  }

  /** The `event: ` line gives the event name and the `data: ` line the parsed payload. */
  lemma FrameLinesRead(k: string, e: string, j: Json, parse: JsonParser)
    requires parse(e) == Some(j)
    ensures LastEvent([EVENT_PREFIX + k, DATA_PREFIX + e]) == Some(k)
    ensures LastData([EVENT_PREFIX + k, DATA_PREFIX + e], parse) == Some(j)
  {
    var l1, l2 := EVENT_PREFIX + k, DATA_PREFIX + e;
    var lines := [l1, l2];
    assert lines[..1] == [l1];
    assert StartsWith(l1, EVENT_PREFIX) && l1[|EVENT_PREFIX|..] == k;
    assert !StartsWith(l2, EVENT_PREFIX) by { assert l2[0] == 'd'; }
    assert StartsWith(l2, DATA_PREFIX) && l2[|DATA_PREFIX|..] == e;
  }

  /** The texts a client cuts out of a whole response body, one per frame. */
  function FrameTexts(fs: seq<Frame>, encode: Json -> string): (ts: seq<string>)
    ensures |ts| == |fs|
    ensures forall i :: 0 <= i < |fs| ==> ts[i] == FrameText(fs[i], encode)
  {
    seq(|fs|, i requires 0 <= i < |fs| => FrameText(fs[i], encode))
  }

  /** A whole response body is read back frame by frame, in order, with nothing left in the buffer,
      when every payload encodes as `json.dumps` does and parses back to itself. */
  lemma {:induction false} RenderedStreamRead(fs: seq<Frame>, encode: Json -> string, parse: JsonParser)
    requires forall i :: 0 <= i < |fs| ==>
               DumpsObject(encode(Payload(fs[i]))) && parse(encode(Payload(fs[i]))) == Some(Payload(fs[i]))
    ensures SplitFrames(Wire(fs, encode)) == (FrameTexts(fs, encode), "")
    ensures forall i :: 0 <= i < |fs| ==>
              FrameFields(JsTrim(FrameTexts(fs, encode)[i]), parse) == Some((KindName(fs[i].kind), Payload(fs[i])))
  {
    WireIsJoined(fs, encode);
    ContainsIff("", SEP);
    assert JoinFrames(FrameTexts(fs, encode)) + "" == Wire(fs, encode);
    assert FramePieces(FrameTexts(fs, encode)) by {
      forall i | 0 <= i < |fs| ensures FramePiece(FrameTexts(fs, encode)[i]) {
        FrameTextIsPiece(fs[i], encode);
      }
    }
    SplitJoinFrames(FrameTexts(fs, encode), "");
    forall i | 0 <= i < |fs|
      ensures FrameFields(JsTrim(FrameTexts(fs, encode)[i]), parse) == Some((KindName(fs[i].kind), Payload(fs[i])))
    {
      FrameTextFields(fs[i], encode, parse);
    }
  }

  /** A body is its frames' texts, each followed by a blank line. */
  lemma {:induction false} WireIsJoined(fs: seq<Frame>, encode: Json -> string)
    ensures Wire(fs, encode) == JoinFrames(FrameTexts(fs, encode))
  {
    if fs != [] {
      WireIsJoined(fs[1..], encode);
      assert FrameTexts(fs, encode)[1..] == FrameTexts(fs[1..], encode);
    }
  }

  // ---------------------------------------------------------------
  // The gate and the frames of one event

  /** The tool-call flag after one event: set by a chunk holding an opening tag, else cleared by a chunk
      holding a closing tag; the opening tag is checked first. */
  function NextGate(inTool: bool, e: GraphEvent): (r: bool)
    ensures e.ChatModelStream? && Contains(e.chunk, OPEN) ==> r
    ensures e.ChatModelStream? && !Contains(e.chunk, OPEN) && Contains(e.chunk, CLOSE) ==> !r
    ensures !(e.ChatModelStream? && (Contains(e.chunk, OPEN) || Contains(e.chunk, CLOSE))) ==> r == inTool
  {
    match e
    case ChatModelStream(t) =>
      if Contains(t, OPEN) then true else if Contains(t, CLOSE) then false else inTool
    case _ => inTool
  }

  /** The flag after a prefix of the events, starting cleared. */
  function Gate(events: seq<GraphEvent>): bool {
    if events == [] then false
    else NextGate(Gate(events[..|events| - 1]), events[|events| - 1])
  }

  /** `inp.get("query") or inp.get("input", "")`. */
  function QueryText(query: Option<string>, input: Option<string>): (q: string)
    ensures query.Some? && query.value != "" ==> q == query.value
    ensures (query.None? || query.value == "") && input.Some? ==> q == input.value
    ensures (query.None? || query.value == "") && input.None? ==> q == ""
  {
    if query.Some? && query.value != "" then query.value
    else if input.Some? then input.value
    else ""
  }

  /** The text of one search-result entry as the code writes it: the nested f-string's `\\n` puts a
      backslash and a letter `n` between the title and the indented url. */
  function UrlEntryTextAsWritten(i: nat, title: string, url: string): string {
    DecimalString(i) + ". " + title + "\\n   " + url
  }

  /** The entry text the line evidently means to write: the number, the title, and the url on a line of its
      own, indented. The generators below send the text as written, `UrlEntryTextAsWritten`. */
  function UrlEntryText(i: nat, title: string, url: string): string {
    DecimalString(i) + ". " + title + "\n   " + url
  }

  /** The frame for the result at 1-based position `i`: only a result with a non-empty url has one. */
  function EntryFrames(i: nat, r: SearchResult): (fs: seq<Frame>)
    ensures |fs| <= 1
    ensures |fs| == 1 <==> r.url.Some? && r.url.value != ""
    ensures |fs| == 1 ==> fs[0] == Frame(Urls, UrlEntryTextAsWritten(i, if r.title.Some? then r.title.value else "", r.url.value))
  {
    if r.url.Some? && r.url.value != "" then
      [Frame(Urls, UrlEntryTextAsWritten(i, if r.title.Some? then r.title.value else "", r.url.value))]
    else []
  }

  /** The entries for `results`, numbered by position among all results. */
  function UrlEntries(results: seq<SearchResult>): (fs: seq<Frame>)
    ensures |fs| <= |results|
    ensures forall k :: 0 <= k < |fs| ==> fs[k].kind == Urls
  {
    if results == [] then []
    else UrlEntries(results[..|results| - 1]) + EntryFrames(|results|, results[|results| - 1])
  }

  /** A chunk that may be shown as a token: non-empty and holding neither tag. */
  predicate CleanToken(t: string) {
    t != "" && !Contains(t, OPEN) && !Contains(t, CLOSE)
  }

  /** The frames one event produces, given the flag before it. */
  function EventFrames(ep: Endpoint, inTool: bool, e: GraphEvent): (fs: seq<Frame>)
    ensures forall k :: 0 <= k < |fs| ==> fs[k].kind in {Token, Search, Urls}
    ensures forall k :: 0 <= k < |fs| && fs[k].kind == Token ==>
              e == ChatModelStream(fs[k].text) && !inTool && CleanToken(fs[k].text)
    ensures e.ChatModelStream? && !inTool && CleanToken(e.chunk) ==> fs == [Frame(Token, e.chunk)]
    ensures e.ToolStart? ==> fs == [Frame(Search, SEARCHING + QueryText(e.query, e.input))]
    ensures ep == RagEndpoint || !e.ToolEnd? || e.results == [] ==> forall k :: 0 <= k < |fs| ==> fs[k].kind != Urls
    ensures ep == ResearchEndpoint && e.ToolEnd? && e.results != [] ==>
              fs == [Frame(Urls, TOP_RESULTS)] + UrlEntries(e.results)
  {
    match e
    case ChatModelStream(t) =>
      if Contains(t, OPEN) || Contains(t, CLOSE) then []
      else if !inTool && t != "" then [Frame(Token, t)]
      else []
    case ToolStart(q, i) => [Frame(Search, SEARCHING + QueryText(q, i))]
    case ToolEnd(results) =>
      if ep == ResearchEndpoint && results != [] then [Frame(Urls, TOP_RESULTS)] + UrlEntries(results) else []
    case OtherEvent => []
  }

  // ---------------------------------------------------------------
  // The whole stream

  /** The frames for a prefix of consumed events, after `user` and `start`. */
  function Body(ep: Endpoint, events: seq<GraphEvent>): (fs: seq<Frame>)
    ensures forall k :: 0 <= k < |fs| ==> fs[k].kind in {Token, Search, Urls}
    ensures forall k :: 0 <= k < |fs| && fs[k].kind == Token ==> CleanToken(fs[k].text)
    ensures ep == RagEndpoint ==> forall k :: 0 <= k < |fs| ==> fs[k].kind != Urls
  {
    if events == [] then []
    else
      var init := events[..|events| - 1];
      Body(ep, init) + EventFrames(ep, Gate(init), events[|events| - 1])
  }

  /** How many events the generator consumes: all of them, unless the client is seen gone before one. */
  function Consumed(events: seq<GraphEvent>, disconnectAt: Option<nat>): (n: nat)
    ensures n <= |events|
    ensures n < |events| <==> disconnectAt.Some? && disconnectAt.value < |events|
  {
    if disconnectAt.Some? && disconnectAt.value < |events| then disconnectAt.value else |events|
  }

  /** The last frame: `done` after the loop (ended or broken off by a disconnect), `error` when the
      event stream raised. */
  function Terminal(events: seq<GraphEvent>, end: StreamEnd, disconnectAt: Option<nat>): (f: Frame)
    ensures IsTerminal(f.kind)
    ensures f.kind == Error <==> end.Raised? && Consumed(events, disconnectAt) == |events|
    ensures f.kind == Error ==> f.text == end.message
    ensures f.kind == Done ==> f.text == DONE_TEXT
  {
    if Consumed(events, disconnectAt) == |events| && end.Raised? then Frame(Error, end.message)
    else Frame(Done, DONE_TEXT)
  }

  /** What the generator of endpoint `ep` yields for `userInput`, the graph's `events`, how that stream
      ends, and the position of the first event at which the client is seen disconnected. */
  function Frames(ep: Endpoint, userInput: string, events: seq<GraphEvent>, end: StreamEnd,
                  disconnectAt: Option<nat>): (fs: seq<Frame>)
    ensures |fs| >= 3
    ensures fs[0] == Frame(User, userInput) && fs[1] == Frame(Start, ASSISTANT)
    ensures IsTerminal(fs[|fs| - 1].kind) && forall k :: 0 <= k < |fs| - 1 ==> !IsTerminal(fs[k].kind)
    ensures fs[|fs| - 1].kind == Error <==> end.Raised? && Consumed(events, disconnectAt) == |events|
    ensures forall k :: 2 <= k < |fs| - 1 ==> fs[k].kind in {Token, Search, Urls}
    ensures forall k :: 0 <= k < |fs| && fs[k].kind == Token ==> CleanToken(fs[k].text)
    ensures ep == RagEndpoint ==> forall k :: 0 <= k < |fs| ==> fs[k].kind != Urls
  {
    var head := [Frame(User, userInput), Frame(Start, ASSISTANT)];
    var body := Body(ep, events[..Consumed(events, disconnectAt)]);
    var last := Terminal(events, end, disconnectAt);
    ThreeParts(head, body, last);
    head + body + [last]
  }

  /** The elements of `a + b + [x]`, part by part. */
  lemma ThreeParts<T>(a: seq<T>, b: seq<T>, x: T)
    ensures |a + b + [x]| == |a| + |b| + 1 && (a + b + [x])[|a| + |b|] == x
    ensures forall k :: 0 <= k < |a| ==> (a + b + [x])[k] == a[k]
    ensures forall k :: |a| <= k < |a| + |b| ==> (a + b + [x])[k] == b[k - |a|]
  {
  }

  // ---------------------------------------------------------------
  // The generators

  /** The entries of the inner `enumerate(results, start=1)` loop, appended one result at a time. */
  method AppendUrlEntries(frames: seq<Frame>, results: seq<SearchResult>) returns (out: seq<Frame>)
    ensures out == frames + UrlEntries(results)
  {
    out := frames;
    var j := 0;
    while j < |results|
      invariant 0 <= j <= |results|
      invariant out == frames + UrlEntries(results[..j])
    {
      var result := results[j];
      var title := if result.title.Some? then result.title.value else "";
      assert results[..j + 1][..j] == results[..j];
      if result.url.Some? && result.url.value != "" {
        out := out + [Frame(Urls, UrlEntryTextAsWritten(j + 1, title, result.url.value))];
      }
      j := j + 1;
    }
    assert results[..j] == results;
  }

  /** One more consumed event: its frames follow the earlier ones, and the flag advances past it. */
  lemma BodyStep(ep: Endpoint, events: seq<GraphEvent>, i: nat)
    requires i < |events|
    ensures Body(ep, events[..i + 1]) == Body(ep, events[..i]) + EventFrames(ep, Gate(events[..i]), events[i])
    ensures Gate(events[..i + 1]) == NextGate(Gate(events[..i]), events[i])
  {
    assert events[..i + 1][..i] == events[..i];
  }

  /** The body of the `async for` loop for one event: the frames it yields and the flag it leaves. */
  method HandleEvent(ep: Endpoint, inTool: bool, ev: GraphEvent) returns (emitted: seq<Frame>, gate: bool)
    ensures emitted == EventFrames(ep, inTool, ev)
    ensures gate == NextGate(inTool, ev)
  {
    emitted := [];
    gate := inTool;
    match ev {
      case ChatModelStream(token) =>
        if Contains(token, OPEN) {
          gate := true;
        } else if Contains(token, CLOSE) {
          gate := false;
          return;
        }
        if !gate && token != "" {
          emitted := [Frame(Token, token)];
        }
      case ToolStart(q, inp) =>
        emitted := [Frame(Search, SEARCHING + QueryText(q, inp))];
      case ToolEnd(results) =>
        if ep == ResearchEndpoint && results != [] {
          emitted := AppendUrlEntries([Frame(Urls, TOP_RESULTS)], results);
        }
      case OtherEvent =>
    }
  }

  /** The frames of a stream whose generator consumed `i` events. */
  lemma FramesAfter(ep: Endpoint, userInput: string, events: seq<GraphEvent>, end: StreamEnd,
                    disconnectAt: Option<nat>, i: nat)
    requires i == Consumed(events, disconnectAt)
    ensures Frames(ep, userInput, events, end, disconnectAt)
            == [Frame(User, userInput), Frame(Start, ASSISTANT)] + Body(ep, events[..i])
               + [if i == |events| && end.Raised? then Frame(Error, end.message) else Frame(Done, DONE_TEXT)]
  {
  }

  /** The `async for` loop: events handled in order until the stream ends or the client is seen gone.
      Returns the frames yielded and how many events were consumed. */
  method ConsumeEvents(ep: Endpoint, events: seq<GraphEvent>, disconnectAt: Option<nat>)
    returns (body: seq<Frame>, i: nat)
    ensures i == Consumed(events, disconnectAt)
    ensures body == Body(ep, events[..i])
  {
    body := [];
    var inTool := false;
    i := 0;
    while i < |events|
      invariant i <= Consumed(events, disconnectAt)
      invariant inTool == Gate(events[..i])
      invariant body == Body(ep, events[..i])
    {
      if disconnectAt == Some(i) {
        break;
      }
      var emitted;
      emitted, inTool := HandleEvent(ep, inTool, events[i]);
      ConsumeStep(ep, events, disconnectAt, i, body, emitted);
      body := body + emitted;
      i := i + 1;
    }
  }

  /** One turn of the loop keeps its invariant: the event was not yet cut off, and its frames extend the body. */
  lemma ConsumeStep(ep: Endpoint, events: seq<GraphEvent>, disconnectAt: Option<nat>, i: nat,
                    body: seq<Frame>, emitted: seq<Frame>)
    requires i < |events| && i <= Consumed(events, disconnectAt) && disconnectAt != Some(i)
    requires body == Body(ep, events[..i]) && emitted == EventFrames(ep, Gate(events[..i]), events[i])
    ensures i + 1 <= Consumed(events, disconnectAt)
    ensures body + emitted == Body(ep, events[..i + 1])
    ensures Gate(events[..i + 1]) == NextGate(Gate(events[..i]), events[i])
  {
    BodyStep(ep, events, i);
  }

  /** `event_generator`: `user` and `start`, the frames of the consumed events, then `done` after the
      loop or `error` when the event stream raised. */
  method EventGenerator(ep: Endpoint, userInput: string, events: seq<GraphEvent>, end: StreamEnd,
                        disconnectAt: Option<nat>) returns (frames: seq<Frame>)
    ensures frames == Frames(ep, userInput, events, end, disconnectAt)
  {
    frames := [Frame(User, userInput), Frame(Start, ASSISTANT)];
    var body, i := ConsumeEvents(ep, events, disconnectAt);
    frames := frames + body;
    var last: Frame;
    if i == |events| && end.Raised? {
      last := Frame(Error, end.message);
    } else {
      last := Frame(Done, DONE_TEXT);
    }
    FramesAfter(ep, userInput, events, end, disconnectAt, i);
    frames := frames + [last];
  }

  // ---------------------------------------------------------------
  // Properties of the stream

  /** A chunk that opens a tool call. */
  predicate OpensCall(e: GraphEvent) {
    e.ChatModelStream? && Contains(e.chunk, OPEN)
  }

  /** A chunk that holds either tag. */
  predicate HoldsTag(e: GraphEvent) {
    e.ChatModelStream? && (Contains(e.chunk, OPEN) || Contains(e.chunk, CLOSE))
  }

  /** The flag is set exactly when the last chunk holding a tag holds an opening tag (a chunk holding
      both counts as opening). */
  lemma {:induction false} GateIsLastTag(events: seq<GraphEvent>)
    ensures Gate(events) <==> LastTagOpens(events)
  {
    if events != [] {
      var n := |events| - 1;
      GateIsLastTag(events[..n]);
      if OpensCall(events[n]) {
        assert Gate(events);
      } else if HoldsTag(events[n]) {
        LastTagCloses(events);
      } else {
        assert Gate(events) == Gate(events[..n]);
        LastTagUntouched(events);
      }
    }
  }

  /** Some chunk opens a call and no later chunk holds a tag. */
  predicate LastTagOpens(events: seq<GraphEvent>) {
    exists i :: 0 <= i < |events| && OpensCall(events[i]) && NoTagAfter(events, i)
  }

  predicate NoTagAfter(events: seq<GraphEvent>, i: nat) {
    forall j :: i < j < |events| ==> !HoldsTag(events[j])
  }

  lemma LastTagCloses(events: seq<GraphEvent>)
    requires events != [] && HoldsTag(events[|events| - 1]) && !OpensCall(events[|events| - 1])
    ensures !Gate(events) && !LastTagOpens(events)
  {
    var n := |events| - 1;
    forall i | 0 <= i < n ensures !NoTagAfter(events, i) {
      assert i < n < |events| && HoldsTag(events[n]);
    }
  }

  /** A last chunk without a tag changes neither the flag nor which tag came last. */
  lemma LastTagUntouched(events: seq<GraphEvent>)
    requires events != [] && !HoldsTag(events[|events| - 1])
    ensures LastTagOpens(events) <==> LastTagOpens(events[..|events| - 1])
  {
    var n := |events| - 1;
    var init := events[..n];
    if LastTagOpens(init) {
      var i :| 0 <= i < |init| && OpensCall(init[i]) && NoTagAfter(init, i);
      NoTagAfterExtends(events, i);
    }
    if LastTagOpens(events) {
      var i :| 0 <= i < |events| && OpensCall(events[i]) && NoTagAfter(events, i);
      assert i < n;
      assert init[i] == events[i];
      NoTagAfterPrefix(events, i);
    }
  }

  lemma NoTagAfterExtends(events: seq<GraphEvent>, i: nat)
    requires i < |events| - 1 && !HoldsTag(events[|events| - 1]) && NoTagAfter(events[..|events| - 1], i)
    ensures NoTagAfter(events, i)
  {
    var n := |events| - 1;
    forall j | i < j < |events| ensures !HoldsTag(events[j]) {
      if j < n {
        assert events[j] == events[..n][j];
      }
    }
  }

  lemma NoTagAfterPrefix(events: seq<GraphEvent>, i: nat)
    requires i < |events| - 1 && NoTagAfter(events, i)
    ensures NoTagAfter(events[..|events| - 1], i)
  {
    var n := |events| - 1;
    forall j | i < j < n ensures !HoldsTag(events[..n][j]) {
      assert events[..n][j] == events[j];
    }
  }

  /** A chunk that holds a closing tag. */
  predicate ClosesCall(e: GraphEvent) {
    e.ChatModelStream? && Contains(e.chunk, CLOSE)
  }

  /** After a chunk opening a call the flag stays set until a chunk holding a closing tag. */
  lemma {:induction false} GateStaysSet(pre: seq<GraphEvent>, c: GraphEvent, mid: seq<GraphEvent>)
    requires OpensCall(c)
    requires forall j :: 0 <= j < |mid| ==> !ClosesCall(mid[j])
    ensures Gate(pre + [c] + mid)
    decreases |mid|
  {
    if mid == [] {
      assert pre + [c] + mid == pre + [c];
      BodySnoc(RagEndpoint, pre, c);
    } else {
      var n := |mid| - 1;
      var init := pre + [c] + mid[..n];
      SplitLast(pre + [c], mid);
      BodySnoc(RagEndpoint, init, mid[n]);
      GateStaysSet(pre, c, mid[..n]);
    }
  }

  /** An event appended to a prefix: its frames follow, and the flag advances past it. */
  lemma BodySnoc(ep: Endpoint, init: seq<GraphEvent>, e: GraphEvent)
    ensures Body(ep, init + [e]) == Body(ep, init) + EventFrames(ep, Gate(init), e)
    ensures Gate(init + [e]) == NextGate(Gate(init), e)
  {
    assert (init + [e])[..|init|] == init;
  }

  lemma SplitLast<T>(a: seq<T>, b: seq<T>)
    requires b != []
    ensures a + b == (a + b[..|b| - 1]) + [b[|b| - 1]]
  {
  }

  /** After a chunk opening a call, and until a chunk holding a closing tag, no token is yielded: the
      opening chunk yields nothing and what follows yields no `token` frame. */
  lemma {:induction false} NoTokensInsideCall(ep: Endpoint, pre: seq<GraphEvent>, c: GraphEvent, mid: seq<GraphEvent>)
    requires OpensCall(c)
    requires forall j :: 0 <= j < |mid| ==> !ClosesCall(mid[j])
    ensures Body(ep, pre + [c]) == Body(ep, pre)
    ensures Body(ep, pre) <= Body(ep, pre + [c] + mid)
    ensures forall k :: |Body(ep, pre)| <= k < |Body(ep, pre + [c] + mid)| ==> Body(ep, pre + [c] + mid)[k].kind != Token
    decreases |mid|
  {
    BodySnoc(ep, pre, c);
    if mid == [] {
      assert pre + [c] + mid == pre + [c];
    } else {
      var n := |mid| - 1;
      var init := pre + [c] + mid[..n];
      SplitLast(pre + [c], mid);
      BodySnoc(ep, init, mid[n]);
      NoTokensInsideCall(ep, pre, c, mid[..n]);
      GateStaysSet(pre, c, mid[..n]);
      AppendNoTokens(Body(ep, init), EventFrames(ep, true, mid[n]), |Body(ep, pre)|);
    }
  }

  lemma AppendNoTokens(before: seq<Frame>, added: seq<Frame>, from: nat)
    requires forall k :: from <= k < |before| ==> before[k].kind != Token
    requires forall k :: 0 <= k < |added| ==> added[k].kind != Token
    ensures forall k :: from <= k < |before + added| ==> (before + added)[k].kind != Token
  {
    forall k | from <= k < |before + added| ensures (before + added)[k].kind != Token {
      if k >= |before| {
        assert (before + added)[k] == added[k - |before|];
      }
    }
  }

  /** The result at 0-based position `j` with a non-empty url is listed with number `j + 1`, whatever
      the results before it: those without a url use up their numbers too. */
  lemma {:induction false} UrlNumberedByPosition(results: seq<SearchResult>, j: nat)
    requires j < |results| && results[j].url.Some? && results[j].url.value != ""
    ensures var r := results[j];
            Frame(Urls, UrlEntryTextAsWritten(j + 1, if r.title.Some? then r.title.value else "", r.url.value))
              in UrlEntries(results)
  {
    var n := |results| - 1;
    if j < n {
      assert results[..n][j] == results[j];
      UrlNumberedByPosition(results[..n], j);
    }
  }

  /** A turn of plain text chunks, read to the end: `user`, `start`, one `token` per chunk, `done`. */
  lemma {:induction false} TextOnlyTurn(ep: Endpoint, userInput: string, ts: seq<string>)
    requires forall i :: 0 <= i < |ts| ==> ts[i] != "" && !Contains(ts[i], OPEN) && !Contains(ts[i], CLOSE)
    ensures Frames(ep, userInput, TextEvents(ts), Exhausted, None)
            == [Frame(User, userInput), Frame(Start, ASSISTANT)] + TokenFrames(ts) + [Frame(Done, DONE_TEXT)]
  {
    TextBody(ep, ts);
    assert TextEvents(ts)[..|ts|] == TextEvents(ts);
  }

  function TextEvents(ts: seq<string>): (es: seq<GraphEvent>)
    ensures |es| == |ts| && forall i :: 0 <= i < |ts| ==> es[i] == ChatModelStream(ts[i])
  {
    seq(|ts|, i requires 0 <= i < |ts| => ChatModelStream(ts[i]))
  }

  function TokenFrames(ts: seq<string>): (fs: seq<Frame>)
    ensures |fs| == |ts| && forall i :: 0 <= i < |ts| ==> fs[i] == Frame(Token, ts[i])
  {
    seq(|ts|, i requires 0 <= i < |ts| => Frame(Token, ts[i]))
  }

  lemma {:induction false} TextBody(ep: Endpoint, ts: seq<string>)
    requires forall i :: 0 <= i < |ts| ==> ts[i] != "" && !Contains(ts[i], OPEN) && !Contains(ts[i], CLOSE)
    ensures !Gate(TextEvents(ts))
    ensures Body(ep, TextEvents(ts)) == TokenFrames(ts)
  {
    if ts != [] {
      var n := |ts| - 1;
      var es := TextEvents(ts);
      assert es[..n] == TextEvents(ts[..n]);
      TextBody(ep, ts[..n]);
      BodyStep(ep, es, n);
      assert es[..n + 1] == es && es[n] == ChatModelStream(ts[n]);
      assert EventFrames(ep, false, es[n]) == [Frame(Token, ts[n])];
      assert TokenFrames(ts) == TokenFrames(ts[..n]) + [Frame(Token, ts[n])];
    }
  }

  /** Once the client is seen gone before an event, nothing from that event on is read: neither the
      remaining events nor how the stream would have ended change the frames, which end with `done`. */
  lemma DisconnectIgnoresRest(ep: Endpoint, userInput: string, pre: seq<GraphEvent>,
                              post1: seq<GraphEvent>, post2: seq<GraphEvent>, end1: StreamEnd, end2: StreamEnd)
    requires post1 != [] && post2 != []
    ensures Frames(ep, userInput, pre + post1, end1, Some(|pre|)) == Frames(ep, userInput, pre + post2, end2, Some(|pre|))
    ensures Frames(ep, userInput, pre + post1, end1, Some(|pre|))
            == [Frame(User, userInput), Frame(Start, ASSISTANT)] + Body(ep, pre) + [Frame(Done, DONE_TEXT)]
  {
    assert (pre + post1)[..|pre|] == pre;
    assert (pre + post2)[..|pre|] == pre;
  }

  /** As written, an entry holds a backslash and an `n` and no line break, for a title and url
      without line breaks. */
  lemma EntryAsWrittenIsOneLine(i: nat, title: string, url: string)
    requires '\n' !in title && '\n' !in url
    ensures '\n' !in UrlEntryTextAsWritten(i, title, url)
    ensures '\\' in UrlEntryTextAsWritten(i, title, url)
  {
    var d := DecimalString(i);
    var s := UrlEntryTextAsWritten(i, title, url);
    assert s == d + ". " + title + "\\n   " + url;
    assert s[|d| + 2 + |title|] == '\\';
    forall k | 0 <= k < |s| ensures s[k] != '\n' {
      if k < |d| {
        assert s[k] == d[k];
      } else if |d| + 2 <= k < |d| + 2 + |title| {
        assert s[k] == title[k - |d| - 2];
      } else if k >= |d| + 2 + |title| + 5 {
        assert s[k] == url[k - |d| - 2 - |title| - 5];
      }
    }
  }

  /** An entry is two lines: the number and title, then the url indented by three spaces. */
  lemma EntryIsTwoLines(i: nat, title: string, url: string)
    requires '\n' !in title && '\n' !in url
    ensures Split(UrlEntryText(i, title, url), '\n') == [DecimalString(i) + ". " + title, "   " + url]
  {
    var d := DecimalString(i);
    var first := d + ". " + title;
    var second := "   " + url;
    assert '\n' !in d;
    assert '\n' !in first by {
      forall k | 0 <= k < |first| ensures first[k] != '\n' {
        if k < |d| {
          assert first[k] == d[k];
        } else if k >= |d| + 2 {
          assert first[k] == title[k - |d| - 2];
        }
      }
    }
    assert '\n' !in second by {
      forall k | 0 <= k < |second| ensures second[k] != '\n' {
        if k >= 3 {
          assert second[k] == url[k - 3];
        }
      }
    }
    var pieces := [first, second];
    assert Join(pieces, '\n') == first + ['\n'] + second;
    assert UrlEntryText(i, title, url) == first + ['\n'] + second;
    SplitJoin(pieces, '\n');
  }

  /** Why a stream request is refused before any frame: an HTTP status and its detail. */
  datatype HttpError = HttpError(status: nat, detail: string)

  /** The stream endpoint: an empty `user_input` is refused with 400, otherwise the generator's frames. */
  method StreamResponse(ep: Endpoint, userInput: string, events: seq<GraphEvent>, end: StreamEnd,
                        disconnectAt: Option<nat>) returns (r: Result<seq<Frame>, HttpError>)
    ensures r.Failure? <==> userInput == ""
    ensures r.Failure? ==> r.error == HttpError(400, MISSING_INPUT)
    ensures r.Success? ==> r.value == Frames(ep, userInput, events, end, disconnectAt)
  {
    if userInput == "" {
      return Failure(HttpError(400, MISSING_INPUT));
    }
    var frames := EventGenerator(ep, userInput, events, end, disconnectAt);
    r := Success(frames);
  }
}
