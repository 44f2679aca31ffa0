/**
 * The chat page's submit handler: it appends the user's message and an empty assistant message,
 * reads the research stream chunk by chunk, cuts frames out of the buffer, and folds each frame
 * into the message list with deduplicating appends.
 */
module WebChat {
  import opened Wrappers
  import opened Text
  import opened JsonValue
  import opened ClientFrames

  /** An entry of an assistant message's timeline: the frame's event type and its `content`
      (`None` is `undefined`). The display time is not modelled. */
  datatype ChatEvent = ChatEvent(kind: string, content: Option<Json>)

  /** The three kinds of message object the page keeps (`type` "user", "assistant", "error"). */
  datatype ChatMessage =
    | UserMessage(text: string)
    | AssistantMessage(content: string, tokens: seq<Option<Json>>, events: seq<ChatEvent>)
    | ErrorMessage(error: Option<Json>)

  const PLACEHOLDER: ChatMessage := AssistantMessage("", [], [])
  const CONNECTION_ERROR: string := "Connection error. Please try again."

  /** JavaScript `String(v)` for numbers, arrays and objects (`Number.prototype.toString`,
      `Array.prototype.join(",")`, "[object Object]"), which the model leaves abstract. */
  type ValueText = Json -> string

  // ---------------------------------------------------------------
  // JavaScript values

  /** `a === b` on two property values: `undefined` equals `undefined`, primitives compare by value,
      and a freshly parsed array or object is never the same object as an earlier one. */
  predicate StrictEquals(a: Option<Json>, b: Option<Json>) {
    match a
    case None => b.None?
    case Some(x) => b.Some? && !x.Arr? && !x.Obj? && x == b.value
  }

  /** Strict equality is an equivalence on what it relates, and implies equality. */
  lemma StrictEqualsIsEquality(a: Option<Json>, b: Option<Json>)
    ensures StrictEquals(a, b) ==> a == b
    ensures StrictEquals(a, b) == StrictEquals(b, a)
    ensures a.Some? && (a.value.Arr? || a.value.Obj?) ==> !StrictEquals(a, b)
    ensures a == b && (a.None? || !(a.value.Arr? || a.value.Obj?)) ==> StrictEquals(a, b)
  {
  }

  /** What `join` writes for one element: nothing for `null` and `undefined`, a string as is. */
  function TokenText(t: Option<Json>, toText: ValueText): string {
    match t
    case None => ""
    case Some(Null) => ""
    case Some(Str(s)) => s
    case Some(Bool(b)) => if b then "true" else "false"
    case Some(v) => toText(v)
  }

  /** `tokens.join("")`. */
  function JoinTokens(tokens: seq<Option<Json>>, toText: ValueText): string {
    if tokens == [] then ""
    else JoinTokens(tokens[..|tokens| - 1], toText) + TokenText(tokens[|tokens| - 1], toText)
  }

  /** Tokens that are all strings join to their concatenation. */
  lemma {:induction false} JoinStringTokens(ss: seq<string>, toText: ValueText)
    ensures JoinTokens(StringTokens(ss), toText) == Concat(ss)
  {
    if ss != [] {
      var n := |ss| - 1;
      assert StringTokens(ss)[..n] == StringTokens(ss[..n]);
      JoinStringTokens(ss[..n], toText);
      ConcatSnoc(ss);
    }
  }

  function StringTokens(ss: seq<string>): (ts: seq<Option<Json>>)
    ensures |ts| == |ss| && forall i :: 0 <= i < |ss| ==> ts[i] == Some(Str(ss[i]))
  {
    seq(|ss|, i requires 0 <= i < |ss| => Some(Str(ss[i])))
  }

  // ---------------------------------------------------------------
  // The reducers

  /** The position of the last assistant message, found by the backward `while` scan. */
  function LastAssistant(ms: seq<ChatMessage>): (r: Option<nat>)
    ensures r.Some? ==> r.value < |ms| && ms[r.value].AssistantMessage?
    ensures r.Some? ==> forall j :: r.value < j < |ms| ==> !ms[j].AssistantMessage?
    ensures r.None? <==> forall j :: 0 <= j < |ms| ==> !ms[j].AssistantMessage?
  {
    if ms == [] then None
    else if ms[|ms| - 1].AssistantMessage? then Some(|ms| - 1)
    else
      var r := LastAssistant(ms[..|ms| - 1]);
      assert forall j :: 0 <= j < |ms| - 1 ==> ms[..|ms| - 1][j] == ms[j];
      r
  }

  /** The token list after receiving `c`: appended unless it is strictly equal to the last token. */
  function PushToken(tokens: seq<Option<Json>>, c: Option<Json>): (r: seq<Option<Json>>)
    ensures r == tokens || r == tokens + [c]
    ensures r == tokens + [c] <==> tokens == [] || !StrictEquals(tokens[|tokens| - 1], c)
    ensures r != [] && r[|r| - 1] == c
  {
    if tokens == [] || !StrictEquals(tokens[|tokens| - 1], c) then tokens + [c]
    else
      StrictEqualsIsEquality(tokens[|tokens| - 1], c);
      tokens
  }

  /** The event list after receiving `(kind, c)`: appended unless type and content both equal the last. */
  function PushEvent(events: seq<ChatEvent>, kind: string, c: Option<Json>): (r: seq<ChatEvent>)
    ensures r == events || r == events + [ChatEvent(kind, c)]
    ensures r == events + [ChatEvent(kind, c)] <==>
              events == [] || events[|events| - 1].kind != kind || !StrictEquals(events[|events| - 1].content, c)
    ensures r != [] && r[|r| - 1] == ChatEvent(kind, c)
  {
    var last := if events == [] then None else Some(events[|events| - 1]);
    if last.None? || last.value.kind != kind || !StrictEquals(last.value.content, c) then events + [ChatEvent(kind, c)]
    else
      StrictEqualsIsEquality(last.value.content, c);
      events
  }

  /** The `token` reducer: the last assistant message gets the token (unless it repeats the last one)
      and its `content` is recomputed from its tokens; every other message is untouched, and without
      an assistant message nothing changes. */
  function TokenUpdate(ms: seq<ChatMessage>, c: Option<Json>, toText: ValueText): (r: seq<ChatMessage>)
    ensures LastAssistant(ms).None? ==> r == ms
    ensures |r| == |ms|
    ensures LastAssistant(ms).Some? ==>
              var i := LastAssistant(ms).value;
              && (forall j :: 0 <= j < |ms| && j != i ==> r[j] == ms[j])
              && r[i] == AssistantMessage(JoinTokens(PushToken(ms[i].tokens, c), toText),
                                          PushToken(ms[i].tokens, c), ms[i].events)
  {
    match LastAssistant(ms)
    case None => ms
    case Some(i) =>
      var tokens := PushToken(ms[i].tokens, c);
      ms[i := AssistantMessage(JoinTokens(tokens, toText), tokens, ms[i].events)]
  }

  /** The `search`/`urls` reducer: the last assistant message gets the event (unless it repeats the
      last one); every other message is untouched, and without an assistant message nothing changes. */
  function EventUpdate(ms: seq<ChatMessage>, kind: string, c: Option<Json>): (r: seq<ChatMessage>)
    ensures LastAssistant(ms).None? ==> r == ms
    ensures |r| == |ms|
    ensures LastAssistant(ms).Some? ==>
              var i := LastAssistant(ms).value;
              && (forall j :: 0 <= j < |ms| && j != i ==> r[j] == ms[j])
              && r[i] == ms[i].(events := PushEvent(ms[i].events, kind, c))
  {
    match LastAssistant(ms)
    case None => ms
    case Some(i) => ms[i := ms[i].(events := PushEvent(ms[i].events, kind, c))]
  }

  /** What the reader has built so far: the messages, the typing indicator and the loop's `done` flag. */
  datatype Progress = Progress(messages: seq<ChatMessage>, isTyping: bool, done: bool)

  /** One frame that survived the skip test, by its event type. */
  function ApplyFrame(st: Progress, ev: string, data: Json, toText: ValueText): (r: Progress)
    ensures ev == "token" ==> r == st.(messages := TokenUpdate(st.messages, Prop(data, "content"), toText))
    ensures ev == "search" || ev == "urls" ==> r == st.(messages := EventUpdate(st.messages, ev, Prop(data, "content")))
    ensures ev == "done" ==> r == st.(done := true, isTyping := false)
    ensures ev == "error" ==> r == Progress(st.messages + [ErrorMessage(Prop(data, "error"))], false, true)
    ensures ev !in {"token", "search", "urls", "done", "error"} ==> r == st
  {
    if ev == "token" then st.(messages := TokenUpdate(st.messages, Prop(data, "content"), toText))
    else if ev == "search" || ev == "urls" then st.(messages := EventUpdate(st.messages, ev, Prop(data, "content")))
    else if ev == "done" then st.(done := true, isTyping := false)
    else if ev == "error" then Progress(st.messages + [ErrorMessage(Prop(data, "error"))], false, true)
    else st
  }

  /** One frame text cut from the buffer: trimmed, read, and applied unless skipped. */
  function ApplyPiece(st: Progress, piece: string, parse: JsonParser, toText: ValueText): Progress {
    match FrameFields(JsTrim(piece), parse)
    case None => st
    case Some((ev, data)) => ApplyFrame(st, ev, data, toText)
  }

  /** The frame texts of one pass of the inner loop, applied in order; `done` does not stop the pass. */
  function ApplyPieces(st: Progress, pieces: seq<string>, parse: JsonParser, toText: ValueText): Progress
    decreases |pieces|
  {
    if pieces == [] then st else ApplyPieces(ApplyPiece(st, pieces[0], parse, toText), pieces[1..], parse, toText)
  }

  /** A chunk appended to the buffer: the frames now complete are applied, the rest is kept. */
  function Feed(st: Progress, buf: string, chunk: string, parse: JsonParser, toText: ValueText): (Progress, string) {
    var (pieces, rest) := SplitFrames(buf + chunk);
    (ApplyPieces(st, pieces, parse, toText), rest)
  }

  /** How reading the response ends once its chunks are used up: `done` from the reader, or a thrown
      error (from `fetch` or `read`). */
  datatype ReadEnd = Closed | Broken

  /** The outer loop: no further chunk is read once `done` is set; a thrown error appends the
      connection error and stops the typing indicator. */
  function ReadStream(st: Progress, buf: string, chunks: seq<string>, end: ReadEnd,
                      parse: JsonParser, toText: ValueText): (r: Progress)
    ensures st.done ==> r == st
    decreases |chunks|
  {
    if st.done then st
    else if chunks == [] then
      if end == Broken then st.(messages := st.messages + [ErrorMessage(Some(Str(CONNECTION_ERROR)))], isTyping := false)
      else st
    else
      var next := Feed(st, buf, chunks[0], parse, toText);
      ReadStream(next.0, next.1, chunks[1..], end, parse, toText)
  }

  // ---------------------------------------------------------------
  // Properties of the reducers and the reader

  /** No two neighbouring tokens are strictly equal. */
  predicate NoRepeatedTokens(tokens: seq<Option<Json>>) {
    forall j :: 0 < j < |tokens| ==> !StrictEquals(tokens[j - 1], tokens[j])
  }

  /** No two neighbouring events have the same type and strictly equal content. */
  predicate NoRepeatedEvents(events: seq<ChatEvent>) {
    forall j :: 0 < j < |events| ==>
      events[j - 1].kind != events[j].kind || !StrictEquals(events[j - 1].content, events[j].content)
  }

  /** Every assistant message shows exactly the concatenation of its tokens, and neither its tokens
      nor its events repeat their predecessor. */
  predicate WellFormed(m: ChatMessage, toText: ValueText) {
    m.AssistantMessage? ==>
      m.content == JoinTokens(m.tokens, toText) && NoRepeatedTokens(m.tokens) && NoRepeatedEvents(m.events)
  }

  predicate AllWellFormed(ms: seq<ChatMessage>, toText: ValueText) {
    forall j :: 0 <= j < |ms| ==> WellFormed(ms[j], toText)
  }

  lemma PushTokenNoRepeats(tokens: seq<Option<Json>>, c: Option<Json>)
    requires NoRepeatedTokens(tokens)
    ensures NoRepeatedTokens(PushToken(tokens, c))
  {
    var r := PushToken(tokens, c);
    forall j | 0 < j < |r| ensures !StrictEquals(r[j - 1], r[j]) {
      if j < |tokens| {
        assert r[j - 1] == tokens[j - 1] && r[j] == tokens[j];
      }
    }
  }

  lemma PushEventNoRepeats(events: seq<ChatEvent>, kind: string, c: Option<Json>)
    requires NoRepeatedEvents(events)
    ensures NoRepeatedEvents(PushEvent(events, kind, c))
  {
    var r := PushEvent(events, kind, c);
    forall j | 0 < j < |r| ensures r[j - 1].kind != r[j].kind || !StrictEquals(r[j - 1].content, r[j].content) {
      if j < |events| {
        assert r[j - 1] == events[j - 1] && r[j] == events[j];
      }
    }
  }

  /** Each frame keeps every message well formed. */
  lemma ApplyFrameKeepsWellFormed(st: Progress, ev: string, data: Json, toText: ValueText)
    requires AllWellFormed(st.messages, toText)
    ensures AllWellFormed(ApplyFrame(st, ev, data, toText).messages, toText)
  {
    var ms := st.messages;
    if ev == "token" {
      TokenKeepsWellFormed(ms, Prop(data, "content"), toText);
    } else if ev == "search" || ev == "urls" {
      EventKeepsWellFormed(ms, ev, Prop(data, "content"), toText);
    } else if ev == "error" {
      var r := ApplyFrame(st, ev, data, toText).messages;
      assert forall j :: 0 <= j < |ms| ==> r[j] == ms[j];
    }
  }

  /** The `token` reducer keeps every message well formed. */
  lemma TokenKeepsWellFormed(ms: seq<ChatMessage>, c: Option<Json>, toText: ValueText)
    requires AllWellFormed(ms, toText)
    ensures AllWellFormed(TokenUpdate(ms, c, toText), toText)
  {
    if LastAssistant(ms).Some? {
      var i := LastAssistant(ms).value;
      var r := TokenUpdate(ms, c, toText);
      assert WellFormed(ms[i], toText);
      PushTokenNoRepeats(ms[i].tokens, c);
      assert WellFormed(r[i], toText);
      assert forall j :: 0 <= j < |r| && j != i ==> r[j] == ms[j];
    }
  }

  /** The `search`/`urls` reducer keeps every message well formed. */
  lemma EventKeepsWellFormed(ms: seq<ChatMessage>, kind: string, c: Option<Json>, toText: ValueText)
    requires AllWellFormed(ms, toText)
    ensures AllWellFormed(EventUpdate(ms, kind, c), toText)
  {
    if LastAssistant(ms).Some? {
      var i := LastAssistant(ms).value;
      var r := EventUpdate(ms, kind, c);
      assert WellFormed(ms[i], toText);
      PushEventNoRepeats(ms[i].events, kind, c);
      assert WellFormed(r[i], toText);
      assert forall j :: 0 <= j < |r| && j != i ==> r[j] == ms[j];
    }
  }

  lemma ApplyPiecesKeepsWellFormed(st: Progress, pieces: seq<string>, parse: JsonParser, toText: ValueText)
    requires AllWellFormed(st.messages, toText)
    ensures AllWellFormed(ApplyPieces(st, pieces, parse, toText).messages, toText)
    decreases |pieces|
  {
    if pieces != [] {
      var next := ApplyPiece(st, pieces[0], parse, toText);
      match FrameFields(JsTrim(pieces[0]), parse)
      case None =>
      case Some((ev, data)) => ApplyFrameKeepsWellFormed(st, ev, data, toText);
      ApplyPiecesKeepsWellFormed(next, pieces[1..], parse, toText);
    }
  }

  /** The whole read keeps every message well formed: `content` is always the join of `tokens`. */
  lemma ReadStreamKeepsWellFormed(st: Progress, buf: string, chunks: seq<string>, end: ReadEnd,
                                  parse: JsonParser, toText: ValueText)
    requires AllWellFormed(st.messages, toText)
    ensures AllWellFormed(ReadStream(st, buf, chunks, end, parse, toText).messages, toText)
    decreases |chunks|
  {
    if !st.done {
      if chunks == [] {
        var r := ReadStream(st, buf, chunks, end, parse, toText).messages;
        assert forall j :: 0 <= j < |st.messages| ==> r[j] == st.messages[j];
      } else {
        var next := Feed(st, buf, chunks[0], parse, toText);
        ApplyPiecesKeepsWellFormed(st, SplitFrames(buf + chunks[0]).0, parse, toText);
        ReadStreamKeepsWellFormed(next.0, next.1, chunks[1..], end, parse, toText);
      }
    }
  }

  /** The messages of a turn in progress: the earlier messages, the user's message, the assistant
      message, then only error messages. */
  predicate TurnShape(ms: seq<ChatMessage>, before: seq<ChatMessage>, user: ChatMessage) {
    && |ms| >= |before| + 2
    && ms[..|before|] == before
    && ms[|before|] == user
    && ms[|before| + 1].AssistantMessage?
    && forall j :: |before| + 1 < j < |ms| ==> ms[j].ErrorMessage?
  }

  /** In a turn in progress the reducers write to this turn's assistant message and nowhere else. */
  lemma TurnTargetsPlaceholder(ms: seq<ChatMessage>, before: seq<ChatMessage>, user: ChatMessage)
    requires TurnShape(ms, before, user)
    ensures LastAssistant(ms) == Some(|before| + 1)
  {
  }

  lemma ApplyFrameKeepsShape(st: Progress, ev: string, data: Json, toText: ValueText,
                             before: seq<ChatMessage>, user: ChatMessage)
    requires TurnShape(st.messages, before, user) && user.UserMessage?
    ensures TurnShape(ApplyFrame(st, ev, data, toText).messages, before, user)
  {
    var ms := st.messages;
    var r := ApplyFrame(st, ev, data, toText).messages;
    var k := |before|;
    if ev == "token" || ev == "search" || ev == "urls" {
      TurnTargetsPlaceholder(ms, before, user);
      assert forall j :: 0 <= j < |ms| && j != k + 1 ==> r[j] == ms[j];
      assert r[..k] == ms[..k];
    } else if ev == "error" {
      assert r[..k] == ms[..k];
      assert forall j :: 0 <= j < |ms| ==> r[j] == ms[j];
    }
  }

  lemma ApplyPiecesKeepsShape(st: Progress, pieces: seq<string>, parse: JsonParser, toText: ValueText,
                              before: seq<ChatMessage>, user: ChatMessage)
    requires TurnShape(st.messages, before, user) && user.UserMessage?
    ensures TurnShape(ApplyPieces(st, pieces, parse, toText).messages, before, user)
    decreases |pieces|
  {
    if pieces != [] {
      var next := ApplyPiece(st, pieces[0], parse, toText);
      match FrameFields(JsTrim(pieces[0]), parse)
      case None =>
      case Some((ev, data)) => ApplyFrameKeepsShape(st, ev, data, toText, before, user);
      ApplyPiecesKeepsShape(next, pieces[1..], parse, toText, before, user);
    }
  }

  /** Whatever the stream holds, the earlier messages stay as they were, the user's message stays in
      place, and everything after this turn's assistant message is an error message. */
  lemma ReadStreamKeepsShape(st: Progress, buf: string, chunks: seq<string>, end: ReadEnd,
                             parse: JsonParser, toText: ValueText, before: seq<ChatMessage>, user: ChatMessage)
    requires TurnShape(st.messages, before, user) && user.UserMessage?
    ensures TurnShape(ReadStream(st, buf, chunks, end, parse, toText).messages, before, user)
    decreases |chunks|
  {
    if !st.done {
      if chunks == [] {
        var r := ReadStream(st, buf, chunks, end, parse, toText).messages;
        assert forall j :: 0 <= j < |st.messages| ==> r[j] == st.messages[j];
        assert r[..|before|] == st.messages[..|before|];
      } else {
        var next := Feed(st, buf, chunks[0], parse, toText);
        ApplyPiecesKeepsShape(st, SplitFrames(buf + chunks[0]).0, parse, toText, before, user);
        ReadStreamKeepsShape(next.0, next.1, chunks[1..], end, parse, toText, before, user);
      }
    }
  }

  /** Setting `done` does not stop the frames already in the buffer: the pass applies them all,
      and the messages it builds are the same whether `done` was set before it or not. */
  lemma {:induction false} PiecesIgnoreDone(st: Progress, pieces: seq<string>, parse: JsonParser, toText: ValueText)
    ensures ApplyPieces(st.(done := true), pieces, parse, toText).messages == ApplyPieces(st, pieces, parse, toText).messages
    ensures ApplyPieces(st.(done := true), pieces, parse, toText).done
    decreases |pieces|
  {
    if pieces != [] {
      var next := ApplyPiece(st, pieces[0], parse, toText);
      assert ApplyPiece(st.(done := true), pieces[0], parse, toText) == next.(done := true);
      PiecesIgnoreDone(next, pieces[1..], parse, toText);
    }
  }

  lemma {:induction false} ApplyPiecesAppend(st: Progress, p: seq<string>, q: seq<string>, parse: JsonParser, toText: ValueText)
    ensures ApplyPieces(st, p + q, parse, toText) == ApplyPieces(ApplyPieces(st, p, parse, toText), q, parse, toText)
    decreases |p|
  {
    if p == [] {
      assert p + q == q;
    } else {
      assert (p + q)[0] == p[0] && (p + q)[1..] == p[1..] + q;
      ApplyPiecesAppend(ApplyPiece(st, p[0], parse, toText), p[1..], q, parse, toText);
    }
  }

  /** Text appended after a split buffer is appended after its remainder. */
  lemma Regroup<T>(x: seq<T>, r: seq<T>, u: seq<T>, a: seq<T>, b: seq<T>)
    requires x + r == u + a
    ensures u + (a + b) == x + (r + b)
  {
    assert u + (a + b) == (u + a) + b;
    assert (x + r) + b == x + (r + b);
  }

  /** Where the response is cut into chunks does not matter to the inner loop: feeding `a` and then
      `b` applies the same frames and keeps the same remainder as feeding `a + b` at once. */
  lemma ChunkBoundaryIrrelevant(st: Progress, buf: string, a: string, b: string, parse: JsonParser, toText: ValueText)
    ensures var first := Feed(st, buf, a, parse, toText);
            Feed(first.0, first.1, b, parse, toText) == Feed(st, buf, a + b, parse, toText)
  {
    var (p, rest) := SplitFrames(buf + a);
    var (p2, rest2) := SplitFrames(rest + b);
    Regroup(JoinFrames(p), rest, buf, a, b);
    SplitAfterFrames(p, rest + b);
    assert SplitFrames(buf + (a + b)) == (p + p2, rest2);
    ApplyPiecesAppend(st, p, p2, parse, toText);
    assert Feed(st, buf, a, parse, toText) == (ApplyPieces(st, p, parse, toText), rest);
  }

  /** A stream that closes before any `done` or `error` frame leaves the typing indicator on. */
  lemma ClosedEarlyKeepsTyping(st: Progress, buf: string, chunks: seq<string>, parse: JsonParser, toText: ValueText)
    requires !st.done && st.isTyping
    ensures var r := ReadStream(st, buf, chunks, Closed, parse, toText);
            !r.done ==> r.isTyping
    decreases |chunks|
  {
    if chunks != [] {
      var next := Feed(st, buf, chunks[0], parse, toText);
      TypingUntilDone(st, SplitFrames(buf + chunks[0]).0, parse, toText);
      if !next.0.done {
        ClosedEarlyKeepsTyping(next.0, next.1, chunks[1..], parse, toText);
      }
    }
  }

  /** Within a pass, the typing indicator goes off exactly with `done`. */
  lemma {:induction false} TypingUntilDone(st: Progress, pieces: seq<string>, parse: JsonParser, toText: ValueText)
    requires st.isTyping != st.done
    ensures var r := ApplyPieces(st, pieces, parse, toText); r.isTyping != r.done
    decreases |pieces|
  {
    if pieces != [] {
      var next := ApplyPiece(st, pieces[0], parse, toText);
      assert next.isTyping != next.done;
      TypingUntilDone(next, pieces[1..], parse, toText);
    }
  }

  // ---------------------------------------------------------------
  // The page state and its submit handler

  /** The request the handler sends: the input as typed (untrimmed) and the thread id. */
  datatype Request = Request(userInput: string, threadId: int)

  /** The response to a request: the decoded chunks `read()` delivers, and how reading ends. */
  datatype Response = Response(chunks: seq<string>, end: ReadEnd)

  /** The component's state (`useState` hooks); the thread id is fixed on mount. */
  class WebChat {
    var messages: seq<ChatMessage>
    var input: string
    var isLoading: bool
    var isTyping: bool
    const threadId: int

    /** Every assistant message is well formed. */
    predicate Valid(toText: ValueText)
      reads this
    {
      AllWellFormed(messages, toText)
    }

    constructor(threadId: int)
      ensures this.threadId == threadId
      ensures messages == [] && input == "" && !isLoading && !isTyping
    {
      this.threadId := threadId;
      messages := [];
      input := "";
      isLoading := false;
      isTyping := false;
    }

    /** The text field's `onChange`. */
    method SetInput(text: string)
      modifies this
      ensures input == text
      ensures messages == old(messages) && isLoading == old(isLoading) && isTyping == old(isTyping)
    {
      input := text;
    }

    /** The backward scan for the last assistant message; -1 when there is none. */
    method FindLastAssistant() returns (i: int)
      ensures LastAssistant(messages).None? ==> i == -1
      ensures LastAssistant(messages).Some? ==> i == LastAssistant(messages).value
    {
      i := |messages| - 1;
      while i >= 0 && !messages[i].AssistantMessage?
        invariant -1 <= i < |messages|
        invariant forall j :: i < j < |messages| ==> !messages[j].AssistantMessage?
      {
        i := i - 1;
      }
    }

    /** The `token` branch's `setMessages`. */
    method ReceiveToken(c: Option<Json>, toText: ValueText)
      modifies this
      ensures messages == TokenUpdate(old(messages), c, toText)
      ensures input == old(input) && isLoading == old(isLoading) && isTyping == old(isTyping)
    {
      var i := FindLastAssistant();
      if i < 0 {
        return;
      }
      assert LastAssistant(messages) == Some(i as nat);
      var tokens := messages[i].tokens;
      if |tokens| == 0 || !StrictEquals(tokens[|tokens| - 1], c) {
        tokens := tokens + [c];
      }
      assert tokens == PushToken(messages[i].tokens, c);
      messages := messages[i := AssistantMessage(JoinTokens(tokens, toText), tokens, messages[i].events)];
    }

    /** The `search`/`urls` branch's `setMessages`. */
    method ReceiveEvent(kind: string, c: Option<Json>)
      modifies this
      ensures messages == EventUpdate(old(messages), kind, c)
      ensures input == old(input) && isLoading == old(isLoading) && isTyping == old(isTyping)
    {
      var i := FindLastAssistant();
      if i < 0 {
        return;
      }
      var evs := messages[i].events;
      if |evs| == 0 || evs[|evs| - 1].kind != kind || !StrictEquals(evs[|evs| - 1].content, c) {
        evs := evs + [ChatEvent(kind, c)];
      }
      messages := messages[i := messages[i].(events := evs)];
    }

    /** The inner `while` loop: every complete frame in the buffer is cut off, read and applied,
        `done` or not; returns the remainder and the flag. */
    method DrainFrames(buf0: string, done0: bool, parse: JsonParser, toText: ValueText)
      returns (buf: string, done: bool)
      modifies this
      ensures var r := Feed(Progress(old(messages), old(isTyping), done0), buf0, "", parse, toText);
              Progress(messages, isTyping, done) == r.0 && buf == r.1
      ensures input == old(input) && isLoading == old(isLoading)
    {
      buf, done := buf0, done0;
      ghost var start := Progress(messages, isTyping, done);
      assert buf0 + "" == buf0;
      var idx := IndexOfFrom(buf, SEP, 0);
      while idx.Some?
        invariant idx == IndexOfFrom(buf, SEP, 0)
        invariant ApplyPieces(Progress(messages, isTyping, done), SplitFrames(buf).0, parse, toText)
                  == ApplyPieces(start, SplitFrames(buf0).0, parse, toText)
        invariant SplitFrames(buf).1 == SplitFrames(buf0).1
        invariant input == old(input) && isLoading == old(isLoading)
        decreases |buf|
      {
        CutFrame(Progress(messages, isTyping, done), buf, idx.value, parse, toText);
        var raw := JsTrim(buf[..idx.value]);
        buf := buf[idx.value + 2..];
        var fields := ParseFrame(raw, parse);
        done := ReceiveFrame(fields, done, toText);
        idx := IndexOfFrom(buf, SEP, 0);
      }
    }

    /** The body of the inner loop once a frame has been read: the branch on its type. */
    method ReceiveFrame(fields: Option<(string, Json)>, done0: bool, toText: ValueText) returns (done: bool)
      modifies this
      ensures var st := Progress(old(messages), old(isTyping), done0);
              Progress(messages, isTyping, done)
                == match fields case None => st case Some((ev, data)) => ApplyFrame(st, ev, data, toText)
      ensures input == old(input) && isLoading == old(isLoading)
    {
      done := done0;
      if fields.None? {
        return;
      }
      var evType := fields.value.0;
      var dataObj := fields.value.1;
      if evType == "token" {
        ReceiveToken(Prop(dataObj, "content"), toText);
      } else if evType == "search" || evType == "urls" {
        ReceiveEvent(evType, Prop(dataObj, "content"));
      } else if evType == "done" {
        done := true;
        isTyping := false;
      } else if evType == "error" {
        messages := messages + [ErrorMessage(Prop(dataObj, "error"))];
        done := true;
        isTyping := false;
      }
    }

    /** `handleSubmit`: ignored when the trimmed input is empty or a request is loading; otherwise the
        user's message and an empty assistant message are appended, the input is cleared, the request
        is sent with the untrimmed input, and the response is read to its end. */
    method HandleSubmit(response: Response, parse: JsonParser, toText: ValueText) returns (sent: Option<Request>)
      modifies this
      ensures JsTrim(old(input)) == "" || old(isLoading) ==>
                && sent == None && messages == old(messages) && input == old(input)
                && isLoading == old(isLoading) && isTyping == old(isTyping)
      ensures JsTrim(old(input)) != "" && !old(isLoading) ==>
                var start := Progress(old(messages) + [UserMessage(JsTrim(old(input))), PLACEHOLDER], true, false);
                var r := ReadStream(start, "", response.chunks, response.end, parse, toText);
                && sent == Some(Request(old(input), threadId))
                && messages == r.messages && isTyping == r.isTyping
                && input == "" && !isLoading
    {
      sent := None;
      if JsTrim(input) == "" || isLoading {
        return;
      }
      var typed := input;
      messages := messages + [UserMessage(JsTrim(input)), PLACEHOLDER];
      input := "";
      isLoading := true;
      isTyping := true;
      sent := Some(Request(typed, threadId));
      ghost var final := ReadStream(Progress(messages, isTyping, false), "", response.chunks, response.end, parse, toText);
      var buf := "";
      var done := false;
      var k := 0;
      while !done
        invariant 0 <= k <= |response.chunks|
        invariant ReadStream(Progress(messages, isTyping, done), buf, response.chunks[k..], response.end, parse, toText) == final
        invariant input == "" && isLoading
        decreases |response.chunks| - k
      {
        if k == |response.chunks| {
          if response.end == Broken {
            messages := messages + [ErrorMessage(Some(Str(CONNECTION_ERROR)))];
            isTyping := false;
          }
          break;
        }
        ghost var here := Progress(messages, isTyping, done);
        ghost var oldBuf := buf;
        assert response.chunks[k..][1..] == response.chunks[k + 1..];
        buf := buf + response.chunks[k];
        k := k + 1;
        buf, done := DrainFrames(buf, done, parse, toText);
        FeedFromJoined(here, oldBuf, response.chunks[k - 1], parse, toText);
      }
      isLoading := false;
    }
  }

  /** Cutting the first frame off the buffer and applying it leaves the rest of the pass unchanged. */
  lemma CutFrame(st: Progress, buf: string, idx: nat, parse: JsonParser, toText: ValueText)
    requires IndexOfFrom(buf, SEP, 0) == Some(idx)
    ensures idx + 2 <= |buf|
    ensures ApplyPieces(st, SplitFrames(buf).0, parse, toText)
            == ApplyPieces(ApplyPiece(st, buf[..idx], parse, toText), SplitFrames(buf[idx + 2..]).0, parse, toText)
    ensures SplitFrames(buf).1 == SplitFrames(buf[idx + 2..]).1
  {
    var pieces := SplitFrames(buf).0;
    assert pieces == [buf[..idx]] + SplitFrames(buf[idx + 2..]).0;
    assert pieces[0] == buf[..idx] && pieces[1..] == SplitFrames(buf[idx + 2..]).0;
  }

  /** Feeding a chunk is draining the buffer with the chunk already appended. */
  lemma FeedFromJoined(st: Progress, buf: string, chunk: string, parse: JsonParser, toText: ValueText)
    ensures Feed(st, buf + chunk, "", parse, toText) == Feed(st, buf, chunk, parse, toText)
  {
    assert buf + chunk + "" == buf + chunk;
  }

  /** A fresh page is in a valid state, and a submit keeps it valid. */
  lemma SubmitKeepsValid(before: seq<ChatMessage>, typed: string, response: Response, parse: JsonParser, toText: ValueText)
    requires AllWellFormed(before, toText)
    ensures var start := Progress(before + [UserMessage(JsTrim(typed)), PLACEHOLDER], true, false);
            AllWellFormed(ReadStream(start, "", response.chunks, response.end, parse, toText).messages, toText)
  {
    var ms := before + [UserMessage(JsTrim(typed)), PLACEHOLDER];
    assert forall j :: 0 <= j < |before| ==> ms[j] == before[j];
    ReadStreamKeepsWellFormed(Progress(ms, true, false), "", response.chunks, response.end, parse, toText);
  }

  /** Whatever the response, a submit adds exactly the user's trimmed message and one assistant
      message after the earlier messages, followed by error messages only. */
  lemma SubmitShape(before: seq<ChatMessage>, typed: string, response: Response, parse: JsonParser, toText: ValueText)
    ensures var start := Progress(before + [UserMessage(JsTrim(typed)), PLACEHOLDER], true, false);
            TurnShape(ReadStream(start, "", response.chunks, response.end, parse, toText).messages,
                      before, UserMessage(JsTrim(typed)))
  {
    var ms := before + [UserMessage(JsTrim(typed)), PLACEHOLDER];
    assert ms[..|before|] == before;
    ReadStreamKeepsShape(Progress(ms, true, false), "", response.chunks, response.end, parse, toText,
                         before, UserMessage(JsTrim(typed)));
  }
}
