/**
 * Extraction of the tool call a model embeds in its message:
 * `re.search(r"<tool_call>(.*?)</tool_call>", content, re.DOTALL)`, then `strip()`, then `json.loads`.
 */
module ToolCall {
  import opened Wrappers
  import opened Text
  import opened JsonValue

  const OPEN: string := "<tool_call>"
  const CLOSE: string := "</tool_call>"

  /** What `json.loads` does with a text: a value, or the message of its `JSONDecodeError`. */
  type Decoder = string -> Result<Json, string>

  datatype ParseError =
    | NoToolCallBlock        // ValueError("No <tool_call> block found in message content")
    | InvalidJson(message: string)  // the decoder's JSONDecodeError, itself a ValueError

  function ErrorText(e: ParseError): string {
    match e
    case NoToolCallBlock => "No <tool_call> block found in message content"
    case InvalidJson(m) => m
  }

  /** The regular expression matches `s[j..k + |CLOSE|]`, with group 1 `s[j + |OPEN|..k]`
      (DOTALL: `.` also matches newlines, so any text may sit between the tags). */
  ghost predicate MatchAt(s: string, j: nat, k: nat) {
    OccursAt(s, OPEN, j) && j + |OPEN| <= k && OccursAt(s, CLOSE, k)
  }

  /** `re.search` semantics: the leftmost start, and for it the shortest (non-greedy) group. */
  ghost predicate SearchFinds(s: string, j: nat, k: nat) {
    && MatchAt(s, j, k)
    && (forall j': nat, k': nat :: j' < j ==> !MatchAt(s, j', k'))
    && (forall k': nat :: j + |OPEN| <= k' < k ==> !MatchAt(s, j, k'))
  }

  ghost predicate NoMatch(s: string) {
    forall j: nat, k: nat :: !MatchAt(s, j, k)
  }

  /** The bounds of group 1 of the first match, found by two substring searches. */
  function FindBlock(s: string): (r: Option<(nat, nat)>)
    ensures r.Some? ==> |OPEN| <= r.value.0 <= r.value.1 <= |s|
  {
    match IndexOfFrom(s, OPEN, 0)
    case None => None
    case Some(i) =>
      match IndexOfFrom(s, CLOSE, i + |OPEN|)
      case None => None
      case Some(k) => Some((i + |OPEN|, k))
  }

  /** The two searches compute exactly what `re.search` finds. */
  lemma FindBlockIsSearch(s: string)
    ensures FindBlock(s).Some? ==> SearchFinds(s, FindBlock(s).value.0 - |OPEN|, FindBlock(s).value.1)
    ensures FindBlock(s).None? <==> NoMatch(s)
  {
    match IndexOfFrom(s, OPEN, 0)
    case None =>
      forall j: nat, k: nat ensures !MatchAt(s, j, k) {
      }
    case Some(i) =>
      match IndexOfFrom(s, CLOSE, i + |OPEN|)
      case None =>
        forall j: nat, k: nat ensures !MatchAt(s, j, k) {
        }
      case Some(k) =>
        assert MatchAt(s, i, k);
  }

  /** `parse_tool_call_from_content`: the decoded, stripped payload of the first block. */
  function ParseToolCall(content: string, decode: Decoder): (r: Result<Json, ParseError>)
    ensures r == Failure(NoToolCallBlock) <==> FindBlock(content).None?
    ensures FindBlock(content).Some? ==>
              r == DecodePayload(content[FindBlock(content).value.0..FindBlock(content).value.1], decode)
  {
    match FindBlock(content)
    case None => Failure(NoToolCallBlock)
    case Some((a, b)) =>
      match decode(PyStrip(content[a..b]))
      case Success(v) => Success(v)
      case Failure(m) => Failure(InvalidJson(m))
  }

  /** The parser fails with "no block" exactly when the regular expression finds no match, and a
      call it returns is the decoded, stripped group of the match `re.search` finds. */
  lemma ParseToolCallIsSearch(content: string, decode: Decoder)
    ensures ParseToolCall(content, decode) == Failure(NoToolCallBlock) <==> NoMatch(content)
    ensures ParseToolCall(content, decode).Success? ==> exists j: nat, k: nat ::
      && SearchFinds(content, j, k)
      && decode(PyStrip(content[j + |OPEN|..k])) == Success(ParseToolCall(content, decode).value)
  {
    FindBlockIsSearch(content);
    if FindBlock(content).Some? {
      var (a, b) := FindBlock(content).value;
      assert SearchFinds(content, a - |OPEN|, b);
    }
  }

  /** What decoding a payload gives, with the decoder's error wrapped. */
  function DecodePayload(payload: string, decode: Decoder): Result<Json, ParseError> {
    match decode(PyStrip(payload))
    case Success(v) => Success(v)
    case Failure(m) => Failure(InvalidJson(m))
  }

  lemma TagHeadsUnique()
    ensures HeadIsUnique(OPEN) && HeadIsUnique(CLOSE)
  {
  }

  /** The first opening tag of `p + OPEN + rest` is the one after `p`, when `p` holds none. */
  lemma OpenTagAt(content: string, p: string, rest: string)
    requires content == p + OPEN + rest && !Contains(p, OPEN)
    ensures IndexOfFrom(content, OPEN, 0) == Some(|p|)
  {
    TagHeadsUnique();
    FirstAfterGap(content, [], p, OPEN, rest);
  }

  /** The first closing tag at or after `|x|` in `x + s + CLOSE + q` is the one after `s`,
      when `s` holds none. */
  lemma CloseTagAt(content: string, x: string, s: string, q: string)
    requires content == x + s + CLOSE + q && !Contains(s, CLOSE)
    ensures IndexOfFrom(content, CLOSE, |x|) == Some(|x| + |s|)
  {
    TagHeadsUnique();
    FirstAfterGap(content, x, s, CLOSE, q);
  }

  /** Round trip: in `p + OPEN + s + CLOSE + q`, with no opening tag in `p` and no closing tag in `s`,
      the call is `s` stripped and decoded; whatever `q` holds (further blocks included) is ignored. */
  lemma ParseFirstBlock(p: string, s: string, q: string, decode: Decoder)
    requires !Contains(p, OPEN) && !Contains(s, CLOSE)
    ensures ParseToolCall(p + OPEN + s + CLOSE + q, decode) == DecodePayload(s, decode)
  {
    var content := p + OPEN + s + CLOSE + q;
    var a, b := |p| + |OPEN|, |p| + |OPEN| + |s|;
    FindFirstBlock(content, p, s, q, a, b);
    FiveParts(p, OPEN, s, CLOSE, q);
    ParseAtBlock(content, a, b, s, decode);
  }

  /** The call is the decoded payload of the block the searches find. */
  lemma ParseAtBlock(content: string, a: nat, b: nat, s: string, decode: Decoder)
    requires FindBlock(content) == Some((a, b)) && content[a..b] == s
    ensures ParseToolCall(content, decode) == DecodePayload(s, decode)
  {
  }

  /** The bounds the two searches find in `p + OPEN + s + CLOSE + q`. */
  lemma FindFirstBlock(content: string, p: string, s: string, q: string, a: nat, b: nat)
    requires content == p + OPEN + s + CLOSE + q
    requires !Contains(p, OPEN) && !Contains(s, CLOSE)
    requires a == |p| + |OPEN| && b == a + |s|
    ensures FindBlock(content) == Some((a, b))
  {
    TagHeadsUnique();
    TwoTags(p, OPEN, s, CLOSE, q, a, b);
    BlockAt(content, |p|, a, b);
  }

  lemma BlockAt(content: string, i: nat, a: nat, b: nat)
    requires a == i + |OPEN|
    requires IndexOfFrom(content, OPEN, 0) == Some(i)
    requires IndexOfFrom(content, CLOSE, a) == Some(b)
    ensures FindBlock(content) == Some((a, b))
  {
  }

  /** Absence is an error, never an empty result: a text without an opening tag fails. */
  lemma NoOpenTagFails(content: string, decode: Decoder)
    requires !Contains(content, OPEN)
    ensures ParseToolCall(content, decode) == Failure(NoToolCallBlock)
  {
  }

  /** An opening tag that no closing tag follows fails exactly like no tag at all. */
  lemma UnclosedTagFails(p: string, s: string, decode: Decoder)
    requires !Contains(p, OPEN) && !Contains(s, CLOSE)
    ensures ParseToolCall(p + OPEN + s, decode) == Failure(NoToolCallBlock)
  {
    var content := p + OPEN + s;
    OpenTagAt(content, p, s);
    NoneAfter(content, p, OPEN, s, CLOSE);
  }

  /** A payload the decoder rejects gives the decoder's error and no call. */
  lemma InvalidPayloadFails(p: string, s: string, q: string, decode: Decoder)
    requires !Contains(p, OPEN) && !Contains(s, CLOSE)
    requires decode(PyStrip(s)).Failure?
    ensures ParseToolCall(p + OPEN + s + CLOSE + q, decode) == Failure(InvalidJson(decode(PyStrip(s)).error))
  {
    ParseFirstBlock(p, s, q, decode);
  }

  /** Whitespace (newlines included) around the payload does not change the call. */
  lemma PayloadWhitespaceIgnored(p: string, w1: string, s: string, w2: string, q: string, decode: Decoder)
    requires !Contains(p, OPEN) && !Contains(s, CLOSE)
    requires AllSpace(w1, IsPySpace) && AllSpace(w2, IsPySpace)
    ensures ParseToolCall(p + OPEN + (w1 + s + w2) + CLOSE + q, decode)
         == ParseToolCall(p + OPEN + s + CLOSE + q, decode)
  {
    NoCloseInPadded(w1, s, w2);
    ParseFirstBlock(p, w1 + s + w2, q, decode);
    ParseFirstBlock(p, s, q, decode);
    StripPadding(w1, s, w2, IsPySpace);
  }

  /** The closing tag begins with '<' and ends with '>', neither of them whitespace,
      so padding a text with whitespace cannot create one. */
  lemma NoCloseInPadded(w1: string, s: string, w2: string)
    requires !Contains(s, CLOSE)
    requires AllSpace(w1, IsPySpace) && AllSpace(w2, IsPySpace)
    ensures !Contains(w1 + s + w2, CLOSE)
  {
    var a := w1 + s + w2;
    var n := |CLOSE|;
    TagEndsAreNotSpace();
    forall j: nat ensures !OccursAt(a, CLOSE, j) {
      if j + n <= |a| {
        if j < |w1| {
          assert a[j..j + n][0] == w1[j];
        } else if j + n > |w1| + |s| {
          assert a[j..j + n][n - 1] == w2[j + n - 1 - |w1| - |s|];
        } else {
          NotContainsAt(s, CLOSE, j - |w1|);
          assert a[j..j + n] == s[j - |w1|..j - |w1| + n];
        }
      }
    }
    ContainsIff(a, CLOSE);
  }

  lemma TagEndsAreNotSpace()
    ensures !IsPySpace(CLOSE[0]) && !IsPySpace(CLOSE[|CLOSE| - 1])
  {
  }
}
