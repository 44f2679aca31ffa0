/**
 * The client's reading of the event stream: the receive buffer cut at each blank line
 * ("\n\n"), and the `event: ` / `data: ` lines of each frame picked out, a simplified
 * reading of section 9.2 "Server-sent events" of the WHATWG HTML Living Standard.
 */
module ClientFrames {
  import opened Wrappers
  import opened Text
  import opened JsonValue

  const SEP: string := "\n\n"
  const EVENT_PREFIX: string := "event: "
  const DATA_PREFIX: string := "data: "

  /** `JSON.parse`: the value, or `None` when it throws. */
  type JsonParser = string -> Option<Json>

  // ---------------------------------------------------------------
  // Cutting the buffer

  /** Frame texts each followed by a blank line. */
  function JoinFrames(pieces: seq<string>): string {
    if pieces == [] then "" else pieces[0] + SEP + JoinFrames(pieces[1..])
  }

  /** A frame text as the splitter cuts it: every line feed in it is followed by another character,
      and that character is not a line feed. */
  predicate FramePiece(p: string) {
    forall j :: 0 <= j < |p| && p[j] == '\n' ==> j + 1 < |p| && p[j + 1] != '\n'
  }

  predicate FramePieces(ps: seq<string>) {
    forall i :: 0 <= i < |ps| ==> FramePiece(ps[i])
  }

  /** A frame text holds no blank line. */
  lemma FramePieceHasNoBlankLine(p: string)
    requires FramePiece(p)
    ensures !Contains(p, SEP)
  {
    forall j: nat ensures !OccursAt(p, SEP, j) {
      if j + 2 <= |p| {
        assert p[j..j + 2] == [p[j], p[j + 1]];
      }
    }
    ContainsIff(p, SEP);
  }

  /** The text before the first blank line is a frame text: a line feed followed by a line feed there,
      or at its very end, would have been an earlier blank line. */
  lemma PrefixBeforeFirst(s: string, idx: nat)
    requires IndexOfFrom(s, SEP, 0) == Some(idx)
    ensures FramePiece(s[..idx])
  {
    assert s[idx] == s[idx..idx + 2][0];
    forall j | 0 <= j < idx && s[j] == '\n' ensures j + 1 < idx && s[j + 1] != '\n' {
      assert !OccursAt(s, SEP, j);
      assert s[j..j + 2] == [s[j], s[j + 1]];
    }
  }

  /** What the inner `while` loop consumes from a buffer: the text before each blank line, in order, and
      the remainder it leaves, which holds no blank line. */
  function SplitFrames(buf: string): (r: (seq<string>, string))
    ensures JoinFrames(r.0) + r.1 == buf
    ensures !Contains(r.1, SEP)
    ensures FramePieces(r.0)
    decreases |buf|
  {
    match IndexOfFrom(buf, SEP, 0)
    case None => ([], buf)
    case Some(idx) =>
      var rest := SplitFrames(buf[idx + 2..]);
      SplitFramesStep(buf, idx, rest.0, rest.1);
      PrefixBeforeFirst(buf, idx);
      ConsPieces(buf[..idx], rest.0);
      ([buf[..idx]] + rest.0, rest.1)
  }

  lemma SplitFramesStep(buf: string, idx: nat, pieces: seq<string>, rest: string)
    requires OccursAt(buf, SEP, idx)
    requires JoinFrames(pieces) + rest == buf[idx + 2..]
    ensures JoinFrames([buf[..idx]] + pieces) + rest == buf
  {
    JoinCons(buf[..idx], pieces);
    assert buf[idx..idx + 2] == SEP;
    assert buf == buf[..idx] + SEP + buf[idx + 2..];
  }

  lemma JoinCons(p: string, pieces: seq<string>)
    ensures JoinFrames([p] + pieces) == p + SEP + JoinFrames(pieces)
  {
    assert ([p] + pieces)[1..] == pieces;
  }

  lemma ConsPieces(p: string, pieces: seq<string>)
    requires FramePiece(p) && FramePieces(pieces)
    ensures FramePieces([p] + pieces)
  {
    forall i | 0 <= i < |pieces| + 1 ensures FramePiece(([p] + pieces)[i]) {
      if i > 0 {
        assert ([p] + pieces)[i] == pieces[i - 1];
      }
    }
  }

  /** Frame texts followed by a remainder without a blank line come apart into exactly those texts. */
  lemma {:induction false} SplitJoinFrames(pieces: seq<string>, rest: string)
    requires FramePieces(pieces)
    requires !Contains(rest, SEP)
    ensures SplitFrames(JoinFrames(pieces) + rest) == (pieces, rest)
  {
    SplitAfterFrames(pieces, rest);
    assert SplitFrames(rest) == ([], rest);
    assert pieces + [] == pieces;
  }

  /** Complete frames at the front of a buffer are consumed first, whatever follows them. */
  lemma {:induction false} SplitAfterFrames(pieces: seq<string>, tail: string)
    requires FramePieces(pieces)
    ensures SplitFrames(JoinFrames(pieces) + tail) == (pieces + SplitFrames(tail).0, SplitFrames(tail).1)
  {
    if pieces != [] {
      var rest := pieces[1..];
      FramesHead(pieces, tail);
      SplitAfterFrame(pieces[0], JoinFrames(rest) + tail);
      SplitAfterFrames(rest, tail);
      ConsAppend(pieces[0], rest, SplitFrames(tail).0);
    } else {
      NoFrames(pieces, tail, SplitFrames(tail).0);
    }
  }

  /** The first frame text of a non-empty list, and the rest. */
  lemma FramesHead(pieces: seq<string>, tail: string)
    requires pieces != [] && FramePieces(pieces)
    ensures JoinFrames(pieces) + tail == pieces[0] + SEP + (JoinFrames(pieces[1..]) + tail)
    ensures FramePiece(pieces[0]) && FramePieces(pieces[1..]) && pieces == [pieces[0]] + pieces[1..]
  {
    FramePiecesTail(pieces);
  }

  lemma NoFrames(pieces: seq<string>, tail: string, more: seq<string>)
    requires pieces == []
    ensures JoinFrames(pieces) + tail == tail && pieces + more == more
  {
  }

  lemma ConsAppend<T>(a: T, b: seq<T>, c: seq<T>)
    ensures [a] + (b + c) == ([a] + b) + c
  {
  }

  lemma FramePiecesTail(ps: seq<string>)
    requires ps != [] && FramePieces(ps)
    ensures FramePieces(ps[1..]) && ps == [ps[0]] + ps[1..]
  {
    forall i | 0 <= i < |ps| - 1 ensures FramePiece(ps[1..][i]) {
      assert ps[1..][i] == ps[i + 1];
    }
  }

  /** One complete frame at the front of a buffer. */
  lemma SplitAfterFrame(p: string, after: string)
    requires FramePiece(p)
    ensures SplitFrames(p + SEP + after) == ([p] + SplitFrames(after).0, SplitFrames(after).1)
  {
    var buf := p + SEP + after;
    FirstBlankLine(buf, p, after);
    assert buf[|p| + 2..] == after;
    assert buf[..|p|] == p;
  }

  /** In `p + "\n\n" + tail` with `p` a frame text, the first blank line is the one after `p`. */
  lemma FirstBlankLine(buf: string, p: string, tail: string)
    requires buf == p + SEP + tail && FramePiece(p)
    ensures IndexOfFrom(buf, SEP, 0) == Some(|p|)
  {
    assert buf[|p|..|p| + 2] == SEP;
    forall j | 0 <= j < |p| ensures !OccursAt(buf, SEP, j) {
      assert buf[j] == p[j] && buf[j + 1] == (p + SEP)[j + 1];
      assert buf[j..j + 2] == [buf[j], buf[j + 1]];
    }
    IndexOfFromIs(buf, SEP, 0, |p|);
  }

  // ---------------------------------------------------------------
  // Reading one frame

  predicate StartsWith(s: string, prefix: string) {
    |prefix| <= |s| && s[..|prefix|] == prefix
  }

  /** The value of the last `event: ` line. */
  function LastEvent(lines: seq<string>): (r: Option<string>)
    ensures r.None? <==> forall i :: 0 <= i < |lines| ==> !StartsWith(lines[i], EVENT_PREFIX)
    ensures r.Some? ==> exists i :: 0 <= i < |lines| && StartsWith(lines[i], EVENT_PREFIX)
                                    && r.value == lines[i][|EVENT_PREFIX|..]
                                    && forall j :: i < j < |lines| ==> !StartsWith(lines[j], EVENT_PREFIX)
  {
    if lines == [] then None
    else
      var last := lines[|lines| - 1];
      if StartsWith(last, EVENT_PREFIX) then Some(last[|EVENT_PREFIX|..])
      else
        var r := LastEvent(lines[..|lines| - 1]);
        assert forall i :: 0 <= i < |lines| - 1 ==> lines[..|lines| - 1][i] == lines[i];
        r
  }

  /** The value of the last `data: ` line whose payload parses; a line that does not parse is skipped. */
  function LastData(lines: seq<string>, parse: JsonParser): (r: Option<Json>)
    ensures r.None? <==> forall i :: 0 <= i < |lines| && StartsWith(lines[i], DATA_PREFIX)
                                     ==> parse(lines[i][|DATA_PREFIX|..]).None?
    ensures r.Some? ==> exists i :: 0 <= i < |lines| && StartsWith(lines[i], DATA_PREFIX)
                                    && parse(lines[i][|DATA_PREFIX|..]) == r
                                    && forall j :: i < j < |lines| && StartsWith(lines[j], DATA_PREFIX)
                                                   ==> parse(lines[j][|DATA_PREFIX|..]).None?
  {
    if lines == [] then None
    else
      var last := lines[|lines| - 1];
      if StartsWith(last, DATA_PREFIX) && parse(last[|DATA_PREFIX|..]).Some? then parse(last[|DATA_PREFIX|..])
      else
        var r := LastData(lines[..|lines| - 1], parse);
        assert forall i :: 0 <= i < |lines| - 1 ==> lines[..|lines| - 1][i] == lines[i];
        r
  }

  /** The event type and data of a trimmed frame, or `None` when the frame is skipped: no `event: ` line,
      an empty event type, no parseable `data: ` line, or data that is falsy. */
  function FrameFields(raw: string, parse: JsonParser): (r: Option<(string, Json)>)
    ensures r.Some? ==> r.value.0 != "" && JsTruthy(r.value.1)
    ensures r.Some? <==>
              && LastEvent(Split(raw, '\n')).Some? && LastEvent(Split(raw, '\n')).value != ""
              && LastData(Split(raw, '\n'), parse).Some? && JsTruthy(LastData(Split(raw, '\n'), parse).value)
    ensures r.Some? ==> r.value == (LastEvent(Split(raw, '\n')).value, LastData(Split(raw, '\n'), parse).value)
  {
    var lines := Split(raw, '\n');
    var ev := LastEvent(lines);
    var data := LastData(lines, parse);
    if ev.None? || ev.value == "" || data.None? || !JsTruthy(data.value) then None
    else Some((ev.value, data.value))
  }

  /** The `forEach` over the frame's lines and the skip test after it. */
  method ParseFrame(raw: string, parse: JsonParser) returns (r: Option<(string, Json)>)
    ensures r == FrameFields(raw, parse)
  {
    var lines := Split(raw, '\n');
    var evType: Option<string> := None;
    var dataObj: Option<Json> := None;
    var k := 0;
    while k < |lines|
      invariant 0 <= k <= |lines|
      invariant evType == LastEvent(lines[..k])
      invariant dataObj == LastData(lines[..k], parse)
    {
      var line := lines[k];
      assert lines[..k + 1][..k] == lines[..k];
      if StartsWith(line, EVENT_PREFIX) {
        evType := Some(line[|EVENT_PREFIX|..]);
      }
      if StartsWith(line, DATA_PREFIX) {
        var parsed := parse(line[|DATA_PREFIX|..]);
        if parsed.Some? {
          dataObj := parsed;
        }
      }
      k := k + 1;
    }
    assert lines[..k] == lines;
    if evType.None? || evType.value == "" || dataObj.None? || !JsTruthy(dataObj.value) {
      r := None;
    } else {
      r := Some((evType.value, dataObj.value));
    }
  }
}
