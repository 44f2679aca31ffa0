/**
 * The timeline's `linkify`: a string is split at every URL, `text.split(/(https?:\/\/[^\s]+)/g)`,
 * and each piece becomes a link or a plain span.
 */
module Linkify {
  import opened Wrappers
  import opened Text
  import opened JsonValue
  import opened ClientFrames

  const HTTP: string := "http://"
  const HTTPS: string := "https://"

  // ---------------------------------------------------------------
  // The regular expression

  /** Where the run of non-whitespace characters (`[^\s]+`, greedy) that begins at `k` ends. */
  function RunEnd(s: string, k: nat): (e: nat)
    requires k <= |s|
    ensures k <= e <= |s|
    ensures e < |s| ==> IsJsSpace(s[e])
    decreases |s| - k
  {
    if k == |s| || IsJsSpace(s[k]) then k else RunEnd(s, k + 1)
  }

  /** The run holds no whitespace. */
  lemma {:induction false} RunHasNoSpace(s: string, k: nat)
    requires k <= |s|
    ensures forall i :: k <= i < RunEnd(s, k) ==> !IsJsSpace(s[i])
    decreases |s| - k
  {
    if k < |s| && !IsJsSpace(s[k]) {
      RunHasNoSpace(s, k + 1);
    }
  }

  /** The length of `https?://` at the start of `s`, 0 when neither form is there. `s?` is greedy, and
      on "https://" the other choice cannot match, since "http" is then followed by 's', not ':'. */
  function SchemeLength(s: string): (m: nat)
    ensures m <= |s|
    ensures m == |HTTPS| <==> StartsWith(s, HTTPS)
    ensures m == |HTTP| <==> StartsWith(s, HTTP)
    ensures m == 0 || m == |HTTP| || m == |HTTPS|
  {
    SchemesExclusive(s);
    if StartsWith(s, HTTPS) then |HTTPS| else if StartsWith(s, HTTP) then |HTTP| else 0
  }

  /** No text starts with both forms: the fifth character is ':' in one and 's' in the other. */
  lemma SchemesExclusive(s: string)
    ensures !(StartsWith(s, HTTP) && StartsWith(s, HTTPS))
  {
    if StartsWith(s, HTTP) && |HTTPS| <= |s| {
      assert s[..|HTTP|][4] == s[4] == s[..|HTTPS|][4];
    }
  }

  /** A text that is empty or whose first character is not 'h' starts with neither form. */
  lemma NoSchemeWithoutH(t: string)
    requires t == [] || t[0] != 'h'
    ensures !StartsWith(t, HTTP) && !StartsWith(t, HTTPS) && SchemeLength(t) == 0
  {
    if |t| >= |HTTP| {
      assert t[..|HTTP|][0] == t[0];
    }
    if |t| >= |HTTPS| {
      assert t[..|HTTPS|][0] == t[0];
    }
  }

  /** A scheme at the start of a text is the same scheme at the start of any longer text. */
  lemma SchemeInLonger(u: string, v: string)
    requires u <= v && SchemeLength(u) > 0
    ensures SchemeLength(v) == SchemeLength(u)
  {
    var m := SchemeLength(u);
    assert v[..|u|] == u;
    assert v[..m] == u[..m];
  }

  /** The length of the match of `https?:\/\/[^\s]+` tried at position `j` of `s`; 0 when it does not
      match there (a match is never empty). */
  function MatchAt(s: string, j: nat): nat
    requires j <= |s|
  {
    var m := SchemeLength(s[j..]);
    if m == 0 then 0
    else
      var e := RunEnd(s, j + m);
      if e == j + m then 0 else e - j
  }

  /** A match is longer than the scheme and stays within the text. */
  lemma MatchAtBounds(s: string, j: nat)
    requires j <= |s|
    ensures MatchAt(s, j) != 0 ==> |HTTP| < MatchAt(s, j) && j + MatchAt(s, j) <= |s|
  {
  }

  /** A text that matches nowhere. */
  predicate NoUrl(t: string) {
    forall j :: 0 <= j <= |t| ==> MatchAt(t, j) == 0
  }

  /** A text that is one match of the whole pattern. */
  predicate IsUrl(u: string) {
    |u| > 0 && MatchAt(u, 0) == |u|
  }

  /** A match in a piece of a text is a match in the text. */
  lemma MatchInSlice(s: string, p: nat, q: nat, j: nat)
    requires p <= q <= |s| && j <= q - p && MatchAt(s[p..q], j) != 0
    ensures MatchAt(s, p + j) != 0
  {
    var t := s[p..q];
    var m := SchemeLength(t[j..]);
    assert t[j..] <= s[p + j..];
    SchemeInLonger(t[j..], s[p + j..]);
    assert t[j + m] == s[p + j + m];
  }

  /** Within the run that begins at `q + k` and ends at `e`, the piece `s[q..e]` has the same run. */
  lemma {:induction false} RunEndInPiece(s: string, q: nat, e: nat, k: nat)
    requires q + k <= e <= |s| && RunEnd(s, q + k) == e
    ensures RunEnd(s[q..e], k) == e - q
    decreases e - q - k
  {
    if q + k < e {
      assert s[q..e][k] == s[q + k];
      RunEndInPiece(s, q, e, k + 1);
    }
  }

  /** The text a match covers is itself one whole match. */
  lemma MatchIsUrl(s: string, q: nat, n: nat)
    requires q <= |s| && MatchAt(s, q) == n && n > 0
    ensures IsUrl(s[q..q + n])
  {
    var u := s[q..q + n];
    var m := SchemeLength(s[q..]);
    var e := q + n;
    assert u[0..] == u;
    assert u[..m] == s[q..][..m];
    assert u[..|HTTP|] == s[q..][..|HTTP|];
    if StartsWith(u, HTTPS) {
      assert u[..|HTTPS|] == s[q..][..|HTTPS|];
    }
    assert SchemeLength(u) == m;
    RunEndInPiece(s, q, e, m);
  }

  // ---------------------------------------------------------------
  // The split

  /** Nothing matched in `s[p..q]`. */
  predicate ScannedClean(s: string, p: nat, q: nat)
    requires p <= q <= |s|
  {
    forall j :: p <= j < q ==> MatchAt(s, j) == 0
  }

  /** The split's scan for the next match, one position at a time from `from`: where the next match
      starts, or `|s|` when no match starts at or after `from`. */
  function NextMatch(s: string, from: nat): (q: nat)
    requires from <= |s|
    ensures from <= q <= |s| && ScannedClean(s, from, q)
    ensures q < |s| ==> MatchAt(s, q) != 0 && q + MatchAt(s, q) <= |s|
    decreases |s| - from
  {
    if from == |s| then from
    else if MatchAt(s, from) != 0 then MatchAtBounds(s, from); from
    else NextMatch(s, from + 1)
  }

  /** `String.prototype.split` with this expression, from the piece that begins at `p`: the text up to
      the next match, the match itself (the captured group), then the split after it. */
  function SplitFrom(s: string, p: nat): (parts: seq<string>)
    requires p <= |s|
    ensures WellSplit(s[p..], parts)
    ensures parts[0] == [] || (p < |s| && parts[0][0] == s[p])
    decreases |s| - p
  {
    var q := NextMatch(s, p);
    if q == |s| then
      CleanSuffixHasNoUrl(s, p);
      SingleWellSplit(s[p..]);
      [s[p..]]
    else
      var n := MatchAt(s, q);
      UrlEndsAtSpace(s, q, n);
      var rest := SplitFrom(s, q + n);
      MatchCase(s, p, q, n, rest);
      [s[p..q], s[q..q + n]] + rest
  }

  /** `text.split(/(https?:\/\/[^\s]+)/g)`: odd in number, gluing back to the text, URLs exactly at
      the odd positions and no URL anywhere in the even ones. */
  function UrlParts(s: string): (parts: seq<string>)
    ensures WellSplit(s, parts)
  {
    assert s[0..] == s;
    SplitFrom(s, 0)
  }

  /** The parts come in odd number, glue back to the text, alternate text and URL, and each URL is
      followed by a part that is empty or starts with whitespace. */
  predicate WellSplit(s: string, parts: seq<string>) {
    && |parts| % 2 == 1
    && Concat(parts) == s
    && (forall i :: 0 <= i < |parts| && i % 2 == 1 ==> IsUrl(parts[i]))
    && (forall i :: 0 <= i < |parts| && i % 2 == 0 ==> NoUrl(parts[i]))
    && (forall i :: 0 < i < |parts| && i % 2 == 0 ==> parts[i] == [] || IsJsSpace(parts[i][0]))
  }

  /** The pieces cut from the text without a match are free of URLs. */
  lemma CleanPieceHasNoUrl(s: string, p: nat, q: nat)
    requires p <= q <= |s| && ScannedClean(s, p, q)
    ensures NoUrl(s[p..q])
  {
    var t := s[p..q];
    forall j | 0 <= j <= |t| ensures MatchAt(t, j) == 0 {
      if j < |t| && MatchAt(t, j) != 0 {
        MatchInSlice(s, p, q, j);
      }
    }
  }

  /** The text after the last match is free of URLs. */
  lemma CleanSuffixHasNoUrl(s: string, p: nat)
    requires p <= |s| && ScannedClean(s, p, |s|)
    ensures NoUrl(s[p..])
  {
    CleanPieceHasNoUrl(s, p, |s|);
    assert s[p..|s|] == s[p..];
  }

  /** A text free of URLs does not start with one. */
  lemma NoUrlAtStart(t: string)
    requires NoUrl(t)
    ensures !IsUrl(t)
  {
    assert MatchAt(t, 0) == 0;
  }

  /** A URL holds no whitespace: neither its scheme nor the run after it. */
  lemma UrlHasNoSpace(u: string)
    requires IsUrl(u)
    ensures forall i :: 0 <= i < |u| ==> !IsJsSpace(u[i])
  {
    var m := SchemeLength(u);
    assert u[0..] == u;
    RunHasNoSpace(u, m);
    forall i | 0 <= i < m ensures !IsJsSpace(u[i]) {
      if m == |HTTPS| {
        assert u[i] == u[..|HTTPS|][i] == HTTPS[i];
      } else {
        assert u[i] == u[..|HTTP|][i] == HTTP[i];
      }
    }
  }

  /** A URL starts with a scheme. */
  lemma UrlHasScheme(u: string)
    requires IsUrl(u)
    ensures HasScheme(u)
  {
    assert u[0..] == u;
  }

  /** The parts at a match: the clean piece before it, the URL, and the well-split rest. */
  lemma MatchCase(s: string, p: nat, q: nat, n: nat, rest: seq<string>)
    requires p <= q < q + n <= |s| && MatchAt(s, q) == n && ScannedClean(s, p, q)
    requires q + n == |s| || IsJsSpace(s[q + n])
    requires WellSplit(s[q + n..], rest)
    requires rest[0] == [] || (q + n < |s| && rest[0][0] == s[q + n])
    ensures WellSplit(s[p..], [s[p..q], s[q..q + n]] + rest)
    ensures s[p..q] == [] || s[p..q][0] == s[p]
  {
    CleanPieceHasNoUrl(s, p, q);
    MatchIsUrl(s, q, n);
    ConsTwo(s, p, q, q + n, rest);
  }

  /** A text without URLs is split into itself alone. */
  lemma SingleWellSplit(t: string)
    requires NoUrl(t)
    ensures WellSplit(t, [t])
  {
    assert Concat([t]) == t + Concat([]);
  }

  /** A match stops at the end of the text or before whitespace. */
  lemma UrlEndsAtSpace(s: string, q: nat, n: nat)
    requires q < |s| && MatchAt(s, q) == n && n > 0
    ensures q + n == |s| || IsJsSpace(s[q + n])
  {
    var m := SchemeLength(s[q..]);
    assert s[q..][m..] == s[q + m..];
    if q + n < |s| {
      assert s[q + m..][n - m] == s[q + n];
    }
  }

  /** A text piece and a URL put in front of a well-split remainder. */
  lemma ConsTwo(s: string, p: nat, q: nat, e: nat, rest: seq<string>)
    requires p <= q < e <= |s|
    requires NoUrl(s[p..q]) && IsUrl(s[q..e])
    requires WellSplit(s[e..], rest)
    requires e == |s| || IsJsSpace(s[e])
    requires rest[0] == [] || (e < |s| && rest[0][0] == s[e])
    ensures WellSplit(s[p..], [s[p..q], s[q..e]] + rest)
    ensures s[p..q] == [] || s[p..q][0] == s[p]
  {
    var parts := [s[p..q], s[q..e]] + rest;
    ConsTwoConcat(s, p, q, e, rest);
    ConsTwoParts(s[p..q], s[q..e], rest);
  }

  lemma ConsTwoConcat(s: string, p: nat, q: nat, e: nat, rest: seq<string>)
    requires p <= q < e <= |s| && Concat(rest) == s[e..]
    ensures Concat([s[p..q], s[q..e]] + rest) == s[p..]
  {
    var parts := [s[p..q], s[q..e]] + rest;
    var tail := parts[1..];
    assert tail == [s[q..e]] + rest && tail[1..] == rest;
    assert Concat(tail) == s[q..e] + s[e..];
    assert Concat(parts) == s[p..q] + Concat(tail);
    assert s[p..] == s[p..q] + (s[q..e] + s[e..]);
  }

  lemma ConsTwoParts(t: string, u: string, rest: seq<string>)
    requires NoUrl(t) && IsUrl(u)
    requires |rest| % 2 == 1
    requires forall i :: 0 <= i < |rest| && i % 2 == 1 ==> IsUrl(rest[i])
    requires forall i :: 0 <= i < |rest| && i % 2 == 0 ==> NoUrl(rest[i])
    requires forall i :: 0 < i < |rest| && i % 2 == 0 ==> rest[i] == [] || IsJsSpace(rest[i][0])
    requires rest[0] == [] || IsJsSpace(rest[0][0])
    ensures var parts := [t, u] + rest;
            && |parts| % 2 == 1
            && (forall i :: 0 <= i < |parts| && i % 2 == 1 ==> IsUrl(parts[i]))
            && (forall i :: 0 <= i < |parts| && i % 2 == 0 ==> NoUrl(parts[i]))
            && (forall i :: 0 < i < |parts| && i % 2 == 0 ==> parts[i] == [] || IsJsSpace(parts[i][0]))
  {
    var parts := [t, u] + rest;
    forall i | 2 <= i < |parts| ensures parts[i] == rest[i - 2] && (i % 2 == 0 <==> (i - 2) % 2 == 0) { }
  }

  // ---------------------------------------------------------------
  // Rendering

  /** A rendered piece: a link opened in a new tab, or plain text. */
  datatype Node = Anchor(href: string, text: string) | Span(text: string)

  /** What `linkify` returns: the nodes for a string, anything else unchanged. */
  datatype Rendered = Nodes(nodes: seq<Node>) | AsIs(value: Option<Json>)

  /** `/^https?:\/\//.test(part)`. */
  predicate HasScheme(part: string) {
    StartsWith(part, HTTP) || StartsWith(part, HTTPS)
  }

  /** `linkify` as written: each part is a link exactly when it starts with a scheme. */
  function LinkifyAsWritten(text: Option<Json>): (r: Rendered)
    ensures !(text.Some? && text.value.Str?) <==> r == AsIs(text)
  {
    match text
    case Some(Str(s)) =>
      var parts := UrlParts(s);
      Nodes(seq(|parts|, i requires 0 <= i < |parts| => if HasScheme(parts[i]) then Anchor(parts[i], parts[i]) else Span(parts[i])))
    case _ => AsIs(text)
  }

  /** `linkify` as intended: the parts the split captured (the odd ones) are the links. */
  function Linkify(text: Option<Json>): (r: Rendered)
    ensures !(text.Some? && text.value.Str?) <==> r == AsIs(text)
  {
    match text
    case Some(Str(s)) => Nodes(LinkNodes(UrlParts(s)))
    case _ => AsIs(text)
  }

  /** The captured parts as links, the others as spans. */
  function LinkNodes(parts: seq<string>): (nodes: seq<Node>)
    ensures |nodes| == |parts|
  {
    seq(|parts|, i requires 0 <= i < |parts| => if i % 2 == 1 then Anchor(parts[i], parts[i]) else Span(parts[i]))
  }

  /** The text the nodes display, in order. */
  function NodeText(nodes: seq<Node>): string {
    if nodes == [] then "" else nodes[0].text + NodeText(nodes[1..])
  }

  lemma {:induction false} NodeTextOfParts(nodes: seq<Node>, parts: seq<string>)
    requires |nodes| == |parts| && forall i :: 0 <= i < |nodes| ==> nodes[i].text == parts[i]
    ensures NodeText(nodes) == Concat(parts)
  {
    if nodes != [] {
      NodeTextOfParts(nodes[1..], parts[1..]);
    }
  }

  /** The rendered nodes show the text unchanged, every link points at the text it shows, and a node
      is a link exactly when its text is one whole URL. */
  lemma LinkifyShowsUrlsAsLinks(s: string)
    ensures var nodes := Linkify(Some(Str(s))).nodes;
            && NodeText(nodes) == s
            && (forall i :: 0 <= i < |nodes| && nodes[i].Anchor? ==> nodes[i].href == nodes[i].text)
            && (forall i :: 0 <= i < |nodes| ==> (nodes[i].Anchor? <==> IsUrl(nodes[i].text)))
  {
    LinkifyKeepsText(s);
    LinkifyLinksUrls(s);
  }

  lemma LinkifyKeepsText(s: string)
    ensures NodeText(Linkify(Some(Str(s))).nodes) == s
  {
    NodeTextOfParts(Linkify(Some(Str(s))).nodes, UrlParts(s));
  }

  lemma LinkifyLinksUrls(s: string)
    ensures var nodes := Linkify(Some(Str(s))).nodes;
            && (forall i :: 0 <= i < |nodes| && nodes[i].Anchor? ==> nodes[i].href == nodes[i].text)
            && (forall i :: 0 <= i < |nodes| ==> (nodes[i].Anchor? <==> IsUrl(nodes[i].text)))
  {
    LinkNodesLinkUrls(UrlParts(s));
  }

  lemma LinkNodesLinkUrls(parts: seq<string>)
    requires forall i :: 0 <= i < |parts| && i % 2 == 1 ==> IsUrl(parts[i])
    requires forall i :: 0 <= i < |parts| && i % 2 == 0 ==> NoUrl(parts[i])
    ensures var nodes := LinkNodes(parts);
            && (forall i :: 0 <= i < |nodes| && nodes[i].Anchor? ==> nodes[i].href == nodes[i].text)
            && (forall i :: 0 <= i < |nodes| ==> (nodes[i].Anchor? <==> IsUrl(nodes[i].text)))
  {
    var nodes := LinkNodes(parts);
    forall i | 0 <= i < |nodes| ensures nodes[i].Anchor? <==> IsUrl(nodes[i].text) {
      if i % 2 == 0 {
        NoUrlAtStart(parts[i]);
      }
    }
  }

  /** After the first part the scheme test agrees with the split: URLs start with a scheme, and
      every later text part starts with whitespace or is empty. */
  lemma AsWrittenAgreesAfterFirst(s: string)
    ensures var w := LinkifyAsWritten(Some(Str(s))).nodes;
            var c := Linkify(Some(Str(s))).nodes;
            |w| == |c| && forall i :: 0 < i < |w| ==> w[i] == c[i]
  {
    var parts := UrlParts(s);
    forall i | 0 < i < |parts| ensures HasScheme(parts[i]) <==> i % 2 == 1 {
      if i % 2 == 1 {
        UrlHasScheme(parts[i]);
      } else {
        NoSchemeWithoutH(parts[i]);
      }
    }
  }

  /** "http:// x" has no URL in it, yet the scheme test makes its only part a link. */
  lemma AsWrittenLinksSchemeWithoutUrl(s: string)
    requires s == "http:// x"
    ensures UrlParts(s) == [s] && !IsUrl(s)
    ensures LinkifyAsWritten(Some(Str(s))) == Nodes([Anchor(s, s)])
    ensures Linkify(Some(Str(s))) == Nodes([Span(s)])
  {
    SchemeWithoutUrl(s);
    var parts := UrlParts(s);
    assert HasScheme(parts[0]);
  }

  /** The example text: it starts with a scheme and no match starts anywhere in it. */
  lemma SchemeWithoutUrl(s: string)
    requires s == "http:// x"
    ensures StartsWith(s, HTTP) && !IsUrl(s)
    ensures UrlParts(s) == [s]
  {
    assert s[..|HTTP|] == HTTP;
    assert s[0..] == s;
    assert s[|HTTP|] == ' ';
    forall j | 0 < j < |s| ensures MatchAt(s, j) == 0 {
      assert s[j..][0] == s[j];
      NoSchemeWithoutH(s[j..]);
    }
    assert ScannedClean(s, 0, |s|);
    assert s[0..] == s;
  }
}
