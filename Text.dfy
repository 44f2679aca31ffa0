/**
 * String scanning shared by the server (Python) and the client (JavaScript):
 * substring search, the two languages' whitespace sets, stripping, and splitting.
 */
module Text {
  import opened Wrappers

  /** `t` occurs in `s` at position `i`. */
  predicate OccursAt(s: string, t: string, i: nat) {
    i + |t| <= |s| && s[i..i + |t|] == t
  }

  /** The first position at or after `from` where `t` occurs in `s`
      (Python `str.find(t, from)`, JavaScript `indexOf(t, from)`). */
  function IndexOfFrom(s: string, t: string, from: nat): (r: Option<nat>)
    ensures r.Some? ==> from <= r.value && OccursAt(s, t, r.value)
    ensures r.Some? ==> forall j :: from <= j < r.value ==> !OccursAt(s, t, j)
    ensures r.None? ==> forall j :: from <= j ==> !OccursAt(s, t, j)
    decreases |s| - from
  {
    if from + |t| > |s| then None
    else if s[from..from + |t|] == t then Some(from)
    else IndexOfFrom(s, t, from + 1)
  }

  /** The search result is determined by the first occurrence at or after `from`. */
  lemma IndexOfFromIs(s: string, t: string, from: nat, i: nat)
    requires from <= i && OccursAt(s, t, i)
    requires forall j :: from <= j < i ==> !OccursAt(s, t, j)
    ensures IndexOfFrom(s, t, from) == Some(i)
  {
  }

  /** Python's `t in s`, JavaScript's `s.includes(t)`. */
  predicate Contains(s: string, t: string)
  {
    IndexOfFrom(s, t, 0).Some?
  }

  lemma ContainsIff(s: string, t: string)
    ensures Contains(s, t) <==> exists i :: OccursAt(s, t, i)
  {
    if Contains(s, t) {
      assert OccursAt(s, t, IndexOfFrom(s, t, 0).value);
    }
  }

  /** The first character of `t` occurs nowhere else in `t`: an occurrence of `t`
      cannot begin inside another one. Both tool-call tags have this shape. */
  predicate HeadIsUnique(t: string) {
    |t| > 0 && forall k :: 0 < k < |t| ==> t[k] != t[0]
  }

  /** In `s == x + a + t + b`, when `a` holds no `t` and `t` cannot overlap itself,
      the first `t` at or after `|x|` is the one right after `a`. */
  lemma FirstAfterGap(s: string, x: string, a: string, t: string, b: string)
    requires s == x + a + t + b
    requires HeadIsUnique(t) && !Contains(a, t)
    ensures IndexOfFrom(s, t, |x|) == Some(|x| + |a|)
  {
    var i := |x| + |a|;
    assert s[i..i + |t|] == t;
    forall j | |x| <= j < i
      ensures !OccursAt(s, t, j)
    {
      NotContainsAt(a, t, j - |x|);
      assert j + |t| <= i ==> a[j - |x|..j - |x| + |t|] == s[j..j + |t|];
      assert i < j + |t| <= |s| ==> s[j..j + |t|][i - j] == s[i] == t[0];
    }
    IndexOfFromIs(s, t, |x|, i);
  }

  /** In `p + o + s`, with no `c` in `s`, no `c` begins at or after `|p| + |o|`. */
  lemma NoneAfter(content: string, p: string, o: string, s: string, c: string)
    requires content == p + o + s
    requires !Contains(s, c)
    ensures IndexOfFrom(content, c, |p| + |o|) == None
  {
    var from := |p| + |o|;
    assert content[from..] == s;
    forall j | from <= j
      ensures !OccursAt(content, c, j)
    {
      NotContainsAt(s, c, j - from);
      assert j + |c| <= |content| ==> content[j..j + |c|] == s[j - from..j - from + |c|];
    }
  }

  /** The parts of a five-part concatenation, read back as slices. */
  lemma FiveParts<T>(p: seq<T>, o: seq<T>, s: seq<T>, c: seq<T>, q: seq<T>)
    ensures (p + o + s + c + q)[0..|p|] == p
    ensures (p + o + s + c + q)[|p|..|p| + |o|] == o
    ensures (p + o + s + c + q)[|p| + |o|..|p| + |o| + |s|] == s
    ensures (p + o + s + c + q)[|p| + |o| + |s|..|p| + |o| + |s| + |c|] == c
  {
  }

  /** The first `t` at or after `from` is the one at `at`, right after the text `a` that starts at `from`,
      when `a` holds no `t` and `t` cannot overlap itself. */
  lemma FirstAfterGapAt(s: string, from: nat, a: string, t: string, at: nat)
    requires at == from + |a| && at <= |s| && s[from..at] == a && OccursAt(s, t, at)
    requires HeadIsUnique(t) && !Contains(a, t)
    ensures IndexOfFrom(s, t, from) == Some(at)
  {
    forall j | from <= j < at
      ensures !OccursAt(s, t, j)
    {
      if j + |t| <= at {
        NotContainsAt(a, t, j - from);
        SliceOfSlice(s, from, at, j - from, j - from + |t|);
      } else if j + |t| <= |s| {
        assert s[j..j + |t|][at - j] == s[at] == s[at..at + |t|][0] == t[0];
      }
    }
    IndexOfFromIs(s, t, from, at);
  }

  lemma SliceOfSlice<T>(s: seq<T>, from: nat, to: nat, x: nat, y: nat)
    requires from <= to <= |s| && x <= y <= to - from
    ensures s[from..to][x..y] == s[from + x..from + y]
  {
    forall i | 0 <= i < y - x ensures s[from..to][x..y][i] == s[from + x..from + y][i] {
      assert s[from..to][x..y][i] == s[from..to][x + i];
    }
  }

  /** In `p + o + s + c + q`, with no `o` in `p`, no `c` in `s` and neither tag able to overlap itself,
      the first `o` is the one after `p` and the first `c` after it is the one after `s`. */
  lemma TwoTags(p: string, o: string, s: string, c: string, q: string, i: nat, k: nat)
    requires HeadIsUnique(o) && HeadIsUnique(c) && !Contains(p, o) && !Contains(s, c)
    requires i == |p| + |o| && k == i + |s|
    ensures IndexOfFrom(p + o + s + c + q, o, 0) == Some(|p|)
    ensures IndexOfFrom(p + o + s + c + q, c, i) == Some(k)
  {
    var content := p + o + s + c + q;
    FiveParts(p, o, s, c, q);
    FirstAfterGapAt(content, 0, p, o, |p|);
    FirstAfterGapAt(content, i, s, c, k);
  }

  /** No occurrence of `t` anywhere in `a`, stated through the search. */
  lemma NotContainsAt(a: string, t: string, j: nat)
    requires !Contains(a, t)
    ensures !OccursAt(a, t, j)
  {
    ContainsIff(a, t);
  }

  // ---------------------------------------------------------------
  // Whitespace

  /** Python's `str.isspace` for one character: the characters `str.strip()` removes. */
  predicate IsPySpace(c: char) {
    || ('\U{9}' <= c <= '\U{D}') || ('\U{1C}' <= c <= '\U{20}')
    || c == '\U{85}' || c == '\U{A0}' || c == '\U{1680}'
    || ('\U{2000}' <= c <= '\U{200A}') || c == '\U{2028}' || c == '\U{2029}'
    || c == '\U{202F}' || c == '\U{205F}' || c == '\U{3000}'
  }

  /** JavaScript's WhiteSpace and LineTerminator characters: what `trim()` removes and `\s` matches. */
  predicate IsJsSpace(c: char) {
    || ('\U{9}' <= c <= '\U{D}') || c == ' '
    || c == '\U{A0}' || c == '\U{1680}'
    || ('\U{2000}' <= c <= '\U{200A}') || c == '\U{2028}' || c == '\U{2029}'
    || c == '\U{202F}' || c == '\U{205F}' || c == '\U{3000}' || c == '\U{FEFF}'
  }

  predicate AllSpace(s: string, isSpace: char -> bool) {
    forall i :: 0 <= i < |s| ==> isSpace(s[i])
  }

  /** How many whitespace characters `s` begins with. */
  function LeadingSpaces(s: string, isSpace: char -> bool): (n: nat)
    ensures n <= |s|
    ensures forall i :: 0 <= i < n ==> isSpace(s[i])
    ensures n < |s| ==> !isSpace(s[n])
  {
    if s == [] || !isSpace(s[0]) then 0
    else
      var m := LeadingSpaces(s[1..], isSpace);
      assert forall i :: 1 <= i < m + 1 ==> s[i] == s[1..][i - 1];
      m + 1
  }

  /** How many whitespace characters `s` ends with. */
  function TrailingSpaces(s: string, isSpace: char -> bool): (n: nat)
    ensures n <= |s|
    ensures forall i :: |s| - n <= i < |s| ==> isSpace(s[i])
    ensures n < |s| ==> !isSpace(s[|s| - n - 1])
  {
    if s == [] || !isSpace(s[|s| - 1]) then 0
    else
      var m := TrailingSpaces(s[..|s| - 1], isSpace);
      assert forall i :: 0 <= i < |s| - 1 ==> s[i] == s[..|s| - 1][i];
      m + 1
  }

  /** `s` without its leading whitespace. */
  function TrimStart(s: string, isSpace: char -> bool): string {
    s[LeadingSpaces(s, isSpace)..]
  }

  /** `s` without its trailing whitespace. */
  function TrimEnd(s: string, isSpace: char -> bool): string {
    s[..|s| - TrailingSpaces(s, isSpace)]
  }

  /** Both ends trimmed: the slice of `s` after its leading whitespace that neither begins nor ends with
      whitespace and is followed by whitespace only. */
  function Strip(s: string, isSpace: char -> bool): (r: string)
    ensures LeadingSpaces(s, isSpace) + |r| <= |s|
    ensures r == s[LeadingSpaces(s, isSpace)..LeadingSpaces(s, isSpace) + |r|]
    ensures forall i :: LeadingSpaces(s, isSpace) + |r| <= i < |s| ==> isSpace(s[i])
    ensures r != [] ==> !isSpace(r[0]) && !isSpace(r[|r| - 1])
  {
    TrimBothEnds(s, isSpace);
    TrimEnd(TrimStart(s, isSpace), isSpace)
  }

  lemma TrimBothEnds(s: string, isSpace: char -> bool)
    ensures var a, r := LeadingSpaces(s, isSpace), TrimEnd(TrimStart(s, isSpace), isSpace);
            && a + |r| <= |s| && r == s[a..a + |r|]
            && (forall i :: a + |r| <= i < |s| ==> isSpace(s[i]))
            && (r != [] ==> !isSpace(r[0]) && !isSpace(r[|r| - 1]))
  {
    var a := LeadingSpaces(s, isSpace);
    var t := TrimStart(s, isSpace);
    var n := TrailingSpaces(t, isSpace);
    var r := TrimEnd(t, isSpace);
    assert t == s[a..] && r == t[..|t| - n];
    SliceOfSuffix(s, a, n);
    TrailingOfSuffix(s, a, t, n, isSpace);
    EndsOfTrimmed(t, n, isSpace);
  }

  lemma EndsOfTrimmed(t: string, n: nat, isSpace: char -> bool)
    requires n <= |t| && (t != [] ==> !isSpace(t[0])) && (n < |t| ==> !isSpace(t[|t| - n - 1]))
    ensures var r := t[..|t| - n]; r != [] ==> !isSpace(r[0]) && !isSpace(r[|r| - 1])
  {
  }

  lemma SliceOfSuffix(s: string, a: nat, n: nat)
    requires a + n <= |s|
    ensures var r := s[a..][..|s| - a - n]; |r| == |s| - a - n && r == s[a..a + |r|]
  {
    assert s[a..][..|s| - a - n] == s[a..|s| - n];
  }

  lemma TrailingOfSuffix(s: string, a: nat, t: string, n: nat, isSpace: char -> bool)
    requires a <= |s| && t == s[a..] && n <= |t|
    requires forall i :: |t| - n <= i < |t| ==> isSpace(t[i])
    ensures forall i :: |s| - n <= i < |s| ==> isSpace(s[i])
  {
    forall i | |s| - n <= i < |s| ensures isSpace(s[i]) {
      assert s[i] == t[i - a];
    }
  }

  /** A text that neither begins nor ends with whitespace is left as it is. */
  lemma StripUnpadded(s: string, isSpace: char -> bool)
    requires s != [] && !isSpace(s[0]) && !isSpace(s[|s| - 1])
    ensures Strip(s, isSpace) == s
  {
    var r := Strip(s, isSpace);
    assert LeadingSpaces(s, isSpace) == 0;
  }

  /** Python `s.strip()`. */
  function PyStrip(s: string): string {
    Strip(s, IsPySpace)
  }

  /** JavaScript `s.trim()`. */
  function JsTrim(s: string): string {
    Strip(s, IsJsSpace)
  }

  lemma {:induction false} LeadingSpacesAfterSpaces(w: string, t: string, isSpace: char -> bool)
    requires AllSpace(w, isSpace)
    ensures LeadingSpaces(w + t, isSpace) == |w| + LeadingSpaces(t, isSpace)
  {
    if w != [] {
      assert (w + t)[0] == w[0];
      assert (w + t)[1..] == w[1..] + t;
      LeadingSpacesAfterSpaces(w[1..], t, isSpace);
    } else {
      assert w + t == t;
    }
  }

  lemma {:induction false} LeadingSpacesBeforeText(s: string, t: string, isSpace: char -> bool)
    requires LeadingSpaces(s, isSpace) < |s|
    ensures LeadingSpaces(s + t, isSpace) == LeadingSpaces(s, isSpace)
  {
    assert (s + t)[0] == s[0];
    if isSpace(s[0]) {
      assert (s + t)[1..] == s[1..] + t;
      LeadingSpacesBeforeText(s[1..], t, isSpace);
    }
  }

  lemma {:induction false} TrailingSpacesBeforeSpaces(s: string, w: string, isSpace: char -> bool)
    requires AllSpace(w, isSpace)
    ensures TrailingSpaces(s + w, isSpace) == TrailingSpaces(s, isSpace) + |w|
  {
    if w != [] {
      var n := |w| - 1;
      assert (s + w)[|s + w| - 1] == w[n];
      assert (s + w)[..|s + w| - 1] == s + w[..n];
      TrailingSpacesBeforeSpaces(s, w[..n], isSpace);
    } else {
      assert s + w == s;
    }
  }

  /** Whitespace added around a string does not change what stripping leaves. */
  lemma StripPadding(w1: string, s: string, w2: string, isSpace: char -> bool)
    requires AllSpace(w1, isSpace) && AllSpace(w2, isSpace)
    ensures Strip(w1 + s + w2, isSpace) == Strip(s, isSpace)
  {
    assert w1 + s + w2 == w1 + (s + w2);
    TrimStartAfterSpaces(w1, s + w2, isSpace);
    TrimStartBeforeSpaces(s, w2, isSpace);
  }

  lemma TrimStartAfterSpaces(w: string, x: string, isSpace: char -> bool)
    requires AllSpace(w, isSpace)
    ensures TrimStart(w + x, isSpace) == TrimStart(x, isSpace)
  {
    LeadingSpacesAfterSpaces(w, x, isSpace);
    var k := LeadingSpaces(x, isSpace);
    assert (w + x)[|w| + k..] == x[k..];
  }

  lemma TrimEndBeforeSpaces(y: string, w: string, isSpace: char -> bool)
    requires AllSpace(w, isSpace)
    ensures TrimEnd(y + w, isSpace) == TrimEnd(y, isSpace)
  {
    TrailingSpacesBeforeSpaces(y, w, isSpace);
    var k := TrailingSpaces(y, isSpace);
    assert (y + w)[..|y| - k] == y[..|y| - k];
  }

  /** Trailing whitespace survives trimming the start, unless nothing else is left, and is then trimmed away. */
  lemma TrimStartBeforeSpaces(s: string, w: string, isSpace: char -> bool)
    requires AllSpace(w, isSpace)
    ensures TrimEnd(TrimStart(s + w, isSpace), isSpace) == TrimEnd(TrimStart(s, isSpace), isSpace)
  {
    var a := LeadingSpaces(s, isSpace);
    if a < |s| {
      LeadingSpacesBeforeText(s, w, isSpace);
      assert (s + w)[a..] == s[a..] + w;
      TrimEndBeforeSpaces(s[a..], w, isSpace);
    } else {
      var x := s + w;
      assert AllSpace(x, isSpace);
      LeadingSpacesAfterSpaces(x, [], isSpace);
      assert x + [] == x;
      assert TrimStart(x, isSpace) == [] && TrimStart(s, isSpace) == [];
    }
  }

  // ---------------------------------------------------------------
  // Splitting and numbers

  /** JavaScript `s.split(sep)` for a one-character separator: the pieces between separators. */
  function Split(s: string, sep: char): (r: seq<string>)
    ensures |r| > 0
    ensures forall i :: 0 <= i < |r| ==> sep !in r[i]
    ensures Join(r, sep) == s
  {
    if sep !in s then [s]
    else
      var i := FirstIndexOf(s, sep);
      assert s == s[..i] + [sep] + s[i + 1..];
      [s[..i]] + Split(s[i + 1..], sep)
  }

  function FirstIndexOf(s: string, c: char): (i: nat)
    requires c in s
    ensures i < |s| && s[i] == c && c !in s[..i]
  {
    if s[0] == c then 0 else FirstIndexOf(s[1..], c) + 1
  }

  /** The pieces glued back together with the separator. */
  function Join(pieces: seq<string>, sep: char): string
    requires |pieces| > 0
  {
    if |pieces| == 1 then pieces[0] else pieces[0] + [sep] + Join(pieces[1..], sep)
  }

  /** Splitting text built from separator-free pieces gives back exactly those pieces. */
  lemma {:induction false} SplitJoin(pieces: seq<string>, sep: char)
    requires |pieces| > 0
    requires forall i :: 0 <= i < |pieces| ==> sep !in pieces[i]
    ensures Split(Join(pieces, sep), sep) == pieces
  {
    if |pieces| > 1 {
      var s := Join(pieces, sep);
      var rest := Join(pieces[1..], sep);
      var i := |pieces[0]|;
      assert s == pieces[0] + [sep] + rest;
      assert s[..i] == pieces[0] && s[i] == sep && s[i + 1..] == rest;
      SplitAtFirst(s, sep, i);
      SplitJoin(pieces[1..], sep);
      assert pieces == [pieces[0]] + pieces[1..];
    }
  }

  /** Splitting at the first separator: the text before it, then the pieces of the text after it. */
  lemma SplitAtFirst(s: string, sep: char, i: nat)
    requires i < |s| && s[i] == sep && sep !in s[..i]
    ensures Split(s, sep) == [s[..i]] + Split(s[i + 1..], sep)
  {
    assert sep in s;
    var j := FirstIndexOf(s, sep);
    assert forall k :: 0 <= k < i ==> s[..i][k] == s[k];
    assert forall k :: 0 <= k < j ==> s[..j][k] == s[k];
  }

  /** The pieces glued together with nothing between them (`join("")`). */
  function Concat(ss: seq<string>): string {
    if ss == [] then "" else ss[0] + Concat(ss[1..])
  }

  lemma {:induction false} ConcatSnoc(ss: seq<string>)
    requires ss != []
    ensures Concat(ss) == Concat(ss[..|ss| - 1]) + ss[|ss| - 1]
    decreases |ss|
  {
    if |ss| > 1 {
      var n := |ss| - 1;
      assert ss[1..][..n - 1] == ss[..n][1..];
      ConcatSnoc(ss[1..]);
    }
  }

  /** The decimal digits of `n`, as Python's `str(n)` and JavaScript's `String(n)` print it. */
  function DecimalString(n: nat): (r: string)
    ensures |r| > 0 && forall i :: 0 <= i < |r| ==> '0' <= r[i] <= '9'
  {
    var d := ['0' + (n % 10) as char];
    if n < 10 then d else DecimalString(n / 10) + d
  }
}
