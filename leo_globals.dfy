/** Assumed definitions of the leo/core/leoGlobals.py helpers that the Python
    importer calls, and of the few Python string built-ins it uses.

    leoGlobals.py is not part of this model. Each definition below is the
    smallest reading that agrees with how the importer uses the helper; the
    contracts are what the importer relies on. Characters are ASCII-only:
    Unicode letters and Unicode white space are not modelled. */
module LeoGlobals {

  // ---------------------------------------------------------------------------
  // Character classes

  /** A space or a tab: what skip_ws skips. */
  predicate IsWs(c: char) { c == ' ' || c == '\t' }

  /** A space, a tab or a line ending: what skip_ws_and_nl skips. */
  predicate IsWsOrNl(c: char) { c == ' ' || c == '\t' || c == '\n' || c == '\r' }

  /** g.isWordChar: a letter, a digit or an underscore (also the regex class \w). */
  predicate IsWordChar(c: char) {
    ('a' <= c <= 'z') || ('A' <= c <= 'Z') || ('0' <= c <= '9') || c == '_'
  }

  /** Python's str.isspace on one character (also the regex class \s). */
  predicate IsSpace(c: char) {
    c == ' ' || c == '\t' || c == '\n' || c == '\r' || c == '\U{000B}' || c == '\U{000C}'
    || ('\U{001C}' <= c <= '\U{001F}')
  }

  // ---------------------------------------------------------------------------
  // Matching

  /** g.is_nl: a newline or a carriage return at offset i. */
  predicate IsNl(s: string, i: int) {
    0 <= i < |s| && (s[i] == '\n' || s[i] == '\r')
  }

  /** g.match: the non-empty pattern p occurs in s at offset i. */
  predicate Match(s: string, i: int, p: string) {
    |p| > 0 && 0 <= i && i + |p| <= |s| && s[i..i + |p|] == p
  }

  /** Matching a one-character pattern is looking at one character. */
  lemma MatchOne(s: string, i: int, c: char)
    ensures Match(s, i, [c]) <==> 0 <= i < |s| && s[i] == c
  {
    if 0 <= i < |s| {
      assert s[i..i + 1][0] == s[i];
    }
  }

  /** g.match_word: p occurs at i and is not followed by a word character. */
  predicate MatchWord(s: string, i: int, p: string) {
    Match(s, i, p) && (i + |p| == |s| || !IsWordChar(s[i + |p|]))
  }

  /** A triple quote, of either kind, at offset i. */
  predicate TripleAt(s: string, i: int) {
    Match(s, i, "\"\"\"") || Match(s, i, "'''")
  }

  // ---------------------------------------------------------------------------
  // Skipping forward

  /** g.skip_ws: the first offset at or after i that is not a space or a tab. */
  function SkipWs(s: string, i: nat): (r: nat)
    decreases |s| - i
    ensures r == i || i < r <= |s|
    ensures forall p | i <= p < r :: IsWs(s[p])
    ensures r < |s| ==> !IsWs(s[r])
  {
    if i < |s| && IsWs(s[i]) then SkipWs(s, i + 1) else i
  }

  /** g.skip_ws_and_nl: the first offset at or after i that is neither white
      space nor a line ending. */
  function SkipWsAndNl(s: string, i: nat): (r: nat)
    decreases |s| - i
    ensures r == i || i < r <= |s|
    ensures forall p | i <= p < r :: IsWsOrNl(s[p])
    ensures r < |s| ==> !IsWsOrNl(s[r])
  {
    if i < |s| && IsWsOrNl(s[i]) then SkipWsAndNl(s, i + 1) else i
  }

  /** g.skip_id: the end of the run of word characters that starts at i. */
  function SkipId(s: string, i: nat): (r: nat)
    decreases |s| - i
    ensures r == i || i < r <= |s|
    ensures forall p | i <= p < r :: IsWordChar(s[p])
    ensures r < |s| ==> !IsWordChar(s[r])
  {
    if i < |s| && IsWordChar(s[i]) then SkipId(s, i + 1) else i
  }

  /** g.skip_nl: skips one logical line ending ("\r\n", "\n" or "\r"). */
  function SkipNl(s: string, i: nat): (r: nat)
    ensures i + 1 < |s| && s[i] == '\r' && s[i + 1] == '\n' ==> r == i + 2
    ensures IsNl(s, i) && !(i + 1 < |s| && s[i] == '\r' && s[i + 1] == '\n') ==> r == i + 1
    ensures !IsNl(s, i) ==> r == i
    ensures r > i ==> r <= |s| && IsNl(s, r - 1)
  {
    if Match(s, i, "\r\n") then i + 2
    else if IsNl(s, i) then i + 1
    else i
  }

  /** g.skip_to_end_of_line: the offset of the first '\n' at or after i, or
      len(s) when there is none. */
  function SkipToEndOfLine(s: string, i: nat): (r: nat)
    decreases |s| - i
    ensures i <= |s| ==> i <= r
    ensures r <= |s|
    ensures forall p | i <= p < r :: s[p] != '\n'
    ensures r < |s| ==> s[r] == '\n'
  {
    if i >= |s| then |s|
    else if s[i] == '\n' then i
    else SkipToEndOfLine(s, i + 1)
  }

  /** g.find_line_start: the start of the line that holds offset i, which
      is one past the last '\n' before i (s.rfind('\n', 0, i) + 1), or 0;
      0 for a negative i. A '\n' at i itself belongs to i's line. */
  function FindLineStart(s: string, i: int): (r: nat)
    decreases i
    ensures r == 0 || (r <= i && r <= |s| && s[r - 1] == '\n')
    ensures forall p | r <= p < i && p < |s| :: s[p] != '\n'
  {
    if i <= 0 then 0
    else if i - 1 < |s| && s[i - 1] == '\n' then i
    else FindLineStart(s, i - 1)
  }

  /** Python's s.find(pat, k): the first offset at or after k where pat
      occurs, or -1. */
  function FindFrom(s: string, pat: string, k: nat): (r: int)
    requires |pat| > 0
    decreases |s| - k
    ensures r == -1 || (k <= r && Match(s, r, pat))
    ensures forall p | k <= p && (r == -1 || p < r) :: !Match(s, p, pat)
  {
    if k + |pat| > |s| then -1
    else if s[k..k + |pat|] == pat then k
    else FindFrom(s, pat, k + 1)
  }

  /** s[p..q] is the inside of a string closed by delim: characters other
      than delim and the backslash, and escapes (a backslash and the character
      after it). */
  predicate StringInside(s: string, p: nat, q: nat, delim: char)
    decreases q - p
  {
    p <= q <= |s| &&
    (p == q ||
     (s[p] != delim &&
      if s[p] == '\\' then p + 2 <= q && StringInside(s, p + 2, q, delim)
      else StringInside(s, p + 1, q, delim)))
  }

  /** A scan for delim from p may stop at r: just past the first unescaped
      delim, or at the end of s when there is none (the inside may then end
      in a lone backslash). */
  predicate StringEndsAt(s: string, p: nat, r: nat, delim: char)
  {
    (p < r <= |s| && s[r - 1] == delim && StringInside(s, p, r - 1, delim)) ||
    (r == |s| &&
     (StringInside(s, p, |s|, delim) ||
      (p < |s| && s[|s| - 1] == '\\' && StringInside(s, p, |s| - 1, delim))))
  }

  /** The body of g.skip_string: scan for the closing delimiter from p,
      where a backslash hides the character after it. An unterminated string
      ends at len(s); where it ends in a lone backslash, the source's step of
      two would leave len(s) + 1, and the result here is len(s). */
  function SkipStringFrom(s: string, p: nat, delim: char): (r: nat)
    decreases |s| - p
    ensures p < |s| ==> p < r <= |s|
    ensures p >= |s| ==> r == |s|
    ensures p <= |s| ==> StringEndsAt(s, p, r, delim)
  {
    if p >= |s| then |s|
    else if s[p] == delim then p + 1
    else if s[p] == '\\' then SkipStringFrom(s, p + 2, delim)
    else SkipStringFrom(s, p + 1, delim)
  }

  /** The end is unique: any r the scan may stop at is the one it stops at,
      so the string closes at its first unescaped delimiter. */
  lemma {:induction false} SkipStringFromIsFirst(s: string, p: nat, r: nat, delim: char)
    requires StringEndsAt(s, p, r, delim)
    ensures SkipStringFrom(s, p, delim) == r
    decreases |s| - p
  {
    if p < |s| && s[p] != delim {
      var n := if s[p] == '\\' then p + 2 else p + 1;
      if n <= |s| {
        assert StringEndsAt(s, n, r, delim);
        SkipStringFromIsFirst(s, n, r, delim);
      }
    }
  }

  /** g.skip_python_string: from the quote at i, the offset just past the
      string that starts there. A triple-quoted string ends just past the
      next occurrence of its three quotes, or at len(s) when there is none;
      a single-quoted string ends just past its unescaped closing quote,
      or at len(s). */
  function SkipPythonString(s: string, i: nat): (r: nat)
    requires i < |s| && (s[i] == '"' || s[i] == '\'')
    ensures i < r <= |s|
    ensures TripleAt(s, i) ==>
      var k := FindFrom(s, s[i..i + 3], i + 3);
      (k == -1 && r == |s|) || (i + 3 <= k && r == k + 3 && Match(s, k, s[i..i + 3]))
    ensures !TripleAt(s, i) ==> StringEndsAt(s, i + 1, r, s[i])
  {
    if TripleAt(s, i) then
      var k := FindFrom(s, s[i..i + 3], i + 3);
      if k >= 0 then k + 3 else |s|
    else
      SkipStringFrom(s, i + 1, s[i])
  }

  // ---------------------------------------------------------------------------
  // Indentation

  /** The loop of g.skip_leading_ws_with_indent from offset i with the width
      count so far: a space adds 1 and a tab advances to the next multiple of
      tab_width. Returns the offset reached and the width. */
  function LeadingWsFrom(s: string, i: nat, count: nat, tabWidth: int): (r: (nat, nat))
    requires tabWidth > 0
    decreases |s| - i
    ensures r.0 == SkipWs(s, i)
    ensures r.1 >= count + (r.0 - i)
    ensures (forall p | i <= p < r.0 :: s[p] == ' ') ==> r.1 == count + (r.0 - i)
    ensures r.0 > i && s[r.0 - 1] == '\t' ==> r.1 % tabWidth == 0
  {
    if i < |s| && s[i] == ' ' then LeadingWsFrom(s, i + 1, count + 1, tabWidth)
    else if i < |s| && s[i] == '\t' then
      NextTabStop(count, tabWidth);
      LeadingWsFrom(s, i + 1, count + (tabWidth - count % tabWidth), tabWidth)
    else (i, count)
  }

  /** A tab moves the width to the next multiple of tabWidth. */
  lemma NextTabStop(count: nat, tabWidth: int)
    requires tabWidth > 0
    ensures count + (tabWidth - count % tabWidth) == (count / tabWidth + 1) * tabWidth
    ensures (count + (tabWidth - count % tabWidth)) % tabWidth == 0
  {
    var q := count / tabWidth;
    var n := (q + 1) * tabWidth;
    assert n == q * tabWidth + tabWidth;
    var k := n / tabWidth - (q + 1);
    assert n == (n / tabWidth) * tabWidth + n % tabWidth;
    assert k * tabWidth == (n / tabWidth) * tabWidth - (q + 1) * tabWidth;
    assert k * tabWidth + n % tabWidth == 0;
    MulAtLeast(k, tabWidth);
  }

  /** A non-zero multiple of w is at least w away from 0. */
  lemma MulAtLeast(k: int, w: int)
    requires w > 0
    ensures k >= 1 ==> k * w >= w
    ensures k <= -1 ==> k * w <= -w
  {
  }

  /** The tab rule of the indentation scan: a tab at i restarts the scan at
      i + 1 from the next tab stop after count. */
  lemma LeadingTabAdvancesToNextStop(s: string, i: nat, count: nat, tabWidth: int)
    requires tabWidth > 0 && i < |s| && s[i] == '\t'
    ensures LeadingWsFrom(s, i, count, tabWidth)
         == LeadingWsFrom(s, i + 1, (count / tabWidth + 1) * tabWidth, tabWidth)
  {
    NextTabStop(count, tabWidth);
  }

  /** g.skip_leading_ws_with_indent: the offset past the leading white space
      at i, and that white space's width. */
  function SkipLeadingWsWithIndent(s: string, i: nat, tabWidth: int): (nat, nat)
    requires tabWidth > 0
  {
    LeadingWsFrom(s, i, 0, tabWidth)
  }

  /** g.computeLeadingWhitespaceWidth: the width of s's leading white space. */
  function ComputeLeadingWhitespaceWidth(s: string, tabWidth: int): nat
    requires tabWidth > 0
  {
    LeadingWsFrom(s, 0, 0, tabWidth).1
  }

  // ---------------------------------------------------------------------------
  // Lines and Python string built-ins

  /** Python's s[a:b] for offsets that are not negative: both ends are
      clamped to len(s), and a slice that would run backwards is empty. */
  function PySlice(s: string, a: nat, b: nat): (r: string)
    ensures a <= b <= |s| ==> r == s[a..b]
    ensures b <= a || |s| <= a ==> r == ""
    ensures a < b && a < |s| < b ==> r == s[a..]
  {
    var hi := if b <= |s| then b else |s|;
    if a < hi then s[a..hi] else ""
  }

  /** ''.join(lines). */
  function Join(lines: seq<string>): string
  {
    if lines == [] then "" else lines[0] + Join(lines[1..])
  }

  lemma {:induction false} JoinAppend(a: seq<string>, b: seq<string>)
    ensures Join(a + b) == Join(a) + Join(b)
  {
    if a == [] {
      assert a + b == b;
    } else {
      assert (a + b)[0] == a[0];
      assert (a + b)[1..] == a[1..] + b;
      JoinAppend(a[1..], b);
    }
  }

  lemma JoinSplit(lines: seq<string>, n: nat)
    requires n <= |lines|
    ensures Join(lines[..n]) + Join(lines[n..]) == Join(lines)
  {
    assert lines[..n] + lines[n..] == lines;
    JoinAppend(lines[..n], lines[n..]);
  }

  /** g.splitLines (str.splitlines(True)): the lines of t, each keeping its
      '\n'. Only '\n' ends a line in this model. */
  function SplitLines(t: string): (lines: seq<string>)
    decreases |t|
    ensures Join(lines) == t
    ensures forall k | 0 <= k < |lines| :: |lines[k]| > 0
    ensures forall k, p | 0 <= k < |lines| && 0 <= p < |lines[k]| - 1 :: lines[k][p] != '\n'
    ensures forall k | 0 <= k < |lines| - 1 :: lines[k][|lines[k]| - 1] == '\n'
  {
    if t == [] then []
    else
      var e := SkipToEndOfLine(t, 0);
      var n := if e < |t| then e + 1 else |t|;
      var rest := SplitLines(t[n..]);
      assert ([t[..n]] + rest)[0] == t[..n];
      assert ([t[..n]] + rest)[1..] == rest;
      [t[..n]] + rest
  }

  /** The first offset at or after i that does not hold white space (the
      regex ``\s*``). */
  function SkipSpaces(s: string, i: nat): (r: nat)
    decreases |s| - i
    ensures r == i || i < r <= |s|
    ensures forall p | i <= p < r :: IsSpace(s[p])
    ensures r < |s| ==> !IsSpace(s[r])
  {
    if i < |s| && IsSpace(s[i]) then SkipSpaces(s, i + 1) else i
  }

  /** The end of s[lo..b] once its trailing white space is removed. */
  function TrimEnd(s: string, lo: nat, b: nat): (e: nat)
    requires lo <= b <= |s|
    decreases b
    ensures lo <= e <= b
    ensures forall p | e <= p < b :: IsSpace(s[p])
    ensures e > lo ==> !IsSpace(s[e - 1])
  {
    if b > lo && IsSpace(s[b - 1]) then TrimEnd(s, lo, b - 1) else b
  }

  /** Python's s.strip(): the slice of s from its first to its last
      non-white-space character. */
  function Strip(s: string): (r: string)
    ensures SkipSpaces(s, 0) + |r| <= |s|
    ensures r == s[SkipSpaces(s, 0)..SkipSpaces(s, 0) + |r|]
    ensures forall p | SkipSpaces(s, 0) + |r| <= p < |s| :: IsSpace(s[p])
    ensures r != "" ==> !IsSpace(r[0]) && !IsSpace(r[|r| - 1])
    ensures r == "" <==> forall p | 0 <= p < |s| :: IsSpace(s[p])
  {
    var a := SkipSpaces(s, 0);
    s[a..TrimEnd(s, a, |s|)]
  }

  // ---------------------------------------------------------------------------
  // Where a skip lands

  /** Over a run of word characters that ends at a non-word character or
      at the end of the text, skip_id lands exactly at that end. */
  lemma {:induction false} SkipIdLands(s: string, a: nat, b: nat)
    requires a <= b <= |s|
    requires forall p | a <= p < b :: IsWordChar(s[p])
    requires b == |s| || !IsWordChar(s[b])
    ensures SkipId(s, a) == b
    decreases b - a
  {
    if a < b {
      SkipIdLands(s, a + 1, b);
    }
  }

  /** Over a run of white space (with line endings when nl) that ends at a
      character outside the run, the skip lands exactly at that end. */
  lemma {:induction false} SkipRunLands(s: string, a: nat, b: nat, nl: bool)
    requires a <= b < |s|
    requires forall p | a <= p < b :: if nl then IsWsOrNl(s[p]) else IsWs(s[p])
    requires if nl then !IsWsOrNl(s[b]) else !IsWs(s[b])
    ensures nl ==> SkipWsAndNl(s, a) == b
    ensures !nl ==> SkipWs(s, a) == b
    decreases b - a
  {
    if a < b {
      SkipRunLands(s, a + 1, b, nl);
    }
  }

  /** Over a run of white space that ends at a character outside it (or at
      the end of the text), the skip lands exactly at that end. */
  lemma {:induction false} SkipSpacesLands(s: string, a: nat, b: nat)
    requires a <= b <= |s|
    requires forall p | a <= p < b :: IsSpace(s[p])
    requires b == |s| || !IsSpace(s[b])
    ensures SkipSpaces(s, a) == b
    decreases b - a
  {
    if a < b {
      SkipSpacesLands(s, a + 1, b);
    }
  }
}
