/** The offset scanners of PythonScanner (leo/plugins/importers/python.py,
    lines 156-383): cursor loops over one source text that find where a
    class or def begins (with its decorators), where its signature ends, how
    far a following docstring reaches and where its body ends. */
module PythonScanner {
  import opened Wrappers
  import opened LeoGlobals

  // ---------------------------------------------------------------------------
  // adjustDefStart (lines 172-202)

  /** The line that starts at lineStart begins, after blanks, with `@`, and
      the word that starts there (the `@` included, as s[j:k] at line 191
      keeps it) is not a directive: a decorator line. */
  predicate IsDecoratorLine(s: string, lineStart: nat, directives: set<string>) {
    var j := SkipWs(s, lineStart);
    Match(s, j, "@") && j < |s| &&
    var word := s[j..SkipId(s, j + 1)];
    !(word != "" && word in directives)
  }

  /** The start of the run of decorator lines that ends just above the line
      starting at j: every step moves to the line above (find_line_start of
      j - 2) while that line is a decorator. */
  function DecoratorRunStart(s: string, j: nat, directives: set<string>): (r: nat)
    decreases j
    ensures r <= j
    ensures r == j || r == 0 || (r <= |s| && s[r - 1] == '\n')
    ensures r < j ==> IsDecoratorLine(s, r, directives)
  {
    if j == 0 then 0
    else
      var above := FindLineStart(s, j - 2);
      if IsDecoratorLine(s, above, directives) then DecoratorRunStart(s, above, directives)
      else j
  }

  /** The walk of adjustDefStart stops at the line start r: r is 0, or the
      line that find_line_start of r - 2 reaches is not a decorator. */
  predicate RunStopsAt(s: string, r: nat, directives: set<string>) {
    r > 0 ==> !IsDecoratorLine(s, FindLineStart(s, r - 2), directives)
  }

  /** The run ends where the walk stops: the line above its start is not a
      decorator. */
  lemma {:induction false} DecoratorRunStops(s: string, j: nat, directives: set<string>)
    ensures RunStopsAt(s, DecoratorRunStart(s, j, directives), directives)
    decreases j
  {
    if j > 0 && IsDecoratorLine(s, FindLineStart(s, j - 2), directives) {
      DecoratorRunStops(s, FindLineStart(s, j - 2), directives);
    }
  }

  /** The run has no gaps: every line that starts between its start and the
      line start j is a decorator line or an empty one (the step to
      find_line_start of j - 2 passes over one empty line right above j). */
  lemma {:induction false} DecoratorRunIsContiguous(s: string, j: nat, directives: set<string>)
    requires j == 0 || (j <= |s| && s[j - 1] == '\n')
    ensures DecoratorsBetween(s, DecoratorRunStart(s, j, directives), j, directives)
    decreases j
  {
    if j > 0 && IsDecoratorLine(s, FindLineStart(s, j - 2), directives) {
      var above := FindLineStart(s, j - 2);
      DecoratorRunIsContiguous(s, above, directives);
      DecoratorsBetweenGrow(s, DecoratorRunStart(s, above, directives), above, j, directives);
    }
  }

  /** The line that starts at l is empty. */
  predicate EmptyLine(s: string, l: nat) {
    l < |s| && s[l] == '\n'
  }

  /** Every line that starts in [r, j) is a decorator line or empty. */
  predicate DecoratorsBetween(s: string, r: nat, j: nat, directives: set<string>) {
    forall l {:trigger IsDecoratorLine(s, l, directives)}
      | r <= l < j && l <= |s| && (l == 0 || s[l - 1] == '\n') ::
      IsDecoratorLine(s, l, directives) || EmptyLine(s, l)
  }

  /** A run of decorators from r to above grows by the line at above when
      the only other line that may start between above and the line start j
      is the one at j - 1, which is then empty. */
  lemma DecoratorsBetweenGrow(s: string, r: nat, above: nat, j: nat, directives: set<string>)
    requires r <= above < j <= |s| && s[j - 1] == '\n'
    requires DecoratorsBetween(s, r, above, directives) && IsDecoratorLine(s, above, directives)
    requires forall p | above <= p < j - 2 && p < |s| :: s[p] != '\n'
    ensures DecoratorsBetween(s, r, j, directives)
  {
    forall l | above < l < j && s[l - 1] == '\n'
      ensures EmptyLine(s, l)
    {
      assert l == j - 1;
    }
  }

  /** Moves the start of the class or def at offset i back over the
      decorator lines above it. The assertion that s[i] is not a newline
      (line 179) is the only one that can fail; its handler returns i. */
  method AdjustDefStart(s: string, i: nat, directives: set<string>) returns (r: nat)
    requires i < |s|
    ensures r <= i
    ensures s[i] == '\n' ==> r == i
    ensures s[i] != '\n' ==> r == DecoratorRunStart(s, FindLineStart(s, i), directives)
  {
    if s[i] == '\n' {
      return i;
    }
    var start: nat := if i > 0 then FindLineStart(s, i) else 0;
    ghost var lineStart := start;
    assert lineStart <= i;
    var j: nat := start;
    while j > 0
      invariant j == start <= lineStart
      invariant DecoratorRunStart(s, start, directives) == DecoratorRunStart(s, lineStart, directives)
      decreases j
    {
      var j1 := FindLineStart(s, j - 2);
      DecoratorStep(s, j, directives);
      var decorator := ScanDecoratorLine(s, j1, directives);
      if !decorator {
        break;
      }
      start, j := j1, j1;  // a decorator
    }
    r := start;
  }

  /** What adjustDefStart returns when s[i] is not a newline: a line start
      at or above i's line; every line from it down to the line above i's is
      a decorator or empty, and the walk stops there. */
  lemma {:induction false} AdjustedStartIsRunStart(s: string, i: nat, directives: set<string>)
    requires i < |s| && s[i] != '\n'
    ensures var l := FindLineStart(s, i); var r := DecoratorRunStart(s, l, directives);
      r <= l <= i && (r == 0 || s[r - 1] == '\n')
      && DecoratorsBetween(s, r, l, directives)
      && RunStopsAt(s, r, directives)
  {
    var l := FindLineStart(s, i);
    var r := DecoratorRunStart(s, l, directives);
    assert r <= l <= i && (r == 0 || s[r - 1] == '\n');
    DecoratorRunIsContiguous(s, l, directives);
    DecoratorRunStops(s, l, directives);
  }

  /** The test of one line in the loop of adjustDefStart (lines 187-194):
      skip the blanks, require `@`, and halt at a directive word. */
  method ScanDecoratorLine(s: string, j1: nat, directives: set<string>) returns (decorator: bool)
    ensures decorator == IsDecoratorLine(s, j1, directives)
  {
    var j := SkipWs(s, j1);
    if !Match(s, j, "@") {
      return false;
    }
    var k := SkipId(s, j + 1);
    var word := s[j..k];
    if word != "" && word in directives {
      return false;  // Leo directives halt the scan
    }
    return true;  // a decorator
  }

  /** The layout of a decorator line that starts at l: blanks up to a, `@`
      at a, word characters after it up to b, and no word character at b;
      the word s[a..b], `@` included, is not a directive. */
  predicate DecoratorLayout(s: string, l: nat, a: nat, b: nat, directives: set<string>) {
    l <= a < b <= |s| && (forall p | l <= p < a :: IsWs(s[p])) && s[a] == '@'
    && (forall p | a < p < b :: IsWordChar(s[p])) && (b < |s| ==> !IsWordChar(s[b]))
    && s[a..b] !in directives
  }

  /** The test that adjustDefStart applies to a line (and ScanDecoratorLine
      computes) accepts exactly the lines with a decorator's layout. */
  lemma DecoratorLineLayout(s: string, l: nat, directives: set<string>)
    ensures IsDecoratorLine(s, l, directives) <==>
      exists a, b :: DecoratorLayout(s, l, a, b, directives)
  {
    var a := SkipWs(s, l);
    MatchOne(s, a, '@');
    if IsDecoratorLine(s, l, directives) {
      var b := SkipId(s, a + 1);
      assert DecoratorLayout(s, l, a, b, directives);
    }
    if a': nat, b: nat :| DecoratorLayout(s, l, a', b, directives) {
      SkipRunLands(s, l, a', false);
      SkipIdLands(s, a' + 1, b);
      assert IsDecoratorLine(s, l, directives);
    }
  }

  /** One step of the scan of adjustDefStart, unfolded. */
  lemma DecoratorStep(s: string, j: nat, directives: set<string>)
    requires j > 0
    ensures FindLineStart(s, j - 2) < j
    ensures IsDecoratorLine(s, FindLineStart(s, j - 2), directives) ==>
      DecoratorRunStart(s, j, directives) == DecoratorRunStart(s, FindLineStart(s, j - 2), directives)
    ensures !IsDecoratorLine(s, FindLineStart(s, j - 2), directives) ==>
      DecoratorRunStart(s, j, directives) == j
  {
  }

  /** With no `@` line just above it, the line holding i is its own run:
      adjustDefStart then returns the start of that line, not i. */
  lemma NoDecoratorGivesLineStart(s: string, i: nat, directives: set<string>)
    requires i < |s| && s[i] != '\n'
    requires var l := FindLineStart(s, i);
      l > 0 ==> !Match(s, SkipWs(s, FindLineStart(s, l - 2)), "@")
    ensures DecoratorRunStart(s, FindLineStart(s, i), directives) == FindLineStart(s, i)
  {
  }

  /** Directive names carry no `@` (the directive list holds bare words),
      while the word that adjustDefStart looks up keeps its `@`: such a
      directive set can never halt the scan. */
  lemma {:induction false} DirectivesWithoutAtNeverHalt(s: string, j: nat, directives: set<string>)
    requires forall w | w in directives :: w == "" || w[0] != '@'
    ensures DecoratorRunStart(s, j, directives) == DecoratorRunStart(s, j, {})
    decreases j
  {
    if j > 0 {
      var l := FindLineStart(s, j - 2);
      var a := SkipWs(s, l);
      if Match(s, a, "@") {
        var word := s[a..SkipId(s, a + 1)];
        assert s[a..a + 1][0] == '@';
        assert word[0] == '@';
        assert IsDecoratorLine(s, l, directives) == IsDecoratorLine(s, l, {});
      }
      DirectivesWithoutAtNeverHalt(s, l, directives);
    }
  }

  /** A decorator line directly above the line that starts at e + 1 is
      taken into the block. The line starts at l and holds blanks up to a,
      `@` at a, a name up to b, then anything but a word character up to its
      newline at e; the run from e + 1 starts at or above l. */
  lemma DecoratorLineIsAttached(s: string, l: nat, a: nat, b: nat, e: nat, directives: set<string>)
    requires l <= a < b <= e < |s|
    requires l == 0 || s[l - 1] == '\n'
    requires forall p | l <= p < a :: IsWs(s[p])
    requires s[a] == '@'
    requires forall p | a < p < b :: IsWordChar(s[p])
    requires !IsWordChar(s[b])
    requires forall p | b <= p < e :: s[p] != '\n'
    requires s[e] == '\n'
    requires s[a..b] !in directives
    ensures DecoratorRunStart(s, e + 1, directives) <= l
    ensures DecoratorRunStart(s, e + 1, directives) == DecoratorRunStart(s, l, directives)
  {
    assert FindLineStart(s, e - 1) == l;
    SkipRunLands(s, l, a, false);
    MatchOne(s, a, '@');
    SkipIdLands(s, a + 1, b);
    assert s[a..SkipId(s, a + 1)] == s[a..b];
    assert IsDecoratorLine(s, l, directives);
  }

  /** One empty line between a decorator line and the line that starts at
      e + 2 does not stop the walk: find_line_start of e, the newline that
      ends the decorator's line, is that line's start l. */
  lemma DecoratorAboveBlankLineIsAttached(s: string, l: nat, e: nat, directives: set<string>)
    requires l <= e && e + 1 < |s| && s[e] == '\n' && s[e + 1] == '\n'
    requires l == 0 || s[l - 1] == '\n'
    requires forall p | l <= p < e :: s[p] != '\n'
    requires IsDecoratorLine(s, l, directives)
    ensures DecoratorRunStart(s, e + 2, directives) == DecoratorRunStart(s, l, directives)
  {
    assert FindLineStart(s, e) == l;
  }

  /** Two empty lines right above the line start j stop the walk: the line
      reached is the upper empty one, which holds no `@`. */
  lemma TwoBlankLinesStop(s: string, j: nat, directives: set<string>)
    requires 3 <= j <= |s| && s[j - 1] == '\n' && s[j - 2] == '\n' && s[j - 3] == '\n'
    ensures DecoratorRunStart(s, j, directives) == j
  {
    assert FindLineStart(s, j - 2) == j - 2;
    assert SkipWs(s, j - 2) == j - 2;
    MatchOne(s, j - 2, '@');
  }

  /** After `@dec` and one empty line, the def at offset 6 starts at 0,
      the decorator's line. */
  lemma BlankLineAboveExample()
    ensures DecoratorRunStart("@dec\n\ndef f():\n", 6, {}) == 0
  {
    var s := "@dec\n\ndef f():\n";
    DecoratorAboveBlankLineIsAttached(s, 0, 4, {});
  }

  // ---------------------------------------------------------------------------
  // extendSignature (lines 204-218)

  /** A triple-quoted string opens at j and closes with the first later
      occurrence of its three quotes, which ends at e. */
  predicate ClosedTripleString(s: string, j: nat, e: nat) {
    TripleAt(s, j) && j + 6 <= e <= |s| && FindFrom(s, s[j..j + 3], j + 3) == e - 3
  }

  /** The text from j up to r is a closed triple-quoted string followed by
      blanks and the character at r - 1 (its line's end). */
  predicate DocstringLine(s: string, j: nat, r: nat) {
    r <= |s| && exists e | j + 6 <= e < r :: ClosedTripleString(s, j, e) && forall p | e <= p < r - 1 :: IsWs(s[p])
  }

  /** The offset after a signature, extended over a triple-quoted docstring
      when nothing but blanks follows it on its line. */
  function ExtendSignature(s: string, i: nat): (r: nat)
    ensures r == i || i < r <= |s|
    ensures r != i ==>
      var j := SkipWsAndNl(s, i);
      IsNl(s, r - 1) && DocstringLine(s, j, r)
    ensures !TripleAt(s, SkipWsAndNl(s, i)) ==> r == i
    ensures var j := SkipWsAndNl(s, i);
      TripleAt(s, j) && FindFrom(s, s[j..j + 3], j + 3) == -1 ==> r == i
    ensures var j := SkipWsAndNl(s, i);
      TripleAt(s, j) && FindFrom(s, s[j..j + 3], j + 3) + 3 == |s| ==> r == i
  {
    var j := SkipWsAndNl(s, i);
    if TripleAt(s, j) then
      var e := SkipPythonString(s, j);
      if e < |s| then  // no scanning error
        var k := SkipWs(s, e);
        if IsNl(s, k) then
          assert ClosedTripleString(s, j, e);
          assert forall p | e <= p < k :: IsWs(s[p]);
          assert DocstringLine(s, j, k + 1);
          k + 1
        else i
      else i
    else i
  }

  /** A docstring on its own line after the signature is absorbed. From i
      there are blanks and line endings up to j, a triple-quoted string from
      j that closes at e (quotes of its own kind may occur inside it), and
      blanks up to the line ending at k: the signature then extends just
      past that line ending. */
  lemma ExtendSignatureAbsorbsDocstring(s: string, i: nat, j: nat, e: nat, k: nat)
    requires ClosedTripleString(s, j, e)
    requires i <= j && e <= k < |s|
    requires forall p | i <= p < j :: IsWsOrNl(s[p])
    requires forall p | e <= p < k :: IsWs(s[p])
    requires IsNl(s, k)
    ensures ExtendSignature(s, i) == k + 1
  {
    SkipRunLands(s, i, j, true);
    SkipRunLands(s, e, k, false);
  }

  /** Code after the docstring on its line keeps the signature's end where
      it was: with the same layout as above but a character at k that is
      neither a blank nor a line ending, the result is i. */
  lemma ExtendSignatureKeepsTrailingCode(s: string, i: nat, j: nat, e: nat, k: nat)
    requires ClosedTripleString(s, j, e)
    requires i <= j && e <= k < |s|
    requires forall p | i <= p < j :: IsWsOrNl(s[p])
    requires forall p | e <= p < k :: IsWs(s[p])
    requires !IsWsOrNl(s[k])
    ensures ExtendSignature(s, i) == i
  {
    SkipRunLands(s, i, j, true);
    SkipRunLands(s, e, k, false);
  }

  /** The docstring in ":\n\"\"\"a\"b\"\"\"\n" holds a lone quote of its own
      kind; it is still absorbed, through offset 12. */
  lemma ExtendSignatureQuoteInsideExample()
    ensures ExtendSignature(":\n\"\"\"a\"b\"\"\"\n", 1) == 12
  {
    var s := ":\n\"\"\"a\"b\"\"\"\n";
    var q := s[2..5];
    assert q == "\"\"\"";
    assert s[5..8][0] != q[0] && s[6..9][1] != q[1] && s[7..10][0] != q[0];
    assert s[8..11] == q;
    assert FindFrom(s, q, 5) == 8;
    ExtendSignatureAbsorbsDocstring(s, 1, 2, 11, 11);
  }

  // ---------------------------------------------------------------------------
  // skipSigTail (lines 354-367; the new-code branch)

  /** Skips from the end of an argument list to the `:` that starts the
      block. found is true only at a `:` on the same line that is not in a
      comment; a comment or a newline first gives false at the newline, and
      the end of the text gives false at len(s). */
  method SkipSigTail(s: string, i0: nat) returns (k: nat, found: bool)
    ensures i0 <= |s| ==> i0 <= k <= |s|
    ensures i0 > |s| ==> k == i0 && !found
    ensures found <==> k < |s| && s[k] == ':'
    ensures !found && k < |s| ==> s[k] == '\n'
    ensures forall p | i0 <= p < k :: s[p] != '\n'
    ensures found ==> forall p | i0 <= p < k :: s[p] != '#'
    ensures forall p | i0 <= p < k && s[p] == ':' :: exists h | i0 <= h < p :: s[h] == '#'
  {
    var i := i0;
    while i < |s|
      invariant i0 <= i && (i <= |s| || i == i0)
      invariant forall p | i0 <= p < i :: s[p] != '\n'
      invariant forall p | i0 <= p < i && s[p] == ':' :: exists h | i0 <= h < p :: s[h] == '#'
      invariant (exists h | i0 <= h < i :: s[h] == '#') ==> i == |s| || s[i] == '\n'
      decreases |s| - i
    {
      var ch := s[i];
      if ch == ':' {
        return i, true;
      } else if ch == '\n' {
        return i, false;
      } else if Match(s, i, "#") {  // startsComment
        i := SkipToEndOfLine(s, i);  // skipComment
      } else {
        i := i + 1;
      }
    }
    return i, false;
  }

  // ---------------------------------------------------------------------------
  // skipToTheNextClassOrFunction (lines 345-350)

  /** A stub in the source ("a rewrite is needed"): the block end is kept. */
  function SkipToTheNextClassOrFunction(s: string, i: nat, lastIndent: int): (r: nat)
    ensures r == i
  {
    i
  }

  // ---------------------------------------------------------------------------
  // skipCodeBlock and pythonNewlineHelper (lines 242-343)

  predicate NoDuplicates(xs: seq<int>) {
    forall a, b | 0 <= a < b < |xs| :: xs[a] != xs[b]
  }

  /** Python truthiness of an optional offset: None and 0 are false. */
  predicate Truthy(u: Option<nat>) {
    u.Some? && u.value != 0
  }

  /** The indentation width of the line whose leading white space starts at i. */
  function LineIndent(s: string, i: nat, tabWidth: int): nat
    requires tabWidth > 0
  {
    SkipLeadingWsWithIndent(s, i, tabWidth).1
  }

  /** A line of the underindented range that draws a message: not blank and
      indented no deeper than the block's start (lines 335-337). */
  predicate UnderindentedLine(line: string, startIndent: int, tabWidth: int)
    requires tabWidth > 0
  {
    Strip(line) != "" && LineIndent(line, 0, tabWidth) <= startIndent
  }

  /** Some line of lines draws a message. */
  predicate HasUnderindentedLine(lines: seq<string>, startIndent: int, tabWidth: int)
    requires tabWidth > 0
  {
    exists k | 0 <= k < |lines| :: UnderindentedLine(lines[k], startIndent, tabWidth)
  }

  lemma HasUnderindentedLineSnoc(lines: seq<string>, line: string, startIndent: int, tabWidth: int)
    requires tabWidth > 0
    ensures HasUnderindentedLine(lines + [line], startIndent, tabWidth) <==>
      HasUnderindentedLine(lines, startIndent, tabWidth) || UnderindentedLine(line, startIndent, tabWidth)
  {
    var ls := lines + [line];
    assert ls[|lines|] == line;
    assert forall k | 0 <= k < |lines| :: ls[k] == lines[k];
  }

  /** Some line of s[a:b] draws a message. */
  predicate RangeHasUnderindentedLine(s: string, a: nat, b: nat, startIndent: int, tabWidth: int)
    requires tabWidth > 0
  {
    HasUnderindentedLine(SplitLines(PySlice(s, a, b)), startIndent, tabWidth)
  }

  /** The line at i is underindented: no deeper than the block's start and
      outside any bracket (line 305). */
  predicate Underindented(s: string, i: nat, parenCount: int, startIndent: int, tabWidth: int)
    requires tabWidth > 0
  {
    LineIndent(s, i, tabWidth) <= startIndent && parenCount == 0
  }

  /** A properly indented line closes the pending underindented range
      (the final else of lines 320-341): there is a range and the line is
      not a blank or comment line that extends it. */
  predicate ClosesRange(s: string, j: nat, u: Option<nat>) {
    u.Some? && !(Truthy(u) && (Match(s, j, "\n") || Match(s, j, "#")))
  }

  /** ys is xs with offsets in (lo, hi] appended. */
  predicate ExtendsWithin(xs: seq<int>, ys: seq<int>, lo: int, hi: int) {
    |xs| <= |ys| && ys[..|xs|] == xs && forall k | |xs| <= k < |ys| :: lo < ys[k] <= hi
  }

  lemma ExtendsWithinTrans(xs: seq<int>, ys: seq<int>, zs: seq<int>, lo: int, lo': int, hi: int)
    requires ExtendsWithin(xs, ys, lo, hi) && ExtendsWithin(ys, zs, lo', hi) && lo <= lo'
    ensures ExtendsWithin(xs, zs, lo, hi)
  {
    assert zs[..|xs|] == zs[..|ys|][..|xs|];
  }

  /** A pending underindented range, if any, starts after lo and at or
      before i, at the start of an underindented line. */
  predicate PendingRange(s: string, u: Option<nat>, lo: nat, i: nat, startIndent: int, tabWidth: int)
    requires tabWidth > 0
  {
    u.Some? ==> lo < u.value <= i && BlockEnd(s, lo, u.value, startIndent, tabWidth)
  }

  /** e can end a block that starts at lo: it is past lo, just after a line
      ending, and its line is indented no deeper than startIndent. */
  predicate BlockEnd(s: string, lo: nat, e: nat, startIndent: int, tabWidth: int)
    requires tabWidth > 0
  {
    lo < e && IsNl(s, e - 1) && LineIndent(s, e, tabWidth) <= startIndent
  }

  /** What pythonNewlineHelper (lines 298-343) returns for the line that
      starts at i: the offset to go on from, the start of the underindented
      range and breakFlag. */
  function NewlineHelperResult(s: string, i: nat, parenCount: int, startIndent: int,
                               u: Option<nat>, tabWidth: int): (r: (nat, Option<nat>, bool))
    requires tabWidth > 0
    ensures i <= |s| ==> i <= r.0 <= |s|
  {
    var j := SkipWs(s, i);
    if Underindented(s, i, parenCount, startIndent, tabWidth) then
      if Match(s, j, "#") then (j, if u.None? then Some(i) else u, false)
      else if Match(s, j, "\n") then (j, u, false)
      else (i, u, true)
    else if ClosesRange(s, j, u) then (i, None, false)
    else (i, u, false)
  }

  /** One pass of the newline branch of skipCodeBlock's loop (lines 254-269)
      at the line ending at i. */
  function NewlineStep(s: string, i: nat, parenCount: int, startIndent: int,
                       u: Option<nat>, tabWidth: int): (r: (nat, Option<nat>, bool))
    requires tabWidth > 0 && IsNl(s, i)
    ensures i < r.0 <= |s|
  {
    if i > 0 && Match(s, i - 1, "\\\n") then (i + 1, u, false)
    else
      var n := SkipNl(s, i);
      if IsNl(s, SkipWs(s, n)) then (n, u, false)
      else NewlineHelperResult(s, n, parenCount, startIndent, u, tabWidth)
  }

  /** The scan of lines 270-281 over a character that is not a newline:
      a comment is passed to the end of its line, a string to its end,
      and any other character is passed alone, brackets counted. Returns the
      new offset and bracket depth. */
  function SkipToken(s: string, i: nat, parenCount: int): (r: (nat, int))
    requires i < |s| && !IsNl(s, i)
    ensures i < r.0 <= |s|
    ensures s[i] == '#' ==> r.0 == SkipToEndOfLine(s, i) && r.1 == parenCount
    ensures (s[i] == '"' || s[i] == '\'') ==> r.0 == SkipPythonString(s, i) && r.1 == parenCount
    ensures s[i] !in "#\"'" ==> r.0 == i + 1
    ensures r.1 == parenCount + (if s[i] in "[{(" then 1 else if s[i] in "]})" then -1 else 0)
  {
    var ch := s[i];
    if ch == '#' then (SkipToEndOfLine(s, i), parenCount)
    else if ch == '"' || ch == '\'' then (SkipPythonString(s, i), parenCount)
    else if ch in "[{(" then (i + 1, parenCount + 1)
    else if ch in "]})" then (i + 1, parenCount - 1)
    else (i + 1, parenCount)
  }

  /** Where the loop of skipCodeBlock (lines 251-281) stops when it runs
      from offset i with the bracket depth parenCount and the pending range
      u, and the range then pending. */
  function ScanFrom(s: string, i: nat, parenCount: int, u: Option<nat>,
                    startIndent: int, tabWidth: int): (nat, Option<nat>)
    requires tabWidth > 0
    decreases |s| - i
  {
    if i >= |s| then (i, u)
    else if IsNl(s, i) then
      var (n, u', breakFlag) := NewlineStep(s, i, parenCount, startIndent, u, tabWidth);
      if breakFlag then (n, u') else ScanFrom(s, n, parenCount, u', startIndent, tabWidth)
    else
      var (n, p) := SkipToken(s, i, parenCount);
      ScanFrom(s, n, p, u, startIndent, tabWidth)
  }

  /** Where skipCodeBlock puts the end of the block (lines 248-285): the
      loop's stop from the first non-blank offset at or after i0, moved back
      to the start of the range pending there. */
  function CodeBlockEnd(s: string, i0: nat, startIndent: int, tabWidth: int): nat
    requires tabWidth > 0
  {
    var (stop, u) := ScanFrom(s, SkipWsAndNl(s, i0), 0, None, startIndent, tabWidth);
    if u.Some? then u.value else stop
  }

  /** A pending range starts at a comment line: only an underindented
      comment opens one (line 308). */
  predicate RangeAtComment(s: string, u: Option<nat>) {
    u.Some? ==> Match(s, SkipWs(s, u.value), "#")
  }

  /** Where the scan stops: at or after i and within s. A stop before the
      end of s is the start of an underindented line (the block's end) that
      is neither a comment line nor a blank line, and a range pending at the
      stop starts at an underindented comment line after lo. */
  lemma {:induction false} ScanFromStop(s: string, i: nat, parenCount: int, u: Option<nat>,
                                        lo: nat, startIndent: int, tabWidth: int)
    requires tabWidth > 0 && lo <= i <= |s|
    requires PendingRange(s, u, lo, i, startIndent, tabWidth) && RangeAtComment(s, u)
    ensures var (e, v) := ScanFrom(s, i, parenCount, u, startIndent, tabWidth);
      i <= e <= |s| && PendingRange(s, v, lo, e, startIndent, tabWidth) && RangeAtComment(s, v)
      && (e < |s| ==> BlockStop(s, lo, e, startIndent, tabWidth))
    decreases |s| - i
  {
    if i < |s| {
      if IsNl(s, i) {
        NewlineStepKeepsRange(s, i, parenCount, u, lo, startIndent, tabWidth);
        var (n, u', breakFlag) := NewlineStep(s, i, parenCount, startIndent, u, tabWidth);
        if !breakFlag {
          ScanFromStop(s, n, parenCount, u', lo, startIndent, tabWidth);
        }
      } else {
        var (n, p) := SkipToken(s, i, parenCount);
        ScanFromStop(s, n, p, u, lo, startIndent, tabWidth);
      }
    }
  }

  /** The scan may stop at e: the block from lo ends there and the line at e
      is neither a comment line nor a blank line. */
  predicate BlockStop(s: string, lo: nat, e: nat, startIndent: int, tabWidth: int)
    requires tabWidth > 0
  {
    BlockEnd(s, lo, e, startIndent, tabWidth) && !Match(s, SkipWs(s, e), "#") && !IsNl(s, SkipWs(s, e))
  }

  /** One newline step keeps the pending range in shape, and a break is a
      stop the block may end at. */
  lemma NewlineStepKeepsRange(s: string, i: nat, parenCount: int, u: Option<nat>,
                              lo: nat, startIndent: int, tabWidth: int)
    requires tabWidth > 0 && IsNl(s, i) && lo <= i
    requires PendingRange(s, u, lo, i, startIndent, tabWidth) && RangeAtComment(s, u)
    ensures var (n, u', breakFlag) := NewlineStep(s, i, parenCount, startIndent, u, tabWidth);
      PendingRange(s, u', lo, n, startIndent, tabWidth) && RangeAtComment(s, u')
      && (breakFlag ==> BlockStop(s, lo, n, startIndent, tabWidth))
  {
    if !(i > 0 && Match(s, i - 1, "\\\n")) {
      var m := SkipNl(s, i);
      if !IsNl(s, SkipWs(s, m)) {
        HelperKeepsRange(s, m, parenCount, u, lo, startIndent, tabWidth);
      }
    }
  }

  /** The same for pythonNewlineHelper at the line starting at n, just after
      a line ending: an underindented comment line opens the range at n. */
  lemma HelperKeepsRange(s: string, n: nat, parenCount: int, u: Option<nat>,
                         lo: nat, startIndent: int, tabWidth: int)
    requires tabWidth > 0 && lo < n <= |s| && IsNl(s, n - 1) && !IsNl(s, SkipWs(s, n))
    requires PendingRange(s, u, lo, n, startIndent, tabWidth) && RangeAtComment(s, u)
    ensures var (e, u', breakFlag) := NewlineHelperResult(s, n, parenCount, startIndent, u, tabWidth);
      PendingRange(s, u', lo, e, startIndent, tabWidth) && RangeAtComment(s, u')
      && (breakFlag ==> BlockStop(s, lo, e, startIndent, tabWidth))
  {
    var j := SkipWs(s, n);
    if Underindented(s, n, parenCount, startIndent, tabWidth) {
      assert BlockEnd(s, lo, n, startIndent, tabWidth);
      if Match(s, j, "#") {
        assert n <= j;
      } else if !Match(s, j, "\n") {
        assert BlockStop(s, lo, n, startIndent, tabWidth);
      }
    }
  }

  /** Inside brackets no line ends the block: with parenCount not 0 the
      newline step never breaks, and the scan goes on past the line. */
  lemma OpenBracketsHoldTheScan(s: string, i: nat, parenCount: int, u: Option<nat>,
                                startIndent: int, tabWidth: int)
    requires tabWidth > 0 && IsNl(s, i) && parenCount != 0
    ensures var (n, u', breakFlag) := NewlineStep(s, i, parenCount, startIndent, u, tabWidth);
      !breakFlag && ScanFrom(s, i, parenCount, u, startIndent, tabWidth)
                    == ScanFrom(s, n, parenCount, u', startIndent, tabWidth)
  {
  }

  /** What the block's end is: the first non-blank offset start at or after
      i0, or a later offset. Before the end of s it is the start of an
      underindented line that is not blank: the first of a run of trailing
      underindented comment lines, or else the first underindented code
      line outside brackets. */
  lemma CodeBlockEndShape(s: string, i0: nat, startIndent: int, tabWidth: int)
    requires tabWidth > 0
    ensures var start := SkipWsAndNl(s, i0); var e := CodeBlockEnd(s, i0, startIndent, tabWidth);
      (e == start || start < e <= |s|)
      && (e < |s| ==> BlockEnd(s, start, e, startIndent, tabWidth) && !IsNl(s, SkipWs(s, e)))
      && (ScanFrom(s, start, 0, None, startIndent, tabWidth).1.Some? ==> Match(s, SkipWs(s, e), "#"))
  {
    var start := SkipWsAndNl(s, i0);
    if start <= |s| {
      ScanFromStop(s, start, 0, None, start, startIndent, tabWidth);
      MatchOne(s, SkipWs(s, CodeBlockEnd(s, i0, startIndent, tabWidth)), '#');
    }
  }

  /** A block whose body is one indented line ends where the next,
      unindented line of code starts: in "    x\ny\n" at offset 6. */
  lemma CodeBlockEndExample(tabWidth: int)
    requires tabWidth > 0
    ensures CodeBlockEnd("    x\ny\n", 0, 0, tabWidth) == 6
  {
    var s := "    x\ny\n";
    assert s[4] == 'x' && s[5] == '\n' && s[6] == 'y';
    SkipRunLands(s, 0, 4, true);
    assert ScanFrom(s, 4, 0, None, 0, tabWidth) == ScanFrom(s, 5, 0, None, 0, tabWidth);
    MatchOne(s, 4, '\\');
    assert !Match(s, 4, "\\\n") by { assert s[4..6][0] == 'x'; }
    SkipRunLands(s, 6, 6, false);
    MatchOne(s, 6, '#');
    MatchOne(s, 6, '\n');
    assert LineIndent(s, 6, tabWidth) == 0;
    assert NewlineHelperResult(s, 6, 0, 0, None, tabWidth) == (6, None, true);
  }

  /** A block that opens a bracket on its first line. */
  const BracketBlock := "    f(\nz)\n    w\ny\n"

  /** In BracketBlock the line inside the bracket does not end the block,
      nor does the indented line after it; the first unindented code line
      outside brackets does, at offset 16. */
  lemma CodeBlockEndBracketExample(tabWidth: int)
    requires tabWidth > 0
    ensures CodeBlockEnd(BracketBlock, 0, 0, tabWidth) == 16
  {
    var s := BracketBlock;
    assert s[..4] == "    " && s[4] == 'f';
    SkipRunLands(s, 0, 4, true);
    BracketLinePasses(tabWidth);
    IndentedLinePasses(tabWidth);
    UnindentedLineStops(tabWidth);
  }

  /** The first line and the line inside the bracket. */
  lemma BracketLinePasses(tabWidth: int)
    requires tabWidth > 0
    ensures ScanFrom(BracketBlock, 4, 0, None, 0, tabWidth) == ScanFrom(BracketBlock, 9, 0, None, 0, tabWidth)
  {
    var s := BracketBlock;
    assert s[4] == 'f' && s[5] == '(' && s[6] == '\n' && s[7] == 'z' && s[8] == ')';
    assert ScanFrom(s, 4, 0, None, 0, tabWidth) == ScanFrom(s, 5, 0, None, 0, tabWidth);
    assert ScanFrom(s, 5, 0, None, 0, tabWidth) == ScanFrom(s, 6, 1, None, 0, tabWidth);
    PlainNewline(s, 6, 1, None, 0, tabWidth);
    SkipRunLands(s, 7, 7, false);
    assert NewlineStep(s, 6, 1, 0, None, tabWidth) == (7, None, false);
    assert ScanFrom(s, 6, 1, None, 0, tabWidth) == ScanFrom(s, 7, 1, None, 0, tabWidth);
    assert ScanFrom(s, 7, 1, None, 0, tabWidth) == ScanFrom(s, 8, 1, None, 0, tabWidth);
  }

  /** The indented line after the bracket closes. */
  lemma IndentedLinePasses(tabWidth: int)
    requires tabWidth > 0
    ensures ScanFrom(BracketBlock, 9, 0, None, 0, tabWidth) == ScanFrom(BracketBlock, 15, 0, None, 0, tabWidth)
  {
    var s := BracketBlock;
    assert s[9] == '\n' && s[8] != '\\' && s[14] == 'w';
    assert forall p | 10 <= p < 14 :: s[p] == ' ';
    PlainNewline(s, 9, 0, None, 0, tabWidth);
    SkipRunLands(s, 10, 14, false);
    assert LineIndent(s, 10, tabWidth) == 4;
    assert NewlineStep(s, 9, 0, 0, None, tabWidth) == (10, None, false);
    assert ScanFrom(s, 9, 0, None, 0, tabWidth) == ScanFrom(s, 10, 0, None, 0, tabWidth);
    assert forall p | 10 <= p < 15 :: PlainChar(s[p]);
    PlainTextScan(s, 10, 15, 0, None, 0, tabWidth);
  }

  /** The unindented code line ends the block. */
  lemma UnindentedLineStops(tabWidth: int)
    requires tabWidth > 0
    ensures ScanFrom(BracketBlock, 15, 0, None, 0, tabWidth) == (16, None)
  {
    var s := BracketBlock;
    assert s[14] == 'w' && s[15] == '\n' && s[16] == 'y';
    PlainNewline(s, 15, 0, None, 0, tabWidth);
    SkipRunLands(s, 16, 16, false);
    MatchOne(s, 16, '#');
    MatchOne(s, 16, '\n');
    assert LineIndent(s, 16, tabWidth) == 0;
    assert NewlineHelperResult(s, 16, 0, 0, None, tabWidth) == (16, None, true);
  }

  /** A character the loop passes alone without touching the bracket depth. */
  predicate PlainChar(c: char) {
    c !in "\n\r#\"'[]{}()"
  }

  /** Over a stretch of plain characters the scan only moves on. */
  lemma {:induction false} PlainTextScan(s: string, i: nat, k: nat, parenCount: int,
                                         u: Option<nat>, startIndent: int, tabWidth: int)
    requires tabWidth > 0 && i <= k <= |s|
    requires forall p | i <= p < k :: PlainChar(s[p])
    ensures ScanFrom(s, i, parenCount, u, startIndent, tabWidth)
         == ScanFrom(s, k, parenCount, u, startIndent, tabWidth)
    decreases k - i
  {
    if i < k {
      assert PlainChar(s[i]);
      PlainTextScan(s, i + 1, k, parenCount, u, startIndent, tabWidth);
    }
  }

  /** Trailing underindented comment lines move to what follows: in
      "    x\n# c\ny\n" the scan stops at the code line at 10 with a range
      pending from the comment line at 6, and the block ends at 6. */
  lemma CodeBlockEndCommentExample(tabWidth: int)
    requires tabWidth > 0
    ensures CodeBlockEnd("    x\n# c\ny\n", 0, 0, tabWidth) == 6
  {
    var s := "    x\n# c\ny\n";
    assert s[4] == 'x' && s[5] == '\n' && s[6] == '#' && s[7] == ' ' && s[8] == 'c';
    assert s[9] == '\n' && s[10] == 'y';
    SkipRunLands(s, 0, 4, true);
    assert ScanFrom(s, 4, 0, None, 0, tabWidth) == ScanFrom(s, 5, 0, None, 0, tabWidth);
    PlainNewline(s, 5, 0, None, 0, tabWidth);
    SkipRunLands(s, 6, 6, false);
    MatchOne(s, 6, '#');
    assert LineIndent(s, 6, tabWidth) == 0;
    assert NewlineHelperResult(s, 6, 0, 0, None, tabWidth) == (6, Some(6), false);
    assert SkipToEndOfLine(s, 6) == 9;
    assert ScanFrom(s, 5, 0, None, 0, tabWidth) == ScanFrom(s, 9, 0, Some(6), 0, tabWidth);
    PlainNewline(s, 9, 0, Some(6), 0, tabWidth);
    SkipRunLands(s, 10, 10, false);
    MatchOne(s, 10, '#');
    MatchOne(s, 10, '\n');
    assert LineIndent(s, 10, tabWidth) == 0;
    assert NewlineHelperResult(s, 10, 0, 0, Some(6), tabWidth) == (10, Some(6), true);
  }

  /** At a '\n' that no backslash escapes, the newline step moves to the
      next line and hands it to pythonNewlineHelper unless it is blank. */
  lemma PlainNewline(s: string, i: nat, parenCount: int, u: Option<nat>,
                     startIndent: int, tabWidth: int)
    requires tabWidth > 0 && i < |s| && s[i] == '\n' && (i == 0 || s[i - 1] != '\\')
    ensures NewlineStep(s, i, parenCount, startIndent, u, tabWidth)
         == if IsNl(s, SkipWs(s, i + 1)) then (i + 1, u, false)
            else NewlineHelperResult(s, i + 1, parenCount, startIndent, u, tabWidth)
  {
    if i > 0 {
      assert !Match(s, i - 1, "\\\n") by { assert s[i - 1..i + 1][0] != '\\'; }
    }
    assert !Match(s, i, "\r\n") by { assert s[i..][0] == '\n'; }
  }

  class PythonScanner {
    const tabWidth: int
    /** The offsets for which an underindented-comment message was given. */
    var errorLines: seq<int>

    ghost predicate Valid()
      reads this
    {
      tabWidth > 0 && NoDuplicates(errorLines)
    }

    constructor (tabWidth: int)
      requires tabWidth > 0
      ensures Valid() && this.tabWidth == tabWidth && errorLines == []
    {
      this.tabWidth := tabWidth;
      errorLines := [];
    }

    /** Gives the message for the underindented comment lines of a closed
        range: the offset j is recorded once, and only when some line of the
        range is not blank and is indented no deeper than startIndent
        (lines 332-340). */
    method ReportUnderindentedLines(lines: seq<string>, j: int, startIndent: int)
      requires Valid()
      modifies this`errorLines
      ensures Valid()
      ensures errorLines == old(errorLines) +
        (if j !in old(errorLines) && HasUnderindentedLine(lines, startIndent, tabWidth) then [j] else [])
    {
      ghost var found := false;
      for n := 0 to |lines|
        invariant Valid()
        invariant found == HasUnderindentedLine(lines[..n], startIndent, tabWidth)
        invariant errorLines == old(errorLines) + (if j !in old(errorLines) && found then [j] else [])
      {
        var line := lines[n];
        assert lines[..n + 1] == lines[..n] + [line];
        HasUnderindentedLineSnoc(lines[..n], line, startIndent, tabWidth);
        if UnderindentedLine(line, startIndent, tabWidth) {
          if j !in errorLines {  // no error yet given
            errorLines := errorLines + [j];
          }
          found := true;
        }
      }
      assert lines[..|lines|] == lines;
    }

    /** Decides what the line starting at i (just after a newline) does to
        the block: an underindented comment opens the underindented range if
        none is open, an underindented blank line is passed over, other
        underindented code ends the block (breakFlag), and a properly indented
        line that is neither blank nor a comment closes the range, recording
        the offset j of its first non-blank character at most once. */
    method PythonNewlineHelper(s: string, i: nat, parenCount: int, startIndent: int,
                               underIndentedStart: Option<nat>)
      returns (i': nat, u': Option<nat>, breakFlag: bool)
      requires Valid()
      requires i <= |s|
      modifies this`errorLines
      ensures Valid()
      ensures (i', u', breakFlag) == NewlineHelperResult(s, i, parenCount, startIndent,
                                                         underIndentedStart, tabWidth)
      ensures ExtendsWithin(old(errorLines), errorLines, i - 1, |s|)
      ensures breakFlag <==> Underindented(s, i, parenCount, startIndent, tabWidth)
                             && !Match(s, SkipWs(s, i), "#") && !Match(s, SkipWs(s, i), "\n")
      ensures breakFlag ==> i' == i && u' == underIndentedStart
      ensures Underindented(s, i, parenCount, startIndent, tabWidth) && Match(s, SkipWs(s, i), "#") ==>
        i' == SkipWs(s, i) && u' == (if underIndentedStart.None? then Some(i) else underIndentedStart)
      ensures Underindented(s, i, parenCount, startIndent, tabWidth) && Match(s, SkipWs(s, i), "\n") ==>
        i' == SkipWs(s, i) && u' == underIndentedStart
      ensures Underindented(s, i, parenCount, startIndent, tabWidth) ==> errorLines == old(errorLines)
      ensures !Underindented(s, i, parenCount, startIndent, tabWidth) ==> i' == i
      ensures !Underindented(s, i, parenCount, startIndent, tabWidth)
              && !ClosesRange(s, SkipWs(s, i), underIndentedStart) ==>
        u' == underIndentedStart && errorLines == old(errorLines)
      ensures !Underindented(s, i, parenCount, startIndent, tabWidth)
              && ClosesRange(s, SkipWs(s, i), underIndentedStart) ==>
        u' == None &&
        errorLines == old(errorLines) +
          (if SkipWs(s, i) !in old(errorLines)
              && RangeHasUnderindentedLine(s, underIndentedStart.value, i, startIndent, tabWidth)
           then [SkipWs(s, i)] else [])
    {
      breakFlag := false;
      var (j, indent) := SkipLeadingWsWithIndent(s, i, tabWidth);
      i', u' := i, underIndentedStart;
      if indent <= startIndent && parenCount == 0 {
        // An underindented line: it ends the block unless it is a blank or
        // comment line.
        if Match(s, j, "#") {
          if u'.None? { u' := Some(i); }
          i' := j;
        } else if Match(s, j, "\n") {
          i' := j;  // blank lines never start the range of underindented lines
        } else {
          breakFlag := true;  // the actual end of the block
        }
      } else {
        if Truthy(u') && Match(s, j, "\n") {
          // a properly indented blank line extends the underindented range
        } else if Truthy(u') && Match(s, j, "#") {
          // a properly indented comment line extends the underindented range
        } else if u'.None? {
        } else {
          // A properly indented non-comment line: report the underindented
          // comments of the range.
          ReportUnderindentedLines(SplitLines(PySlice(s, u'.value, i)), j, startIndent);
          u' := None;
        }
      }
    }

    /** The newline branch of skipCodeBlock's loop (lines 254-269) at the
        line ending at i: a backslash-newline and a blank line are passed
        over; otherwise the next line goes to pythonNewlineHelper, whose
        breakFlag ends the block at that line's start. */
    method AtNewline(s: string, i: nat, parenCount: int, startIndent: int,
                     underIndentedStart: Option<nat>, ghost start: nat)
      returns (i': nat, u': Option<nat>, breakFlag: bool)
      requires Valid()
      requires IsNl(s, i) && start <= i
      requires PendingRange(s, underIndentedStart, start, i, startIndent, tabWidth)
      modifies this`errorLines
      ensures Valid()
      ensures (i', u', breakFlag) == NewlineStep(s, i, parenCount, startIndent,
                                                 underIndentedStart, tabWidth)
      ensures PendingRange(s, u', start, i', startIndent, tabWidth)
      ensures breakFlag ==> BlockEnd(s, start, i', startIndent, tabWidth)
      ensures ExtendsWithin(old(errorLines), errorLines, i, |s|)
    {
      i', u', breakFlag := i, underIndentedStart, false;
      var backslashNewline := i > 0 && Match(s, i - 1, "\\\n");
      if backslashNewline {
        // An underindented line, including a docstring, does not end the
        // code block.
        i' := i + 1;
      } else {
        i' := SkipNl(s, i);
        var j := SkipWs(s, i');
        if IsNl(s, j) {
          // A blank line: progress has been made.
        } else {
          var next := i';
          i', u', breakFlag := PythonNewlineHelper(s, next, parenCount, startIndent, u');
        }
      }
    }

    /** Finds the end of the body of a class or def whose signature is
        indented startIndent, from offset i0 after the signature. The body
        ends at the first underindented code line outside brackets, moved
        back to the start of a pending run of underindented comment lines;
        ok is false when that end does not follow a '\n'. */
    method SkipCodeBlock(s: string, i0: nat, startIndent: int) returns (end: nat, ok: bool)
      requires Valid()
      modifies this`errorLines
      ensures Valid()
      ensures var start := SkipWsAndNl(s, i0);
        (end == start || start < end <= |s|)
        && (end < |s| ==> BlockEnd(s, start, end, startIndent, tabWidth))
        && ExtendsWithin(old(errorLines), errorLines, start, |s|)
      ensures end == CodeBlockEnd(s, i0, startIndent, tabWidth)
      ensures ok <==> !(0 < end < |s| && s[end - 1] != '\n')
    {
      var start := SkipWsAndNl(s, i0);
      var i, underIndentedStart := ScanBlock(s, start, startIndent);
      // The actual end of the block.
      if underIndentedStart.Some? {
        i := underIndentedStart.value;  // back to the underindented range
      }
      MatchOne(s, i - 1, '\n');
      if 0 < i < |s| && !Match(s, i - 1, "\n") {
        return i, false;  // the block does not end in a newline
      }
      i := SkipToTheNextClassOrFunction(s, i, startIndent);
      return i, true;
    }

    /** The loop of skipCodeBlock (lines 249-281) from start: it stops at
        the end of s or at the start of the first underindented code line,
        and returns where it stopped and the start of the underindented
        comment lines pending there, if any. */
    method ScanBlock(s: string, start: nat, startIndent: int) returns (i: nat, underIndentedStart: Option<nat>)
      requires Valid()
      modifies this`errorLines
      ensures Valid()
      ensures (i, underIndentedStart) == ScanFrom(s, start, 0, None, startIndent, tabWidth)
      ensures start <= i && (i <= |s| || i == start)
      ensures PendingRange(s, underIndentedStart, start, i, startIndent, tabWidth)
      ensures i < |s| ==> BlockEnd(s, start, i, startIndent, tabWidth)
      ensures ExtendsWithin(old(errorLines), errorLines, start, |s|)
    {
      i := start;
      var parenCount := 0;
      // The start of trailing underindented blank or comment lines.
      underIndentedStart := None;
      ghost var ended := false;
      while i < |s|
        invariant Valid()
        invariant start <= i && (i <= |s| || i == start)
        invariant ScanFrom(s, i, parenCount, underIndentedStart, startIndent, tabWidth)
               == ScanFrom(s, start, 0, None, startIndent, tabWidth)
        invariant PendingRange(s, underIndentedStart, start, i, startIndent, tabWidth)
        invariant ExtendsWithin(old(errorLines), errorLines, start, |s|)
        decreases |s| - i
      {
        if IsNl(s, i) {
          var breakFlag;
          ghost var before := errorLines;
          ghost var at := i;
          i, underIndentedStart, breakFlag :=
            AtNewline(s, i, parenCount, startIndent, underIndentedStart, start);
          ExtendsWithinTrans(old(errorLines), before, errorLines, start, at, |s|);
          if breakFlag {
            ended := true;
            break;
          }
        } else {
          var next := SkipToken(s, i, parenCount);
          i, parenCount := next.0, next.1;
        }
      }
      assert i < |s| ==> ended;
    }
  }
}
