/** The pure helpers of PythonLineScanner (leo/plugins/importers/python.py,
    lines 13-55): the headline given to a class or def node, and the step of
    the post pass that moves trailing comment lines of one node's body to the
    start of the next node's body. */
module PythonLineScanner {
  import opened Wrappers
  import opened LeoGlobals

  // ---------------------------------------------------------------------------
  // clean_headline (lines 33-43)

  /** re.match(r'\s*kw\s+(\w+)', s): white space, the keyword, at least one
      white-space character and a word; the word is the match's group 1. */
  function MatchKeywordName(s: string, kw: string): (r: Option<string>)
    requires |kw| > 0
    ensures r.Some? ==> |r.value| > 0 && forall p | 0 <= p < |r.value| :: IsWordChar(r.value[p])
    ensures r.Some? ==>
      exists a: nat, c: nat, d: nat :: KeywordLayout(s, kw, a, c, d) && r.value == s[c..d]
  {
    var a := SkipSpaces(s, 0);
    if Match(s, a, kw) then
      var b := a + |kw|;
      var c := SkipSpaces(s, b);
      if c > b then
        var d := SkipId(s, c);
        if d > c then
          assert KeywordLayout(s, kw, a, c, d);
          Some(s[c..d])
        else None
      else None
    else None
  }

  /** A headline for the node whose first line is s: the name of a def, the
      word `class` and the name of a class, or else s stripped. */
  function CleanHeadline(s: string): string {
    match MatchKeywordName(s, "def")
    case Some(name) => name
    case None =>
      match MatchKeywordName(s, "class")
      case Some(name) => "class " + name
      case None => Strip(s)
  }

  /** The layout the pattern \s*kw\s+(\w+) recognises: white space up to a,
      the keyword at a, white space from its end up to c and the word from c
      up to d, followed by anything but a word character. */
  predicate KeywordLayout(s: string, kw: string, a: nat, c: nat, d: nat) {
    a + |kw| < c < d <= |s|
    && (forall p | 0 <= p < a :: IsSpace(s[p]))
    && Match(s, a, kw)
    && (forall p | a + |kw| <= p < c :: IsSpace(s[p]))
    && (forall p | c <= p < d :: IsWordChar(s[p]))
    && (d == |s| || !IsWordChar(s[d]))
  }

  /** In that layout the match succeeds and its group is the word. */
  lemma KeywordLayoutMatches(s: string, kw: string, a: nat, c: nat, d: nat)
    requires KeywordLayout(s, kw, a, c, d)
    requires !IsSpace(kw[0])
    ensures MatchKeywordName(s, kw) == Some(s[c..d])
  {
    assert s[a..a + |kw|][0] == kw[0];
    SkipSpacesLands(s, 0, a);
    assert !IsWordChar(' ') && IsWordChar(s[c]);
    SkipSpacesLands(s, a + |kw|, c);
    SkipIdLands(s, c, d);
  }

  /** A def line gets the def's name as its headline. */
  lemma CleanHeadlineDef(s: string, a: nat, c: nat, d: nat)
    requires KeywordLayout(s, "def", a, c, d)
    ensures CleanHeadline(s) == s[c..d]
  {
    KeywordLayoutMatches(s, "def", a, c, d);
  }

  /** A class line gets `class` and the class's name: the def pattern,
      tried first, cannot match where the first word is `class`. */
  lemma CleanHeadlineClass(s: string, a: nat, c: nat, d: nat)
    requires KeywordLayout(s, "class", a, c, d)
    ensures CleanHeadline(s) == "class " + s[c..d]
  {
    KeywordLayoutMatches(s, "class", a, c, d);
    SkipSpacesLands(s, 0, a);
    assert s[a..a + 5][0] == 'c';
    assert !Match(s, a, "def");
  }

  /** The headline in terms of the line's layout: a def line gives the
      def's name, a class line gives `class` and the class's name, and a
      line with neither layout gives the line stripped. */
  lemma CleanHeadlineMeaning(s: string)
    ensures forall a: nat, c: nat, d: nat | KeywordLayout(s, "def", a, c, d) ::
      CleanHeadline(s) == s[c..d]
    ensures forall a: nat, c: nat, d: nat | KeywordLayout(s, "class", a, c, d) ::
      CleanHeadline(s) == "class " + s[c..d]
    ensures (forall a: nat, c: nat, d: nat ::
               !KeywordLayout(s, "def", a, c, d) && !KeywordLayout(s, "class", a, c, d))
      ==> CleanHeadline(s) == Strip(s)
  {
    forall a: nat, c: nat, d: nat | KeywordLayout(s, "def", a, c, d) ensures CleanHeadline(s) == s[c..d] {
      CleanHeadlineDef(s, a, c, d);
    }
    forall a: nat, c: nat, d: nat | KeywordLayout(s, "class", a, c, d)
      ensures CleanHeadline(s) == "class " + s[c..d]
    {
      CleanHeadlineClass(s, a, c, d);
    }
  }

  /** A keyword not followed by white space is not a keyword here (`define`,
      `classify`, `def(`): such a line keeps its stripped text. */
  lemma KeywordNeedsSpace(s: string, a: nat, kw: string)
    requires kw == "def" || kw == "class"
    requires Match(s, a, kw)
    requires forall p | 0 <= p < a :: IsSpace(s[p])
    requires a + |kw| == |s| || !IsSpace(s[a + |kw|])
    ensures CleanHeadline(s) == Strip(s)
  {
    assert s[a..a + |kw|][0] == kw[0];
    SkipSpacesLands(s, 0, a);
    assert SkipSpaces(s, a + |kw|) == a + |kw|;
    if kw == "def" {
      assert !Match(s, a, "class") by { assert s[a] == 'd'; }
    } else {
      assert !Match(s, a, "def") by { assert s[a] == 'c'; }
    }
  }

  /** A line whose first non-blank character starts neither keyword is
      stripped. */
  lemma CleanHeadlineOther(s: string)
    requires !Match(s, SkipSpaces(s, 0), "def") && !Match(s, SkipSpaces(s, 0), "class")
    ensures CleanHeadline(s) == Strip(s)
  {
  }

  /** A concrete def line: "def f():" gives "f". */
  lemma CleanHeadlineDefExample()
    ensures CleanHeadline("def f():") == "f"
  {
    var s := "def f():";
    assert s[..3] == "def" && s[3] == ' ' && s[4] == 'f' && s[5] == '(';
    CleanHeadlineDef(s, 0, 4, 5);
    assert s[4..5] == "f";
  }

  /** A concrete class line: "class C:" gives "class C". */
  lemma CleanHeadlineClassExample()
    ensures CleanHeadline("class C:") == "class C"
  {
    var t := "class C:";
    assert t[..5] == "class" && t[5] == ' ' && t[6] == 'C' && t[7] == ':';
    CleanHeadlineClass(t, 0, 6, 7);
    var name := t[6..7];
    assert |name| == 1 && name[0] == 'C';
    assert "class " + name == "class C";
  }

  // ---------------------------------------------------------------------------
  // The per-node step of clean_nodes (lines 50-54)

  /** A line that moves: its first non-blank character is `#`. */
  predicate IsCommentLine(line: string) {
    var a := SkipSpaces(line, 0);
    a < |line| && line[a] == '#'
  }

  /** That is the test of line 52, line.strip().startswith('#'). */
  lemma CommentLineIsStrippedHash(line: string)
    ensures IsCommentLine(line) <==> (Strip(line) != "" && Strip(line)[0] == '#')
  {
    var a := SkipSpaces(line, 0);
    var t := Strip(line);
    if a < |line| {
      assert !IsSpace(line[a]);
      assert t != "";
      assert t[0] == line[a];
    } else {
      assert forall p | 0 <= p < |line| :: IsSpace(line[p]);
    }
  }

  /** How many of lines stay in the body: all but the trailing run of
      comment lines. */
  function KeptLines(lines: seq<string>): (n: nat)
    ensures n <= |lines|
  {
    if |lines| > 0 && IsCommentLine(lines[|lines| - 1]) then KeptLines(lines[..|lines| - 1])
    else |lines|
  }

  /** The lines from KeptLines on are exactly the trailing run of comment
      lines: all of them are comment lines and the line before them is
      not. */
  lemma {:induction false} KeptLinesSplit(lines: seq<string>)
    ensures forall k | KeptLines(lines) <= k < |lines| :: IsCommentLine(lines[k])
    ensures KeptLines(lines) > 0 ==> !IsCommentLine(lines[KeptLines(lines) - 1])
    decreases |lines|
  {
    if |lines| > 0 && IsCommentLine(lines[|lines| - 1]) {
      var init := lines[..|lines| - 1];
      KeptLinesSplit(init);
      forall k | KeptLines(lines) <= k < |lines| ensures IsCommentLine(lines[k]) {
        if k < |lines| - 1 { assert lines[k] == init[k]; }
      }
      if KeptLines(lines) > 0 {
        assert lines[KeptLines(lines) - 1] == init[KeptLines(init) - 1];
      }
    }
  }

  /** A body whose last line is not a comment line keeps all its lines,
      so the step leaves it as it was. */
  lemma NoTrailingCommentKeepsBody(body: string)
    requires var ls := SplitLines(body); |ls| > 0 && !IsCommentLine(ls[|ls| - 1])
    ensures var ls := SplitLines(body); Join(ls[..KeptLines(ls)]) == body
  {
    var ls := SplitLines(body);
    assert ls[..|ls|] == ls;
  }

  /** The step of clean_nodes for one node whose body is body and whose next
      node in outline order (when hasNext) has body nextBody. When the body
      is not empty and there is a next node, the trailing comment lines of
      the body move to the front of the next body; nothing else moves and no
      text is lost. */
  method CleanNodeStep(body: string, nextBody: string, hasNext: bool)
    returns (newBody: string, newNext: string)
    ensures newBody + newNext == body + nextBody
    ensures !(hasNext && body != "") ==> newBody == body && newNext == nextBody
    ensures hasNext && body != "" ==>
      var ls := SplitLines(body);
      newBody == Join(ls[..KeptLines(ls)]) && newNext == Join(ls[KeptLines(ls)..]) + nextBody
  {
    newBody, newNext := body, nextBody;
    var lines := SplitLines(body);
    SplitAtKept(body, nextBody);
    if |lines| > 0 && hasNext {
      lines, newNext := PopCommentLines(lines, nextBody);
      newBody := Join(lines);
    }
  }

  /** Cutting the lines of body where the kept lines end loses no text; and
      body has lines exactly when it is not empty. */
  lemma SplitAtKept(body: string, next: string)
    ensures var ls := SplitLines(body); var k := KeptLines(ls);
      Join(ls[..k]) + (Join(ls[k..]) + next) == body + next
    ensures |SplitLines(body)| > 0 <==> body != ""
  {
    var ls := SplitLines(body);
    var k := KeptLines(ls);
    JoinSplit(ls, k);
    assert Join(ls[..k]) + (Join(ls[k..]) + next) == (Join(ls[..k]) + Join(ls[k..])) + next;
  }

  /** The while loop of line 52: pops the trailing comment lines of lines,
      one by one, onto the front of next. */
  method PopCommentLines(lines0: seq<string>, next0: string) returns (lines: seq<string>, next: string)
    ensures lines == lines0[..KeptLines(lines0)]
    ensures next == Join(lines0[KeptLines(lines0)..]) + next0
  {
    lines, next := lines0, next0;
    ghost var moved: seq<string> := [];
    while |lines| > 0 && IsCommentLine(lines[|lines| - 1])
      invariant KeptLines(lines0) <= |lines| <= |lines0|
      invariant lines == lines0[..|lines|] && moved == lines0[|lines|..]
      invariant next == Join(moved) + next0
      decreases |lines|
    {
      var n := |lines| - 1;
      assert lines[n] == lines0[n] && lines[..n] == lines0[..n];
      KeptLinesAtComment(lines0, n);
      assert lines0[n..] == [lines[n]] + lines0[n + 1..];
      JoinCons(lines[n], moved);
      moved := [lines[n]] + moved;
      next := lines[n] + next;
      lines := lines[..n];
    }
    KeptLinesAtEnd(lines0, |lines|);
  }

  /** A comment line at m, with at most m + 1 lines kept, leaves at most m
      kept. */
  lemma KeptLinesAtComment(ls: seq<string>, m: nat)
    requires KeptLines(ls) <= m + 1 && m < |ls| && IsCommentLine(ls[m])
    ensures KeptLines(ls) <= m
  {
    KeptLinesSplit(ls);
  }

  /** Where the popping stops, at no lines or below a line that is not a
      comment line, is exactly the kept count. */
  lemma KeptLinesAtEnd(ls: seq<string>, m: nat)
    requires KeptLines(ls) <= m <= |ls|
    requires m == 0 || !IsCommentLine(ls[m - 1])
    ensures KeptLines(ls) == m
  {
    KeptLinesSplit(ls);
  }

  /** Joining a line in front of lines. */
  lemma JoinCons(line: string, lines: seq<string>)
    ensures Join([line] + lines) == line + Join(lines)
  {
    assert ([line] + lines)[1..] == lines;
  }
}
