/** PythonScanState (leo/plugins/importers/python.py, lines 57-153): the
    line-by-line lexical state of the Python importer and the predicates that
    classify a just-scanned line. */
module ScanState {
  import opened LeoGlobals

  // The contexts, written as the strings the source compares against.
  const TripleDouble: string := "\"\"\""
  const TripleSingle: string := "'''"
  const Double: string := "\""
  const Single: string := "'"
  /** The context after a backslash-newline line (the next line cannot start
      a block). */
  const BsNl: string := "bs-nl"
  /** The raw string r'\\\n' of line 140: three backslashes and the letter n,
      not a backslash followed by a newline. */
  const BsNlMarker: string := "\\\\\\n"

  /** The contexts assert'ed at line 121, the ones a line's scan starts in. */
  predicate IsLineContext(c: string) {
    c == "" || c == TripleDouble || c == TripleSingle || c == Double || c == Single
  }

  /** Every value the context field can take. */
  predicate IsContext(c: string) {
    IsLineContext(c) || c == BsNl
  }

  /** The context reached by the character loop of scan_line (lines 122-146)
      when it is at offset i of line s with context ctx. */
  function ContextAfter(ctx: string, s: string, i: nat): (r: string)
    requires IsLineContext(ctx)
    requires i <= |s| + 1
    decreases |s| + 1 - i
    ensures IsContext(r)
  {
    if i >= |s| then ctx
    else
      var ch := s[i];
      if ctx != "" then
        if ch == '\\' then ContextAfter(ctx, s, i + 2)       // eat the next character too
        else if ctx == [ch] then ContextAfter("", s, i + 1)  // end the string
        else ContextAfter(ctx, s, i + 1)
      else if ch == '#' then ctx                             // a comment ends the line
      else if i + 3 <= |s| && (s[i..i + 3] == TripleDouble || s[i..i + 3] == TripleSingle) then
        ContextAfter(s[i..i + 3], s, i + 1)
      else if ch == '"' || ch == '\'' then ContextAfter([ch], s, i + 1)
      else if s[i..] == BsNlMarker then BsNl
      else if [ch] == "\\\\" then
        // Line 143 compares one character with the two-character r'\\'.
        assert false; ctx
      else ContextAfter(ctx, s, i + 1)
  }

  /** Whether line s opens a class or def: the whole word `class` or `def`
      at its first non-blank character (lines 117-118). */
  predicate StartsWithClassOrDef(s: string) {
    var lws := SkipWs(s, 0);
    MatchWord(s, lws, "class") || MatchWord(s, lws, "def")
  }

  /** The character loop of scan_line (lines 122-146) from context ctx:
      it ends with the context that ContextAfter describes. */
  method ScanContext(ctx: string, s: string) returns (context: string)
    requires IsLineContext(ctx)
    ensures context == ContextAfter(ctx, s, 0)
  {
    context := ctx;
    var i := 0;
    while i < |s|
      invariant 0 <= i <= |s| + 1
      invariant IsLineContext(context)
      invariant ContextAfter(context, s, i) == ContextAfter(ctx, s, 0)
      decreases |s| + 1 - i
    {
      var ch := s[i];
      if context != "" {
        if ch == '\\' {
          i := i + 1;  // eat the next character too
        } else if context == [ch] {
          context := "";  // end the string
        }
      } else if ch == '#' {
        break;  // a comment ends the line
      } else if i + 3 <= |s| && (s[i..i + 3] == TripleDouble || s[i..i + 3] == TripleSingle) {
        context := s[i..i + 3];
      } else if ch == '"' || ch == '\'' {
        context := [ch];
      } else if s[i..] == BsNlMarker {
        context := BsNl;  // the next line cannot be a def or class
        break;
      } else if [ch] == "\\\\" {
        assert false;  // line 143: one character never equals r'\\'
      }
      i := i + 1;
    }
  }

  class PythonScanState {
    const tabWidth: int
    var baseIndent: int
    var indent: int
    /** Represents cross-line constructs. */
    var context: string
    var isClassOrDef: bool
    var stack: seq<int>

    ghost predicate Valid()
      reads this
    {
      tabWidth > 0 && IsContext(context) && indent >= 0 && baseIndent >= 0
      && forall k | 0 <= k < |stack| :: stack[k] >= 0
    }

    constructor (tabWidth: int)
      requires tabWidth > 0
      ensures Valid()
      ensures this.tabWidth == tabWidth
      ensures baseIndent == 0 && indent == 0 && context == "" && !isClassOrDef && stack == []
    {
      this.tabWidth := tabWidth;
      baseIndent, indent := 0, 0;
      context := "";
      isClassOrDef := false;
      stack := [];
    }

    /** True if the just-scanned line belongs in the current block. */
    predicate ContinuesBlock()
      reads this
    {
      if context != "" then true else indent > baseIndent
    }

    /** True if the just-scanned line starts an inner block. */
    predicate StartsBlock()
      reads this
    {
      if context != "" then false else isClassOrDef && indent >= baseIndent
    }

    method Clear()
      requires Valid()
      modifies this
      ensures Valid()
      ensures baseIndent == 0 && indent == 0 && context == ""
      ensures isClassOrDef == old(isClassOrDef) && stack == old(stack)
    {
      baseIndent, indent := 0, 0;
      context := "";
    }

    /** Restores the base indent from the stack. Python's list.pop raises
        IndexError on an empty stack before anything changes: that is the
        ok == false outcome, with the state untouched. */
    method Pop() returns (ok: bool)
      requires Valid()
      modifies this
      ensures Valid()
      ensures ok == (old(stack) != [])
      ensures ok ==> baseIndent == old(stack)[|old(stack)| - 1]
                     && stack == old(stack)[..|old(stack)| - 1]
      ensures !ok ==> baseIndent == old(baseIndent) && stack == old(stack)
      ensures indent == old(indent) && context == old(context)
      ensures isClassOrDef == old(isClassOrDef)
    {
      if stack == [] {
        return false;
      }
      baseIndent := stack[|stack| - 1];
      stack := stack[..|stack| - 1];
      ok := true;
    }

    /** Saves the base indent on the stack and enters a new base indent. */
    method Push()
      requires Valid()
      modifies this
      ensures Valid()
      ensures stack == old(stack) + [old(baseIndent)]
      ensures baseIndent == old(indent)
      ensures indent == old(indent) && context == old(context)
      ensures isClassOrDef == old(isClassOrDef)
    {
      stack := stack + [baseIndent];
      baseIndent := indent;
    }

    /** Updates the state by scanning line s. */
    method ScanLine(s: string)
      requires Valid()
      modifies this
      ensures Valid()
      ensures baseIndent == old(baseIndent) && stack == old(stack)
      ensures old(context) == BsNl ==>
        !isClassOrDef && indent == old(indent) && context == ContextAfter("", s, 0)
      ensures old(context) != BsNl ==>
        indent == ComputeLeadingWhitespaceWidth(s, tabWidth)
        && isClassOrDef == StartsWithClassOrDef(s)
        && context == ContextAfter(old(context), s, 0)
    {
      if context == BsNl {
        isClassOrDef := false;
        context := "";
      } else {
        var lwsI := SkipWs(s, 0);
        isClassOrDef := MatchWord(s, lwsI, "class") || MatchWord(s, lwsI, "def");
        indent := ComputeLeadingWhitespaceWidth(s, tabWidth);
      }
      context := ScanContext(context, s);
    }
  }

  /** Push followed by Pop restores the base indent and the stack exactly. */
  method PushThenPop(st: PythonScanState)
    requires st.Valid()
    modifies st
    ensures st.Valid()
    ensures st.baseIndent == old(st.baseIndent) && st.stack == old(st.stack)
    ensures st.indent == old(st.indent) && st.context == old(st.context)
  {
    st.Push();
    var ok := st.Pop();
    assert ok;
  }

  // ---------------------------------------------------------------------------
  // Properties of the classifier

  /** The truth table of continues_block and starts_block: inside a context a
      line always continues and never starts a block; outside one, a line
      deeper than the base continues, and a class or def at least as deep as
      the base starts a block. A line that neither continues nor starts one
      ends the block. */
  lemma ClassifierTruthTable(st: PythonScanState)
    ensures st.context != "" ==> st.ContinuesBlock() && !st.StartsBlock()
    ensures st.context == "" ==> (st.ContinuesBlock() <==> st.indent > st.baseIndent)
    ensures st.context == "" ==>
      (st.StartsBlock() <==> st.isClassOrDef && st.indent >= st.baseIndent)
    ensures st.StartsBlock() && !st.ContinuesBlock() ==> st.indent == st.baseIndent
    ensures !st.ContinuesBlock() && !st.StartsBlock() ==>
      st.context == "" && (st.indent < st.baseIndent || (st.indent == st.baseIndent && !st.isClassOrDef))
  {
  }

  // ---------------------------------------------------------------------------
  // Properties of the character loop

  /** The loop's result depends only on the rest of the line from i. */
  lemma {:induction false} ContextAfterSuffix(ctx: string, s: string, i: nat)
    requires IsLineContext(ctx)
    requires i <= |s|
    ensures ContextAfter(ctx, s, i) == ContextAfter(ctx, s[i..], 0)
    decreases |s| - i
  {
    var t := s[i..];
    if i < |s| {
      assert t[0] == s[i];
      assert t[0..] == s[i..];
      assert 3 <= |t| ==> t[0..3] == s[i..i + 3];
      var ch := s[i];
      if ctx != "" {
        if ch == '\\' {
          if i + 2 <= |s| {
            ContextAfterSuffix(ctx, s, i + 2);
            ContextAfterSuffix(ctx, t, 2);
            assert t[2..] == s[i + 2..];
          }
        } else if ctx == [ch] {
          ContextAfterSuffix("", s, i + 1);
          ContextAfterSuffix("", t, 1);
          assert t[1..] == s[i + 1..];
        } else {
          ContextAfterSuffix(ctx, s, i + 1);
          ContextAfterSuffix(ctx, t, 1);
          assert t[1..] == s[i + 1..];
        }
      } else if ch == '#' {
      } else if i + 3 <= |s| && (s[i..i + 3] == TripleDouble || s[i..i + 3] == TripleSingle) {
        ContextAfterSuffix(s[i..i + 3], s, i + 1);
        ContextAfterSuffix(s[i..i + 3], t, 1);
        assert t[1..] == s[i + 1..];
      } else if ch == '"' || ch == '\'' {
        ContextAfterSuffix([ch], s, i + 1);
        ContextAfterSuffix([ch], t, 1);
        assert t[1..] == s[i + 1..];
      } else if s[i..] == BsNlMarker {
      } else {
        ContextAfterSuffix(ctx, s, i + 1);
        ContextAfterSuffix(ctx, t, 1);
        assert t[1..] == s[i + 1..];
      }
    }
  }

  /** A triple-quoted context never ends inside scan_line: the source compares
      the three-character context with a single character (line 129). */
  lemma {:induction false} TripleContextNeverCloses(ctx: string, s: string, i: nat)
    requires ctx == TripleDouble || ctx == TripleSingle
    requires i <= |s| + 1
    ensures ContextAfter(ctx, s, i) == ctx
    decreases |s| + 1 - i
  {
    if i < |s| {
      if s[i] == '\\' {
        TripleContextNeverCloses(ctx, s, i + 2);
      } else {
        assert ctx != [s[i]];
        TripleContextNeverCloses(ctx, s, i + 1);
      }
    }
  }

  /** A line with no quote and no backslash leaves the empty context empty:
      comments and ordinary characters never open a context. */
  lemma {:induction false} PlainLineKeepsNoContext(s: string, i: nat)
    requires i <= |s| + 1
    requires forall p | i <= p < |s| :: s[p] != '"' && s[p] != '\'' && s[p] != '\\'
    ensures ContextAfter("", s, i) == ""
    decreases |s| + 1 - i
  {
    if i < |s| && s[i] != '#' {
      assert s[i..][0] == s[i];
      assert s[i..] != BsNlMarker;
      assert !(i + 3 <= |s| && s[i..i + 3] == TripleDouble);
      assert !(i + 3 <= |s| && s[i..i + 3] == TripleSingle);
      PlainLineKeepsNoContext(s, i + 1);
    }
  }

  /** Inside a single-quoted context a backslash hides the next character, so
      an escaped quote does not end the string. */
  lemma EscapedQuoteStaysInString(ctx: string, t: string)
    requires ctx == Double || ctx == Single
    ensures ContextAfter(ctx, "\\" + ctx + t, 0) == ContextAfter(ctx, t, 0)
  {
    var s := "\\" + ctx + t;
    assert s[0] == '\\';
    ContextAfterSuffix(ctx, s, 2);
    assert s[2..] == t;
  }

  /** Inside a single-quoted context an unescaped quote of the same kind ends
      the string, and the scan goes on with no context. */
  lemma MatchingQuoteEndsString(ctx: string, t: string)
    requires ctx == Double || ctx == Single
    ensures ContextAfter(ctx, ctx + t, 0) == ContextAfter("", t, 0)
  {
    var s := ctx + t;
    assert s[0] == ctx[0] && ctx == [s[0]];
    ContextAfterSuffix("", s, 1);
    assert s[1..] == t;
  }

  /** Outside a context, `#` ends the scan and whatever follows (even a quote)
      is ignored. */
  lemma CommentIgnoresRest(s: string, t: string)
    ensures ContextAfter("", s + "#" + t, |s|) == ""
  {
    assert (s + "#" + t)[|s|] == '#';
  }

  /** A one-quote string closed at the end of a plain line leaves no
      context, whatever it holds besides its quote and backslashes: a `#`
      inside it starts no comment. */
  lemma ClosedStringLeavesNoContext(s: string, n: nat)
    requires n + 1 < |s| && (s[n] == '"' || s[n] == '\'') && s[|s| - 1] == s[n]
    requires forall p | 0 <= p < n :: s[p] != '"' && s[p] != '\'' && s[p] != '\\' && s[p] != '#'
    requires forall p | n < p < |s| - 1 :: s[p] != s[n] && s[p] != '\\'
    ensures ContextAfter("", s, 0) == ""
  {
    PlainPrefixReaches(s, 0, n);
    StringToLineEnd(s, n);
  }

  /** The string from n to the end of the line. */
  lemma StringToLineEnd(s: string, n: nat)
    requires n + 1 < |s| && (s[n] == '"' || s[n] == '\'') && s[|s| - 1] == s[n]
    requires forall p | n < p < |s| - 1 :: s[p] != s[n] && s[p] != '\\'
    ensures ContextAfter("", s, n) == ""
  {
    var c := s[n];
    var e := |s| - 1;
    if n + 3 <= |s| {
      assert s[n..n + 3][1] == s[n + 1] != c;
    }
    assert ContextAfter("", s, n) == ContextAfter([c], s, n + 1);
    InStringReaches([c], s, n + 1, e);
    assert s[e] == c;
    assert ContextAfter([c], s, e) == ContextAfter("", s, e + 1);
  }

  /** The `#` inside "a#b" is part of the string: the line ends with no
      context. */
  lemma HashInsideString()
    ensures ContextAfter("", "x = \"a#b\"", 0) == ""
  {
    var s := "x = \"a#b\"";
    assert s[0] == 'x' && s[1] == ' ' && s[2] == '=' && s[3] == ' ' && s[4] == '"';
    assert s[5] == 'a' && s[6] == '#' && s[7] == 'b' && s[8] == '"';
    ClosedStringLeavesNoContext(s, 4);
  }

  /** A quote after a comment opens nothing: "x = 1 # \"" ends with no
      context. */
  lemma QuoteInsideComment()
    ensures ContextAfter("", "x = 1 # \"", 0) == ""
  {
    var s := "x = 1 # \"";
    assert s[6] == '#';
    forall p | 0 <= p < 6 ensures s[p] != '"' && s[p] != '\'' && s[p] != '\\' { }
    PlainPrefixReaches(s, 0, 6);
  }

  /** The marker r'\\\n' (three backslashes and `n`) at the end of a plain
      line is what sets the bs-nl context. */
  lemma MarkerSetsBsNl(s: string)
    requires |s| >= 4 && s[|s| - 4..] == BsNlMarker
    requires forall p | 0 <= p < |s| - 4 :: s[p] != '"' && s[p] != '\'' && s[p] != '\\' && s[p] != '#'
    ensures ContextAfter("", s, 0) == BsNl
  {
    var n := |s| - 4;
    PlainPrefixReaches(s, 0, n);
    assert s[n] == s[n..][0] == '\\';
    assert s[n..n + 3][0] == '\\';
    assert s[n..n + 3] != TripleDouble && s[n..n + 3] != TripleSingle;
  }

  /** A real backslash-newline at the end of a plain line opens no context:
      the two characters are scanned as ordinary ones. */
  lemma BackslashNewlineIsPlain(s: string)
    requires |s| >= 2 && s[|s| - 2] == '\\' && s[|s| - 1] == '\n'
    requires forall p | 0 <= p < |s| - 2 :: s[p] != '"' && s[p] != '\'' && s[p] != '\\' && s[p] != '#'
    ensures ContextAfter("", s, 0) == ""
  {
    var n := |s| - 2;
    PlainPrefixReaches(s, 0, n);
    assert |s[n + 1..]| == 1 && |s[n..]| == 2;
    assert ContextAfter("", s, n + 1) == "";
    assert ContextAfter("", s, n) == ContextAfter("", s, n + 1);
  }

  /** Inside a one-quote string, characters that are neither its quote nor
      a backslash leave the context as it is. */
  lemma {:induction false} InStringReaches(ctx: string, s: string, i: nat, k: nat)
    requires ctx == Double || ctx == Single
    requires i <= k <= |s|
    requires forall p | i <= p < k :: s[p] != ctx[0] && s[p] != '\\'
    ensures ContextAfter(ctx, s, i) == ContextAfter(ctx, s, k)
    decreases k - i
  {
    if i < k {
      assert ctx != [s[i]];
      InStringReaches(ctx, s, i + 1, k);
    }
  }

  /** Over a stretch with no quote, backslash or `#`, the empty context is
      carried unchanged from i to k. */
  lemma {:induction false} PlainPrefixReaches(s: string, i: nat, k: nat)
    requires i <= k <= |s|
    requires forall p | i <= p < k :: s[p] != '"' && s[p] != '\'' && s[p] != '\\' && s[p] != '#'
    ensures ContextAfter("", s, i) == ContextAfter("", s, k)
    decreases k - i
  {
    if i < k {
      assert s[i..][0] == s[i];
      assert s[i..] != BsNlMarker;
      assert !(i + 3 <= |s| && s[i..i + 3] == TripleDouble);
      assert !(i + 3 <= |s| && s[i..i + 3] == TripleSingle);
      PlainPrefixReaches(s, i + 1, k);
    }
  }
}
