# Leo's Python importer scanner, modelled in Dafny

This project models the scanning rules of Leo's `@auto` importer for
Python, `leo/plugins/importers/python.py`. The importer splits a Python
file into outline nodes, one per class or def. Five modules cover it:

- `ScanState` (`scan_state.dfy`) models the class `PythonScanState`. It is
  the per-line state machine. It holds the tab width, the base indent, the
  indent of the line just scanned, the cross-line `context` and the
  class-or-def flag, plus a stack of base indents. `ScanLine`, through its
  character loop `ScanContext`, is proved against the specification
  function `ContextAfter`. The classifier
  predicates `ContinuesBlock` and `StartsBlock` read the fields.
- `PythonScanner` (`python_scanner.dfy`) models the offset scanners of the
  class `PythonScanner`:
  - `AdjustDefStart` moves a def's start back over its decorators.
  - `ExtendSignature` absorbs a docstring that sits alone on its line.
  - `SkipSigTail` finds the `:` that ends a signature.
  - `SkipCodeBlock` and `PythonNewlineHelper` find where a body ends;
    `ScanBlock` is the loop of `skipCodeBlock`. The functions
    `NewlineHelperResult`, `NewlineStep`, `SkipToken`, `ScanFrom` and
    `CodeBlockEnd` follow the same code step by step, and the methods are
    proved to compute exactly what these functions give.
  - `SkipToTheNextClassOrFunction` keeps the end as it is.

  `errorLines` is a field of the class `PythonScanner.PythonScanner`, and
  the methods append to it.
- `PythonLineScanner` (`line_scanner.dfy`) models `clean_headline` and the
  per-node step of `clean_nodes`.
- `LeoGlobals` (`leo_globals.dfy`) holds definitions of the `leoGlobals`
  helpers the importer calls, and of the Python built-ins it uses.
  `leo/core/leoGlobals.py` is not part of this model. Every definition
  there is an ASSUMPTION: the smallest reading that agrees with how
  `python.py` uses the helper. These are the readings:
  - `skip_ws` skips blanks and tabs.
  - `skip_ws_and_nl` also skips `\n` and `\r`.
  - `skip_id` skips ASCII letters, digits and `_`.
  - `skip_nl` skips `\r\n` as one line ending, and otherwise one `\n` or
    `\r`.
  - `skip_to_end_of_line` stops at the next `\n` or at the end of the text.
  - `find_line_start(s, i)` is the start of the line that holds offset
    `i`: one past the last `\n` before `i` (`s.rfind('\n', 0, i) + 1`), and
    0 for `i <= 0`.

    This reading decides what an empty line does to the backward walk of
    `adjustDefStart`, which steps from a line start `j` to
    `find_line_start(s, j - 2)`. `s[j - 1]` ends the line above `j`, and
    `s[j - 2]` is that line's last character, or the newline that ends the
    line above it when that line is empty. So one empty line above a
    decorated def does not stop the walk, and two do: `@dec`, an empty line
    and `def f():` give the offset of `@dec`. See
    `PythonScanner.DecoratorAboveBlankLineIsAttached`,
    `PythonScanner.TwoBlankLinesStop` and `PythonScanner.BlankLineAboveExample`.
    This follows from the assumed `find_line_start`, not from python.py
    itself. With an inclusive reading (`s.rfind('
', 0, i + 1) + 1`) the
    step always reaches the line above, and an empty line stops the walk,
    so only the decorator lines directly above a def are taken.
  - `skip_python_string` handles two cases. From a triple quote, it ends
    just past the next matching triple quote, or at the end of the text.
    Otherwise it skips a quoted string in which a backslash hides the next
    character, so it ends just past the first unescaped quote of its kind;
    an unterminated string ends at the end of the text.
  - `skip_leading_ws_with_indent` counts 1 for a space. A tab advances to
    the next multiple of the positive tab width.
  - `is_nl` accepts `\n` or `\r`.
  - `match` and `match_word` compare substrings.
  - `splitLines` splits after each `\n`.
  - `str.strip`, `str.isspace` and the regular-expression classes `\s`
    and `\w` use ASCII only.
- `Wrappers` (`wrappers.dfy`) holds the `Option` type.

The model follows the code, including its quirks:
- **A triple-quoted context never ends.** Line 129 compares the
  three-character context with one character, so it can never match.
  See `ScanState.TripleContextNeverCloses`.
- **What sets `bs-nl` is not a backslash-newline.** The raw string at
  line 140 is three backslashes and `n`, and only a line that ends with
  those four characters sets `bs-nl`. See `ScanState.MarkerSetsBsNl` and
  `ScanState.BackslashNewlineIsPlain`.
- **The branch at line 143 is dead.** It compares one character with the
  two-character `r'\\'`, so no input reaches it. The model proves this
  with `assert false` in that branch.
- **The directive word keeps its `@`.** In `adjustDefStart` the word looked
  up in the directive list is `s[j:k]`, and it starts at the `@`. A list of
  bare directive names can therefore never stop the backward walk. See
  `PythonScanner.DirectivesWithoutAtNeverHalt`.
- **With no decorators, the start still moves to the line start.**
  `adjustDefStart` returns the start of `i`'s line, not `i`. See
  `PythonScanner.NoDecoratorGivesLineStart`.
- **Only triple quotes are docstrings.** `extendSignature` accepts only
  `"""` and `'''`.
- **The error key is the closing line.** `pythonNewlineHelper` records
  the offset `j` of the properly indented line that closes the range, not
  the offset of the underindented comment. So a range adds at most one
  entry.
- **A negative bracket depth does not end a block either.** Only
  `parenCount == 0` lets an underindented line end the block, so while an
  unmatched `)` keeps the depth below zero no line ends it. A later `(`
  can bring the depth back to zero. See `PythonScanner.OpenBracketsHoldTheScan`.
- **Popping an empty stack raises.** `list.pop` raises `IndexError`
  before anything changes. `Pop` models that raise as `ok == false` with
  the state unchanged.

## Model

| member | source | states |
|---|---|---|
| LeoGlobals.SkipWs | leo/plugins/importers/python.py:187 | assumed `skip_ws`: the result is `i` or lies in `(i, len(s)]`, every skipped char is a blank or tab, and the char at the result is not one |
| LeoGlobals.SkipWsAndNl | leo/plugins/importers/python.py:210 | assumed `skip_ws_and_nl`: the same, with `\n` and `\r` also skipped |
| LeoGlobals.SkipId | leo/plugins/importers/python.py:190 | assumed `skip_id`: the maximal run of word characters from `i` |
| LeoGlobals.SkipNl | leo/plugins/importers/python.py:262 | assumed `skip_nl`: it advances exactly 2 at `\r\n`, exactly 1 at any other line ending (`is_nl`: `\n` or `\r`), and 0 elsewhere; when it moves, the char before the result is a line ending |
| LeoGlobals.SkipToEndOfLine | leo/plugins/importers/python.py:271 | assumed `skip_to_end_of_line`: the first `\n` at or after `i`, or `len(s)`, with no `\n` skipped |
| LeoGlobals.FindLineStart | leo/plugins/importers/python.py:180-185 | assumed `find_line_start`: 0, or just after a `\n` that lies before `i`, with no `\n` from there up to (not including) `i` |
| LeoGlobals.FindFrom | leo/plugins/importers/python.py:212 | `str.find` from `k`: -1, or an occurrence of the pattern at or after `k` with none earlier |
| LeoGlobals.SkipStringFrom | leo/plugins/importers/python.py:273 | the backslash-aware scan for a closing quote stops just past the first unescaped delimiter, the text before it being plain chars and backslash escapes; with no such delimiter it stops at `len(s)` |
| LeoGlobals.SkipStringFromIsFirst | leo/plugins/importers/python.py:273 | any offset the scan may stop at is the one it stops at, so the end is unique and no unescaped delimiter comes before it |
| LeoGlobals.SkipPythonString | leo/plugins/importers/python.py:212 | assumed `skip_python_string`: from a triple quote, just past the first later matching triple, or `len(s)` when there is none; from a single quote, just past the first unescaped quote of its kind, or `len(s)` |
| LeoGlobals.LeadingWsFrom | leo/plugins/importers/python.py:301 | assumed `skip_leading_ws_with_indent` (`SkipLeadingWsWithIndent`, and `ComputeLeadingWhitespaceWidth` from offset 0, are this scan from a width of 0): it lands where `skip_ws` does; the width is at least the number of chars skipped, exactly that with spaces only, and a multiple of the tab width when the last char skipped is a tab |
| LeoGlobals.LeadingTabAdvancesToNextStop | leo/plugins/importers/python.py:301 | a tab moves the width to the next multiple of the tab width, `(count // tab_width + 1) * tab_width`, and the scan goes on after it |
| LeoGlobals.MatchOne | leo/plugins/importers/python.py:188 | `match` of one char (`match` compares a substring) holds exactly when that char is at the offset |
| LeoGlobals.PySlice | leo/plugins/importers/python.py:332 | Python slicing `s[a:b]`: a real slice when in range, empty when backwards or past the end, clamped at the end |
| LeoGlobals.SplitLines | leo/plugins/importers/python.py:50 | assumed `splitLines`: joining the lines (`Join`, Python's `''.join`) gives the text back, no line is empty, `\n` occurs only at a line's end, and every line but the last ends in `\n` |
| LeoGlobals.SkipSpaces | leo/plugins/importers/python.py:35 | the regex `\s*`: a maximal run of white space |
| LeoGlobals.TrimEnd | leo/plugins/importers/python.py:43 | trailing white space is removed, and the char left last is not white space |
| LeoGlobals.Strip | leo/plugins/importers/python.py:43 | `str.strip`: the slice from the first non-space char, with only white space after it, non-space at both ends, and empty exactly when `s` is all white space |
| ScanState.ContextAfter | leo/plugins/importers/python.py:122-146 | the context that the character loop reaches from offset `i` is always one of the six legal contexts |
| ScanState.ScanContext | leo/plugins/importers/python.py:122-146 | the character loop, from a line context, ends with exactly the context `ContextAfter` gives |
| ScanState.PythonScanState.constructor | leo/plugins/importers/python.py:60-66 | the new state has zero indents, no context, the flag false and an empty stack |
| ScanState.PythonScanState.Clear | leo/plugins/importers/python.py:91-94 | both indents are zero and the context is empty; the stack and the flag are unchanged |
| ScanState.PythonScanState.Pop | leo/plugins/importers/python.py:96-98 | with a non-empty stack, the base indent takes the top and the stack loses it; with an empty one (Python's `IndexError`), nothing changes and `ok` is false |
| ScanState.PythonScanState.Push | leo/plugins/importers/python.py:100-103 | the old base indent is appended to the stack and the base indent becomes the indent |
| ScanState.PythonScanState.ScanLine | leo/plugins/importers/python.py:105-146 | entering in `bs-nl`: the flag is false, the indent is untouched, and the loop starts from the empty context; otherwise the indent is the leading-white-space width, the flag is `StartsWithClassOrDef`, a whole-word (`match_word`) `class`/`def` at the first non-blank, and the context is `ContextAfter` of the old one; base indent and stack are unchanged |
| ScanState.PushThenPop | leo/plugins/importers/python.py:96-103 | `push` then `pop` restores the base indent and the stack exactly |
| ScanState.ClassifierTruthTable | leo/plugins/importers/python.py:76-89 | for `ContinuesBlock` and `StartsBlock`: in a context, a line continues the block and never starts one; outside, it continues iff `indent > base_indent` and starts iff it is a class/def with `indent >= base_indent` |
| ScanState.ContextAfterSuffix | leo/plugins/importers/python.py:122-146 | the loop's result from offset `i` depends only on `s[i:]` |
| ScanState.TripleContextNeverCloses | leo/plugins/importers/python.py:126-132 | a triple-quoted context survives any rest of the line |
| ScanState.PlainLineKeepsNoContext | leo/plugins/importers/python.py:133-145 | a line with no quote and no backslash leaves the empty context empty |
| ScanState.EscapedQuoteStaysInString | leo/plugins/importers/python.py:127-128 | inside a one-quote string, a backslash hides the next char, so an escaped quote does not end the string |
| ScanState.MatchingQuoteEndsString | leo/plugins/importers/python.py:129-130 | inside a one-quote string, an unescaped quote of the same kind ends it, and the scan goes on with no context |
| ScanState.CommentIgnoresRest | leo/plugins/importers/python.py:133-135 | outside a context, `#` ends the scan whatever follows |
| ScanState.InStringReaches | leo/plugins/importers/python.py:127-131 | inside a one-quote string, chars that are neither its quote nor a backslash leave the context as it is |
| ScanState.ClosedStringLeavesNoContext | leo/plugins/importers/python.py:126-139 | a one-quote string closed at the end of a plain line leaves no context, whatever it holds besides its quote and backslashes; a `#` inside it starts no comment |
| ScanState.StringToLineEnd | leo/plugins/importers/python.py:126-139 | from its opening quote, a string closed at the end of the line leaves no context |
| ScanState.HashInsideString | leo/plugins/importers/python.py:126-139 | `x = "a#b"` ends with no context |
| ScanState.QuoteInsideComment | leo/plugins/importers/python.py:133-139 | `x = 1 # "` ends with no context |
| ScanState.MarkerSetsBsNl | leo/plugins/importers/python.py:140-142 | a plain line ending in three backslashes and `n` sets `bs-nl` |
| ScanState.BackslashNewlineIsPlain | leo/plugins/importers/python.py:140-144 | a plain line ending in a real backslash-newline ends with no context |
| ScanState.PlainPrefixReaches | leo/plugins/importers/python.py:133-145 | with no quote, backslash or `#`, the empty context carries across a stretch unchanged |
| PythonScanner.DecoratorRunStart | leo/plugins/importers/python.py:183-197 | the backward walk from `j` ends at or before `j`, at `j` or a line start; when it moved, its top line is a decorator line (`IsDecoratorLine`) |
| PythonScanner.DecoratorRunStops | leo/plugins/importers/python.py:183-197 | the walk stops at its result: the line that `find_line_start` of the result minus 2 reaches is not a decorator line |
| PythonScanner.DecoratorRunIsContiguous | leo/plugins/importers/python.py:183-197 | from a line start `j` (the loop's invariant at line 182), the walk leaves out no code line: every line that starts between the result and `j` is a decorator line or an empty one |
| PythonScanner.AdjustDefStart | leo/plugins/importers/python.py:172-202 | the result is `<= i`; at a `\n` the failed assertion's handler returns `i`; otherwise the result is `DecoratorRunStart` of the start of `i`'s line |
| PythonScanner.AdjustedStartIsRunStart | leo/plugins/importers/python.py:180-199 | that result is at or before `i`'s line start and is itself a line start; every line from it down to the line above `i`'s is a decorator line or empty, and the walk stops there (`RunStopsAt`), so the run is maximal |
| PythonScanner.ScanDecoratorLine | leo/plugins/importers/python.py:187-194 | the loop's test of one line computes exactly `IsDecoratorLine` |
| PythonScanner.DecoratorLineLayout | leo/plugins/importers/python.py:187-194 | `IsDecoratorLine` holds exactly for a line laid out as blanks, `@`, word chars up to a non-word char or the end, where that word with its `@` is not a directive |
| PythonScanner.DecoratorStep | leo/plugins/importers/python.py:183-197 | one backward step strictly decreases `j`, and it moves the run start up a line exactly when the line above is a decorator |
| PythonScanner.NoDecoratorGivesLineStart | leo/plugins/importers/python.py:180-189 | with no `@` line just above, the result is the start of `i`'s line |
| PythonScanner.DirectivesWithoutAtNeverHalt | leo/plugins/importers/python.py:190-194 | directive names without `@` never stop the walk: the result equals the result with no directives |
| PythonScanner.DecoratorAboveBlankLineIsAttached | leo/plugins/importers/python.py:185-197 | a decorator line with one empty line below it is absorbed into the run of the line after the empty one |
| PythonScanner.TwoBlankLinesStop | leo/plugins/importers/python.py:185-189 | two empty lines right above a line start `j` stop the walk at `j` |
| PythonScanner.BlankLineAboveExample | leo/plugins/importers/python.py:180-197 | for `"@dec\n\ndef f():\n"` the run of the def at offset 6 starts at 0 |
| PythonScanner.DecoratorLineIsAttached | leo/plugins/importers/python.py:185-197 | a line of blanks, `@`, a name and a non-word char, just above a line, is absorbed into that line's run |
| PythonScanner.ExtendSignature | leo/plugins/importers/python.py:204-218 | the result is `i`, or one past a line ending that follows only blanks after a closed triple-quoted string starting at the first non-white char; no triple quote, an unterminated string, or one ending at `len(s)` gives `i` |
| PythonScanner.ExtendSignatureAbsorbsDocstring | leo/plugins/importers/python.py:210-217 | a triple-quoted string that closes on its line, after only blanks and line endings, followed by only blanks and a line ending, is absorbed through that line ending; quotes of its own kind may occur inside it |
| PythonScanner.ExtendSignatureKeepsTrailingCode | leo/plugins/importers/python.py:213-218 | the same layout with code after the closed string on its line gives `i` |
| PythonScanner.ExtendSignatureQuoteInsideExample | leo/plugins/importers/python.py:210-217 | `:\n"""a"b"""\n` from offset 1 extends to 12: a lone quote inside the docstring does not close it |
| PythonScanner.SkipSigTail | leo/plugins/importers/python.py:354-367 | with `found` it stops at a `:` with no `\n` or `#` before it; otherwise it stops at a `\n` or at `len(s)`; every `:` passed over is behind a `#` |
| PythonScanner.SkipToTheNextClassOrFunction | leo/plugins/importers/python.py:345-350 | the end is returned unchanged |
| PythonScanner.PythonScanner.constructor | leo/plugins/importers/python.py:159-161 | a scanner with a positive tab width and no error entries |
| PythonScanner.PythonScanner.ReportUnderindentedLines | leo/plugins/importers/python.py:332-340 | `errorLines` gains `j`, once, exactly when `j` is new and some non-blank line of the range is indented at most `startIndent` |
| PythonScanner.PythonScanner.PythonNewlineHelper | leo/plugins/importers/python.py:298-343 | it returns exactly `NewlineHelperResult`; `breakFlag` holds iff the line is underindented outside brackets and starts with neither `#` nor `\n`, with `i` then unchanged; an underindented comment opens the range only if none is open; a properly indented line that closes the range clears it and records `j` at most once; no duplicate entries |
| PythonScanner.PythonScanner.AtNewline | leo/plugins/importers/python.py:254-269 | it returns exactly `NewlineStep`; a block end found there is just after a line ending and no deeper than `startIndent`; new entries lie past `i` |
| PythonScanner.NewlineStep | leo/plugins/importers/python.py:254-269 | one pass of the newline branch strictly advances and stays within the text |
| PythonScanner.SkipToken | leo/plugins/importers/python.py:270-281 | the step over a non-newline char strictly advances within the text: a comment to its line's end, a string past its end, any other char by one; brackets change `parenCount` by one |
| PythonScanner.PythonScanner.ScanBlock | leo/plugins/importers/python.py:249-281 | the loop ends exactly where `ScanFrom` from `start`, depth 0 and no range stops, with the range `ScanFrom` leaves pending; it stops at `len(s)` or at a block end past `start`; new entries lie past `start` |
| PythonScanner.ScanFromStop | leo/plugins/importers/python.py:249-343 | the scan stops at or after `i` within the text; a stop before `len(s)` is the start of an underindented line after a line ending that is neither a comment nor a blank line; the range pending there starts at an underindented comment line |
| PythonScanner.NewlineStepKeepsRange | leo/plugins/importers/python.py:254-269 | one newline step keeps the pending range at an underindented comment line, and a break is such a stop |
| PythonScanner.HelperKeepsRange | leo/plugins/importers/python.py:298-343 | the same for `pythonNewlineHelper`: an underindented comment opens the range at its line start |
| PythonScanner.OpenBracketsHoldTheScan | leo/plugins/importers/python.py:254-269 | with `parenCount != 0` no newline step breaks, and the scan goes on at the next line |
| PythonScanner.PlainTextScan | leo/plugins/importers/python.py:281 | over chars that are neither line endings, `#`, quotes nor brackets the scan just moves on with the same depth and range |
| PythonScanner.PlainNewline | leo/plugins/importers/python.py:254-269 | at a `\n` with no backslash before it, the step passes a blank next line and gives any other to `pythonNewlineHelper` |
| PythonScanner.PythonScanner.SkipCodeBlock | leo/plugins/importers/python.py:242-296 | the end is exactly `CodeBlockEnd` (the loop's stop, moved back to the start of a pending range); it lies in `[start, len(s)]`, and an end before `len(s)` follows a line ending and is indented at most `startIndent`; `ok` is false exactly when `0 < end < len(s)` and `s[end-1] != '\n'`; `errorLines` only grows, with offsets past `start` |
| PythonScanner.CodeBlockEndShape | leo/plugins/importers/python.py:242-291 | the block's end before `len(s)` starts an underindented line that is not blank: the first of a run of trailing underindented comment lines when one is pending, and otherwise the first underindented code line the scan stops at |
| PythonScanner.CodeBlockEndExample | leo/plugins/importers/python.py:242-291 | `    x\ny\n` at indent 0 ends at offset 6 |
| PythonScanner.CodeBlockEndBracketExample | leo/plugins/importers/python.py:242-291 | `    f(\nz)\n    w\ny\n` at indent 0 ends at offset 16, not inside the bracket |
| PythonScanner.BracketLinePasses | leo/plugins/importers/python.py:254-281 | in that text the line inside the bracket does not stop the scan |
| PythonScanner.IndentedLinePasses | leo/plugins/importers/python.py:254-281 | nor does the indented line after it |
| PythonScanner.UnindentedLineStops | leo/plugins/importers/python.py:254-269 | the unindented code line stops it at its start |
| PythonScanner.CodeBlockEndCommentExample | leo/plugins/importers/python.py:242-291 | `    x\n# c\ny\n` at indent 0 ends at offset 6: the trailing comment line moves to what follows |
| PythonLineScanner.MatchKeywordName | leo/plugins/importers/python.py:35 | a match's group is a non-empty run of word characters, and a match comes from a `KeywordLayout` whose word is the group |
| PythonLineScanner.CleanHeadlineMeaning | leo/plugins/importers/python.py:33-43 | a def layout gives the def's name; a class layout gives `class ` and the name; a line with neither layout gives the stripped line |
| PythonLineScanner.KeywordLayoutMatches | leo/plugins/importers/python.py:35-37 | blanks, the keyword, white space and a word match the pattern, with that word as the group |
| PythonLineScanner.CleanHeadlineDef | leo/plugins/importers/python.py:35-37 | a def line's headline is the def's name |
| PythonLineScanner.CleanHeadlineClass | leo/plugins/importers/python.py:39-41 | a class line's headline is `class ` and the name, since the def pattern cannot match there |
| PythonLineScanner.KeywordNeedsSpace | leo/plugins/importers/python.py:35-43 | `def` or `class` not followed by white space gives the stripped line |
| PythonLineScanner.CleanHeadlineOther | leo/plugins/importers/python.py:42-43 | a line starting with neither keyword gives the stripped line |
| PythonLineScanner.CleanHeadlineDefExample | leo/plugins/importers/python.py:35-37 | `def f():` gives `f` |
| PythonLineScanner.CleanHeadlineClassExample | leo/plugins/importers/python.py:39-41 | `class C:` gives `class C` |
| PythonLineScanner.CommentLineIsStrippedHash | leo/plugins/importers/python.py:52 | the comment-line test is exactly `line.strip().startswith('#')` |
| PythonLineScanner.KeptLines | leo/plugins/importers/python.py:52-53 | the number of lines that stay is at most the number of lines |
| PythonLineScanner.KeptLinesSplit | leo/plugins/importers/python.py:52-53 | every line from the kept count on is a comment line, and the line before them is not |
| PythonLineScanner.NoTrailingCommentKeepsBody | leo/plugins/importers/python.py:50-54 | a body whose last line is not a comment keeps all its text |
| PythonLineScanner.CleanNodeStep | leo/plugins/importers/python.py:50-54 | the two bodies' concatenation is preserved; with no lines or no next node nothing changes; otherwise the body keeps its lines up to the trailing comment run, and that run, in order, prefixes the next body |
| PythonLineScanner.SplitAtKept | leo/plugins/importers/python.py:50-54 | cutting a body's lines where the kept lines end loses no text, and a body has lines exactly when it is not empty |
| PythonLineScanner.PopCommentLines | leo/plugins/importers/python.py:52-53 | the loop leaves the kept lines, and the popped lines, in order, in front of the next body |

## Left out

- `findClass` (lines 220-240) depends on base-class members that are not part of this model (`startsClass`, `startsFunction`, `startsId`, `sigStart`, `codeEnd`).
- The constructors of `PythonLineScanner` and `PythonScanner`, `importer_dict` and `new_scanner` are base-class wiring and configuration. `PythonScanner.PythonScanner.constructor` models only the two fields the scanners use, `tab_width` and `errorLines`, which come from the base class.
- The tree walk of `clean_nodes` (`parent.subtree()`, `threadNext()`) belongs to the outline. Only the step on one body and the next is modelled. `hasNext` stands for the truth of `next`.
- The old-code branch of `skipSigTail` (lines 368-379) is unreachable under `if 1:`.
- Tracing and messages are left out: `g.trace`, `g.es_exception` and `underindentedComment`. The `kind` parameters exist only for tracing and are dropped.
- `g.globalDirectiveList` is a parameter `directives`. Its contents live in leoGlobals, which is not part of this model.
- The base class's `startSigIndent` is a parameter of `SkipCodeBlock`. Its `startsComment` and `skipComment` are assumed to mean `#` and `skip_to_end_of_line`.
- Unicode is left out: letters and white space are ASCII, and only `\n` ends a line in `splitLines`.
- `AdjustDefStart` requires `i < len(s)`: for a larger `i`, `s[i]` raises `IndexError`, which the `except AssertionError` handler does not catch.
- `PythonNewlineHelper` requires `i <= len(s)`, which `skipCodeBlock` always meets. Its new `errorLines` entries are then bounded by `len(s)`.
- ScanBlock: `ScanFrom` follows the loop one step at a time, and the method is proved to compute exactly its result. No closed form such as "the first line start past `start` that is underindented outside brackets" is stated, because the bracket depth and string state at a line depend on every character scanned before it. `ScanFromStop`, `OpenBracketsHoldTheScan`, `CodeBlockEndShape` and the three examples state what the stop is.
- `ContinuesBlock`, `StartsBlock`, `StartsWithClassOrDef`, `IsDecoratorLine`, `IsNl`, `IsWs`, `IsWordChar`, `IsSpace`, `Match`, `MatchWord`, `Join`, `SkipLeadingWsWithIndent`, `ComputeLeadingWhitespaceWidth`, `LineIndent`, `UnderindentedLine`, `Underindented`, `ClosesRange`, `RangeAtComment`, `ScanFrom`, `CodeBlockEnd` and `CleanHeadline` are definitions with no contract of their own. The rows that name them, or whose members' contracts are written with them, state what is proved about them: `CleanHeadlineMeaning` for `CleanHeadline`; `PythonNewlineHelper`, `ReportUnderindentedLines`, `ScanFromStop`, `NewlineStepKeepsRange` and `HelperKeepsRange` for `LineIndent`, `UnderindentedLine`, `Underindented`, `ClosesRange` and `RangeAtComment` (the tests of python.py:305 and 320-341); the skip functions of `LeoGlobals` for `IsWs`, `IsWordChar` and `IsSpace`.
- SkipStringFrom: in an unterminated string that ends in a lone backslash, the `i += 2` of `skip_string` leaves `len(s) + 1`, and `skipCodeBlock` can then return `len(s) + 1`; the model gives `len(s)` in that one case, so every offset stays within the text.
