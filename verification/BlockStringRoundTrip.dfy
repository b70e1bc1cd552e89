/** The printer of SchemaPrinter and the reader of BlockStringParser undo each other. */
module BlockStringRoundTrip {
  import opened Wrappers
  import opened BlockStringParser
  import opened SchemaPrinter
  import opened BlockStringLines
  import opened BlockStringEscaping

  // ----- The value of what was framed

  /** Whether removing the common indent leaves the value alone: the lines the reader measures (all of
      them after a leading break, all but the first otherwise) include one that starts at the margin. */
  predicate KeepsIndent(value: string, before: string) {
    var lines := SplitLines(value);
    value == "" || (before == "" && |lines| == 1)
    || HasUnindentedLine(if before == "" then lines[1..] else lines)
  }

  /** The lines of a framed value: what comes first, the measured lines moved right, the last break. */
  lemma FramedLines(value: string, f: Frame, ind: string)
    requires NoReturn(value) && AllWhite(ind) && IsBreak(f.before) && IsBreak(f.after)
    ensures var lines := SplitLines(value);
            var first := if f.before == "" then lines[0] else "";
            var measured := if f.before == "" then lines[1..] else lines;
            SplitLines(Framed(value, f, ind))
            == [first] + (IndentAll(measured, ind) + (if f.after == "" then [] else [ind]))
  {
    var lines := SplitLines(value);
    var head := if f.before == "" then [lines[0]] else [""];
    var measured := if f.before == "" then lines[1..] else lines;
    var tail: seq<string> := if f.after == "" then [] else [""];
    var raw := f.before + value + f.after;
    SplitFramed(value, f.before, f.after);
    SplitReindent(raw, ind);
    IndentRest(SplitLines(raw), head[0], measured, tail, ind);
    assert IndentAll(tail, ind) == if f.after == "" then [] else [ind] by {
      assert ind + "" == ind;
    }
  }

  lemma IndentRest(split: seq<string>, first: string, measured: seq<string>, tail: seq<string>, ind: string)
    requires split == [first] + measured + tail
    ensures [split[0]] + IndentAll(split[1..], ind) == [first] + (IndentAll(measured, ind) + IndentAll(tail, ind))
  {
    assert split[1..] == measured + tail;
    IndentAllConcat(measured, tail, ind);
  }

  lemma SplitAfter(value: string, after: string)
    requires NoReturn(value) && IsBreak(after)
    ensures NoReturn(value + after)
    ensures SplitLines(value + after) == SplitLines(value) + (if after == "" then [] else [""])
  {
    if after == "" {
      assert value + "" == value;
    } else {
      SplitNewLine(value);
    }
  }

  lemma SplitFramed(value: string, before: string, after: string)
    requires NoReturn(value) && IsBreak(before) && IsBreak(after)
    ensures NoReturn(before + value + after)
    ensures SplitLines(before + value + after)
         == (if before == "" then [] else [""]) + SplitLines(value) + (if after == "" then [] else [""])
  {
    SplitAfter(value, after);
    if before == "" {
      assert before + value + after == value + after;
    } else {
      assert before + value + after == "\n" + (value + after);
      SplitCons('\n', value + after);
    }
  }

  lemma SplitEmptyEnds(value: string)
    requires value != "" && BlockPrintable(value)
    ensures NoReturn(value)
    ensures CommonIndent(SplitLines(value)).Some?
    ensures |SplitLines(value)| > 1 ==> CommonIndent(SplitLines(value)[1..]).Some?
  {
    var lines := SplitLines(value);
    CommonIndentIsLeast(lines);
    CommonIndentIsLeast(lines[1..]);
    if |lines| > 1 {
      assert lines[1..][|lines| - 2] == lines[|lines| - 1];
    }
    assert IsForbidden('\r');
  }

  lemma UnindentedIffZero(lines: seq<string>)
    requires CommonIndent(lines).Some?
    ensures HasUnindentedLine(lines) <==> CommonIndent(lines).value == 0
  {
    CommonIndentIsLeast(lines);
  }

  lemma UnindentRest(first: string, rest: seq<string>, k: nat)
    requires CommonIndent(rest) == Some(k)
    ensures UnindentCommon([first] + rest) == [first] + UnindentAll(rest, k)
  {
    assert ([first] + rest)[1..] == rest;
  }

  lemma UnindentBlank(first: string, rest: seq<string>)
    requires CommonIndent(rest).None?
    ensures UnindentCommon([first] + rest) == [first] + rest
  {
    assert ([first] + rest)[1..] == rest;
  }

  lemma MeasureMoved(measured: seq<string>, ind: string, tail: seq<string>)
    requires AllWhite(ind) && (tail == [] || tail == [ind])
    ensures CommonIndent(IndentAll(measured, ind) + tail)
            == match CommonIndent(measured) case None => None case Some(n) => Some(|ind| + n)
  {
    CommonIndentMoves(measured, ind);
    BlankIsWhite(ind);
    if tail != [] {
      CommonIndentOfBlankTail(IndentAll(measured, ind), ind);
    } else {
      assert IndentAll(measured, ind) + tail == IndentAll(measured, ind);
    }
  }

  lemma UnindentTail(measured: seq<string>, ind: string, tail: seq<string>, n: nat) returns (back: seq<string>)
    requires tail == [] || tail == [ind]
    ensures |back| <= 1 && (back != [] ==> Blank(back[0]))
    ensures UnindentAll(IndentAll(measured, ind) + tail, |ind| + n) == UnindentAll(measured, n) + back
  {
    UnindentAllConcat(IndentAll(measured, ind), tail, |ind| + n);
    UnindentMoved(measured, ind, n);
    back := UnindentAll(tail, |ind| + n);
    if tail != [] {
      UnindentAllAt(tail, |ind| + n, 0);
      assert Unindent(ind, |ind| + n) == "";
    }
  }

  /** Taking the common indent from framed lines takes the value's own common indent from them. */
  lemma UnindentFramed(first: string, measured: seq<string>, ind: string, tail: seq<string>) returns (back: seq<string>)
    requires AllWhite(ind) && (tail == [] || tail == [ind]) && CommonIndent(measured).Some?
    ensures |back| <= 1 && (back != [] ==> Blank(back[0]))
    ensures UnindentCommon([first] + (IndentAll(measured, ind) + tail))
            == [first] + (UnindentAll(measured, Measure(measured)) + back)
  {
    MeasureMoved(measured, ind, tail);
    UnindentRest(first, IndentAll(measured, ind) + tail, |ind| + Measure(measured));
    back := UnindentTail(measured, ind, tail, Measure(measured));
  }

  /** The indent the reader takes from the measured lines. */
  function Measure(measured: seq<string>): nat {
    match CommonIndent(measured) case None => 0 case Some(n) => n
  }

  /** A text whose lines are a value's lines, moved and preceded by a break, is read as the value's lines
      less the indent the reader measures. */
  lemma {:induction false} ReadAfterBreak(text: string, lines: seq<string>, ind: string, tail: seq<string>)
    requires AllWhite(ind) && (tail == [] || tail == [ind])
    requires lines != [] && !Blank(lines[0]) && !Blank(lines[|lines| - 1])
    requires SplitLines(text) == [""] + (IndentAll(lines, ind) + tail)
    ensures BlockStringValue(text) == JoinLines(UnindentAll(lines, Measure(lines)))
  {
    LastIsMeasured(lines);
    var back := UnindentFramed("", lines, ind, tail);
    KeptEnds([], lines, Measure(lines));
    DropBreak(UnindentAll(lines, Measure(lines)), back);
  }

  /** The same without a break: the first line is neither moved nor measured. */
  lemma {:induction false} ReadInline(text: string, first: string, others: seq<string>, ind: string, tail: seq<string>)
    requires AllWhite(ind) && (tail == [] || tail == [ind])
    requires !Blank(first) && others != [] && !Blank(others[|others| - 1])
    requires SplitLines(text) == [first] + (IndentAll(others, ind) + tail)
    ensures BlockStringValue(text) == JoinLines([first] + UnindentAll(others, Measure(others)))
  {
    LastIsMeasured(others);
    var unindented := UnindentAll(others, Measure(others));
    var back := UnindentFramed(first, others, ind, tail);
    KeptEnds([first], others, Measure(others));
    Associates([first], unindented, back);
    ReadKept(text, [first] + unindented, back);
  }

  lemma LastIsMeasured(lines: seq<string>)
    requires lines != [] && !Blank(lines[|lines| - 1])
    ensures CommonIndent(lines).Some?
  {
    CommonIndentIsLeast(lines);
  }

  lemma {:induction false} ReadKept(text: string, kept: seq<string>, back: seq<string>)
    requires |back| <= 1 && (back != [] ==> Blank(back[0]))
    requires kept != [] && !Blank(kept[0]) && !Blank(kept[|kept| - 1])
    requires UnindentCommon(SplitLines(text)) == kept + back
    ensures BlockStringValue(text) == JoinLines(kept)
  {
    DropNoBreak(kept, back);
  }

  lemma ReadSingle(text: string, line: string, ind: string, tail: seq<string>)
    requires AllWhite(ind) && (tail == [] || tail == [ind]) && !Blank(line)
    requires SplitLines(text) == [line] + tail
    ensures BlockStringValue(text) == line
  {
    BlankIsWhite(ind);
    UnindentBlank(line, tail);
    DropNoBreak([line], tail);
  }

  lemma DropBreak(lines: seq<string>, back: seq<string>)
    requires |back| <= 1 && (back != [] ==> Blank(back[0]))
    requires lines != [] && !Blank(lines[0]) && !Blank(lines[|lines| - 1])
    ensures DropTrailingBlank(DropLeadingBlank([""] + (lines + back))) == lines
  {
    TrimmedEnds([""], lines, back);
    assert [""] + lines + back == [""] + (lines + back);
  }

  lemma DropNoBreak(lines: seq<string>, back: seq<string>)
    requires |back| <= 1 && (back != [] ==> Blank(back[0]))
    requires lines != [] && !Blank(lines[0]) && !Blank(lines[|lines| - 1])
    ensures DropTrailingBlank(DropLeadingBlank(lines + back)) == lines
  {
    TrimmedEnds([], lines, back);
    assert [] + lines + back == lines + back;
  }

  lemma KeptEnds(head: seq<string>, measured: seq<string>, n: nat)
    requires |head| <= 1 && head + measured != [] && n == Measure(measured)
    requires head != [] ==> !Blank(head[0])
    requires measured != [] ==> !Blank(measured[|measured| - 1]) && (head == [] ==> !Blank(measured[0]))
    ensures var kept := head + UnindentAll(measured, n);
            kept != [] && !Blank(kept[0]) && !Blank(kept[|kept| - 1])
  {
    if measured != [] {
      CommonIndentIsLeast(measured);
      var last := |measured| - 1;
      UnindentAllAt(measured, n, last);
      UnindentNonBlank(measured[last], n);
      if head == [] {
        UnindentAllAt(measured, n, 0);
        UnindentNonBlank(measured[0], n);
      }
    }
  }

  lemma SameJoinIffZero(lines: seq<string>, head: seq<string>, measured: seq<string>, n: nat)
    requires lines == head + measured && |head| <= 1
    requires measured != [] && !Blank(measured[|measured| - 1])
    ensures JoinLines(head + UnindentAll(measured, n)) == JoinLines(lines) <==> n == 0
  {
    UnindentNothing(measured);
    if n > 0 {
      UnindentShrinks(measured, n);
      assert measured[|measured| - 1] != "";
      JoinSize(lines);
      JoinSize(head + UnindentAll(measured, n));
      if head != [] {
        assert lines[1..] == measured && (head + UnindentAll(measured, n))[1..] == UnindentAll(measured, n);
      } else {
        assert lines == measured && head + UnindentAll(measured, n) == UnindentAll(measured, n);
      }
    }
  }

  lemma FramedValueKept(value: string, f: Frame, ind: string)
    requires BlockPrintable(value) && AllWhite(ind) && IsBreak(f.before) && IsBreak(f.after)
    requires value == "" ==> f == Frame("", "")
    ensures BlockStringValue(Framed(value, f, ind)) == value <==> KeepsIndent(value, f.before)
  {
    if value == "" {
      assert Framed(value, f, ind) == "";
    } else {
      var lines := SplitLines(value);
      SplitEmptyEnds(value);
      FramedLines(value, f, ind);
      JoinSplit(value);
      var head := if f.before == "" then lines[..1] else [];
      var measured := if f.before == "" then lines[1..] else lines;
      assert lines == head + measured;
      KeptIffZero(value, f.before, lines, head, measured);
      var tail := if f.after == "" then [] else [ind];
      if measured == [] {
        assert IndentAll(measured, ind) + tail == tail && lines == [lines[0]];
        ReadSingle(Framed(value, f, ind), lines[0], ind, tail);
      } else if f.before == "" {
        assert measured[|measured| - 1] == lines[|lines| - 1];
        ReadInline(Framed(value, f, ind), lines[0], measured, ind, tail);
      } else {
        ReadAfterBreak(Framed(value, f, ind), lines, ind, tail);
        assert [] + UnindentAll(lines, Measure(lines)) == UnindentAll(lines, Measure(lines));
      }
    }
  }

  lemma {:induction false} KeptIffZero(value: string, before: string, lines: seq<string>, head: seq<string>,
                                       measured: seq<string>)
    requires value != "" && lines == SplitLines(value) && IsBreak(before)
    requires lines == head + measured && |head| == if before == "" then 1 else 0
    requires measured != [] ==> CommonIndent(measured).Some?
    requires !Blank(lines[|lines| - 1])
    ensures JoinLines(head + UnindentAll(measured, Measure(measured))) == JoinLines(lines) <==>
        KeepsIndent(value, before)
  {
    assert measured == if before == "" then lines[1..] else lines;
    if measured != [] {
      UnindentedIffZero(measured);
      SameJoinIffZero(lines, head, measured, Measure(measured));
    } else {
      assert UnindentAll(measured, Measure(measured)) == [];
    }
  }

  // ----- Main results

  /** For every string the scanner accepts, either value of `minimize`, every white indentation and every
      following text: the printed block string is read back as that string, ending at the closing quotes
      the printer added, exactly when the string is made of source characters and keeps its indent. */
  lemma PrintThenRead(value: string, minimize: bool, ind: string, rest: string)
    requires BlockPrintable(value) && AllWhite(ind)
    ensures ReadBlockString(Reindent(PrintBlockString(value, minimize), ind) + rest) == Some((value, rest))
            <==> AllSource(value) && KeepsIndent(value, ChooseFrame(value, minimize).before)
    ensures !AllSource(value) ==> ReadBlockString(Reindent(PrintBlockString(value, minimize), ind) + rest) == None
  {
    var f := ChooseFrame(value, minimize);
    ChosenFrameIsSafe(value, minimize);
    PrintFramedThenRead(value, f, ind, rest);
  }

  /** What an escaped text between quotes is read as. */
  lemma ReadQuoted(framed: string, rest: string)
    requires ClosesSafely(framed)
    ensures ReadBlockString(QUOTES + (Escape(framed) + QUOTES) + rest)
         == if AllSource(framed) then Some((BlockStringValue(framed), rest)) else None
  {
    var body := Escape(framed) + (QUOTES + rest);
    LexEscaped(framed, rest);
    Associates(Escape(framed), QUOTES, rest);
    Associates(QUOTES, Escape(framed) + QUOTES, rest);
    assert QUOTES <= QUOTES + body && (QUOTES + body)[3..] == body;
  }

  lemma PrintFramedThenRead(value: string, f: Frame, ind: string, rest: string)
    requires BlockPrintable(value) && AllWhite(ind)
    requires IsBreak(f.before) && IsBreak(f.after) && SafeFrame(value, f) && (value == "" ==> f == Frame("", ""))
    ensures ReadBlockString(Reindent(PrintFramed(value, f), ind) + rest) == Some((value, rest))
            <==> AllSource(value) && KeepsIndent(value, f.before)
    ensures !AllSource(value) ==> ReadBlockString(Reindent(PrintFramed(value, f), ind) + rest) == None
  {
    var framed := Framed(value, f, ind);
    PrintedText(value, f, ind);
    FramedClosesSafely(value, f, ind);
    ReadQuoted(framed, rest);
    FramedValueKept(value, f, ind);
    FramedSource(value, f, ind);
  }

  lemma FramedSource(value: string, f: Frame, ind: string)
    requires AllWhite(ind) && IsBreak(f.before) && IsBreak(f.after)
    ensures AllSource(Framed(value, f, ind)) <==> AllSource(value)
  {
    var raw := f.before + value + f.after;
    ReindentSource(raw, ind);
    SourceTail(raw, |f.before|);
    SourceTail(value + f.after, |value|);
    assert raw[..|f.before|] == f.before && raw[|f.before|..] == value + f.after;
    assert (value + f.after)[..|value|] == value && (value + f.after)[|value|..] == f.after;
  }

  lemma {:induction false} ReindentSource(s: string, ind: string)
    requires AllWhite(ind)
    ensures AllSource(Reindent(s, ind)) <==> AllSource(s)
  {
    if s != "" {
      var x := if s[0] == '\n' then "\n" + ind else [s[0]];
      ReindentSource(s[1..], ind);
      SourceTail(s, 1);
      SourceTail(Reindent(s, ind), |x|);
      assert Reindent(s, ind)[..|x|] == x && Reindent(s, ind)[|x|..] == Reindent(s[1..], ind);
    }
  }

  /** Without the line breaks that only Python knows, the printer's choice always keeps the indent. */
  lemma NoForeignBreakKeepsIndent(value: string, minimize: bool)
    requires BlockPrintable(value) && !HasForeignBreak(value)
    ensures KeepsIndent(value, ChooseFrame(value, minimize).before)
  {
    if value != "" {
      var lines := SplitLines(value);
      var f := ChooseFrame(value, minimize);
      SplitEmptyEnds(value);
      EscapedPythonLines(value);
      if |lines| == 1 {
        SplitOne(value);
        assert f.before == "\n" ==> !StartsWhite(value);
        assert f.before == "\n" ==> !Blank(lines[0]) && Indent(lines[0]) == 0;
      } else if f.before == "" {
        var escaped := PythonLines(Escape(value));
        var i :| 1 <= i < |escaped| && escaped[i] != "" && !IsWhite(escaped[i][0]);
        assert lines[1..][i - 1] == lines[i];
        assert !Blank(lines[i]) && Indent(lines[i]) == 0;
      }
    }
  }

  lemma LaterLines(lines: seq<string>)
    requires |lines| > 0
    ensures LaterIndented(lines) <==> !HasUnindentedLine(lines[1..])
  {
    if !LaterIndented(lines) {
      var i :| 1 <= i < |lines| && lines[i] != "" && !IsWhite(lines[i][0]);
      MarginLine(lines[i]);
      assert lines[1..][i - 1] == lines[i];
    }
    if HasUnindentedLine(lines[1..]) {
      var i :| 0 <= i < |lines[1..]| && !Blank(lines[1..][i]) && Indent(lines[1..][i]) == 0;
      assert lines[1..][i] == lines[i + 1];
    }
  }

  lemma EscapedLater(value: string)
    requires value != "" && BlockPrintable(value) && !HasForeignBreak(value)
    ensures |PythonLines(Escape(value))| == |SplitLines(value)|
    ensures LaterIndented(PythonLines(Escape(value))) <==> LaterIndented(SplitLines(value))
  {
    EscapedPythonLines(value);
  }

  lemma LeadForced(value: string)
    requires value != "" && |PythonLines(Escape(value))| > 0
    ensures ChooseFrame(value, true).before == "\n"
      <==> |PythonLines(Escape(value))| > 1 && LaterIndented(PythonLines(Escape(value)))
  {
  }

  /** Minimized, a break is printed exactly where the text would be read back wrong without it. */
  lemma MinimizedFrame(value: string)
    requires BlockPrintable(value) && !HasForeignBreak(value)
    ensures
      var f := ChooseFrame(value, true);
      && (f.before == "\n" <==> !KeepsIndent(value, ""))
      && (f.after == "\n" <==> !SafeFrame(value, Frame(f.before, "")))
  {
    if value != "" {
      EscapedLater(value);
      LaterLines(SplitLines(value));
      LeadForced(value);
    }
  }

  lemma MarginLine(line: string)
    requires line != "" && !IsWhite(line[0])
    ensures !Blank(line) && Indent(line) == 0
  {
  }

  /** Text that goes over several lines, is longer than 70 characters or ends in a quote or a backslash. */
  predicate IsLaidOut(value: string) {
    |SplitLines(value)| > 1 || |value| > 70 || EndsWith(value, "\"") || EndsWith(value, "\\")
  }

  /** Otherwise such a text, and no other, is printed on lines of its own, unless it is one line that starts with white
      space, which stays behind the opening quotes. */
  lemma LaidOutFrame(value: string)
    requires BlockPrintable(value) && !HasForeignBreak(value)
    ensures
      var f := ChooseFrame(value, false);
      && (f.after == "\n" <==> IsLaidOut(value))
      && (f.before == "\n" <==> IsLaidOut(value) && !(|SplitLines(value)| == 1 && StartsWhite(value)))
  {
    if value != "" {
      var escaped := Escape(value);
      EscapedPythonLines(value);
      EscapeKeepsEnd(value);
      assert value[|value| - 1..] == [value[|value| - 1]];
      if EndsWith(escaped, ESCAPED_QUOTES) {
        assert escaped[|escaped| - 4..][3] == '"';
        assert escaped[|escaped| - 1] == '"';
      }
    }
  }

  lemma SplitOne(s: string)
    requires NoReturn(s) && |SplitLines(s)| == 1
    ensures SplitLines(s) == [s]
  {
    JoinSplit(s);
  }

  /** Python's lines of the escaped value are the value's lines, each escaped. */
  lemma EscapedPythonLines(value: string)
    requires value != "" && BlockPrintable(value) && !HasForeignBreak(value)
    ensures var lines, escaped := SplitLines(value), PythonLines(Escape(value));
            && |escaped| == |lines|
            && forall i :: 0 <= i < |lines| ==>
                 (escaped[i] == "" <==> lines[i] == "")
                     && (escaped[i] != "" ==> (IsWhite(escaped[i][0]) <==> IsWhite(lines[i][0])))
  {
    var lines := SplitLines(value);
    SplitEmptyEnds(value);
    EscapeKeepsBreaks(value);
    SplitEscaped(value);
    assert lines[|lines| - 1] != "";
    EscapeLast(lines[|lines| - 1]);
    PythonSplitsAlike(Escape(value));
    assert PythonLines(Escape(value)) == EscapeAll(lines);
    forall i | 0 <= i < |lines|
      ensures Escape(lines[i]) == "" <==> lines[i] == ""
      ensures lines[i] != "" ==> (IsWhite(Escape(lines[i])[0]) <==> IsWhite(lines[i][0]))
    {
      EscapedHead(lines[i]);
    }
  }

  lemma EscapedHead(line: string)
    ensures Escape(line) == "" <==> line == ""
    ensures line != "" ==> (IsWhite(Escape(line)[0]) <==> IsWhite(line[0]))
  {
    assert QUOTES[0] == '"' && ESCAPED_QUOTES[0] == '\\';
  }

  function EscapeAll(lines: seq<string>): (r: seq<string>)
    ensures |r| == |lines|
    ensures forall i :: 0 <= i < |r| ==> r[i] == Escape(lines[i])
  {
    if lines == [] then [] else [Escape(lines[0])] + EscapeAll(lines[1..])
  }

  lemma {:induction false} EscapeKeepsBreaks(s: string)
    requires NoReturn(s) && !HasForeignBreak(s)
    ensures NoReturn(Escape(s)) && !HasForeignBreak(Escape(s))
    decreases |s|
  {
    if QUOTES <= s {
      EscapeKeepsBreaks(s[3..]);
    } else if s != "" {
      assert forall i :: 0 <= i < |s[1..]| ==> s[1..][i] == s[i + 1];
      EscapeKeepsBreaks(s[1..]);
      assert s[0] == '\n' || !IsPythonLineBreak(s[0]);
    }
  }

  lemma {:induction false} SplitEscaped(s: string)
    requires NoReturn(s)
    ensures SplitLines(Escape(s)) == EscapeAll(SplitLines(s))
    decreases |s|
  {
    if QUOTES <= s {
      SplitEscaped(s[3..]);
      SplitPlainPrefix(ESCAPED_QUOTES, Escape(s[3..]));
      SplitPlainPrefix(QUOTES, s[3..]);
      var l := SplitLines(s[3..])[0];
      assert s == QUOTES + s[3..];
      assert (QUOTES + l)[3..] == l;
    } else if s != "" {
      SplitEscaped(s[1..]);
      SplitCons(s[0], Escape(s[1..]));
      if s[0] != '\n' {
        var l := SplitLines(s[1..])[0];
        FirstLineQuotes(s[1..]);
        assert ([s[0]] + l)[1..] == l;
        assert !(QUOTES <= [s[0]] + l);
      }
    }
  }

  lemma FirstLineQuotes(s: string)
    requires NoReturn(s)
    ensures "\"\"" <= SplitLines(s)[0] ==> "\"\"" <= s
  {
    if s != "" && s[0] == '"' && |s| > 1 {
      assert SplitLines(s)[0] == [s[0]] + SplitLines(s[1..])[0];
    }
  }

  lemma {:induction false} SplitPlainPrefix(p: string, s: string)
    requires NoReturn(p) && '\n' !in p
    ensures SplitLines(p + s) == [p + SplitLines(s)[0]] + SplitLines(s)[1..]
  {
    if p == "" {
      assert p + s == s && p + SplitLines(s)[0] == SplitLines(s)[0];
    } else {
      assert (p + s)[1..] == p[1..] + s;
      SplitPlainPrefix(p[1..], s);
      assert [p[0]] + (p[1..] + SplitLines(s)[0]) == p + SplitLines(s)[0];
    }
  }

  /** The lines without a last line that is empty. */
  function WithoutLastEmpty(lines: seq<string>): seq<string>
    requires lines != []
  {
    if lines[|lines| - 1] == "" then lines[..|lines| - 1] else lines
  }

  lemma CleanTail(s: string)
    requires s != "" && NoReturn(s) && !HasForeignBreak(s)
    ensures NoReturn(s[1..]) && !HasForeignBreak(s[1..])
    ensures s[0] != '\r' && (s[0] == '\n' || !IsPythonLineBreak(s[0]))
  {
    assert forall i :: 0 <= i < |s[1..]| ==> s[1..][i] == s[i + 1];
  }

  lemma WithoutLastOfMore(first: string, lines: seq<string>)
    requires lines != []
    ensures WithoutLastEmpty([first] + lines) == [first] + WithoutLastEmpty(lines)
  {
    assert ([first] + lines)[..|lines|] == [first] + lines[..|lines| - 1];
  }

  lemma WithoutLastOfLonger(c: char, lines: seq<string>)
    requires lines != []
    ensures
      WithoutLastEmpty([[c] + lines[0]] + lines[1..])
      == if WithoutLastEmpty(lines) == [] then [[c]]
         else [[c] + lines[0]] + WithoutLastEmpty(lines)[1..]
  {
    if |lines| > 1 {
      WithoutLastOfMore([c] + lines[0], lines[1..]);
      WithoutLastOfMore(lines[0], lines[1..]);
      assert lines == [lines[0]] + lines[1..];
    } else {
      assert [c] + "" == [c];
    }
  }

  lemma {:induction false} PythonSplitsAlike(s: string)
    requires NoReturn(s) && !HasForeignBreak(s)
    ensures PythonLines(s) == WithoutLastEmpty(SplitLines(s))
  {
    if s != "" {
      var c, t := s[0], s[1..];
      CleanTail(s);
      PythonSplitsAlike(t);
      assert s == [c] + t;
      SplitCons(c, t);
      if c == '\n' {
        WithoutLastOfMore("", SplitLines(t));
      } else {
        WithoutLastOfLonger(c, SplitLines(t));
        if PythonLines(t) == [] {
          EmptyPythonLines(t);
        }
      }
    }
  }

  lemma EmptyPythonLines(s: string)
    requires PythonLines(s) == []
    ensures s == ""
  {
  }

  /** The round trip for source text without U+0085, U+2028 and U+2029. */
  lemma RoundTrip(value: string, minimize: bool, rest: string)
    requires BlockPrintable(value) && AllSource(value) && !HasForeignBreak(value)
    ensures ReadBlockString(PrintBlockString(value, minimize) + rest) == Some((value, rest))
  {
    NoForeignBreakKeepsIndent(value, minimize);
    PrintThenRead(value, minimize, "", rest);
    ReindentNothing(PrintBlockString(value, minimize));
  }

  lemma {:induction false} SkipsWhite(w: string, s: string)
    requires forall i :: 0 <= i < |w| ==> IsWhite(w[i]) || w[i] == '\n'
    requires QUOTES <= s
    ensures SkipIgnored(w + s) == s
  {
    if w == "" {
      assert w + s == s && s[0] == QUOTES[0] == '"';
    } else {
      assert (w + s)[1..] == w[1..] + s;
      SkipsWhite(w[1..], s);
    }
  }

  /** A text without the white space at its end. */
  predicate IsStripped(s: string, text: string) {
    && text <= s
    && (forall i :: |text| <= i < |s| ==> IsPythonSpace(s[i]))
    && (text != "" ==> !IsPythonSpace(text[|text| - 1]))
  }

  lemma {:induction false} Strips(s: string, text: string)
    requires IsStripped(s, text)
    ensures RStrip(s) == text
    decreases |s|
  {
    if |text| < |s| {
      Strips(s[..|s| - 1], text);
    }
  }

  /** What goes before a description: its indentation, on a line of its own if something comes before in the block. */
  function Lead(ind: string, firstInBlock: bool): string {
    if ind == "" || firstInBlock then ind else "\n" + ind
  }

  /** A printed description, at any indentation and at either place in its block, is read back as the
      right-stripped description, followed by the final break, exactly under the same condition. */
  lemma DescriptionThenRead(description: string, text: string, ind: string, firstInBlock: bool, quoted: string)
    requires IsStripped(description, text) && AllWhite(ind) && BlockPrintable(text)
    ensures var printed := PrintDescription(Some(description), ind, firstInBlock, quoted);
            var lead := Lead(ind, firstInBlock);
            && lead <= printed && SkipIgnored(printed) == printed[|lead|..]
            && (ReadBlockString(printed[|lead|..]) == Some((text, "\n"))
                <==> AllSource(text) && KeepsIndent(text, ChooseFrame(text, false).before))
            && (AllSource(text) && !HasForeignBreak(text) ==> ReadBlockString(printed[|lead|..]) == Some((text, "\n")))
  {
    var printed, lead := PrintDescription(Some(description), ind, firstInBlock, quoted), Lead(ind, firstInBlock);
    Strips(description, text);
    var block := Reindent(PrintBlockString(text, false), ind);
    Associates(lead, block, "\n");
    assert printed == lead + (block + "\n");
    assert printed[|lead|..] == block + "\n";
    SkipsToBlock(description, ind, firstInBlock, quoted);
    PrintThenRead(text, false, ind, "\n");
    if !HasForeignBreak(text) {
      NoForeignBreakKeepsIndent(text, false);
    }
  }

  /** A description that cannot be a block string is printed as it was quoted, and one that is not there is not
      printed. */
  lemma OtherDescriptions(description: string, text: string, ind: string, firstInBlock: bool, quoted: string)
    requires IsStripped(description, text) && !BlockPrintable(text)
    ensures PrintDescription(Some(description), ind, firstInBlock, quoted)
         == Lead(ind, firstInBlock) + Reindent(quoted, ind) + "\n"
    ensures PrintDescription(None, ind, firstInBlock, quoted) == ""
  {
    Strips(description, text);
  }

  lemma SkipsToBlock(description: string, ind: string, firstInBlock: bool, quoted: string)
    requires AllWhite(ind) && BlockPrintable(RStrip(description))
    ensures SkipIgnored(PrintDescription(Some(description), ind, firstInBlock, quoted))
         == Reindent(PrintBlockString(RStrip(description), false), ind) + "\n"
  {
    var text := RStrip(description);
    var prefix := if ind != "" && !firstInBlock then "\n" + ind else ind;
    var block := Reindent(PrintBlockString(text, false), ind);
    PrintedText(text, ChooseFrame(text, false), ind);
    Associates(prefix, block, "\n");
    assert QUOTES <= block + "\n";
    SkipsWhite(prefix, block + "\n");
  }
}
