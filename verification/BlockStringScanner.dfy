/** The character scanner of saleor/graphql/schema_printer.py, and what it accepts. */
module BlockStringScanner {
  import opened Wrappers
  import opened BlockStringParser
  import opened SchemaPrinter
  import opened BlockStringLines
  import opened BlockStringEscaping
  import opened BlockStringRoundTrip

  function Last(lines: seq<string>): string
    requires lines != []
  {
    lines[|lines| - 1]
  }

  predicate NoneForbidden(s: string) {
    forall i :: 0 <= i < |s| ==> !IsForbidden(s[i])
  }

  predicate AllIndented(lines: seq<string>) {
    forall i :: 0 <= i < |lines| && !Blank(lines[i]) ==> Indent(lines[i]) > 0
  }

  lemma {:induction false} ExtendLine(line: string, c: char)
    ensures Blank(line + [c]) <==> Blank(line) && IsWhite(c)
    ensures Indent(line + [c]) == if Blank(line) && IsWhite(c) then |line| + 1 else Indent(line)
  {
    if line == "" {
      assert line + [c] == [c] && [c][1..] == "";
    } else {
      assert (line + [c])[1..] == line[1..] + [c];
      ExtendLine(line[1..], c);
    }
  }

  /** The four flags of the scanner say what they should about the lines read so far. */
  predicate FlagsAgree(seen: string, isEmptyLine: bool, hasIndent: bool, hasCommonIndent: bool,
                       seenNonEmptyLine: bool) {
    var lines := SplitLines(seen);
    && NoneForbidden(seen)
    && (isEmptyLine <==> Blank(Last(lines)))
    && (hasIndent <==> Indent(Last(lines)) > 0)
    && (hasCommonIndent <==> AllIndented(lines))
    && (seenNonEmptyLine <==> |lines| > 1)
    && (|lines| > 1 ==> !Blank(lines[0]))
  }

  lemma NoReturnIfAllowed(s: string)
    requires NoneForbidden(s)
    ensures NoReturn(s)
  {
    assert IsForbidden('\r');
  }

  lemma FlagsAfterBreak(seen: string, isEmptyLine: bool, hasIndent: bool, hasCommonIndent: bool, seenNonEmptyLine: bool)
    requires FlagsAgree(seen, isEmptyLine, hasIndent, hasCommonIndent, seenNonEmptyLine)
    requires !(isEmptyLine && !seenNonEmptyLine)
    ensures FlagsAgree(seen + "\n", true, false, hasCommonIndent, true)
  {
    NoReturnIfAllowed(seen);
    SplitNewLine(seen);
    var lines := SplitLines(seen);
    assert forall i :: 0 <= i < |lines| ==> (lines + [""])[i] == lines[i];
    assert AllIndented(lines) ==> AllIndented(lines + [""]);
  }

  lemma FlagsAfterChar(seen: string, c: char, isEmptyLine: bool, hasIndent: bool, hasCommonIndent: bool,
                       seenNonEmptyLine: bool)
    requires FlagsAgree(seen, isEmptyLine, hasIndent, hasCommonIndent, seenNonEmptyLine)
    requires c != '\n' && !IsForbidden(c)
    ensures IsWhite(c) ==>
        FlagsAgree(seen + [c], isEmptyLine, hasIndent || isEmptyLine, hasCommonIndent, seenNonEmptyLine)
    ensures !IsWhite(c) ==> FlagsAgree(seen + [c], false, hasIndent, hasCommonIndent && hasIndent, seenNonEmptyLine)
  {
    NoReturnIfAllowed(seen);
    SplitSnoc(seen, c);
    var lines, now := SplitLines(seen), SplitLines(seen + [c]);
    var k := |lines| - 1;
    ExtendLine(lines[k], c);
    assert forall i :: 0 <= i < k ==> now[i] == lines[i];
    assert AllIndented(now) <==> (forall i :: 0 <= i < k && !Blank(lines[i]) ==> Indent(lines[i]) > 0)
                                 && (!Blank(now[k]) ==> Indent(now[k]) > 0);
  }

  lemma LeadingBreakIsRefused(value: string, i: nat)
    requires i < |value| && value[i] == '\n' && NoneForbidden(value[..i])
    requires |SplitLines(value[..i])| == 1 && Blank(SplitLines(value[..i])[0])
    ensures !BlockPrintable(value)
  {
    var seen, rest := value[..i], value[i + 1..];
    NoReturnIfAllowed(seen);
    SplitConcat(seen, rest);
    assert value == seen + ("\n" + rest);
  }

  lemma ForbiddenIsRefused(value: string, i: nat)
    requires i < |value| && IsForbidden(value[i])
    ensures !BlockPrintable(value)
  {
  }

  lemma FlagsDecide(value: string, isEmptyLine: bool, hasIndent: bool, hasCommonIndent: bool, seenNonEmptyLine: bool)
    requires value != "" && FlagsAgree(value, isEmptyLine, hasIndent, hasCommonIndent, seenNonEmptyLine)
    ensures BlockPrintable(value) <==> !isEmptyLine && !(hasCommonIndent && seenNonEmptyLine)
  {
    assert AllIndented(SplitLines(value)) <==> !HasUnindentedLine(SplitLines(value));
  }

  /** The scanner accepts exactly the strings that are printable in the sense of their lines. */
  method IsPrintableAsBlockString(value: string) returns (printable: bool)
    ensures printable <==> BlockPrintable(value)
  {
    if value == "" {
      return true;
    }
    var isEmptyLine, hasIndent, hasCommonIndent, seenNonEmptyLine := true, false, true, false;
    for i := 0 to |value|
      invariant FlagsAgree(value[..i], isEmptyLine, hasIndent, hasCommonIndent, seenNonEmptyLine)
    {
      var c := value[i];
      assert value[..i + 1] == value[..i] + [c];
      if c == '\n' {
        if isEmptyLine && !seenNonEmptyLine {
          LeadingBreakIsRefused(value, i);
          return false;
        }
        FlagsAfterBreak(value[..i], isEmptyLine, hasIndent, hasCommonIndent, seenNonEmptyLine);
        seenNonEmptyLine, isEmptyLine, hasIndent := true, true, false;
      } else if IsWhite(c) {
        FlagsAfterChar(value[..i], c, isEmptyLine, hasIndent, hasCommonIndent, seenNonEmptyLine);
        hasIndent := hasIndent || isEmptyLine;
      } else if c <= '\U{0F}' {
        ForbiddenIsRefused(value, i);
        return false;
      } else {
        FlagsAfterChar(value[..i], c, isEmptyLine, hasIndent, hasCommonIndent, seenNonEmptyLine);
        hasCommonIndent := hasCommonIndent && hasIndent;
        isEmptyLine := false;
      }
    }
    assert value[..|value|] == value;
    FlagsDecide(value, isEmptyLine, hasIndent, hasCommonIndent, seenNonEmptyLine);
    if isEmptyLine {
      return false;
    }
    if hasCommonIndent && seenNonEmptyLine {
      return false;
    }
    return true;
  }

  // ----- The scanner refuses nothing that a block string could say

  /** Lines without line breaks and with allowed characters only. */
  predicate CleanLines(lines: seq<string>) {
    forall i :: 0 <= i < |lines| ==> NoneForbidden(lines[i]) && '\n' !in lines[i]
  }

  lemma {:induction false} SplitIsClean(raw: string)
    requires AllSource(raw)
    ensures CleanLines(SplitLines(raw))
    decreases |raw|
  {
    if raw != "" {
      var k := if raw[0] == '\r' && |raw| > 1 && raw[1] == '\n' then 2 else 1;
      SourceTail(raw, k);
      SplitIsClean(raw[k..]);
      assert IsSourceCharacter(raw[0]);
    }
  }

  lemma {:induction false} SplitJoin(lines: seq<string>)
    requires lines != [] && CleanLines(lines)
    ensures NoneForbidden(JoinLines(lines)) && SplitLines(JoinLines(lines)) == lines
  {
    NoReturnIfAllowed(lines[0]);
    SplitSingle(lines[0]);
    if |lines| > 1 {
      SplitJoin(lines[1..]);
      SplitConcat(lines[0], JoinLines(lines[1..]));
      Associates(lines[0], "\n", JoinLines(lines[1..]));
    }
  }

  /** Trimming keeps every line that is not blank. */
  lemma {:induction false} TrimmedSlice(lines: seq<string>) returns (a: nat, b: nat)
    ensures a <= b <= |lines| && DropTrailingBlank(DropLeadingBlank(lines)) == lines[a..b]
    ensures forall i :: 0 <= i < |lines| && !Blank(lines[i]) ==> a <= i < b
    ensures a < b ==> !Blank(lines[a]) && !Blank(lines[b - 1])
    decreases |lines|
  {
    if lines == [] {
      a, b := 0, 0;
    } else if Blank(lines[0]) {
      a, b := TrimmedSlice(lines[1..]);
      a, b := a + 1, b + 1;
      assert lines[1..][a - 1..b - 1] == lines[a..b];
      assert forall i :: 1 <= i < |lines| ==> lines[i] == lines[1..][i - 1];
    } else {
      a := 0;
      b := TrimmedBack(lines);
    }
  }

  lemma {:induction false} TrimmedBack(lines: seq<string>) returns (b: nat)
    requires lines != [] && !Blank(lines[0])
    ensures 0 < b <= |lines| && DropTrailingBlank(lines) == lines[..b]
    ensures (forall i :: b <= i < |lines| ==> Blank(lines[i])) && !Blank(lines[b - 1])
    decreases |lines|
  {
    b := |lines|;
    if Blank(lines[b - 1]) {
      var front := lines[..b - 1];
      b := TrimmedBack(front);
      assert front[..b] == lines[..b];
      assert forall i :: 0 <= i < |front| ==> front[i] == lines[i];
    }
  }

  lemma UnindentedAreClean(lines: seq<string>)
    requires lines != [] && CleanLines(lines)
    ensures CleanLines(UnindentCommon(lines)) && |UnindentCommon(lines)| == |lines|
  {
    var u := UnindentCommon(lines);
    forall i | 0 <= i < |u| ensures NoneForbidden(u[i]) && '\n' !in u[i] {
      assert u[i] == lines[i] || exists k :: 0 <= k <= |lines[i]| && u[i] == lines[i][k..] by {
        if i > 0 && CommonIndent(lines[1..]).Some? {
          assert lines[1..][i - 1] == lines[i];
          UnindentAllAt(lines[1..], CommonIndent(lines[1..]).value, i - 1);
        }
        assert lines[i][|lines[i]|..] == "";
      }
    }
  }

  lemma {:induction false} IndentOfUnindented(line: string, n: nat)
    requires n <= Indent(line)
    ensures Indent(Unindent(line, n)) == Indent(line) - n
  {
    if n > 0 {
      IndentOfUnindented(line[1..], n - 1);
      assert Unindent(line, n) == Unindent(line[1..], n - 1);
    }
  }

  /** After the common indent is gone, a line below the first that is not blank starts at the margin,
      if any line below the first is not blank. */
  lemma MarginLine(lines: seq<string>, k: nat) returns (j: nat)
    requires 1 <= k < |lines| && |UnindentCommon(lines)| == |lines| && !Blank(UnindentCommon(lines)[k])
    ensures 1 <= j < |lines| && !Blank(UnindentCommon(lines)[j]) && Indent(UnindentCommon(lines)[j]) == 0
  {
    var others := lines[1..];
    CommonIndentIsLeast(others);
    var n := CommonIndent(others).value;
    var m :| 0 <= m < |others| && !Blank(others[m]) && Indent(others[m]) == n;
    j := m + 1;
    UnindentAllAt(others, n, m);
    assert UnindentCommon(lines)[j] == Unindent(others[m], n);
    IndentOfUnindented(others[m], n);
    UnindentNonBlank(others[m], n);
  }

  lemma {:induction false} JoinedIsPrintable(lines: seq<string>)
    requires lines != [] && CleanLines(lines) && !Blank(lines[0]) && !Blank(Last(lines))
    requires |lines| > 1 ==> HasUnindentedLine(lines)
    ensures BlockPrintable(JoinLines(lines))
  {
    SplitJoin(lines);
  }

  /** Whatever a block string of source characters says, the scanner accepts it. */
  lemma EveryValueIsAccepted(raw: string)
    requires AllSource(raw)
    ensures BlockPrintable(BlockStringValue(raw))
  {
    var lines := SplitLines(raw);
    var u := UnindentCommon(lines);
    SplitIsClean(raw);
    UnindentedAreClean(lines);
    var a, b := TrimmedSlice(u);
    if a < b {
      var kept := u[a..b];
      assert CleanLines(kept) by {
        assert forall i :: 0 <= i < |kept| ==> kept[i] == u[a + i];
      }
      assert kept[0] == u[a] && Last(kept) == u[b - 1];
      if |kept| > 1 {
        var j := MarginLine(lines, b - 1);
        assert kept[j - a] == u[j];
      }
      JoinedIsPrintable(kept);
    }
  }

  /** And whatever it accepts, if it is made of source characters, some block string says. */
  lemma EveryAcceptedIsAValue(value: string) returns (raw: string)
    requires BlockPrintable(value) && AllSource(value)
    ensures AllSource(raw) && BlockStringValue(raw) == value
  {
    if value == "" {
      raw := "";
    } else {
      var f := Frame(if |SplitLines(value)| == 1 then "" else "\n", "");
      raw := Framed(value, f, "");
      FramedValueKept(value, f, "");
      FramedSource(value, f, "");
    }
  }

  predicate IsBlockStringValue(value: string, raw: string) {
    AllSource(raw) && BlockStringValue(raw) == value
  }

  /** The scanner accepts a source text exactly when some block string has it as its value: what it sends
      to the quoted form could not have been printed as a block string at all. */
  lemma AcceptsExactlyTheValues(value: string)
    requires AllSource(value)
    ensures BlockPrintable(value) <==> exists raw :: IsBlockStringValue(value, raw)
  {
    if BlockPrintable(value) {
      var raw := EveryAcceptedIsAValue(value);
      assert IsBlockStringValue(value, raw);
    }
    forall raw | IsBlockStringValue(value, raw) ensures BlockPrintable(value) {
      EveryValueIsAccepted(raw);
    }
  }

  // ----- The line breaks only Python knows

  /** A leading blank is lost: Python sees two lines, puts a break first, and GraphQL then measures the
      one line it sees. */
  lemma {:induction false} ForeignBreakLosesIndent()
    ensures var value := " a\U{2028}b";
            && BlockPrintable(value) && AllSource(value)
            && ReadBlockString(PrintBlockString(value, false)) != Some((value, ""))
  {
    var value := " a\U{2028}b";
    ForeignIsAccepted();
    ForeignGetsBreak();
    PrintThenRead(value, false, "", "");
    ReindentNothing(PrintBlockString(value, false));
    assert PrintBlockString(value, false) + "" == PrintBlockString(value, false);
  }

  lemma ForeignIsAccepted()
    ensures BlockPrintable(" a\U{2028}b") && AllSource(" a\U{2028}b")
  {
    var value := " a\U{2028}b";
    OnlyPythonSplits();
    forall i | 0 <= i < |value| ensures !IsForbidden(value[i]) && IsSourceCharacter(value[i]) {
      assert value[i] in {' ', 'a', '\U{2028}', 'b'};
    }
    BlankIsWhite(value);
    assert !IsWhite(value[1]);
  }

  lemma ForeignGetsBreak()
    ensures !KeepsIndent(" a\U{2028}b", ChooseFrame(" a\U{2028}b", false).before)
  {
    var value := " a\U{2028}b";
    OnlyPythonSplits();
    assert ChooseFrame(value, false).before == "\n";
    assert !HasUnindentedLine([value]);
  }

  lemma OnlyPythonSplits()
    ensures
      var value := " a\U{2028}b";
      SplitLines(value) == [value] && Indent(value) == 1 && Escape(value) == value && |PythonLines(value)| == 2
  {
    var value := " a\U{2028}b";
    assert value[1..] == "a\U{2028}b" && value[2..] == "\U{2028}b" && value[3..] == "b" && value[4..] == "";
    assert SplitLines(value) == [value] by {
      NoReturnIfAllowed(value);
      SplitSingle(value);
    }
    assert Indent(value) == 1 by {
      assert Indent(value[1..]) == 0;
    }
    assert Escape(value) == value by {
      EscapePrepend(value, "");
      assert value + "" == value;
    }
    assert |PythonLines(value)| == 2 by {
      assert PythonLines("b") == ["b"];
      assert PythonLines("\U{2028}b") == [""] + ["b"] by { assert "\U{2028}b"[1..] == "b"; }
      assert PythonLines("a\U{2028}b") == [['a'] + ""] + ["b"] by { assert "a\U{2028}b"[1..] == "\U{2028}b"; }
    }
  }
}
