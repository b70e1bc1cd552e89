/** Escaping triple quotes, and lexing what was escaped. */
module BlockStringEscaping {
  import opened Wrappers
  import opened BlockStringParser
  import opened SchemaPrinter
  import opened BlockStringLines

  // ----- Lexing what was escaped

  /** The text does not end in a way that spoils closing quotes. */
  predicate SafeEnd(s: string) {
    s == "" || (s[|s| - 1] != '"' && s[|s| - 1] != '\\') || EndsWith(s, ESCAPED_QUOTES)
  }

  /** The closing quotes put after the escaped text cannot be misread. */
  predicate ClosesSafely(value: string) {
    SafeEnd(Escape(value))
  }

  lemma EscapeStartsNoQuotes(s: string)
    ensures !(QUOTES <= Escape(s))
    ensures |Escape(s)| >= 1 && Escape(s)[0] == '"' ==> |s| >= 1 && s[0] == '"' && Escape(s)[1..] == Escape(s[1..])
  {
    assert QUOTES[0] == '"' && ESCAPED_QUOTES[0] == '\\';
    if QUOTES <= s {
      assert Escape(s)[0] == ESCAPED_QUOTES[0];
    } else if s != "" {
      EscapeStartsTwoQuotes(s[1..]);
      assert Escape(s) == [s[0]] + Escape(s[1..]);
      assert |Escape(s)| >= 3 ==> Escape(s)[1] == Escape(s[1..])[0] && Escape(s)[2] == Escape(s[1..])[1];
      assert |s| >= 3 ==> s[1..][0] == s[1] && s[1..][1] == s[2];
    }
  }

  lemma EscapeStartsTwoQuotes(s: string)
    ensures |Escape(s)| >= 2 && Escape(s)[0] == '"' && Escape(s)[1] == '"' ==> |s| >= 2 && s[0] == '"' && s[1] == '"'
  {
    if s != "" && !(QUOTES <= s) {
      assert Escape(s) == [s[0]] + Escape(s[1..]);
    }
  }

  lemma SafeTail(value: string, k: nat)
    requires ClosesSafely(value) && value != ""
    requires k == (if QUOTES <= value then 3 else 1)
    ensures ClosesSafely(value[k..])
  {
    var e, f := Escape(value), Escape(value[k..]);
    assert e == (if k == 3 then ESCAPED_QUOTES else [value[0]]) + f;
    if f != "" {
      assert f[|f| - 1] == e[|e| - 1];
      if |f| >= 4 {
        assert f[|f| - 4..] == e[|e| - 4..];
      } else if k == 1 {
        EscapeStartsNoQuotes(value[1..]);
        assert e[1..] == f && ESCAPED_QUOTES[1..] == QUOTES;
        assert |f| == 3 ==> !(e == ESCAPED_QUOTES);
      } else {
        assert e[|e| - 4..][0] == e[|f|] == ESCAPED_QUOTES[|f|];
      }
    }
  }

  /** Lexing a text gives a raw value and the text after it, if the value is lexable at all. */
  predicate LexesTo(text: string, value: string, rest: string) {
    LexBlockBody(text) == if AllSource(value) then Some((value, rest)) else None
  }

  lemma LexQuotes(text: string, value: string, rest: string)
    requires LexesTo(text, value, rest)
    ensures LexesTo(ESCAPED_QUOTES + text, QUOTES + value, rest)
  {
    assert (ESCAPED_QUOTES + text)[4..] == text;
    SourceTail(QUOTES + value, 3);
    assert (QUOTES + value)[..3] == QUOTES && (QUOTES + value)[3..] == value;
  }

  lemma LexPlain(c: char, text: string, value: string, rest: string)
    requires !(ESCAPED_QUOTES <= [c] + text) && !(QUOTES <= [c] + text)
    requires LexesTo(text, value, rest)
    ensures LexesTo([c] + text, [c] + value, rest)
  {
    assert ([c] + text)[1..] == text;
    SourceTail([c] + value, 1);
    assert ([c] + value)[..1] == [c] && ([c] + value)[1..] == value;
  }

  lemma LexClosing(rest: string)
    ensures LexesTo(QUOTES + rest, "", rest)
  {
    assert (QUOTES + rest)[3..] == rest && (QUOTES + rest)[0] == QUOTES[0] != ESCAPED_QUOTES[0];
  }

  lemma {:induction false} EscapeStep(value: string, tail: string)
    requires value != ""
    ensures !(QUOTES <= value) ==> Escape(value) + tail == [value[0]] + (Escape(value[1..]) + tail)
    ensures QUOTES <= value ==> Escape(value) + tail == ESCAPED_QUOTES + (Escape(value[3..]) + tail)
  {
    if QUOTES <= value {
      Associates(ESCAPED_QUOTES, Escape(value[3..]), tail);
    } else {
      Associates([value[0]], Escape(value[1..]), tail);
    }
  }

  lemma LexEscapedStep(value: string, text: string, rest: string)
    requires ClosesSafely(value) && value != "" && !(QUOTES <= value)
    requires text == Escape(value[1..]) + (QUOTES + rest) && LexesTo(text, value[1..], rest)
    ensures LexesTo([value[0]] + text, value, rest)
  {
    EscapeStep(value, QUOTES + rest);
    NoFalseQuotes(value, QUOTES + rest);
    LexPlain(value[0], text, value[1..], rest);
    assert value == [value[0]] + value[1..];
  }

  /** The lexer gives back what was escaped and stops at the quotes put after it. */
  lemma {:induction false} LexEscaped(value: string, rest: string)
    requires ClosesSafely(value)
    ensures LexesTo(Escape(value) + (QUOTES + rest), value, rest)
    decreases |value|
  {
    if value == "" {
      LexClosing(rest);
      assert Escape(value) + (QUOTES + rest) == QUOTES + rest;
    } else {
      var k := if QUOTES <= value then 3 else 1;
      var tail := value[k..];
      var text := Escape(tail) + (QUOTES + rest);
      SafeTail(value, k);
      LexEscaped(tail, rest);
      EscapeStep(value, QUOTES + rest);
      if k == 3 {
        LexQuotes(text, tail, rest);
        assert value == QUOTES + tail;
      } else {
        LexEscapedStep(value, text, rest);
      }
    }
  }

  lemma SourceTail(s: string, k: nat)
    requires k <= |s|
    ensures AllSource(s) <==> AllSource(s[..k]) && AllSource(s[k..])
  {
    if AllSource(s[..k]) && AllSource(s[k..]) {
      forall i | 0 <= i < |s| ensures IsSourceCharacter(s[i]) {
        assert s[i] == if i < k then s[..k][i] else s[k..][i - k];
      }
    }
  }

  lemma PrefixKept(p: string, e: string, tail: string)
    requires |p| <= |e|
    ensures p <= e + tail <==> p <= e
  {
    assert (e + tail)[..|p|] == e[..|p|];
  }

  lemma LastOfPrefix(p: string, e: string, tail: string)
    requires 1 <= |e| <= |p| && p <= e + tail
    ensures e[|e| - 1] == p[|e| - 1]
  {
    assert p[|e| - 1] == (e + tail)[|e| - 1];
  }

  lemma EscapeStartsNoEscape(value: string)
    requires value != "" && !(QUOTES <= value)
    ensures !(ESCAPED_QUOTES <= Escape(value))
  {
    EscapeStartsNoQuotes(value[1..]);
    EscapedHasQuotes(value[0], Escape(value[1..]));
  }

  lemma EscapedHasQuotes(c: char, s: string)
    ensures ESCAPED_QUOTES <= [c] + s ==> QUOTES <= s
  {
    if ESCAPED_QUOTES <= [c] + s {
      assert ([c] + s)[1..][..3] == ESCAPED_QUOTES[1..] == QUOTES;
    }
  }

  /** Neither quotes nor escaped quotes start where an ordinary character stands. */
  lemma NoFalseQuotes(value: string, tail: string)
    requires ClosesSafely(value) && value != "" && !(QUOTES <= value)
    ensures !(QUOTES <= Escape(value) + tail)
    ensures !(ESCAPED_QUOTES <= Escape(value) + tail)
  {
    var e := Escape(value);
    EscapeStartsNoQuotes(value);
    EscapeStartsNoEscape(value);
    assert e != "";
    if |e| >= 4 {
      PrefixKept(QUOTES, e, tail);
      PrefixKept(ESCAPED_QUOTES, e, tail);
    } else {
      ShortIsSafe(e, tail);
    }
  }

  lemma ShortIsSafe(e: string, tail: string)
    requires 1 <= |e| <= 3 && e[|e| - 1] != '"' && e[|e| - 1] != '\\'
    ensures !(QUOTES <= e + tail) && !(ESCAPED_QUOTES <= e + tail)
  {
    if QUOTES <= e + tail {
      LastOfPrefix(QUOTES, e, tail);
    } else if ESCAPED_QUOTES <= e + tail {
      LastOfPrefix(ESCAPED_QUOTES, e, tail);
    }
  }

  // ----- Escaping and indenting commute

  lemma QuotesInFront(a: string, b: string)
    requires '"' !in b
    ensures QUOTES <= a + b <==> QUOTES <= a
  {
    if |a| >= 3 {
      PrefixKept(QUOTES, a, b);
    } else if QUOTES <= a + b {
      ThirdQuote(a, b);
    }
  }

  lemma ThirdQuote(a: string, b: string)
    requires |a| < 3 && QUOTES <= a + b
    ensures '"' in b
  {
    assert QUOTES[2] == (a + b)[2] == b[2 - |a|];
  }

  lemma {:induction false} EscapeAppend(a: string, b: string)
    requires '"' !in b
    ensures Escape(a + b) == Escape(a) + b
    decreases |a|
  {
    QuotesInFront(a, b);
    if a == "" {
      assert a + b == b;
      EscapePrepend(b, "");
      assert b + "" == b;
    } else if QUOTES <= a {
      assert (a + b)[3..] == a[3..] + b;
      EscapeAppend(a[3..], b);
    } else {
      assert (a + b)[0] == a[0] && (a + b)[1..] == a[1..] + b;
      EscapeAppend(a[1..], b);
    }
  }

  lemma {:induction false} EscapePrepend(a: string, b: string)
    requires '"' !in a
    ensures Escape(a + b) == a + Escape(b)
  {
    if a == "" {
      assert a + b == b;
    } else {
      assert (a + b)[0] == a[0] && a[0] in a;
      assert (a + b)[1..] == a[1..] + b;
      EscapePrepend(a[1..], b);
      assert [a[0]] + (a[1..] + Escape(b)) == a + Escape(b);
    }
  }

  lemma EscapeReindentQuotes(tail: string, ind: string)
    requires Escape(Reindent(tail, ind)) == Reindent(Escape(tail), ind)
    ensures Escape(Reindent(QUOTES + tail, ind)) == Reindent(ESCAPED_QUOTES + Escape(tail), ind)
  {
    ReindentConcat(QUOTES, tail, ind);
    ReindentConcat(ESCAPED_QUOTES, Escape(tail), ind);
    ReindentKeeps(QUOTES, ind);
    ReindentKeeps(ESCAPED_QUOTES, ind);
    assert (QUOTES + Reindent(tail, ind))[3..] == Reindent(tail, ind);
  }

  lemma QuoteInFront(s: string)
    ensures QUOTES <= ['"'] + s <==> "\"\"" <= s
  {
    assert (['"'] + s)[1..] == s && QUOTES[1..] == "\"\"";
    if "\"\"" <= s {
      assert QUOTES == (['"'] + s)[..3];
    }
  }

  lemma EscapeReindentPlain(c: char, tail: string, ind: string)
    requires AllWhite(ind) && !(QUOTES <= [c] + tail)
    requires Escape(Reindent(tail, ind)) == Reindent(Escape(tail), ind)
    ensures Escape(Reindent([c] + tail, ind)) == Reindent([c] + Escape(tail), ind)
  {
    var r := Reindent(tail, ind);
    var front := if c == '\n' then "\n" + ind else [c];
    ReindentOne(c, ind);
    ReindentConcat([c], tail, ind);
    ReindentConcat([c], Escape(tail), ind);
    if c == '"' {
      ReindentTwoQuotes(tail, ind);
      QuoteInFront(r);
      QuoteInFront(tail);
      assert ([c] + r)[1..] == r;
    } else {
      EscapePrepend(front, r);
    }
  }

  lemma {:induction false} EscapeReindent(s: string, ind: string)
    requires AllWhite(ind)
    ensures Escape(Reindent(s, ind)) == Reindent(Escape(s), ind)
    decreases |s|
  {
    if QUOTES <= s {
      assert s == QUOTES + s[3..];
      EscapeReindent(s[3..], ind);
      EscapeReindentQuotes(s[3..], ind);
    } else if s != "" {
      assert s == [s[0]] + s[1..];
      EscapeReindent(s[1..], ind);
      EscapeReindentPlain(s[0], s[1..], ind);
    }
  }

  lemma ReindentHead(s: string, ind: string)
    requires s != ""
    ensures Reindent(s, ind) != "" && Reindent(s, ind)[0] == s[0]
  {
  }

  lemma ReindentTwoQuotes(s: string, ind: string)
    ensures "\"\"" <= Reindent(s, ind) ==> "\"\"" <= s
  {
    if s != "" {
      ReindentHead(s, ind);
      if |s| > 1 {
        ReindentHead(s[1..], ind);
      }
    }
  }

  /** What stands between the quotes of a printed and indented block string. */
  function Framed(value: string, frame: Frame, ind: string): string {
    Reindent(frame.before + value + frame.after, ind)
  }

  /** A line break or nothing. */
  predicate IsBreak(s: string) {
    s == "" || s == "\n"
  }

  lemma EscapeFramed(value: string, f: Frame)
    requires IsBreak(f.before) && IsBreak(f.after)
    ensures f.before + Escape(value) + f.after == Escape(f.before + value + f.after)
  {
    EscapePrepend(f.before, value);
    EscapeAppend(f.before + value, f.after);
  }

  lemma ReindentQuoted(body: string, ind: string)
    ensures Reindent(QUOTES + (body + QUOTES), ind) == QUOTES + (Reindent(body, ind) + QUOTES)
  {
    ReindentConcat(QUOTES, body + QUOTES, ind);
    ReindentConcat(body, QUOTES, ind);
    ReindentKeeps(QUOTES, ind);
  }

  lemma PrintedFrame(value: string, f: Frame)
    ensures PrintFramed(value, f) == QUOTES + ((f.before + Escape(value) + f.after) + QUOTES)
  {
    var e := Escape(value);
    Associates(QUOTES, f.before, e);
    Associates(QUOTES, f.before + e, f.after);
    Associates(QUOTES, f.before + e + f.after, QUOTES);
  }

  lemma PrintedText(value: string, f: Frame, ind: string)
    requires AllWhite(ind) && IsBreak(f.before) && IsBreak(f.after)
    ensures Reindent(PrintFramed(value, f), ind) == QUOTES + (Escape(Framed(value, f, ind)) + QUOTES)
  {
    PrintedFrame(value, f);
    EscapeFramed(value, f);
    ReindentQuoted(Escape(f.before + value + f.after), ind);
    EscapeReindent(f.before + value + f.after, ind);
  }

  /** Without a break after it, the value must not end in a way that spoils the closing quotes. */
  predicate SafeFrame(value: string, f: Frame) {
    f.after == "\n" || (!EndsWith(value, "\\") && (EndsWith(value, "\"") ==> EndsWith(Escape(value), ESCAPED_QUOTES)))
  }

  lemma ChosenFrameIsSafe(value: string, minimize: bool)
    ensures SafeFrame(value, ChooseFrame(value, minimize))
  {
  }

  lemma FramedClosesSafely(value: string, f: Frame, ind: string)
    requires AllWhite(ind) && IsBreak(f.before) && IsBreak(f.after) && SafeFrame(value, f)
    ensures ClosesSafely(Framed(value, f, ind))
  {
    var front := f.before + value;
    ReindentConcat(front, f.after, ind);
    assert Reindent("\n", ind) == "\n" + ind;
    if f.after == "\n" {
      EscapeAppend(Reindent(front, ind), "\n" + ind);
    } else {
      assert front + f.after == front;
      EscapeReindent(front, ind);
      EscapePrepend(f.before, value);
      SafeEnding(f.before, value, ind);
    }
  }

  lemma ReindentOne(c: char, ind: string)
    ensures Reindent([c], ind) == if c == '\n' then "\n" + ind else [c]
  {
    var z := if c == '\n' then "\n" + ind else [c];
    assert [c][1..] == "" && z + "" == z;
  }

  lemma LastOfConcat(y: string, z: string)
    requires z != ""
    ensures y + z != "" && (y + z)[|y + z| - 1] == z[|z| - 1]
  {
  }

  lemma ReindentLast(y: string, c: char, ind: string)
    requires AllWhite(ind) && c != '"' && c != '\\'
    ensures
      var r := Reindent(y + [c], ind);
      r != "" && r[|r| - 1] != '"' && r[|r| - 1] != '\\'
  {
    ReindentConcat(y, [c], ind);
    ReindentOne(c, ind);
    var z := if c == '\n' then "\n" + ind else [c];
    LastOfConcat(Reindent(y, ind), z);
    if z[|z| - 1] != c {
      assert z[|z| - 1] == ind[|ind| - 1] && IsWhite(ind[|ind| - 1]);
    }
  }

  lemma ReindentEscapedEnd(y: string, ind: string)
    ensures EndsWith(Reindent(y + ESCAPED_QUOTES, ind), ESCAPED_QUOTES)
  {
    ReindentConcat(y, ESCAPED_QUOTES, ind);
    ReindentKeeps(ESCAPED_QUOTES, ind);
  }

  lemma ReindentEscapedKeepsEnd(before: string, e: string, ind: string)
    requires EndsWith(e, ESCAPED_QUOTES)
    ensures SafeEnd(Reindent(before + e, ind))
  {
    var y := e[..|e| - 4];
    assert e == y + ESCAPED_QUOTES;
    Associates(before, y, ESCAPED_QUOTES);
    ReindentEscapedEnd(before + y, ind);
  }

  lemma ReindentOrdinaryKeepsEnd(before: string, e: string, ind: string)
    requires AllWhite(ind) && e != "" && e[|e| - 1] != '"' && e[|e| - 1] != '\\'
    ensures SafeEnd(Reindent(before + e, ind))
  {
    var y, c := e[..|e| - 1], e[|e| - 1];
    assert e == y + [c];
    Associates(before, y, [c]);
    ReindentLast(before + y, c, ind);
  }

  lemma ReindentBreakKeepsEnd(before: string, ind: string)
    requires AllWhite(ind) && IsBreak(before)
    ensures SafeEnd(Reindent(before + "", ind))
  {
    assert before + "" == before;
    if before != "" {
      ReindentOrdinaryKeepsEnd("", before, ind);
      assert "" + before == before;
    }
  }

  lemma SafeEnding(before: string, value: string, ind: string)
    requires AllWhite(ind) && IsBreak(before) && SafeFrame(value, Frame(before, ""))
    ensures SafeEnd(Reindent(before + Escape(value), ind))
  {
    var e := Escape(value);
    if e == "" {
      ReindentBreakKeepsEnd(before, ind);
    } else if EndsWith(e, ESCAPED_QUOTES) {
      ReindentEscapedKeepsEnd(before, e, ind);
    } else {
      EscapeOrdinaryLast(value);
      ReindentOrdinaryKeepsEnd(before, e, ind);
    }
  }

  lemma EscapeOrdinaryLast(value: string)
    requires Escape(value) != "" && !EndsWith(Escape(value), ESCAPED_QUOTES) && SafeFrame(value, Frame("", ""))
    ensures Escape(value)[|Escape(value)| - 1] != '"' && Escape(value)[|Escape(value)| - 1] != '\\'
  {
    EscapeLast(value);
    assert value[|value| - 1..] == [value[|value| - 1]];
  }

  /** The last character is kept, unless it was escaped. */
  predicate KeepsLast(s: string, e: string) {
    s != "" && e != "" && (!EndsWith(e, ESCAPED_QUOTES) ==> e[|e| - 1] == s[|s| - 1])
  }

  lemma KeepsLastBehind(a: string, s: string, b: string, e: string)
    requires KeepsLast(s, e)
    ensures KeepsLast(a + s, b + e)
  {
    EndOfTail(b, e);
    assert (a + s)[|a + s| - 1] == s[|s| - 1];
  }

  /** Escaping keeps the last character. */
  lemma {:induction false} EscapeKeepsEnd(s: string)
    requires s != ""
    ensures Escape(s) != "" && Escape(s)[|Escape(s)| - 1] == s[|s| - 1]
    decreases |s|
  {
    var k := if QUOTES <= s then 3 else 1;
    var front := if QUOTES <= s then ESCAPED_QUOTES else [s[0]];
    assert Escape(s) == front + Escape(s[k..]);
    assert front[|front| - 1] == s[k - 1];
    if s[k..] != "" {
      EscapeKeepsEnd(s[k..]);
    }
  }

  lemma {:induction false} EscapeLast(s: string)
    requires s != ""
    ensures KeepsLast(s, Escape(s))
    decreases |s|
  {
    var k := if QUOTES <= s then 3 else 1;
    var front := if QUOTES <= s then ESCAPED_QUOTES else [s[0]];
    assert Escape(s) == front + Escape(s[k..]);
    if s[k..] == "" {
      assert front + "" == front;
    } else {
      EscapeLast(s[k..]);
      KeepsLastBehind(s[..k], s[k..], front, Escape(s[k..]));
      assert s == s[..k] + s[k..];
    }
  }

  lemma EndOfTail(a: string, b: string)
    requires b != ""
    ensures (a + b)[|a + b| - 1] == b[|b| - 1]
    ensures EndsWith(b, ESCAPED_QUOTES) ==> EndsWith(a + b, ESCAPED_QUOTES)
  {
    if EndsWith(b, ESCAPED_QUOTES) {
      assert (a + b)[|a + b| - 4..] == b[|b| - 4..];
    }
  }
}
