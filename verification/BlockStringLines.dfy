/** Lemmas about lines, indents and escaping that the round-trip theorems rest on. */
module BlockStringLines {
  import opened Wrappers
  import opened BlockStringParser
  import opened SchemaPrinter

  lemma Associates<T>(a: seq<T>, b: seq<T>, c: seq<T>)
    ensures a + (b + c) == (a + b) + c
  {
  }

  // ----- Splitting into lines

  predicate NoReturn(s: string) {
    '\r' !in s
  }

  /** The lines with one more character at the start of the first. */
  function WithFirst(c: char, lines: seq<string>): seq<string>
    requires lines != []
  {
    [[c] + lines[0]] + lines[1..]
  }

  lemma FirstOfConcat(c: char, a: seq<string>, b: seq<string>)
    requires a != []
    ensures WithFirst(c, a + b) == WithFirst(c, a) + b
  {
  }

  lemma {:induction false} SplitConcat(a: string, b: string)
    requires NoReturn(a)
    ensures SplitLines(a + ("\n" + b)) == SplitLines(a) + SplitLines(b)
  {
    if a == "" {
      assert a + ("\n" + b) == "\n" + b && ("\n" + b)[1..] == b;
    } else {
      var rest := a[1..] + ("\n" + b);
      assert (a + ("\n" + b))[0] == a[0] && (a + ("\n" + b))[1..] == rest;
      SplitConcat(a[1..], b);
      if a[0] == '\n' {
        Associates([""], SplitLines(a[1..]), SplitLines(b));
      } else {
        assert SplitLines(a) == WithFirst(a[0], SplitLines(a[1..]));
        FirstOfConcat(a[0], SplitLines(a[1..]), SplitLines(b));
      }
    }
  }

  /** The lines with one more character at the end of the last. */
  function WithLast(lines: seq<string>, c: char): seq<string>
    requires lines != []
  {
    lines[..|lines| - 1] + [lines[|lines| - 1] + [c]]
  }

  lemma WithLastBehind(line: string, lines: seq<string>, c: char)
    requires lines != []
    ensures WithLast([line] + lines, c) == [line] + WithLast(lines, c)
  {
  }

  lemma FirstAndLast(b: char, lines: seq<string>, c: char)
    requires lines != []
    ensures WithLast(WithFirst(b, lines), c) == WithFirst(b, WithLast(lines, c))
  {
    if |lines| == 1 {
      Associates([b], lines[0], [c]);
    }
  }

  lemma {:induction false} SplitSnoc(a: string, c: char)
    requires NoReturn(a) && c != '\n' && c != '\r'
    ensures SplitLines(a + [c]) == WithLast(SplitLines(a), c)
  {
    if a == "" {
      assert a + [c] == [c] && [c][1..] == "" && [c] + "" == [c] && "" + [c] == [c];
    } else {
      assert (a + [c])[0] == a[0] && (a + [c])[1..] == a[1..] + [c];
      SplitSnoc(a[1..], c);
      var lines := SplitLines(a[1..]);
      if a[0] == '\n' {
        WithLastBehind("", lines, c);
      } else {
        FirstAndLast(a[0], lines, c);
      }
    }
  }

  lemma {:induction false} SplitNewLine(a: string)
    requires NoReturn(a)
    ensures SplitLines(a + "\n") == SplitLines(a) + [""]
  {
    SplitConcat(a, "");
    assert "\n" + "" == "\n";
  }

  lemma {:induction false} SplitSingle(line: string)
    requires NoReturn(line) && '\n' !in line
    ensures SplitLines(line) == [line]
  {
    if line != "" {
      SplitSingle(line[1..]);
      assert [line[0]] + line[1..] == line;
    }
  }

  lemma JoinWithFirst(c: char, lines: seq<string>)
    requires lines != []
    ensures JoinLines(WithFirst(c, lines)) == [c] + JoinLines(lines)
  {
    assert WithFirst(c, lines)[1..] == lines[1..];
    if |lines| > 1 {
      Associates([c], lines[0], "\n");
      Associates([c], lines[0] + "\n", JoinLines(lines[1..]));
    }
  }

  lemma {:induction false} JoinSplit(s: string)
    requires NoReturn(s)
    ensures JoinLines(SplitLines(s)) == s
  {
    if s != "" {
      var lines := SplitLines(s[1..]);
      JoinSplit(s[1..]);
      assert s == [s[0]] + s[1..];
      if s[0] == '\n' {
        assert ([""] + lines)[1..] == lines && "" + "\n" == "\n";
      } else {
        JoinWithFirst(s[0], lines);
      }
    }
  }

  // ----- Indentation

  predicate AllWhite(s: string) {
    forall i :: 0 <= i < |s| ==> IsWhite(s[i])
  }

  /** Every line but the first moved right by the indentation. */
  function IndentAll(lines: seq<string>, indentation: string): (r: seq<string>)
    ensures |r| == |lines|
  {
    if lines == [] then [] else [indentation + lines[0]] + IndentAll(lines[1..], indentation)
  }

  lemma {:induction false} IndentAllConcat(a: seq<string>, b: seq<string>, indentation: string)
    ensures IndentAll(a + b, indentation) == IndentAll(a, indentation) + IndentAll(b, indentation)
  {
    if a == [] {
      assert a + b == b;
    } else {
      assert (a + b)[1..] == a[1..] + b;
      IndentAllConcat(a[1..], b, indentation);
    }
  }

  lemma {:induction false} ReindentConcat(a: string, b: string, ind: string)
    ensures Reindent(a + b, ind) == Reindent(a, ind) + Reindent(b, ind)
  {
    if a == "" {
      assert a + b == b;
    } else {
      assert (a + b)[1..] == a[1..] + b;
      ReindentConcat(a[1..], b, ind);
    }
  }

  lemma {:induction false} ReindentNothing(s: string)
    ensures Reindent(s, "") == s
  {
    if s != "" {
      ReindentNothing(s[1..]);
    }
  }

  lemma {:induction false} ReindentKeeps(s: string, ind: string)
    requires '\n' !in s
    ensures Reindent(s, ind) == s
  {
    if s != "" {
      ReindentKeeps(s[1..], ind);
    }
  }

  lemma {:induction false} SplitWhitePrefix(ind: string, s: string)
    requires AllWhite(ind)
    ensures SplitLines(ind + s) == [ind + SplitLines(s)[0]] + SplitLines(s)[1..]
  {
    if ind == "" {
      assert ind + s == s && ind + SplitLines(s)[0] == SplitLines(s)[0];
    } else {
      assert (ind + s)[1..] == ind[1..] + s;
      SplitWhitePrefix(ind[1..], s);
      assert [ind[0]] + (ind[1..] + SplitLines(s)[0]) == ind + SplitLines(s)[0];
    }
  }

  lemma SplitCons(c: char, s: string)
    requires c != '\r'
    ensures SplitLines([c] + s)
            == if c == '\n' then [""] + SplitLines(s) else [[c] + SplitLines(s)[0]] + SplitLines(s)[1..]
  {
    assert ([c] + s)[1..] == s;
  }

  lemma TwoInFront<T>(a: T, b: T, rest: seq<T>)
    ensures [a, b] + rest == [a] + ([b] + rest)
  {
  }

  lemma HeadAndTail<T>(all: seq<T>, head: T, tail: seq<T>)
    requires all == [head] + tail
    ensures all[0] == head && all[1..] == tail
  {
  }

  lemma SplitReindentBreak(lines: seq<string>, moved: string, ind: string)
    requires AllWhite(ind) && lines != [] && SplitLines(moved) == [lines[0]] + IndentAll(lines[1..], ind)
    ensures SplitLines("\n" + (ind + moved)) == [""] + IndentAll(lines, ind)
  {
    SplitAfterBreak(ind, moved);
    HeadAndTail(SplitLines(moved), lines[0], IndentAll(lines[1..], ind));
    TwoInFront("", ind + lines[0], IndentAll(lines[1..], ind));
  }

  lemma SplitReindentPlain(c: char, lines: seq<string>, moved: string, ind: string)
    requires c != '\n' && c != '\r' && lines != [] && SplitLines(moved) == [lines[0]] + IndentAll(lines[1..], ind)
    ensures SplitLines([c] + moved) == [[c] + lines[0]] + IndentAll(lines[1..], ind)
  {
    SplitCons(c, moved);
    HeadAndTail(SplitLines(moved), lines[0], IndentAll(lines[1..], ind));
  }

  /** Indenting the text after each break is moving every line but the first. */
  lemma {:induction false} SplitReindent(s: string, ind: string)
    requires NoReturn(s) && AllWhite(ind)
    ensures SplitLines(Reindent(s, ind)) == [SplitLines(s)[0]] + IndentAll(SplitLines(s)[1..], ind)
  {
    if s == "" {
      assert IndentAll([], ind) == [];
    } else {
      var lines, moved := SplitLines(s[1..]), Reindent(s[1..], ind);
      SplitReindent(s[1..], ind);
      if s[0] == '\n' {
        SplitReindentBreak(lines, moved, ind);
        Associates("\n", ind, moved);
        assert SplitLines(s)[1..] == lines;
      } else {
        SplitReindentPlain(s[0], lines, moved, ind);
        assert SplitLines(s)[1..] == lines[1..];
      }
    }
  }

  lemma SplitAfterBreak(ind: string, s: string)
    requires AllWhite(ind)
    ensures SplitLines("\n" + (ind + s)) == ["", ind + SplitLines(s)[0]] + SplitLines(s)[1..]
  {
    SplitWhitePrefix(ind, s);
    assert ("\n" + (ind + s))[1..] == ind + s;
  }

  lemma {:induction false} IndentOfIndented(ind: string, line: string)
    requires AllWhite(ind)
    ensures Indent(ind + line) == |ind| + Indent(line)
    ensures Blank(ind + line) <==> Blank(line)
  {
    if ind == "" {
      assert ind + line == line;
    } else {
      assert (ind + line)[1..] == ind[1..] + line;
      IndentOfIndented(ind[1..], line);
    }
  }

  /** The common indent of moved lines is the old one plus the move. */
  lemma {:induction false} CommonIndentMoves(lines: seq<string>, ind: string)
    requires AllWhite(ind)
    ensures CommonIndent(IndentAll(lines, ind))
            == match CommonIndent(lines) case None => None case Some(n) => Some(|ind| + n)
  {
    if lines != [] {
      CommonIndentMoves(lines[1..], ind);
      IndentOfIndented(ind, lines[0]);
      assert IndentAll(lines, ind)[1..] == IndentAll(lines[1..], ind);
    }
  }

  lemma {:induction false} CommonIndentIsLeast(lines: seq<string>)
    ensures CommonIndent(lines).None? <==> forall i :: 0 <= i < |lines| ==> Blank(lines[i])
    ensures CommonIndent(lines).Some? ==>
              && (exists i :: 0 <= i < |lines| && !Blank(lines[i]) && Indent(lines[i]) == CommonIndent(lines).value)
              && forall i :: 0 <= i < |lines| && !Blank(lines[i]) ==> CommonIndent(lines).value <= Indent(lines[i])
  {
    if lines != [] {
      CommonIndentIsLeast(lines[1..]);
      assert forall i :: 1 <= i < |lines| ==> lines[i] == lines[1..][i - 1];
      var others := CommonIndent(lines[1..]);
      if others.Some? {
        var k :| 0 <= k < |lines[1..]| && !Blank(lines[1..][k]) && Indent(lines[1..][k]) == others.value;
        assert lines[k + 1] == lines[1..][k];
      }
    }
  }

  lemma {:induction false} CommonIndentOfBlankTail(lines: seq<string>, blank: string)
    requires Blank(blank)
    ensures CommonIndent(lines + [blank]) == CommonIndent(lines)
  {
    if lines == [] {
      assert lines + [blank] == [blank];
    } else {
      assert (lines + [blank])[1..] == lines[1..] + [blank];
      CommonIndentOfBlankTail(lines[1..], blank);
    }
  }

  /** A line that is not blank stays so when at most its own indent is taken away. */
  lemma {:induction false} UnindentNonBlank(line: string, n: nat)
    requires !Blank(line) && n <= Indent(line)
    ensures !Blank(Unindent(line, n))
  {
    if n > 0 {
      UnindentNonBlank(line[1..], n - 1);
      assert Unindent(line, n) == Unindent(line[1..], n - 1);
    }
  }

  lemma {:induction false} BlankIsWhite(line: string)
    ensures Blank(line) <==> AllWhite(line)
  {
    if line != "" {
      BlankIsWhite(line[1..]);
      if AllWhite(line) {
        assert AllWhite(line[1..]);
      }
    }
  }

  // ----- Length of joined lines

  function Size(lines: seq<string>): nat {
    if lines == [] then 0 else |lines[0]| + 1 + Size(lines[1..])
  }

  lemma {:induction false} JoinSize(lines: seq<string>)
    requires lines != []
    ensures |JoinLines(lines)| + 1 == Size(lines)
  {
    if |lines| > 1 {
      JoinSize(lines[1..]);
    } else {
      assert Size(lines[1..]) == 0;
    }
  }

  lemma {:induction false} UnindentShrinks(lines: seq<string>, n: nat)
    ensures Size(UnindentAll(lines, n)) <= Size(lines)
    ensures n > 0 && (exists i :: 0 <= i < |lines| && lines[i] != "") ==> Size(UnindentAll(lines, n)) < Size(lines)
  {
    if lines != [] {
      UnindentShrinks(lines[1..], n);
      assert UnindentAll(lines, n)[1..] == UnindentAll(lines[1..], n);
      if n > 0 && lines[0] == "" && exists i :: 0 <= i < |lines| && lines[i] != "" {
        var k :| 0 <= k < |lines| && lines[k] != "";
        assert lines[1..][k - 1] != "";
      }
    }
  }

  lemma {:induction false} UnindentNothing(lines: seq<string>)
    ensures UnindentAll(lines, 0) == lines
  {
    if lines != [] {
      UnindentNothing(lines[1..]);
    }
  }

  lemma {:induction false} UnindentAllAt(lines: seq<string>, n: nat, i: nat)
    requires i < |lines|
    ensures UnindentAll(lines, n)[i] == Unindent(lines[i], n)
  {
    if i > 0 {
      UnindentAllAt(lines[1..], n, i - 1);
    }
  }

  lemma {:induction false} UnindentAllConcat(a: seq<string>, b: seq<string>, n: nat)
    ensures UnindentAll(a + b, n) == UnindentAll(a, n) + UnindentAll(b, n)
  {
    if a == [] {
      assert a + b == b;
    } else {
      assert (a + b)[1..] == a[1..] + b;
      UnindentAllConcat(a[1..], b, n);
    }
  }

  lemma {:induction false} UnindentMoved(lines: seq<string>, ind: string, n: nat)
    ensures UnindentAll(IndentAll(lines, ind), |ind| + n) == UnindentAll(lines, n)
  {
    if lines != [] {
      UnindentMoved(lines[1..], ind, n);
      assert IndentAll(lines, ind)[1..] == IndentAll(lines[1..], ind);
      if n <= |lines[0]| {
        assert (ind + lines[0])[|ind| + n..] == lines[0][n..];
      }
    }
  }

  // ----- Dropping blank lines at either end

  lemma {:induction false} TrimmedEnds(front: seq<string>, lines: seq<string>, back: seq<string>)
    requires lines != [] && !Blank(lines[0]) && !Blank(lines[|lines| - 1])
    requires |front| <= 1 && |back| <= 1
    requires front != [] ==> Blank(front[0])
    requires back != [] ==> Blank(back[0])
    ensures DropTrailingBlank(DropLeadingBlank(front + lines + back)) == lines
  {
    var all := front + lines + back;
    if front != [] {
      assert all[1..] == lines + back;
    } else {
      assert all == lines + back;
    }
    assert DropLeadingBlank(all) == lines + back;
    if back != [] {
      assert (lines + back)[..|lines + back| - 1] == lines;
    } else {
      assert lines + back == lines;
    }
  }
}
