/**
 The block-string part of saleor/graphql/schema_printer.py. Strings are Python strings: sequences of
 code points.
 */
module SchemaPrinter {
  import opened Wrappers
  import opened BlockStringParser

  /** `str.splitlines` breaks a line at more characters than GraphQL does. */
  predicate IsPythonLineBreak(c: char) {
    '\n' <= c <= '\r' || '\U{1C}' <= c <= '\U{1E}' || c == '\U{85}' || c == '\U{2028}' || c == '\U{2029}'
  }

  /** The line breaks of Python that the scanner lets through and GraphQL does not break at. */
  predicate HasForeignBreak(s: string) {
    exists i :: 0 <= i < |s| && s[i] != '\n' && IsPythonLineBreak(s[i])
  }

  /** `str.splitlines()`: no line follows a final line break. */
  function PythonLines(s: string): seq<string> {
    if s == "" then []
    else if s[0] == '\r' && |s| > 1 && s[1] == '\n' then [""] + PythonLines(s[2..])
    else if IsPythonLineBreak(s[0]) then [""] + PythonLines(s[1..])
    else
      var lines := PythonLines(s[1..]);
      if lines == [] then [s] else [[s[0]] + lines[0]] + lines[1..]
  }

  /** `value.replace('"""', '\\"""')`: leftmost, non-overlapping occurrences. */
  function Escape(s: string): string {
    if QUOTES <= s then ESCAPED_QUOTES + Escape(s[3..])
    else if s == "" then ""
    else [s[0]] + Escape(s[1..])
  }

  /** `s.replace("\n", "\n" + indentation)`. */
  function Reindent(s: string, indentation: string): string {
    if s == "" then ""
    else (if s[0] == '\n' then "\n" + indentation else [s[0]]) + Reindent(s[1..], indentation)
  }

  predicate EndsWith(s: string, suffix: string) {
    |suffix| <= |s| && s[|s| - |suffix|..] == suffix
  }

  predicate StartsWhite(line: string) {
    line != "" && IsWhite(line[0])
  }

  /** Every line after the first is empty or starts with white space. */
  predicate LaterIndented(lines: seq<string>) {
    forall i :: 1 <= i < |lines| ==> lines[i] == "" || IsWhite(lines[i][0])
  }

  /** The break put before the value and the break put after it. */
  datatype Frame = Frame(before: string, after: string)

  function ChooseFrame(value: string, minimize: bool): (f: Frame)
    ensures f.before in {"", "\n"} && f.after in {"", "\n"}
  {
    var escaped := Escape(value);
    var lines := if PythonLines(escaped) == [] then [""] else PythonLines(escaped);
    var isSingleLine := |lines| == 1;
    var forceLeadingNewLine := |lines| > 1 && LaterIndented(lines);
    var hasTrailingTripleQuotes := EndsWith(escaped, ESCAPED_QUOTES);
    var hasTrailingQuote := EndsWith(value, "\"") && !hasTrailingTripleQuotes;
    var hasTrailingSlash := EndsWith(value, "\\");
    var forceTrailingNewLine := hasTrailingQuote || hasTrailingSlash;
    var printAsMultipleLines := !minimize
                                && (!isSingleLine || |value| > 70 || forceTrailingNewLine
                                    || forceLeadingNewLine || hasTrailingTripleQuotes);
    var skipLeadingNewLine := isSingleLine && StartsWhite(value);
    Frame(if (printAsMultipleLines && !skipLeadingNewLine) || forceLeadingNewLine then "\n" else "",
          if printAsMultipleLines || forceTrailingNewLine then "\n" else "")
  }

  function PrintFramed(value: string, frame: Frame): string {
    QUOTES + frame.before + Escape(value) + frame.after + QUOTES
  }

  function PrintBlockString(value: string, minimize: bool): string {
    PrintFramed(value, ChooseFrame(value, minimize))
  }

  /** What the scanner refuses to see anywhere. */
  predicate IsForbidden(c: char) {
    c <= '\U{0F}' && c != '\n' && c != '\t'
  }

  predicate HasUnindentedLine(lines: seq<string>) {
    exists i :: 0 <= i < |lines| && !Blank(lines[i]) && Indent(lines[i]) == 0
  }

  /** The strings the scanner is meant to accept, said of their lines. */
  predicate BlockPrintable(value: string) {
    var lines := SplitLines(value);
    value == ""
    || (&& (forall i :: 0 <= i < |value| ==> !IsForbidden(value[i]))
        && !Blank(lines[0])
        && !Blank(lines[|lines| - 1])
        && (|lines| == 1 || HasUnindentedLine(lines)))
  }

  predicate IsPythonSpace(c: char) {
    '\t' <= c <= '\r' || '\U{1C}' <= c <= ' ' || c == '\U{85}' || c == '\U{A0}' || c == '\U{1680}'
    || '\U{2000}' <= c <= '\U{200A}' || c == '\U{2028}' || c == '\U{2029}' || c == '\U{202F}'
    || c == '\U{205F}' || c == '\U{3000}'
  }

  /** `str.rstrip()`. */
  function RStrip(s: string): string {
    if s != "" && IsPythonSpace(s[|s| - 1]) then RStrip(s[..|s| - 1]) else s
  }

  /** `print_description`; `quoted` is the quoted string that a library prints for a description
      the scanner refuses. */
  function PrintDescription(description: Option<string>, indentation: string, firstInBlock: bool,
                            quoted: string): string
  {
    match description
    case None => ""
    case Some(d) =>
      var text := RStrip(d);
      var block := if BlockPrintable(text) then PrintBlockString(text, false) else quoted;
      var prefix := if indentation != "" && !firstInBlock then "\n" + indentation else indentation;
      prefix + Reindent(block, indentation) + "\n"
  }
}
