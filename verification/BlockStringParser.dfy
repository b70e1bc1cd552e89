/**
 Reading a block string as section 2.9.4 of the GraphQL specification (October 2021)
 prescribes: lexing of a StringValue between triple quotes, followed by BlockStringValue.
 */
module BlockStringParser {

  import opened Wrappers

  const QUOTES := "\"\"\""
  const ESCAPED_QUOTES := "\\\"\"\""

  /** SourceCharacter, section 2.1.1. */
  predicate IsSourceCharacter(c: char) {
    c == '\t' || c == '\n' || c == '\r' || ' ' <= c <= '\U{FFFF}'
  }

  predicate AllSource(s: string) {
    forall i :: 0 <= i < |s| ==> IsSourceCharacter(s[i])
  }

  /** WhiteSpace, section 2.1.2. */
  predicate IsWhite(c: char) {
    c == ' ' || c == '\t'
  }

  /** Consumes BlockStringCharacters up to the first unescaped triple quote; the result pairs
      the raw value with what follows the closing quotes. */
  function LexBlockBody(s: string): Option<(string, string)>
    decreases |s|
  {
    if ESCAPED_QUOTES <= s then
      match LexBlockBody(s[4..])
      case None => None
      case Some((raw, rest)) => Some((QUOTES + raw, rest))
    else if QUOTES <= s then
      Some(("", s[3..]))
    else if s == "" || !IsSourceCharacter(s[0]) then
      None
    else
      match LexBlockBody(s[1..])
      case None => None
      case Some((raw, rest)) => Some(([s[0]] + raw, rest))
  }

  /** The lines of a raw value, cut at every LineTerminator (LF, CR or CR LF). */
  function SplitLines(s: string): (lines: seq<string>)
    ensures |lines| > 0
  {
    if s == "" then [""]
    else if s[0] == '\n' then [""] + SplitLines(s[1..])
    else if s[0] == '\r' then [""] + SplitLines(if |s| > 1 && s[1] == '\n' then s[2..] else s[1..])
    else
      var lines := SplitLines(s[1..]);
      [[s[0]] + lines[0]] + lines[1..]
  }

  function JoinLines(lines: seq<string>): string {
    if lines == [] then ""
    else if |lines| == 1 then lines[0]
    else lines[0] + "\n" + JoinLines(lines[1..])
  }

  /** The number of leading WhiteSpace characters of a line. */
  function Indent(line: string): (n: nat)
    ensures n <= |line|
  {
    if line == "" || !IsWhite(line[0]) then 0 else 1 + Indent(line[1..])
  }

  predicate Blank(line: string) {
    Indent(line) == |line|
  }

  /** The least indent of the lines that are not blank, if there is such a line. */
  function CommonIndent(lines: seq<string>): Option<nat> {
    if lines == [] then None
    else
      var others := CommonIndent(lines[1..]);
      if Blank(lines[0]) then others
      else if others.Some? && others.value <= Indent(lines[0]) then others
      else Some(Indent(lines[0]))
  }

  function Unindent(line: string, n: nat): string {
    if n <= |line| then line[n..] else ""
  }

  function UnindentAll(lines: seq<string>, n: nat): (r: seq<string>)
    ensures |r| == |lines|
  {
    if lines == [] then [] else [Unindent(lines[0], n)] + UnindentAll(lines[1..], n)
  }

  function DropLeadingBlank(lines: seq<string>): seq<string> {
    if lines != [] && Blank(lines[0]) then DropLeadingBlank(lines[1..]) else lines
  }

  function DropTrailingBlank(lines: seq<string>): seq<string> {
    if lines != [] && Blank(lines[|lines| - 1]) then DropTrailingBlank(lines[..|lines| - 1]) else lines
  }

  function UnindentCommon(lines: seq<string>): seq<string>
    requires lines != []
  {
    var indent := CommonIndent(lines[1..]);
    if indent.Some? then [lines[0]] + UnindentAll(lines[1..], indent.value) else lines
  }

  /** BlockStringValue(rawValue). */
  function BlockStringValue(raw: string): string {
    JoinLines(DropTrailingBlank(DropLeadingBlank(UnindentCommon(SplitLines(raw)))))
  }

  /** Reads the block string at the start of a text: its value and the text after it. */
  function ReadBlockString(s: string): Option<(string, string)> {
    if QUOTES <= s then
      match LexBlockBody(s[3..])
      case None => None
      case Some((raw, rest)) => Some((BlockStringValue(raw), rest))
    else
      None
  }

  /** White space and line terminators are ignored between tokens, section 2.1.7. */
  function SkipIgnored(s: string): string {
    if s != "" && (IsWhite(s[0]) || s[0] == '\n' || s[0] == '\r') then SkipIgnored(s[1..]) else s
  }
}
