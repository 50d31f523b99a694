/** What the profile lexer computes: one scan step at a time over the remaining text.

    Block comments are lexed in a mode of their own, because a newline inside one is still a
    token: lexing is then a function of the remaining text and the mode alone. */
module Lexing {
  import opened Tokens

  datatype Mode = Code | Comment | CommentStar

  /** One step: characters consumed, token emitted over exactly those characters (if any),
      next mode, and whether the step reported no diagnostic. */
  datatype Step = Step(len: nat, kind: Option<Kind>, mode: Mode, ok: bool)

  /** A scanned length together with "no diagnostic". */
  datatype Extent = Extent(len: nat, ok: bool)

  // ------------------------------------------------------------------ numbers

  function FractionEnd(s: string, i: nat): (e: Extent)
    requires i <= |s|
    ensures i <= e.len <= |s|
  {
    if i < |s| && s[i] == '.' then
      if i + 1 < |s| && IsDigit(s[i + 1]) then Extent(i + 1 + Run(s[i + 1..], IsDigit), true)
      else Extent(i, false)
    else Extent(i, true)
  }

  function SignEnd(s: string, i: nat): (n: nat)
    requires i <= |s|
    ensures i <= n <= |s|
  {
    if i < |s| && (s[i] == '+' || s[i] == '-') then i + 1 else i
  }

  function ExponentEnd(s: string, i: nat): (e: Extent)
    requires i <= |s|
    ensures i <= e.len <= |s|
  {
    if i < |s| && (s[i] == 'e' || s[i] == 'E') then
      var j := SignEnd(s, i + 1);
      if j < |s| && IsDigit(s[j]) then Extent(j + Run(s[j..], IsDigit), true) else Extent(j, false)
    else Extent(i, true)
  }

  predicate NoSuffix(s: string, i: nat)
    requires i <= |s|
  {
    i < |s| ==> !IsIdentifierStart(s[i])
  }

  /** A number literal starting at the front of `s`; `inRange` is the binary64 range check. */
  function NumberExtent(inRange: string -> bool, s: string): (e: Extent)
    ensures e.len <= |s|
    ensures s != "" && IsDigit(s[0]) ==> e.len >= 1
  {
    var f := FractionEnd(s, Run(s, IsDigit));
    var x := ExponentEnd(s, f.len);
    Extent(x.len, f.ok && x.ok && NoSuffix(s, x.len) && inRange(s[..x.len]))
  }

  // ------------------------------------------------------------------ strings

  function HexDigit(c: char): (d: nat)
    requires IsHexDigit(c)
    ensures d < 16
  {
    if IsDigit(c) then c as int - '0' as int
    else if 'a' <= c <= 'f' then c as int - 'a' as int + 10
    else c as int - 'A' as int + 10
  }

  predicate AllHex(s: string) {
    forall i :: 0 <= i < |s| ==> IsHexDigit(s[i])
  }

  function HexValue(s: string): (v: nat)
    requires AllHex(s)
  {
    if s == "" then 0 else 16 * HexValue(s[..|s| - 1]) + HexDigit(s[|s| - 1])
  }

  /** A Unicode scalar value: at most U+10FFFF and not a surrogate. */
  predicate IsScalar(v: nat) {
    v < 0xD800 || 0xE000 <= v <= 0x10FFFF
  }

  predicate IsSkipped(c: char) {
    c != '}' && c != '\n'
  }

  function AtMost(n: nat, limit: nat): (m: nat) {
    if n <= limit then n else limit
  }

  /** What follows the digits of a braced escape whose value is a scalar or not. */
  function BracedRest(s: string, digits: nat, scalar: bool): (e: Extent)
    ensures e.len <= |s|
  {
    if 1 <= digits <= 6 && s != "" && s[0] == '}' then Extent(1, scalar)
    else
      var j := Run(s, IsSkipped);
      Extent(if j < |s| && s[j] == '}' then j + 1 else j, false)
  }

  /** What follows `\u`. */
  function UnicodeExtent(s: string): (e: Extent)
    ensures e.len <= |s|
  {
    if s != "" && s[0] == '{' then
      var d := Run(s[1..], IsHexDigit);
      var r := BracedRest(s[1 + d..], d, 1 <= d <= 6 && IsScalar(HexValue(s[1..][..d])));
      Extent(1 + d + r.len, r.ok)
    else
      var d := AtMost(Run(s, IsHexDigit), 4);
      Extent(d, d == 4 && IsScalar(HexValue(s[..d])))
  }

  /** What follows a backslash inside a string literal. */
  function EscapeExtent(s: string): (e: Extent)
    ensures e.len <= |s|
    ensures s != "" ==> e.len >= 1
  {
    if s == "" then Extent(0, false)
    else if s[0] == '"' || s[0] == '\\' || s[0] == 'n' || s[0] == 'r' || s[0] == 't' then Extent(1, true)
    else if s[0] == 'u' then var u := UnicodeExtent(s[1..]); Extent(1 + u.len, u.ok)
    else Extent(1, false)
  }

  /** What follows the opening quote of a string literal, up to and including the closing one. */
  function StringExtent(s: string): (e: Extent)
    ensures e.len <= |s|
    decreases |s|
  {
    if s == "" then Extent(0, false)
    else if s[0] == '"' then Extent(1, true)
    else if s[0] == '\\' then
      var x := EscapeExtent(s[1..]);
      var r := StringExtent(s[1 + x.len..]);
      Extent(1 + x.len + r.len, x.ok && r.ok)
    else if IsLineBreak(s[0]) then Extent(0, false)
    else var r := StringExtent(s[1..]); Extent(1 + r.len, r.ok)
  }

  /** What follows the opening quote of a rejected single-quoted string. */
  function SingleQuotedExtent(s: string): (n: nat)
    ensures n <= |s|
    decreases |s|
  {
    if s == "" || IsLineBreak(s[0]) then 0
    else if s[0] == '\'' then 1
    else if s[0] == '\\' then
      if |s| == 1 then 1 else 2 + SingleQuotedExtent(s[2..])
    else 1 + SingleQuotedExtent(s[1..])
  }

  // ------------------------------------------------------------------ steps

  function LineBreakStep(s: string, mode: Mode): (r: Step)
    requires s != "" && IsLineBreak(s[0])
    ensures 1 <= r.len <= |s|
  {
    if s[0] == '\n' then Step(1, Some(Newline), mode, true)
    else if |s| > 1 && s[1] == '\n' then Step(2, Some(Newline), mode, true)
    else Step(1, None, mode, false)
  }

  function OperatorStep(s: string): (r: Step)
    requires s != "" && IsOperatorChar(s[0])
    ensures 1 <= r.len <= |s| && r.mode == Code
  {
    var n := Run(s, IsOperatorChar);
    var text := s[..n];
    if text != "~" && IsCanonicalOperator(text) then Step(n, Some(Operator(text)), Code, true)
    else Step(n, None, Code, false)
  }

  function NumberStep(inRange: string -> bool, s: string): (r: Step)
    requires s != "" && IsDigit(s[0])
    ensures 1 <= r.len <= |s|
  {
    var e := NumberExtent(inRange, s);
    Step(e.len, Some(Number(s[..e.len])), Code, e.ok)
  }

  function CodeStep(inRange: string -> bool, s: string): (r: Step)
    requires s != ""
    ensures 1 <= r.len <= |s|
  {
    var c := s[0];
    if IsBlank(c) then Step(1, None, Code, true)
    else if IsLineBreak(c) then LineBreakStep(s, Code)
    else if c == '/' && |s| > 1 && s[1] == '/' then Step(2 + Run(s[2..], IsCommentChar), None, Code, true)
    else if c == '/' && |s| > 1 && s[1] == '*' then Step(2, None, Comment, true)
    else if IsIdentifierStart(c) then
      var n := Run(s, IsIdentifierPart);
      Step(n, Some(Identifier(s[..n])), Code, true)
    else if IsDigit(c) then NumberStep(inRange, s)
    else if c == '"' then
      var e := StringExtent(s[1..]);
      Step(1 + e.len, Some(StringLiteral(s[..1 + e.len])), Code, e.ok)
    else if c == '\'' then Step(1 + SingleQuotedExtent(s[1..]), None, Code, false)
    else if Punctuation(c).Some? then Step(1, Punctuation(c), Code, true)
    else if IsOperatorChar(c) then OperatorStep(s)
    else Step(1, None, Code, false)
  }

  /** Inside a block comment. After a lone `*` the next character is swallowed whatever it is, so
      a newline there emits no token and `**` followed by `/` does not close the comment. */
  function CommentStep(s: string, mode: Mode): (r: Step)
    requires s != "" && mode != Code
    ensures 1 <= r.len <= |s|
  {
    if mode == CommentStar then Step(1, None, if s[0] == '/' then Code else Comment, true)
    else if s[0] == '*' && |s| > 1 && s[1] == '/' then Step(2, None, Code, true)
    else if s[0] == '*' then Step(1, None, CommentStar, true)
    else if IsLineBreak(s[0]) then LineBreakStep(s, Comment)
    else Step(1, None, Comment, true)
  }

  function LexStep(inRange: string -> bool, s: string, mode: Mode): (r: Step)
    requires s != ""
    ensures 1 <= r.len <= |s|
  {
    if mode == Code then CodeStep(inRange, s) else CommentStep(s, mode)
  }

  datatype Lexed = Lexed(tokens: seq<Token>, clean: bool)

  function Emitted(st: Step, base: nat): (r: seq<Token>) {
    if st.kind.Some? then [Token(st.kind.value, base, base + st.len)] else []
  }

  /** All tokens of `s`, which starts at position `base`; `clean` means no diagnostic at all. */
  function Lex(inRange: string -> bool, s: string, mode: Mode, base: nat): (r: Lexed)
    decreases |s|
  {
    if s == "" then Lexed([], mode == Code)
    else
      var st := LexStep(inRange, s, mode);
      var rest := Lex(inRange, s[st.len..], st.mode, base + st.len);
      Lexed(Emitted(st, base) + rest.tokens, st.ok && rest.clean)
  }

  /** What the bounded lexer reports: at most `maxTokens` tokens, and a diagnostic beyond that. */
  function Limited(full: Lexed, maxTokens: nat): (r: Lexed)
    ensures |r.tokens| <= maxTokens
    ensures r.clean ==> r == full
  {
    if |full.tokens| <= maxTokens then full else Lexed(full.tokens[..maxTokens], false)
  }

  /** The lexer's report for a whole source text, without the `End` token. */
  function Tokenized(inRange: string -> bool, source: string, maxTokens: nat): (r: Lexed) {
    Limited(Lex(inRange, source, Code, 0), maxTokens)
  }
}
