/** The canonical token vocabulary: character classes, token kinds, operators and
    reserved words of the Octoscript v0.2 profile. Positions are character indices. */
module Tokens {

  datatype Option<+T> = None | Some(value: T)

  /** Literals carry their spelling: what the source text has between the ends of the token. */
  datatype Kind =
    | Identifier(name: string)
    | Number(spelling: string)
    | StringLiteral(spelling: string)
    | Newline
    | Semicolon
    | Comma
    | OpenCurly
    | CloseCurly
    | OpenRound
    | CloseRound
    | OpenSquare
    | CloseSquare
    | Operator(text: string)
    | End

  /** A token and the half-open span of source characters it covers. */
  datatype Token = Token(kind: Kind, start: nat, end: nat)

  predicate IsLetter(c: char) {
    'a' <= c <= 'z' || 'A' <= c <= 'Z'
  }

  predicate IsDigit(c: char) {
    '0' <= c <= '9'
  }

  predicate IsIdentifierStart(c: char) {
    IsLetter(c) || c == '_'
  }

  predicate IsIdentifierPart(c: char) {
    IsLetter(c) || IsDigit(c) || c == '_'
  }

  predicate IsHexDigit(c: char) {
    IsDigit(c) || 'a' <= c <= 'f' || 'A' <= c <= 'F'
  }

  /** Horizontal whitespace: space, tab and form feed. */
  predicate IsBlank(c: char) {
    c == ' ' || c == '\t' || c == '\U{000C}'
  }

  predicate IsLineBreak(c: char) {
    c == '\n' || c == '\r'
  }

  predicate IsCommentChar(c: char) {
    !IsLineBreak(c)
  }

  predicate IsOperatorChar(c: char) {
    c == '!' || c == '^' || c == '&' || c == '*' || c == '+' || c == '-' || c == '|' || c == '?' || c == ':' ||
    c == '=' || c == '@' || c == '>' || c == '<' || c == '.' || c == '/' || c == '~' || c == '%'
  }

  predicate IsCanonicalOperator(text: string) {
    text == "!" || text == "-" || text == "+" || text == "~" || text == "=" || text == "+=" || text == "-=" ||
    text == "*=" || text == "/=" || text == "%=" || text == "||" || text == "&&" || text == "==" || text == "!=" ||
    text == "<" || text == "<=" || text == ">" || text == ">=" || text == "*" || text == "/" || text == "%" ||
    text == "." || text == ":" || text == "|"
  }

  predicate IsReserved(name: string) {
    name == "if" || name == "elif" || name == "else" || name == "for" || name == "in" || name == "loop" ||
    name == "while" || name == "fn" || name == "let" || name == "return" || name == "break" ||
    name == "continue" || name == "use" || name == "true" || name == "false" || name == "nil" ||
    name == "var" || name == "match" || name == "try" || name == "ok" || name == "do" || name == "and" ||
    name == "or" || name == "is" || name == "mut" || name == "me" || name == "scope"
  }

  /** The token kind of a one-character punctuation mark. */
  function Punctuation(c: char): (r: Option<Kind>) {
    if c == '{' then Some(OpenCurly)
    else if c == '}' then Some(CloseCurly)
    else if c == '(' then Some(OpenRound)
    else if c == ')' then Some(CloseRound)
    else if c == '[' then Some(OpenSquare)
    else if c == ']' then Some(CloseSquare)
    else if c == ',' then Some(Comma)
    else if c == ';' then Some(Semicolon)
    else None
  }

  /** Length of the longest prefix of `s` whose characters all satisfy `p`. */
  function Run(s: string, p: char -> bool): (n: nat)
    ensures n <= |s|
    ensures forall i :: 0 <= i < n ==> p(s[i])
    ensures n < |s| ==> !p(s[n])
  {
    if s == "" || !p(s[0]) then 0 else 1 + Run(s[1..], p)
  }

  /** `Run` is determined by where the prefix stops. */
  lemma {:induction false} RunIs(s: string, p: char -> bool, n: nat)
    requires n <= |s|
    requires forall i :: 0 <= i < n ==> p(s[i])
    requires n < |s| ==> !p(s[n])
    ensures Run(s, p) == n
  {
    if n > 0 {
      RunIs(s[1..], p, n - 1);
    }
  }

  /** A run cut at `limit` digits is as long as the loop that stops there. */
  lemma {:induction false} RunAtLeast(s: string, p: char -> bool, n: nat, limit: nat)
    requires n <= |s| && n <= limit
    requires forall i :: 0 <= i < n ==> p(s[..n][i])
    requires n < limit && n < |s| ==> !p(s[n])
    ensures (if Run(s, p) <= limit then Run(s, p) else limit) == n
  {
    assert forall i :: 0 <= i < n ==> s[i] == s[..n][i];
    if n < limit {
      RunIs(s, p, n);
    }
  }

  predicate AllBlank(s: string) {
    forall i :: 0 <= i < |s| ==> IsBlank(s[i])
  }
}
