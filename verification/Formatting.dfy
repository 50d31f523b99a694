/** What the canonical formatter computes, and why its output keeps the token stream.

    The formatter never changes a token: it only chooses the text between tokens. The layout is
    therefore a map over the items of a tiling, and the round trip is that the new gaps tile too. */
module Formatting {
  import opened Tokens
  import opened Lexing
  import opened LexFacts
  import opened Tiling

  predicate IsOperator(kind: Kind, text: string) {
    kind == Operator(text)
  }

  predicate IsControlKeyword(kind: Kind) {
    kind == Identifier("if") || kind == Identifier("elif") || kind == Identifier("while")
  }

  predicate IsClosing(kind: Kind) {
    kind == CloseRound || kind == CloseSquare || kind == CloseCurly || kind == Comma || kind == Semicolon
  }

  predicate KeepsIndexTight(kind: Kind) {
    kind.Identifier? || kind.Number? || kind.StringLiteral? || kind == OpenRound || kind == OpenSquare ||
    kind == CloseRound || kind == CloseSquare || kind == CloseCurly
  }

  /** Whether the formatter puts a space between two tokens on one line. */
  predicate NeedsSpace(previous: Kind, current: Kind, previousClosedLambda: bool, currentClosesLambda: bool) {
    if IsOperator(current, "|") && currentClosesLambda then false
    else if IsOperator(previous, "|") then previousClosedLambda
    else if previous.Number? && IsOperator(current, ".") then true
    else if previous == OpenRound || previous == OpenSquare || IsOperator(previous, ".") || IsClosing(current) ||
            IsOperator(current, ".") || IsOperator(current, ":") then false
    else if current == OpenRound then IsControlKeyword(previous)
    else if current == OpenSquare then !KeepsIndexTight(previous)
    else if current == OpenCurly then previous != OpenCurly
    else if previous == OpenCurly then false
    else true
  }

  // ------------------------------------------------------------------ layout state

  function Kinds(items: seq<Item>): (ks: seq<Kind>)
    ensures |ks| == |items| && forall i :: 0 <= i < |items| ==> ks[i] == items[i].kind
  {
    seq(|items|, i requires 0 <= i < |items| => items[i].kind)
  }

  /** Whether lambda parameters are open before token `n`: an odd number of bars so far. */
  predicate LambdaOpen(ks: seq<Kind>, n: nat)
    requires n <= |ks|
  {
    n > 0 && (if IsOperator(ks[n - 1], "|") then !LambdaOpen(ks, n - 1) else LambdaOpen(ks, n - 1))
  }

  /** Indentation level before token `n`. */
  function Indentation(ks: seq<Kind>, n: nat): (level: nat)
    requires n <= |ks|
  {
    if n == 0 then 0
    else
      var before := Indentation(ks, n - 1);
      if ks[n - 1] == OpenCurly then before + 1
      else if ks[n - 1] == CloseCurly && before > 0 then before - 1
      else before
  }

  predicate LineStart(ks: seq<Kind>, n: nat)
    requires n <= |ks|
  {
    n == 0 || ks[n - 1] == Newline
  }

  predicate ClosedLambdaBefore(ks: seq<Kind>, n: nat)
    requires 0 < n <= |ks|
  {
    IsOperator(ks[n - 1], "|") && LambdaOpen(ks, n - 1)
  }

  predicate ClosesLambda(ks: seq<Kind>, n: nat)
    requires n < |ks|
  {
    IsOperator(ks[n], "|") && LambdaOpen(ks, n)
  }

  /** Whether a space separates token `n` from the token before it on the same line. */
  predicate Spaced(ks: seq<Kind>, n: nat)
    requires n < |ks|
  {
    n > 0 && ks[n - 1] != Newline && NeedsSpace(ks[n - 1], ks[n], ClosedLambdaBefore(ks, n), ClosesLambda(ks, n))
  }

  /** Neighbouring operators are always spaced; the grammar guarantees it for accepted sources. */
  predicate OperatorsApart(ks: seq<Kind>) {
    forall n :: 0 < n < |ks| && ks[n - 1].Operator? && ks[n].Operator? ==> Spaced(ks, n)
  }

  // ------------------------------------------------------------------ layout

  function Spaces(n: nat): (s: string)
    ensures |s| == n && forall i :: 0 <= i < n ==> s[i] == ' '
  {
    seq(n, _ => ' ')
  }

  function Indent(level: nat): (s: string) {
    Spaces(4 * level)
  }

  function TrimStart(s: string): (r: string) {
    s[Run(s, IsBlank)..]
  }

  function TrimEnd(s: string): (r: string)
    ensures |r| <= |s| && r == s[..|r|] && AllBlank(s[|r|..])
    ensures r != "" ==> !IsBlank(r[|r| - 1])
  {
    if s == "" || !IsBlank(s[|s| - 1]) then s else TrimEnd(s[..|s| - 1])
  }

  /** A preserved comment fragment: re-indented at the start of a line, kept as it is elsewhere. */
  function GapText(ks: seq<Kind>, n: nat, gap: string): (s: string)
    requires n <= |ks|
  {
    if AllBlank(gap) then ""
    else if LineStart(ks, n) then Indent(Indentation(ks, n)) + TrimStart(gap)
    else gap
  }

  /** Indentation of token `n` itself: a closing brace moves out first. */
  function TokenLevel(ks: seq<Kind>, n: nat): (level: nat)
    requires n < |ks|
  {
    var before := Indentation(ks, n);
    if ks[n] == CloseCurly && before > 0 then before - 1 else before
  }

  /** The formatter's text between token `n - 1` and token `n`. */
  function NewGap(ks: seq<Kind>, n: nat, gap: string): (s: string)
    requires n < |ks|
  {
    if ks[n] == Newline then TrimEnd(GapText(ks, n, gap))
    else
      GapText(ks, n, gap) +
      if !AllBlank(gap) then ""
      else if LineStart(ks, n) then Indent(TokenLevel(ks, n))
      else if Spaced(ks, n) then " "
      else ""
  }

  /** A token keeps its spelling; line breaks become `\n`. */
  function NewText(item: Item): (s: string) {
    if item.kind == Newline then "\n" else item.text
  }

  function Laid(items: seq<Item>, n: nat): (r: Item)
    requires n < |items|
  {
    Item(NewGap(Kinds(items), n, items[n].gap), items[n].kind, NewText(items[n]))
  }

  function LaidOut(items: seq<Item>): (r: seq<Item>)
    ensures |r| == |items| && forall i :: 0 <= i < |items| ==> r[i] == Laid(items, i)
  {
    seq(|items|, i requires 0 <= i < |items| => Laid(items, i))
  }

  function LaidTail(items: seq<Item>, tail: string): (s: string) {
    TrimEnd(GapText(Kinds(items), |items|, tail))
  }

  predicate LacksNewline(s: string) {
    s != "" && s[|s| - 1] != '\n'
  }

  /** The formatted cut; a missing final newline is added when asked for. */
  function Formatted(cut: Cut, appendNewline: bool): (r: Cut) {
    var items := LaidOut(cut.items);
    var tail := LaidTail(cut.items, cut.tail);
    if appendNewline && LacksNewline(Join(items, tail)) then Cut(items + [Item(tail, Newline, "\n")], "")
    else Cut(items, tail)
  }

  // ------------------------------------------------------------------ trimming

  lemma {:induction false} TrimEndKeepsFront(b: string, c: string)
    requires c != "" && !IsBlank(c[0])
    ensures TrimEnd(b + c) == b + TrimEnd(c) && TrimEnd(c) != "" && TrimEnd(c)[0] == c[0]
    decreases |c|
  {
    var s := b + c;
    if IsBlank(c[|c| - 1]) {
      assert s[..|s| - 1] == b + c[..|c| - 1];
      TrimEndKeepsFront(b, c[..|c| - 1]);
    }
  }

  lemma {:induction false} TrimEndAgain(s: string)
    ensures TrimEnd(TrimEnd(s)) == TrimEnd(s)
  {
  }

  /** Blanks in front of a comment do not hide it. */
  lemma {:induction false} BlanksThenComment(b: string, c: string)
    requires AllBlank(b) && c != "" && !IsBlank(c[0])
    ensures Run(b + c, IsBlank) == |b| && TrimStart(b + c) == c && !AllBlank(b + c)
  {
    var s := b + c;
    assert s[|b|] == c[0];
    RunIs(s, IsBlank, |b|);
    assert s[|b|..] == c;
  }
}
