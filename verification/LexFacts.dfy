/** Facts about scan steps that later passes rely on: what a token's first character says about its
    kind, when the text after a token cannot change it, and the tiling of a text by its tokens. */
module LexFacts {
  import opened Tokens
  import opened Lexing
  import opened StringLiterals

  /** `c` directly after a token of this kind is not absorbed by it. */
  predicate Ends(kind: Kind, c: char) {
    match kind
    case Identifier(_) => !IsIdentifierPart(c)
    case Number(_) => !IsIdentifierPart(c) && c != '.'
    case Operator(_) => !IsOperatorChar(c)
    case _ => true
  }

  predicate EndsBefore(kind: Kind, rest: string) {
    rest != "" ==> Ends(kind, rest[0])
  }

  /** What the first character of a token says about its kind. */
  predicate Starts(kind: Kind, c: char) {
    match kind
    case Identifier(_) => IsIdentifierStart(c)
    case Number(_) => IsDigit(c)
    case StringLiteral(_) => c == '"'
    case Newline => IsLineBreak(c)
    case Operator(text) => IsOperatorChar(c) && text != "" && text[0] == c
    case End => false
    case _ => Punctuation(c) == Some(kind)
  }

  lemma {:induction false} StepStarts(inRange: string -> bool, s: string)
    requires s != "" && CodeStep(inRange, s).kind.Some?
    ensures Starts(CodeStep(inRange, s).kind.value, s[0])
    ensures !IsBlank(s[0])
  {
    hide NumberExtent, StringExtent, SingleQuotedExtent;
  }

  /** An operator token is maximal: the next character is not an operator character. */
  lemma {:induction false} OperatorIsMaximal(inRange: string -> bool, t: string, rest: string)
    requires t + rest != "" && CodeStep(inRange, t + rest).len == |t|
    requires CodeStep(inRange, t + rest).kind.Some? && CodeStep(inRange, t + rest).kind.value.Operator?
    ensures EndsBefore(CodeStep(inRange, t + rest).kind.value, rest)
  {
    hide NumberExtent, StringExtent, SingleQuotedExtent;
    var s := t + rest;
    StepStarts(inRange, s);
    if rest != "" {
      assert s[|t|] == rest[0];
    }
  }

  // ------------------------------------------------------------------ stability

  /** A run that ends inside `t`, or at its end before a stopping character, does not depend on what follows. */
  lemma {:induction false} RunStable(t: string, r: string, r2: string, p: char -> bool)
    requires Run(t + r, p) <= |t|
    requires Run(t + r, p) == |t| && r2 != "" ==> !p(r2[0])
    ensures Run(t + r2, p) == Run(t + r, p)
  {
    var n := Run(t + r, p);
    assert forall i :: 0 <= i < n ==> (t + r2)[i] == (t + r)[i];
    if n < |t| {
      assert (t + r2)[n] == (t + r)[n];
    }
    RunIs(t + r2, p, n);
  }

  lemma {:induction false} FractionStable(t: string, r: string, r2: string, i: nat)
    requires i <= |t| && FractionEnd(t + r, i).ok && FractionEnd(t + r, i).len <= |t|
    requires r2 != "" ==> !IsDigit(r2[0]) && (i == |t| ==> r2[0] != '.')
    ensures FractionEnd(t + r2, i) == FractionEnd(t + r, i)
  {
    hide Run;
    var s, s2 := t + r, t + r2;
    if i < |t| && s[i] == '.' {
      assert i + 1 < |t|;
      assert s[i + 1..] == t[i + 1..] + r;
      assert s2[i + 1..] == t[i + 1..] + r2;
      RunStable(t[i + 1..], r, r2, IsDigit);
    }
  }

  lemma {:induction false} ExponentStable(t: string, r: string, r2: string, i: nat)
    requires i <= |t| && ExponentEnd(t + r, i).ok && ExponentEnd(t + r, i).len <= |t|
    requires r2 != "" ==> !IsDigit(r2[0]) && !IsLetter(r2[0])
    ensures ExponentEnd(t + r2, i) == ExponentEnd(t + r, i)
  {
    hide Run;
    var s, s2 := t + r, t + r2;
    if i < |t| && (s[i] == 'e' || s[i] == 'E') {
      var j := SignEnd(s, i + 1);
      assert j < |t|;
      assert SignEnd(s2, i + 1) == j;
      assert s[j..] == t[j..] + r;
      assert s2[j..] == t[j..] + r2;
      RunStable(t[j..], r, r2, IsDigit);
    }
  }

  lemma {:induction false} NumberStable(inRange: string -> bool, t: string, r: string, r2: string)
    requires NumberExtent(inRange, t + r) == Extent(|t|, true)
    requires r2 != "" ==> !IsIdentifierPart(r2[0]) && (Run(t + r, IsDigit) == |t| ==> r2[0] != '.')
    ensures NumberExtent(inRange, t + r2) == Extent(|t|, true)
  {
    hide Run, FractionEnd, ExponentEnd;
    var s, s2 := t + r, t + r2;
    var d := Run(s, IsDigit);
    var f := FractionEnd(s, d);
    RunStable(t, r, r2, IsDigit);
    FractionStable(t, r, r2, d);
    ExponentStable(t, r, r2, f.len);
    assert s[..|t|] == t == s2[..|t|];
  }

  /** The scanner passes over one piece in one go. */
  lemma {:induction false} PieceScans(p: Piece, rest: string)
    requires ValidPiece(p)
    ensures var r := StringExtent(rest);
            StringExtent(PieceText(p) + rest) == Extent(|PieceText(p)| + r.len, r.ok)
  {
    hide EscapeExtent, DecodeEscape;
    var s := PieceText(p) + rest;
    if p.Plain? {
      assert s[1..] == rest;
    } else {
      PieceDecodes(p, rest);
      var e := PieceText(p)[1..] + rest;
      assert s[1..] == e && e[..|e|] == e;
      DecodedEscapeScans(e, |e|);
      assert s[|PieceText(p)|..] == rest;
    }
  }

  /** The documented spelling of a string literal is scanned whole, whatever follows it. */
  lemma {:induction false} PiecesScan(ps: seq<Piece>, tail: string)
    requires ValidPieces(ps)
    ensures StringExtent(Text(ps) + ['"'] + tail) == Extent(|Text(ps)| + 1, true)
  {
    hide StringExtent, PieceText, ValidPiece;
    if ps == [] {
      OnlyQuote(tail);
      assert Text(ps) + ['"'] + tail == ['"'] + tail;
    } else {
      var rest := Text(ps[1..]) + ['"'] + tail;
      assert Text(ps) + ['"'] + tail == PieceText(ps[0]) + rest;
      PiecesScan(ps[1..], tail);
      PieceScans(ps[0], rest);
    }
  }

  lemma {:induction false} OnlyQuote(tail: string)
    ensures StringExtent(['"'] + tail) == Extent(1, true)
  {
  }

  lemma {:induction false} StringStable(t: string, r: string, r2: string)
    requires StringExtent(t + r) == Extent(|t|, true)
    ensures StringExtent(t + r2) == Extent(|t|, true)
  {
    hide StringExtent, Text;
    var ps := AcceptedHasPieces(t + r);
    assert (t + r)[..|t|] == t;
    PiecesScan(ps, r2);
  }

  /** A token scanned without error is scanned the same before any text it does not absorb. */
  lemma {:induction false} StepStable(inRange: string -> bool, t: string, r: string, r2: string)
    requires t != ""
    requires var st := CodeStep(inRange, t + r); st.len == |t| && st.kind.Some? && st.ok
    requires EndsBefore(CodeStep(inRange, t + r).kind.value, r2)
    ensures CodeStep(inRange, t + r2) == CodeStep(inRange, t + r)
  {
    hide NumberExtent, StringExtent, SingleQuotedExtent, Run, IsCanonicalOperator;
    var s, s2 := t + r, t + r2;
    var c := t[0];
    assert s[0] == c && s2[0] == c;
    assert |t| > 1 ==> s[1] == t[1] == s2[1];
    if IsLineBreak(c) {
    } else if IsIdentifierStart(c) {
      RunStable(t, r, r2, IsIdentifierPart);
      assert s[..|t|] == t == s2[..|t|];
    } else if IsDigit(c) {
      NumberStable(inRange, t, r, r2);
    } else if c == '"' {
      assert s[1..] == t[1..] + r;
      assert s2[1..] == t[1..] + r2;
      StringStable(t[1..], r, r2);
    } else if Punctuation(c).Some? {
    } else {
      RunStable(t, r, r2, IsOperatorChar);
      assert s[..|t|] == t == s2[..|t|];
    }
  }

  // ------------------------------------------------------------------ the same next character

  /** Nothing decides about a token beyond the character after it. */
  predicate SameFront(r: string, r2: string) {
    if r == "" then r2 == "" else r2 != "" && r2[0] == r[0]
  }

  lemma {:induction false} NumberFollow(inRange: string -> bool, t: string, r: string)
    requires NumberExtent(inRange, t + r) == Extent(|t|, true) && r != ""
    ensures !IsIdentifierPart(r[0]) && (Run(t + r, IsDigit) == |t| ==> r[0] != '.')
  {
    var s := t + r;
    assert s[|t|] == r[0];
    var d := Run(s, IsDigit);
    var f := FractionEnd(s, d);
    var x := ExponentEnd(s, f.len);
    if IsDigit(r[0]) {
      DigitsRun(s, d, f.len, x.len);
    }
  }

  /** A number does not stop in front of a digit. */
  lemma {:induction false} DigitsRun(s: string, d: nat, f: nat, x: nat)
    requires d == Run(s, IsDigit) && FractionEnd(s, d) == Extent(f, true) && ExponentEnd(s, f) == Extent(x, true)
    ensures x < |s| ==> !IsDigit(s[x])
  {
    if x > f {
      var j := SignEnd(s, f + 1);
      assert x < |s| ==> s[x] == s[j..][x - j];
    } else if f > d {
      assert f < |s| ==> s[f] == s[d + 1..][f - d - 1];
    }
  }

  lemma {:induction false} StepStableSame(inRange: string -> bool, t: string, r: string, r2: string)
    requires t != "" && SameFront(r, r2)
    requires var st := CodeStep(inRange, t + r); st.len == |t| && st.kind.Some? && st.ok
    ensures CodeStep(inRange, t + r2) == CodeStep(inRange, t + r)
  {
    hide NumberExtent, StringExtent, SingleQuotedExtent, Run, IsCanonicalOperator;
    var s, s2 := t + r, t + r2;
    var c := t[0];
    assert s[0] == c && s2[0] == c && (r != "" ==> s[|t|] == r[0]);
    assert |t| > 1 ==> s[1] == t[1] == s2[1];
    if IsLineBreak(c) {
    } else if IsIdentifierStart(c) {
      RunStable(t, r, r2, IsIdentifierPart);
      assert s[..|t|] == t == s2[..|t|];
    } else if IsDigit(c) {
      if r != "" {
        NumberFollow(inRange, t, r);
      }
      NumberStable(inRange, t, r, r2);
    } else if c == '"' {
      assert s[1..] == t[1..] + r;
      assert s2[1..] == t[1..] + r2;
      StringStable(t[1..], r, r2);
    } else if Punctuation(c).Some? {
    } else {
      RunStable(t, r, r2, IsOperatorChar);
      assert s[..|t|] == t == s2[..|t|];
    }
  }

  // ------------------------------------------------------------------ spellings

  /** How a token of this kind is written; only a newline has two forms. */
  function SpellingOf(kind: Kind): (text: string) {
    match kind
    case Identifier(name) => name
    case Number(spelling) => spelling
    case StringLiteral(spelling) => spelling
    case Operator(text) => text
    case Semicolon => ";"
    case Comma => ","
    case OpenCurly => "{"
    case CloseCurly => "}"
    case OpenRound => "("
    case CloseRound => ")"
    case OpenSquare => "["
    case CloseSquare => "]"
    case Newline => "\n"
    case End => ""
  }

  /** The source text of a token is its spelling. */
  predicate IsSpelled(source: string, t: Token) {
    t.kind != Newline && t.kind != End ==> t.start <= t.end <= |source| && source[t.start..t.end] == SpellingOf(t.kind)
  }

  ghost predicate Spelled(source: string, tokens: seq<Token>) {
    forall k :: 0 <= k < |tokens| ==> IsSpelled(source, tokens[k])
  }

  lemma {:induction false} StepSpells(inRange: string -> bool, s: string, mode: Mode)
    requires s != ""
    ensures var st := LexStep(inRange, s, mode);
            st.kind.Some? && st.kind.value != Newline ==> s[..st.len] == SpellingOf(st.kind.value)
  {
    hide NumberExtent, StringExtent, SingleQuotedExtent;
  }

  lemma {:induction false} LexSpells(inRange: string -> bool, source: string, mode: Mode, base: nat)
    requires base <= |source|
    ensures Spelled(source, Lex(inRange, source[base..], mode, base).tokens)
    decreases |source| - base
  {
    hide LexStep, Spelled, Emitted;
    var s := source[base..];
    if s == "" {
      NothingSpelled(source);
    } else {
      var st := LexStep(inRange, s, mode);
      assert s[st.len..] == source[base + st.len..];
      LexSpells(inRange, source, st.mode, base + st.len);
      EmittedSpelled(inRange, source, mode, base);
      SpelledConcat(source, Emitted(st, base), Lex(inRange, source[base + st.len..], st.mode, base + st.len).tokens);
    }
  }

  lemma {:induction false} NothingSpelled(source: string)
    ensures Spelled(source, [])
  {
  }

  lemma {:induction false} EmittedSpelled(inRange: string -> bool, source: string, mode: Mode, base: nat)
    requires base < |source|
    ensures Spelled(source, Emitted(LexStep(inRange, source[base..], mode), base))
  {
    hide LexStep;
    var s := source[base..];
    StepSpells(inRange, s, mode);
    var st := LexStep(inRange, s, mode);
    assert s[..st.len] == source[base..base + st.len];
  }

  lemma {:induction false} SpelledConcat(source: string, a: seq<Token>, b: seq<Token>)
    requires Spelled(source, a) && Spelled(source, b)
    ensures Spelled(source, a + b)
  {
    hide IsSpelled;
  }

  lemma {:induction false} AllSpelled(inRange: string -> bool, source: string)
    ensures Spelled(source, Lex(inRange, source, Code, 0).tokens)
  {
    hide Lex;
    LexSpells(inRange, source, Code, 0);
    assert source[0..] == source;
  }
}
