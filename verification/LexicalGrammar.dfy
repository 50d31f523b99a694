/** The published lexical rules, and that the scanner follows them: a text is one token of a kind exactly if the rules
    spell that kind so. */
module LexicalGrammar {
  import opened Tokens
  import opened Lexing
  import opened StringLiterals
  import opened LexFacts

  // ------------------------------------------------------------------ the rules

  predicate IsInteger(s: string) {
    s != "" && forall i :: 0 <= i < |s| ==> IsDigit(s[i])
  }

  datatype Exponent = Exponent(mark: char, sign: string, digits: string)

  /** A number literal: an integer, possibly a fraction, possibly an exponent. */
  datatype Numeral = Numeral(integer: string, fraction: Option<string>, exponent: Option<Exponent>)

  predicate ValidExponent(x: Exponent) {
    (x.mark == 'e' || x.mark == 'E') && (x.sign == "" || x.sign == "+" || x.sign == "-") && IsInteger(x.digits)
  }

  predicate ValidNumeral(n: Numeral) {
    && IsInteger(n.integer) && (n.fraction.Some? ==> IsInteger(n.fraction.value))
    && (n.exponent.Some? ==> ValidExponent(n.exponent.value))
  }

  function FractionText(f: Option<string>): (s: string) {
    if f.None? then "" else ['.'] + f.value
  }

  function ExponentText(x: Option<Exponent>): (s: string) {
    if x.None? then "" else [x.value.mark] + x.value.sign + x.value.digits
  }

  function NumeralText(n: Numeral): (s: string) {
    n.integer + FractionText(n.fraction) + ExponentText(n.exponent)
  }

  predicate IsIdentifierText(s: string) {
    s != "" && IsIdentifierStart(s[0]) && forall i :: 0 <= i < |s| ==> IsIdentifierPart(s[i])
  }

  ghost predicate IsNumberText(s: string) {
    exists n :: ValidNumeral(n) && NumeralText(n) == s
  }

  ghost predicate IsStringText(s: string) {
    exists ps :: ValidPieces(ps) && ['"'] + Text(ps) + ['"'] == s
  }

  /** The rules spell a token of this kind so. */
  ghost predicate WellSpelled(inRange: string -> bool, kind: Kind, s: string) {
    match kind
    case Identifier(name) => name == s && IsIdentifierText(s)
    case Number(spelling) => spelling == s && IsNumberText(s) && inRange(s)
    case StringLiteral(spelling) => spelling == s && IsStringText(s)
    case Operator(text) => text == s && IsCanonicalOperator(s) && s != "~"
    case Newline => s == "\n" || s == "\r\n"
    case End => false
    case _ => s == SpellingOf(kind)
  }

  // ------------------------------------------------------------------ numbers

  lemma {:induction false} RunOfAll(s: string, rest: string, p: char -> bool)
    requires forall i :: 0 <= i < |s| ==> p(s[i])
    requires rest != "" ==> !p(rest[0])
    ensures Run(s + rest, p) == |s|
  {
    RunIs(s + rest, p, |s|);
  }

  lemma {:induction false} ExponentReads(front: string, x: Option<Exponent>)
    requires x.Some? ==> ValidExponent(x.value)
    ensures ExponentEnd(front + ExponentText(x), |front|) == Extent(|front + ExponentText(x)|, true)
  {
    var s := front + ExponentText(x);
    if x.Some? {
      var e := x.value;
      var i := |front|;
      assert s[i] == e.mark;
      var j := i + 1 + |e.sign|;
      assert s[j..] == e.digits + "";
      assert |e.sign| == 1 ==> s[i + 1] == e.sign[0];
      assert s[j] == e.digits[0];
      assert SignEnd(s, i + 1) == j;
      RunOfAll(e.digits, "", IsDigit);
    }
  }

  lemma {:induction false} DottedReads(integer: string, digits: string, rest: string)
    requires IsInteger(digits) && (rest != "" ==> !IsDigit(rest[0]))
    ensures FractionEnd(integer + (['.'] + (digits + rest)), |integer|) == Extent(|integer| + 1 + |digits|, true)
  {
    hide Run;
    var t := digits + rest;
    var s, i := integer + (['.'] + t), |integer|;
    assert s[i] == '.' && s[i + 1] == t[0] == digits[0];
    assert s[i + 1..] == t;
    RunOfAll(digits, rest, IsDigit);
  }

  lemma {:induction false} FractionReads(integer: string, f: Option<string>, rest: string)
    requires f.Some? ==> IsInteger(f.value)
    requires rest != "" ==> rest[0] != '.' && !IsDigit(rest[0])
    ensures var s := integer + FractionText(f) + rest;
      FractionEnd(s, |integer|) == Extent(|integer + FractionText(f)|, true)
  {
    var s := integer + FractionText(f) + rest;
    if f.Some? {
      assert s == integer + (['.'] + (f.value + rest));
      hide FractionEnd, IsInteger;
      DottedReads(integer, f.value, rest);
    } else {
      assert s == integer + rest;
      hide Run;
    }
  }

  lemma {:induction false} NumberReads(inRange: string -> bool, n: Numeral)
    requires ValidNumeral(n)
    ensures var s := NumeralText(n); s != "" && IsDigit(s[0]) && NumberExtent(inRange, s) == Extent(|s|, inRange(s))
  {
    var s := NumeralText(n);
    var tail := FractionText(n.fraction) + ExponentText(n.exponent);
    assert s == n.integer + tail;
    assert IsDigit(s[0]) by { assert s[0] == n.integer[0]; }
    assert n.exponent.Some? ==> ExponentText(n.exponent)[0] == n.exponent.value.mark;
    assert tail != "" ==> !IsDigit(tail[0]) by {
      assert n.fraction.Some? ==> tail[0] == '.';
      assert n.fraction.None? ==> tail == ExponentText(n.exponent);
    }
    RunOfAll(n.integer, tail, IsDigit);
    FractionReads(n.integer, n.fraction, ExponentText(n.exponent));
    ExponentReads(n.integer + FractionText(n.fraction), n.exponent);
    assert s[..|s|] == s;
    hide Run, FractionEnd, ExponentEnd, FractionText, ExponentText;
  }

  /** The parts of a scanned number. */
  lemma {:induction false} NumberHasParts(inRange: string -> bool, s: string) returns (n: Numeral)
    requires s != "" && IsDigit(s[0]) && NumberExtent(inRange, s) == Extent(|s|, true)
    ensures ValidNumeral(n) && NumeralText(n) == s
  {
    hide FractionEnd, ExponentEnd, FractionText, ExponentText, ValidExponent;
    var i := Run(s, IsDigit);
    assert i > 0 && IsInteger(s[..i]);
    hide Run, IsInteger;
    var f := FractionEnd(s, i).len;
    var fraction := FractionParts(s, i);
    var exponent := ExponentParts(s, f);
    n := Numeral(s[..i], fraction, exponent);
    ThreeParts(s, i, f);
  }

  lemma {:induction false} ThreeParts(s: string, i: nat, f: nat)
    requires i <= f <= |s|
    ensures s[..i] + s[i..f] + s[f..] == s
  {
  }

  lemma {:induction false} FractionParts(s: string, i: nat) returns (f: Option<string>)
    requires i <= |s| && FractionEnd(s, i).ok
    ensures (f.Some? ==> IsInteger(f.value)) && FractionText(f) == s[i..FractionEnd(s, i).len]
  {
    f := None;
    if i < |s| && s[i] == '.' {
      var n := Run(s[i + 1..], IsDigit);
      f := Some(s[i + 1..i + 1 + n]);
      assert forall k :: 0 <= k < n ==> s[i + 1..][k] == f.value[k];
      assert s[i + 1..][0] == s[i + 1];
    }
  }

  lemma {:induction false} ExponentParts(s: string, i: nat) returns (x: Option<Exponent>)
    requires i <= |s| && ExponentEnd(s, i) == Extent(|s|, true)
    ensures (x.Some? ==> ValidExponent(x.value)) && ExponentText(x) == s[i..]
  {
    x := None;
    if i < |s| && (s[i] == 'e' || s[i] == 'E') {
      var j := SignEnd(s, i + 1);
      x := Some(Exponent(s[i], s[i + 1..j], s[j..]));
      assert forall k :: 0 <= k < |s[j..]| ==> IsDigit(s[j..][k]);
      assert s[i..] == [s[i]] + s[i + 1..j] + s[j..];
    }
  }

  // ------------------------------------------------------------------ strings

  lemma {:induction false} PiecesScan(ps: seq<Piece>)
    requires ValidPieces(ps)
    ensures StringExtent(Text(ps) + ['"']) == Extent(|Text(ps)| + 1, true)
  {
    hide ValidPiece, PieceText, StringExtent;
    if ps != [] {
      PiecesScan(ps[1..]);
      assert Text(ps) + ['"'] == PieceText(ps[0]) + (Text(ps[1..]) + ['"']);
      PieceScans(ps[0], Text(ps[1..]) + ['"']);
    } else {
      EmptyScans();
    }
  }

  lemma {:induction false} EmptyScans()
    ensures StringExtent("" + ['"']) == Extent(1, true)
  {
    assert "" + ['"'] == ['"'];
  }

  lemma {:induction false} PieceScans(p: Piece, tail: string)
    requires ValidPiece(p)
    ensures var r := StringExtent(tail);
      StringExtent(PieceText(p) + tail) == Extent(|PieceText(p)| + r.len, r.ok)
  {
    hide EscapeExtent, DecodeEscape;
    var t := PieceText(p);
    var s := t + tail;
    if p.Plain? {
      assert s[0] == p.c && s[1..] == tail;
      hide ValidPiece;
    } else {
      assert s[0] == '\\' && t[0] == '\\';
      PieceDecodes(p, tail);
      hide ValidPiece, PieceText;
      var u := t[1..] + tail;
      assert s[1..] == u && u[..|u|] == u;
      DecodedEscapeScans(u, |u|);
      assert s[1 + (|t| - 1)..] == tail;
    }
  }

  // ------------------------------------------------------------------ one token

  /** The scanner takes the whole text as one token of this kind. */
  predicate Scans(inRange: string -> bool, kind: Kind, s: string) {
    s != "" && CodeStep(inRange, s) == Step(|s|, Some(kind), Code, true)
  }

  lemma {:induction false} IdentifierScans(inRange: string -> bool, name: string, s: string)
    ensures Scans(inRange, Identifier(name), s) <==> WellSpelled(inRange, Identifier(name), s)
  {
    hide NumberExtent, StringExtent, SingleQuotedExtent, OperatorStep, Run;
    if s != "" {
      assert s[..|s|] == s;
      if Scans(inRange, Identifier(name), s) {
        StepStarts(inRange, s);
      }
      if IsIdentifierText(s) {
        RunIs(s, IsIdentifierPart, |s|);
      }
    }
  }

  lemma {:induction false} NumberScans(inRange: string -> bool, spelling: string, s: string)
    ensures Scans(inRange, Number(spelling), s) <==> WellSpelled(inRange, Number(spelling), s)
  {
    hide NumberExtent, StringExtent, SingleQuotedExtent, OperatorStep, Run, ValidNumeral, NumeralText;
    if Scans(inRange, Number(spelling), s) {
      StepStarts(inRange, s);
      assert s[..|s|] == s;
      var n := NumberHasParts(inRange, s);
      NumberReads(inRange, n);
    } else if IsNumberText(s) {
      var n :| ValidNumeral(n) && NumeralText(n) == s;
      NumberReads(inRange, n);
      assert s[..|s|] == s;
    }
  }

  lemma {:induction false} StringScans(inRange: string -> bool, spelling: string, s: string)
    ensures Scans(inRange, StringLiteral(spelling), s) <==> WellSpelled(inRange, StringLiteral(spelling), s)
  {
    hide NumberExtent, StringExtent, SingleQuotedExtent, OperatorStep, Run, ValidPieces, Text;
    if Scans(inRange, StringLiteral(spelling), s) {
      StepStarts(inRange, s);
      assert s[..|s|] == s;
      var u := s[1..];
      var ps := AcceptedHasPieces(u);
      assert u[..|u|] == u && s == ['"'] + u;
      assert ['"'] + (Text(ps) + ['"']) == ['"'] + Text(ps) + ['"'];
    } else if IsStringText(s) {
      var ps :| ValidPieces(ps) && ['"'] + Text(ps) + ['"'] == s;
      PiecesScan(ps);
      assert s[1..] == Text(ps) + ['"'] && s[..|s|] == s;
    }
  }

  lemma {:induction false} OperatorChars(s: string)
    requires IsCanonicalOperator(s)
    ensures 1 <= |s| <= 2 && forall i :: 0 <= i < |s| ==> IsOperatorChar(s[i])
    ensures s[0] == '/' && |s| > 1 ==> s[1] == '='
  {
  }

  lemma {:induction false} OperatorScans(inRange: string -> bool, text: string, s: string)
    ensures Scans(inRange, Operator(text), s) <==> WellSpelled(inRange, Operator(text), s)
  {
    hide NumberExtent, StringExtent, SingleQuotedExtent, Run, IsCanonicalOperator;
    assert s[..|s|] == s;
    if Scans(inRange, Operator(text), s) {
      StepStarts(inRange, s);
    }
    if IsCanonicalOperator(s) {
      OperatorChars(s);
      RunIs(s, IsOperatorChar, |s|);
    }
  }

  lemma {:induction false} MarkScans(inRange: string -> bool, kind: Kind, s: string)
    requires !kind.Identifier? && !kind.Number? && !kind.StringLiteral? && !kind.Operator?
    ensures Scans(inRange, kind, s) <==> WellSpelled(inRange, kind, s)
  {
    hide NumberExtent, StringExtent, SingleQuotedExtent, Run, IsCanonicalOperator;
    if s != "" && |s| == 1 {
      assert s == [s[0]];
    }
  }

  /** The scanner takes a text as one clean token of a kind exactly if the lexical rules spell that kind so. */
  lemma {:induction false} TokenIsSpelled(inRange: string -> bool, kind: Kind, s: string)
    ensures Scans(inRange, kind, s) <==> WellSpelled(inRange, kind, s)
  {
    hide Scans, WellSpelled;
    match kind
    case Identifier(name) => IdentifierScans(inRange, name, s);
    case Number(spelling) => NumberScans(inRange, spelling, s);
    case StringLiteral(spelling) => StringScans(inRange, spelling, s);
    case Operator(text) => OperatorScans(inRange, text, s);
    case _ => MarkScans(inRange, kind, s);
  }

  /** Behind a well-spelled token any text may follow that the token does not absorb. */
  lemma {:induction false} SpelledScansBefore(inRange: string -> bool, kind: Kind, s: string, rest: string)
    requires WellSpelled(inRange, kind, s) && EndsBefore(kind, rest) && s != ""
    ensures CodeStep(inRange, s + rest) == Step(|s|, Some(kind), Code, true)
  {
    hide CodeStep, WellSpelled, EndsBefore;
    TokenIsSpelled(inRange, kind, s);
    assert s + "" == s;
    StepStable(inRange, s, "", rest);
  }
}
