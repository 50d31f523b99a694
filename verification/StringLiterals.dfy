/** The string-literal decoder used for tool-call hints, and its agreement with the lexer.

    The decoder walks the literal's text on its own, long after the lexer scanned it. The reference
    for both is the documented shape of a string literal: a sequence of plain characters, short
    escapes, four-digit escapes and braced escapes. */
module StringLiterals {
  import opened Tokens
  import opened Lexing

  // ------------------------------------------------------------------ reference

  /** One element of a string literal as the lexical grammar spells it. */
  datatype Piece = Plain(c: char) | Short(letter: char) | Four(hex: string) | Braced(hex: string)

  predicate ValidPiece(p: Piece) {
    match p
    case Plain(c) => c != '"' && c != '\\' && !IsLineBreak(c)
    case Short(letter) => letter == '"' || letter == '\\' || letter == 'n' || letter == 'r' || letter == 't'
    case Four(hex) => |hex| == 4 && AllHex(hex) && IsScalar(HexValue(hex))
    case Braced(hex) => 1 <= |hex| <= 6 && AllHex(hex) && IsScalar(HexValue(hex))
  }

  predicate ValidPieces(ps: seq<Piece>) {
    forall i :: 0 <= i < |ps| ==> ValidPiece(ps[i])
  }

  function PieceText(p: Piece): (s: string)
    ensures s != ""
  {
    match p
    case Plain(c) => [c]
    case Short(letter) => ['\\', letter]
    case Four(hex) => ['\\', 'u'] + hex
    case Braced(hex) => ['\\', 'u', '{'] + hex + ['}']
  }

  function ShortValue(letter: char): (c: char) {
    if letter == 'n' then '\n' else if letter == 'r' then '\r' else if letter == 't' then '\t' else letter
  }

  function ScalarChar(v: nat): (c: char)
    requires IsScalar(v)
  {
    v as char
  }

  function PieceValue(p: Piece): (c: char)
    requires ValidPiece(p)
  {
    match p
    case Plain(c) => c
    case Short(letter) => ShortValue(letter)
    case Four(hex) => ScalarChar(HexValue(hex))
    case Braced(hex) => ScalarChar(HexValue(hex))
  }

  /** The short escapes and what they stand for. */
  const ESCAPES := map['"' := '"', '\\' := '\\', 'n' := '\U{000A}', 'r' := '\U{000D}', 't' := '\U{0009}']

  lemma {:induction false} ShortEscapes(letter: char)
    ensures ValidPiece(Short(letter)) <==> letter in ESCAPES
    ensures letter in ESCAPES ==> PieceValue(Short(letter)) == ESCAPES[letter]
  {
  }

  const DIGITS := "0123456789abcdef"

  /** The number in `n` hexadecimal digits. */
  function Hex(v: nat, n: nat): (s: string)
    ensures |s| == n
  {
    if n == 0 then "" else Hex(v / 16, n - 1) + [DIGITS[v % 16]]
  }

  function Power16(n: nat): (p: nat) {
    if n == 0 then 1 else 16 * Power16(n - 1)
  }

  lemma {:induction false} DigitValue(d: nat)
    requires d < 16
    ensures IsHexDigit(DIGITS[d]) && HexDigit(DIGITS[d]) == d
  {
    assert DIGITS[0] == '0' && DIGITS[1] == '1' && DIGITS[2] == '2' && DIGITS[3] == '3' && DIGITS[4] == '4';
    assert DIGITS[5] == '5' && DIGITS[6] == '6' && DIGITS[7] == '7' && DIGITS[8] == '8' && DIGITS[9] == '9';
    assert DIGITS[10] == 'a' && DIGITS[11] == 'b' && DIGITS[12] == 'c' && DIGITS[13] == 'd' && DIGITS[14] == 'e';
    assert DIGITS[15] == 'f';
  }

  /** Reading the digits of a number gives the number. */
  lemma {:induction false} HexReadsBack(v: nat, n: nat)
    requires v < Power16(n)
    ensures AllHex(Hex(v, n)) && HexValue(Hex(v, n)) == v
    decreases n
  {
    if n > 0 {
      HexReadsBack(v / 16, n - 1);
      DigitValue(v % 16);
      var s := Hex(v, n);
      assert s[..|s| - 1] == Hex(v / 16, n - 1);
    }
  }

  /** Every scalar can be written as an escape that decodes to it. */
  lemma {:induction false} ScalarsHaveEscapes(v: nat)
    requires IsScalar(v)
    ensures ValidPiece(Braced(Hex(v, 6))) && PieceValue(Braced(Hex(v, 6))) == v as char
    ensures v < 0x10000 ==> ValidPiece(Four(Hex(v, 4))) && PieceValue(Four(Hex(v, 4))) == v as char
  {
    hide Hex, HexValue, AllHex;
    assert Power16(6) == 0x1000000 && Power16(4) == 0x10000;
    HexReadsBack(v, 6);
    if v < 0x10000 {
      HexReadsBack(v, 4);
    }
  }

  function Text(ps: seq<Piece>): (s: string) {
    if ps == [] then "" else PieceText(ps[0]) + Text(ps[1..])
  }

  function Values(ps: seq<Piece>): (s: string)
    requires ValidPieces(ps)
  {
    if ps == [] then "" else [PieceValue(ps[0])] + Values(ps[1..])
  }

  // ------------------------------------------------------------------ decoder

  /** Characters taken by an escape and the character it stands for. */
  datatype Escape = Escape(len: nat, value: char)

  /** The digits of a braced escape, as the decoder collects them one by one. */
  function BracedDigits(s: string, digits: string): (r: Option<string>)
    decreases |s|
  {
    if s == "" then None
    else if s[0] == '}' then Some(digits)
    else if !IsHexDigit(s[0]) || |digits| >= 6 then None
    else BracedDigits(s[1..], digits + [s[0]])
  }

  function ScalarOf(hex: string): (r: Option<char>)
    requires AllHex(hex)
  {
    if IsScalar(HexValue(hex)) then Some(ScalarChar(HexValue(hex))) else None
  }

  lemma {:induction false} BracedDigitsAre(s: string, digits: string)
    requires |digits| <= 6
    ensures var d := Run(s, IsHexDigit);
            BracedDigits(s, digits) ==
            if d < |s| && s[d] == '}' && |digits| + d <= 6 then Some(digits + s[..d]) else None
    decreases |s|
  {
    if s != "" && s[0] != '}' && IsHexDigit(s[0]) {
      if |digits| < 6 {
        BracedDigitsAre(s[1..], digits + [s[0]]);
        var d := Run(s[1..], IsHexDigit);
        assert digits + [s[0]] + s[1..][..d] == digits + s[..1 + d];
      }
    } else {
      assert digits + s[..0] == digits;
    }
  }

  function DecodeUnicode(s: string): (r: Option<Escape>)
    ensures r.Some? ==> r.value.len <= |s|
  {
    if s == "" then None
    else if s[0] == '{' then
      BracedDigitsAre(s[1..], "");
      match BracedDigits(s[1..], "")
      case None => None
      case Some(digits) =>
        if digits == "" then None
        else
          assert digits == s[1..][..|digits|];
          match ScalarOf(digits)
          case None => None
          case Some(c) => Some(Escape(|digits| + 2, c))
    else if |s| < 4 || !AllHex(s[..4]) then None
    else match ScalarOf(s[..4])
      case None => None
      case Some(c) => Some(Escape(4, c))
  }

  function DecodeEscape(s: string): (r: Option<Escape>)
    ensures r.Some? ==> 1 <= r.value.len <= |s|
  {
    if s == "" then None
    else if s[0] == '"' || s[0] == '\\' || s[0] == 'n' || s[0] == 'r' || s[0] == 't' then
      Some(Escape(1, ShortValue(s[0])))
    else if s[0] == 'u' then
      match DecodeUnicode(s[1..])
      case None => None
      case Some(e) => Some(Escape(1 + e.len, e.value))
    else None
  }

  function DecodeContent(s: string): (r: Option<string>)
    decreases |s|
  {
    if s == "" then Some("")
    else if s[0] != '\\' then
      match DecodeContent(s[1..])
      case None => None
      case Some(rest) => Some([s[0]] + rest)
    else
      match DecodeEscape(s[1..])
      case None => None
      case Some(e) =>
        match DecodeContent(s[1 + e.len..])
        case None => None
        case Some(rest) => Some([e.value] + rest)
  }

  /** Strips the quotes, then decodes; `None` is a literal the decoder gives up on. */
  function DecodeLiteral(text: string): (r: Option<string>) {
    if |text| >= 2 && text[0] == '"' && text[|text| - 1] == '"' then DecodeContent(text[1..|text| - 1]) else None
  }

  function Prepend(front: string, r: Option<string>): (o: Option<string>) {
    if r.Some? then Some(front + r.value) else None
  }

  /** The decoder's loop. */
  method Decode(text: string) returns (r: Option<string>)
    ensures r == DecodeLiteral(text)
  {
    if |text| < 2 || text[0] != '"' || text[|text| - 1] != '"' {
      return None;
    }
    var content := text[1..|text| - 1];
    var decoded := "";
    var i := 0;
    assert content[0..] == content;
    PrependNothing(DecodeContent(content));
    while i < |content|
      invariant 0 <= i <= |content|
      invariant DecodeContent(content) == Prepend(decoded, DecodeContent(content[i..]))
    {
      ghost var rest := content[i..];
      ghost var before := decoded;
      if content[i] != '\\' {
        decoded := decoded + [content[i]];
        i := i + 1;
        assert content[i..] == rest[1..];
        assert DecodeContent(rest) == Prepend([rest[0]], DecodeContent(rest[1..]));
        PrependTwice(before, [rest[0]], DecodeContent(rest[1..]));
      } else {
        assert content[i + 1..] == rest[1..];
        var escape := ReadEscape(content, i + 1);
        if escape.None? {
          return None;
        }
        decoded := decoded + [escape.value.value];
        i := i + 1 + escape.value.len;
        assert content[i..] == rest[1 + escape.value.len..];
        assert DecodeContent(rest) == Prepend([escape.value.value], DecodeContent(content[i..]));
        PrependTwice(before, [escape.value.value], DecodeContent(content[i..]));
      }
    }
    assert decoded + "" == decoded;
    return Some(decoded);
  }

  method ReadEscape(content: string, at: nat) returns (r: Option<Escape>)
    requires at <= |content|
    ensures r == DecodeEscape(content[at..])
  {
    hide DecodeUnicode;
    ghost var s := content[at..];
    if at == |content| {
      return None;
    }
    var c := content[at];
    assert c == s[0];
    if c == '"' || c == '\\' || c == 'n' || c == 'r' || c == 't' {
      return Some(Escape(1, ShortValue(c)));
    }
    if c != 'u' {
      return None;
    }
    var e := ReadUnicodeEscape(content, at + 1);
    assert content[at + 1..] == s[1..];
    r := if e.Some? then Some(Escape(1 + e.value.len, e.value.value)) else None;
  }

  method ReadUnicodeEscape(content: string, at: nat) returns (r: Option<Escape>)
    requires at <= |content|
    ensures r == DecodeUnicode(content[at..])
  {
    if at == |content| {
      return None;
    }
    ghost var s := content[at..];
    var digits := "";
    if content[at] == '{' {
      var d := ReadBracedDigits(content, at + 1);
      assert content[at + 1..] == s[1..];
      BracedDigitsAre(s[1..], "");
      if d.None? || d.value == "" {
        return None;
      }
      digits := d.value;
      assert digits == s[1..][..|digits|];
      var c := ScalarOf(digits);
      r := if c.Some? then Some(Escape(|digits| + 2, c.value)) else None;
    } else {
      while |digits| < 4
        invariant |digits| <= 4 && |digits| <= |s| && digits == s[..|digits|] && AllHex(digits)
      {
        if at + |digits| == |content| || !IsHexDigit(content[at + |digits|]) {
          assert |s| < 4 || !IsHexDigit(s[..4][|digits|]);
          return None;
        }
        digits := digits + [content[at + |digits|]];
      }
      var c := ScalarOf(digits);
      r := if c.Some? then Some(Escape(4, c.value)) else None;
    }
  }

  method ReadBracedDigits(content: string, at: nat) returns (r: Option<string>)
    requires at <= |content|
    ensures r == BracedDigits(content[at..], "")
  {
    var digits := "";
    var i := at;
    while i < |content|
      invariant at <= i <= |content|
      invariant BracedDigits(content[at..], "") == BracedDigits(content[i..], digits)
    {
      ghost var rest := content[i..];
      var c := content[i];
      if c == '}' {
        return Some(digits);
      }
      if !IsHexDigit(c) || |digits| >= 6 {
        return None;
      }
      digits := digits + [c];
      i := i + 1;
      assert content[i..] == rest[1..];
    }
    return None;
  }

  lemma {:induction false} PrependNothing(r: Option<string>)
    ensures Prepend("", r) == r
  {
    if r.Some? {
      assert "" + r.value == r.value;
    }
  }

  lemma {:induction false} PrependTwice(a: string, b: string, r: Option<string>)
    ensures Prepend(a, Prepend(b, r)) == Prepend(a + b, r)
  {
    if r.Some? {
      assert a + (b + r.value) == a + b + r.value;
    }
  }

  // ------------------------------------------------------------------ agreement

  /** Decoding an escape from any prefix of the text commits the scanner to the same escape. */
  lemma {:induction false} DecodedEscapeScans(s: string, n: nat)
    requires n <= |s| && DecodeEscape(s[..n]).Some?
    ensures EscapeExtent(s) == Extent(DecodeEscape(s[..n]).value.len, true)
  {
    hide DecodeUnicode, UnicodeExtent;
    if s[0] == 'u' {
      assert s[..n][1..] == s[1..][..n - 1];
      DecodedUnicodeScans(s[1..], n - 1);
    }
  }

  lemma {:induction false} DecodedUnicodeScans(u: string, n: nat)
    requires n <= |u| && DecodeUnicode(u[..n]).Some?
    ensures UnicodeExtent(u) == Extent(DecodeUnicode(u[..n]).value.len, true)
  {
    hide HexValue, Run, BracedDigits;
    var p := u[..n];
    if p[0] == '{' {
      BracedDigitsAre(p[1..], "");
      var d := Run(p[1..], IsHexDigit);
      RunIs(u[1..], IsHexDigit, d);
      assert u[1 + d..][0] == p[1..][d] == '}';
      assert u[1..][..d] == p[1..][..d] == "" + p[1..][..d];
    } else {
      assert u[..4] == p[..4];
      RunAtLeast(u, IsHexDigit, 4, 4);
    }
  }

  /** A literal with a reported error is one the decoder gives up on, wherever the scan stopped. */
  lemma {:induction false} RejectedDoesNotDecode(s: string)
    requires !StringExtent(s).ok
    requires var n := StringExtent(s).len; n > 0 && s[n - 1] == '"'
    ensures DecodeContent(s[..StringExtent(s).len - 1]) == None
    decreases |s|
  {
    hide EscapeExtent, DecodeEscape;
    var n := StringExtent(s).len;
    var content := s[..n - 1];
    if s[0] == '\\' {
      var x := EscapeExtent(s[1..]);
      var rest := s[1 + x.len..];
      var r := StringExtent(rest);
      if n > 1 {
        assert content[1..] == s[1..][..n - 2];
        if DecodeEscape(content[1..]).Some? {
          DecodedEscapeScans(s[1..], n - 2);
          if r.len > 0 {
            assert rest[r.len - 1] == s[n - 1];
            RejectedDoesNotDecode(rest);
            assert content[1 + x.len..] == rest[..r.len - 1];
          }
        }
      }
    } else {
      var r := StringExtent(s[1..]);
      if r.len > 0 {
        RejectedDoesNotDecode(s[1..]);
        assert content[1..] == s[1..][..r.len - 1];
      }
    }
  }

  /** A literal scanned without error is the text of a valid piece sequence and its closing quote. */
  lemma {:induction false} AcceptedHasPieces(s: string) returns (ps: seq<Piece>)
    requires StringExtent(s).ok
    ensures ValidPieces(ps) && s[..StringExtent(s).len] == Text(ps) + ['"']
    decreases |s|
  {
    hide EscapeExtent, ValidPiece, PieceText;
    if s[0] == '"' {
      ps := [];
    } else {
      var p := FirstPiece(s);
      var n := |PieceText(p)|;
      var rest := AcceptedHasPieces(s[n..]);
      ps := [p] + rest;
      assert ps[1..] == rest;
      var r := StringExtent(s[n..]);
      assert s[..n + r.len] == s[..n] + s[n..][..r.len];
      assert s[..n + r.len] == PieceText(p) + Text(rest) + ['"'];
    }
  }

  lemma {:induction false} FirstPiece(s: string) returns (p: Piece)
    requires StringExtent(s).ok && s[0] != '"'
    ensures ValidPiece(p)
    ensures var n := |PieceText(p)|;
            && n <= |s| && s[..n] == PieceText(p)
            && StringExtent(s[n..]).ok && StringExtent(s).len == n + StringExtent(s[n..]).len
  {
    if s[0] == '\\' {
      hide EscapeExtent;
      p := EscapePiece(s[1..]);
      assert s[..1 + EscapeExtent(s[1..]).len] == ['\\'] + s[1..][..EscapeExtent(s[1..]).len];
    } else {
      p := Plain(s[0]);
    }
  }

  lemma {:induction false} EscapePiece(s: string) returns (p: Piece)
    requires EscapeExtent(s).ok
    ensures ValidPiece(p) && PieceText(p) == ['\\'] + s[..EscapeExtent(s).len]
  {
    if s[0] == 'u' {
      hide UnicodeExtent, ValidPiece, PieceText;
      p := UnicodePiece(s[1..]);
      assert s[..EscapeExtent(s).len] == ['u'] + s[1..][..UnicodeExtent(s[1..]).len];
    } else {
      p := Short(s[0]);
    }
  }

  lemma {:induction false} UnicodePiece(u: string) returns (p: Piece)
    requires UnicodeExtent(u).ok
    ensures ValidPiece(p) && PieceText(p) == ['\\', 'u'] + u[..UnicodeExtent(u).len]
  {
    hide HexValue, Run;
    if u[0] == '{' {
      var d := Run(u[1..], IsHexDigit);
      p := Braced(u[1..][..d]);
      assert u[1 + d..] != [] && u[1 + d..][0] == u[1 + d] == '}';
      assert u[..2 + d] == ['{'] + u[1..][..d] + ['}'];
    } else {
      p := Four(u[..4]);
    }
  }

  /** Every documented spelling decodes to the characters it stands for. */
  lemma {:induction false} PiecesDecode(ps: seq<Piece>)
    requires ValidPieces(ps)
    ensures DecodeContent(Text(ps)) == Some(Values(ps))
  {
    if ps != [] {
      PiecesDecode(ps[1..]);
      var t := Text(ps);
      var p := ps[0];
      assert t == PieceText(p) + Text(ps[1..]);
      if p.Plain? {
        assert t[1..] == Text(ps[1..]);
      } else {
        PieceDecodes(p, Text(ps[1..]));
        assert t[1..] == PieceText(p)[1..] + Text(ps[1..]);
        assert t[|PieceText(p)|..] == Text(ps[1..]);
      }
    }
  }

  lemma {:induction false} PieceDecodes(p: Piece, tail: string)
    requires ValidPiece(p) && !p.Plain?
    ensures DecodeEscape(PieceText(p)[1..] + tail) == Some(Escape(|PieceText(p)| - 1, PieceValue(p)))
  {
    hide HexValue, DecodeUnicode;
    var s := PieceText(p)[1..] + tail;
    match p
    case Short(_) =>
    case Four(hex) =>
      assert s[1..] == hex + tail;
      FourDecodes(hex, tail);
    case Braced(hex) =>
      assert s[1..] == ['{'] + hex + ['}'] + tail;
      BracedDecodes(hex, tail);
  }

  lemma {:induction false} FourDecodes(hex: string, tail: string)
    requires ValidPiece(Four(hex))
    ensures DecodeUnicode(hex + tail) == Some(Escape(4, PieceValue(Four(hex))))
  {
    hide HexValue;
    assert (hex + tail)[..4] == hex;
    assert IsHexDigit(hex[0]);
  }

  lemma {:induction false} BracedDecodes(hex: string, tail: string)
    requires ValidPiece(Braced(hex))
    ensures DecodeUnicode(['{'] + hex + ['}'] + tail) == Some(Escape(|hex| + 2, PieceValue(Braced(hex))))
  {
    hide HexValue, Run, BracedDigits;
    var u := ['{'] + hex + ['}'] + tail;
    var v := hex + ['}'] + tail;
    assert u[1..] == v;
    RunIs(v, IsHexDigit, |hex|);
    BracedDigitsAre(v, "");
    assert "" + v[..|hex|] == hex;
  }

  /** A body scanned without error decodes, between its quotes, to what its pieces stand for. */
  lemma {:induction false} AcceptedDecodes(s: string) returns (ps: seq<Piece>)
    requires StringExtent(s).ok
    ensures ValidPieces(ps)
    ensures var text := ['"'] + s[..StringExtent(s).len];
            text == ['"'] + Text(ps) + ['"'] && DecodeLiteral(text) == Some(Values(ps))
  {
    hide StringExtent, DecodeContent, Text, Values;
    ps := AcceptedHasPieces(s);
    PiecesDecode(ps);
    var text := ['"'] + s[..StringExtent(s).len];
    assert text[1..|text| - 1] == Text(ps);
  }

  /** The lexer reports no error for a string literal exactly when the decoder succeeds on its text. */
  lemma {:induction false} ScannerAgreement(inRange: string -> bool, s: string)
    requires s != "" && s[0] == '"'
    ensures var st := CodeStep(inRange, s);
            st.kind == Some(StringLiteral(s[..st.len])) && (st.ok <==> DecodeLiteral(s[..st.len]).Some?)
  {
    hide StringExtent, DecodeContent;
    var e := StringExtent(s[1..]);
    var text := s[..1 + e.len];
    assert text == ['"'] + s[1..][..e.len];
    if e.ok {
      var _ := AcceptedDecodes(s[1..]);
    } else if e.len > 0 && s[e.len] == '"' {
      RejectedDoesNotDecode(s[1..]);
      assert text[1..|text| - 1] == s[1..][..e.len - 1];
    }
  }

  /** For a literal the lexer accepts, the decoder returns the characters its pieces stand for. */
  lemma {:induction false} DecodedValue(inRange: string -> bool, s: string) returns (ps: seq<Piece>)
    requires s != "" && s[0] == '"' && CodeStep(inRange, s).ok
    ensures ValidPieces(ps)
    ensures s[..CodeStep(inRange, s).len] == ['"'] + Text(ps) + ['"']
    ensures DecodeLiteral(s[..CodeStep(inRange, s).len]) == Some(Values(ps))
  {
    hide StringExtent, DecodeLiteral, Text, Values;
    ps := AcceptedDecodes(s[1..]);
    var e := StringExtent(s[1..]);
    assert s[..1 + e.len] == ['"'] + s[1..][..e.len];
  }
}
