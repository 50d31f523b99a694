/** The hand-written profile lexer: an index moved over the source by one scanning method per
    token class, proved against the step functions of `Lexing`. */
module ProfileLexer {
  import opened Tokens
  import opened Lexing

  class Lexer {
    const source: string
    const maxTokens: nat
    const inRange: string -> bool
    var index: nat
    var tokens: seq<Token>
    var clean: bool
    // Every token and verdict so far, before the token limit cut them.
    ghost var all: Lexed

    constructor (source: string, maxTokens: nat, inRange: string -> bool)
      ensures Valid() && index == 0 && all == Lexed([], true)
      ensures this.source == source && this.maxTokens == maxTokens && this.inRange == inRange
    {
      this.source := source;
      this.maxTokens := maxTokens;
      this.inRange := inRange;
      index := 0;
      tokens := [];
      clean := true;
      all := Lexed([], true);
    }

    ghost predicate Valid()
      reads this
    {
      && index <= |source|
      && Lexed(tokens, clean) == Limited(all, maxTokens)
    }

    /** The state after performing step `st` from position `at` with history `before`. */
    ghost predicate Did(at: nat, before: Lexed, st: Step)
      reads this
    {
      && Valid()
      && index == at + st.len
      && all == Lexed(before.tokens + Emitted(st, at), before.clean && st.ok)
    }

    method Report()
      requires Valid()
      modifies this`clean, this`all
      ensures Valid() && all == Lexed(old(all.tokens), false)
    {
      clean := false;
      all := Lexed(all.tokens, false);
    }

    method Emit(kind: Kind, start: nat)
      requires Valid()
      requires start <= index
      modifies this`tokens, this`clean, this`all
      ensures Valid()
      ensures all == Lexed(old(all.tokens) + [Token(kind, start, index)], old(all.clean))
    {
      if |tokens| >= maxTokens {
        clean := false;
      } else {
        tokens := tokens + [Token(kind, start, index)];
      }
      all := Lexed(all.tokens + [Token(kind, start, index)], all.clean);
    }

    method SkipRun(p: char -> bool)
      requires Valid()
      modifies this`index
      ensures Valid() && index == old(index) + Run(source[old(index)..], p)
    {
      ghost var start := index;
      while index < |source| && p(source[index])
        invariant start <= index <= |source|
        invariant forall i :: 0 <= i < index - start ==> p(source[start..][i])
      {
        index := index + 1;
      }
      RunIs(source[start..], p, index - start);
    }

    method EmitSingle(kind: Kind)
      requires Valid() && index < |source|
      modifies this
      ensures Did(old(index), old(all), Step(1, Some(kind), Code, true))
    {
      var start := index;
      index := index + 1;
      Emit(kind, start);
    }

    method EmitLineBreak(ghost mode: Mode)
      requires Valid() && index < |source| && IsLineBreak(source[index])
      modifies this
      ensures Did(old(index), old(all), LineBreakStep(source[old(index)..], mode))
    {
      var start := index;
      if source[index] == '\n' {
        index := index + 1;
        Emit(Newline, start);
      } else if index + 1 < |source| && source[index + 1] == '\n' {
        index := index + 2;
        Emit(Newline, start);
      } else {
        Report();
        index := index + 1;
      }
    }

    method ScanIdentifier()
      requires Valid() && index < |source| && IsIdentifierStart(source[index])
      modifies this
      ensures Did(old(index), old(all), CodeStep(inRange, source[old(index)..]))
    {
      var start := index;
      SkipRun(IsIdentifierPart);
      assert source[start..][..index - start] == source[start..index];
      Emit(Identifier(source[start..index]), start);
    }

    method ScanNumber()
      requires Valid() && index < |source| && IsDigit(source[index])
      modifies this
      ensures Did(old(index), old(all), NumberStep(inRange, source[old(index)..]))
    {
      hide Limited, FractionEnd, ExponentEnd;
      var start := index;
      ghost var s := source[start..];
      SkipRun(IsDigit);
      ScanFraction(s, index - start, start);
      ScanExponent(s, index - start, start);
      FinishNumber(s, start);
      assert s[..index - start] == source[start..index];
    }

    /** Suffix and range checks, then the token itself. */
    method FinishNumber(ghost s: string, start: nat)
      requires Valid() && start <= index && s == source[start..]
      modifies this
      ensures Valid() && index == old(index)
      ensures var ok := NoSuffix(s, index - start) && inRange(s[..index - start]);
              all == Lexed(old(all.tokens) + [Token(Number(source[start..index]), start, index)], old(all.clean) && ok)
    {
      if index < |source| && IsIdentifierStart(source[index]) {
        Report();
      }
      assert s[..index - start] == source[start..index];
      if !inRange(source[start..index]) {
        Report();
      }
      Emit(Number(source[start..index]), start);
    }

    method ScanFraction(ghost s: string, ghost at: nat, ghost start: nat)
      requires Valid() && start <= |source| && s == source[start..] && at <= |s| && index == start + at
      modifies this
      ensures Valid() && index == start + FractionEnd(s, at).len
      ensures all == Lexed(old(all.tokens), old(all.clean) && FractionEnd(s, at).ok)
    {
      if index < |source| && source[index] == '.' {
        if index + 1 < |source| && IsDigit(source[index + 1]) {
          index := index + 1;
          assert source[index..] == s[at + 1..];
          SkipRun(IsDigit);
        } else {
          Report();
        }
      }
    }

    method ScanExponent(ghost s: string, ghost at: nat, ghost start: nat)
      requires Valid() && start <= |source| && s == source[start..] && at <= |s| && index == start + at
      modifies this
      ensures Valid() && index == start + ExponentEnd(s, at).len
      ensures all == Lexed(old(all.tokens), old(all.clean) && ExponentEnd(s, at).ok)
    {
      if index < |source| && (source[index] == 'e' || source[index] == 'E') {
        index := index + 1;
        if index < |source| && (source[index] == '+' || source[index] == '-') {
          index := index + 1;
        }
        ghost var j := SignEnd(s, at + 1);
        assert index == start + j;
        if index < |source| && IsDigit(source[index]) {
          assert source[index..] == s[j..];
          SkipRun(IsDigit);
        } else {
          Report();
        }
      }
    }

    method ScanString()
      requires Valid() && index < |source| && source[index] == '"'
      modifies this
      ensures Did(old(index), old(all), CodeStep(inRange, source[old(index)..]))
    {
      var start := index;
      index := index + 1;
      assert source[index..] == source[start..][1..];
      ScanStringBody();
      assert source[start..][..index - start] == source[start..index];
      Emit(StringLiteral(source[start..index]), start);
    }

    /** Everything after the opening quote. */
    method ScanStringBody()
      requires Valid()
      modifies this
      ensures var e := StringExtent(source[old(index)..]);
              && Valid() && index == old(index) + e.len
              && all == Lexed(old(all.tokens), old(all.clean) && e.ok)
    {
      hide EscapeExtent, Limited;
      var terminated := false;
      ghost var whole := StringExtent(source[index..]);
      while index < |source|
        invariant old(index) <= index <= |source| && Valid() && all.tokens == old(all.tokens) && !terminated
        invariant index + StringExtent(source[index..]).len == old(index) + whole.len
        invariant (old(all.clean) && whole.ok) == (all.clean && StringExtent(source[index..]).ok)
        decreases |source| - index
      {
        if source[index] == '"' {
          index := index + 1;
          terminated := true;
          break;
        } else if source[index] == '\\' {
          ScanEscape();
        } else if IsLineBreak(source[index]) {
          Report();
          return;
        } else {
          ghost var rest := source[index..];
          index := index + 1;
          assert source[index..] == rest[1..];
        }
      }
      if !terminated {
        Report();
      }
    }

    /** A backslash and its escape sequence. */
    method ScanEscape()
      requires Valid() && index < |source| && source[index] == '\\'
      modifies this
      ensures Valid() && index > old(index) && all.tokens == old(all.tokens)
      ensures var before := StringExtent(source[old(index)..]);
              var after := StringExtent(source[index..]);
              && old(index) + before.len == index + after.len
              && (old(all.clean) && before.ok) == (all.clean && after.ok)
    {
      hide EscapeExtent, Limited;
      ghost var rest := source[index..];
      index := index + 1;
      assert source[index..] == rest[1..];
      ghost var x := EscapeExtent(rest[1..]);
      ScanEscapeSequence();
      assert source[index..] == rest[1 + x.len..];
    }

    method ScanEscapeSequence()
      requires Valid()
      modifies this
      ensures var e := EscapeExtent(source[old(index)..]);
              && Valid() && index == old(index) + e.len
              && all == Lexed(old(all.tokens), old(all.clean) && e.ok)
    {
      if index == |source| {
        Report();
        return;
      }
      ghost var s := source[index..];
      if source[index] == '"' || source[index] == '\\' || source[index] == 'n' || source[index] == 'r' ||
        source[index] == 't' {
        index := index + 1;
      } else if source[index] == 'u' {
        index := index + 1;
        assert source[index..] == s[1..];
        ScanUnicodeEscape();
      } else {
        Report();
        index := index + 1;
      }
    }

    method ScanUnicodeEscape()
      requires Valid()
      modifies this
      ensures var e := UnicodeExtent(source[old(index)..]);
              && Valid() && index == old(index) + e.len
              && all == Lexed(old(all.tokens), old(all.clean) && e.ok)
    {
      if index < |source| && source[index] == '{' {
        ScanBracedEscape();
      } else {
        ScanFourDigitEscape();
      }
    }

    method ScanBracedEscape()
      requires Valid() && index < |source| && source[index] == '{'
      modifies this
      ensures var e := UnicodeExtent(source[old(index)..]);
              && Valid() && index == old(index) + e.len
              && all == Lexed(old(all.tokens), old(all.clean) && e.ok)
    {
      hide Limited, HexValue, BracedRest;
      ghost var s := source[index..];
      index := index + 1;
      assert source[index..] == s[1..];
      var digits, value := ScanHexDigits();
      assert source[index..] == s[1 + digits..];
      FinishBracedEscape(digits, 1 <= digits <= 6 && IsScalar(value));
    }

    method FinishBracedEscape(digits: nat, scalar: bool)
      requires Valid()
      modifies this
      ensures var e := BracedRest(source[old(index)..], digits, scalar);
              && Valid() && index == old(index) + e.len
              && all == Lexed(old(all.tokens), old(all.clean) && e.ok)
    {
      hide Limited;
      if !(1 <= digits <= 6) || index == |source| || source[index] != '}' {
        Report();
        SkipRun(IsSkipped);
      } else if !scalar {
        Report();
      }
      if index < |source| && source[index] == '}' {
        index := index + 1;
      }
    }

    /** A run of hexadecimal digits: how many, and the value of the first six. */
    method ScanHexDigits() returns (digits: nat, value: nat)
      requires Valid()
      modifies this`index
      ensures Valid() && index == old(index) + digits
      ensures digits == Run(source[old(index)..], IsHexDigit)
      ensures AllHex(source[old(index)..][..digits])
      ensures 1 <= digits <= 6 ==> value == HexValue(source[old(index)..][..digits])
    {
      ghost var start := index;
      ghost var s := source[index..];
      digits, value := 0, 0;
      while index < |source| && IsHexDigit(source[index])
        invariant start <= index <= |source| && digits == index - start
        invariant AllHex(s[..digits])
        invariant digits <= 6 ==> value == HexValue(s[..digits])
      {
        if digits < 6 {
          value := 16 * value + HexDigit(source[index]);
        }
        assert s[..digits + 1][..digits] == s[..digits];
        digits := digits + 1;
        index := index + 1;
      }
      assert forall i :: 0 <= i < digits ==> s[i] == s[..digits][i];
      RunIs(s, IsHexDigit, digits);
    }

    method ScanFourDigitEscape()
      requires Valid() && !(index < |source| && source[index] == '{')
      modifies this
      ensures var e := UnicodeExtent(source[old(index)..]);
              && Valid() && index == old(index) + e.len
              && all == Lexed(old(all.tokens), old(all.clean) && e.ok)
    {
      ghost var start := index;
      ghost var s := source[index..];
      var digits, value := 0, 0;
      while digits < 4 && index < |source| && IsHexDigit(source[index])
        invariant start <= index <= |source| && digits == index - start <= 4
        invariant AllHex(s[..digits]) && value == HexValue(s[..digits])
        invariant Valid() && all == old(all)
      {
        value := 16 * value + HexDigit(source[index]);
        assert s[..digits + 1][..digits] == s[..digits];
        digits := digits + 1;
        index := index + 1;
      }
      RunAtLeast(s, IsHexDigit, digits, 4);
      if digits != 4 || !IsScalar(value) {
        Report();
      }
    }

    method ScanSingleQuotedString()
      requires Valid() && index < |source| && source[index] == '\''
      modifies this
      ensures Did(old(index), old(all), CodeStep(inRange, source[old(index)..]))
    {
      hide Limited;
      ghost var start := index;
      ghost var n := SingleQuotedExtent(source[start..][1..]);
      Report();
      index := index + 1;
      assert source[index..] == source[start..][1..];
      while index < |source|
        invariant start < index <= |source| && Valid() && all == Lexed(old(all.tokens), false)
        invariant index + SingleQuotedExtent(source[index..]) == start + 1 + n
        decreases |source| - index
      {
        ghost var rest := source[index..];
        if IsLineBreak(source[index]) {
          return;
        }
        var c := source[index];
        index := index + 1;
        assert source[index..] == rest[1..];
        if c == '\\' {
          if index < |source| {
            index := index + 1;
            assert source[index..] == rest[2..];
          }
        } else if c == '\'' {
          return;
        }
      }
    }

    method ScanOperator()
      requires Valid() && index < |source| && IsOperatorChar(source[index])
      modifies this
      ensures Did(old(index), old(all), OperatorStep(source[old(index)..]))
    {
      var start := index;
      SkipRun(IsOperatorChar);
      assert source[start..][..index - start] == source[start..index];
      var text := source[start..index];
      if text != "~" && IsCanonicalOperator(text) {
        Emit(Operator(text), start);
      } else {
        Report();
      }
    }

    /** The block-comment loop runs the comment modes to the end of the comment or of the text. */
    method SkipBlockComment(ghost full: Lexed)
      requires Valid() && index + 1 < |source| && source[index] == '/' && source[index + 1] == '*'
      requires Ahead(full, Code)
      modifies this
      ensures Valid() && index > old(index)
      ensures Ahead(full, Code)
    {
      OpenBlockComment(full);
      hide LexStep, Lex, Limited;
      var mode := Comment;
      while index < |source| && mode != Code
        invariant old(index) < index <= |source| && Valid()
        invariant Ahead(full, mode)
        decreases |source| - index
      {
        mode := CommentTurn(full, mode);
      }
      if mode != Code {
        AtEnd(full, mode);
        Report();
        AtEnd(full, Code);
      }
    }

    method CommentTurn(ghost full: Lexed, mode: Mode) returns (next: Mode)
      requires Valid() && index < |source| && mode != Code && Ahead(full, mode)
      modifies this
      ensures Valid() && index > old(index) && Ahead(full, next)
    {
      hide LexStep, Lex, Limited;
      StepAhead(full, mode);
      next := CommentCharacter(mode);
    }

    method OpenBlockComment(ghost full: Lexed)
      requires Valid() && index + 1 < |source| && source[index] == '/' && source[index + 1] == '*'
      requires Ahead(full, Code)
      modifies this`index
      ensures Valid() && index == old(index) + 2
      ensures Ahead(full, Comment)
    {
      StepAhead(full, Code);
      assert LexStep(inRange, source[index..], Code) == Step(2, None, Comment, true);
      hide CodeStep;
      index := index + 2;
    }

    /** One turn of the block-comment loop; `CommentStar` is a pending terminator candidate. */
    method CommentCharacter(mode: Mode) returns (next: Mode)
      requires Valid() && index < |source| && mode != Code
      modifies this
      ensures Did(old(index), old(all), LexStep(inRange, source[old(index)..], mode))
      ensures next == LexStep(inRange, source[old(index)..], mode).mode
    {
      var c := source[index];
      if mode == CommentStar {
        index := index + 1;
        next := if c == '/' then Code else Comment;
      } else if c == '*' && index + 1 < |source| && source[index + 1] == '/' {
        index := index + 2;
        next := Code;
      } else if c == '*' {
        index := index + 1;
        next := CommentStar;
      } else if IsLineBreak(c) {
        EmitLineBreak(Comment);
        next := Comment;
      } else {
        index := index + 1;
        next := Comment;
      }
    }

    /** Finishing from here in `mode` gives the report `full`. At the end of the text an unfinished
        comment still has its diagnostic to report, which `full` already counts. */
    ghost predicate Ahead(full: Lexed, mode: Mode)
      reads this
    {
      && index <= |source|
      && var rest := Lex(inRange, source[index..], mode, index);
         && full.tokens == all.tokens + rest.tokens
         && full.clean == (all.clean && rest.clean)
    }

    /** At the end of the text nothing is left but the verdict on an open comment. */
    lemma AtEnd(full: Lexed, mode: Mode)
      requires index == |source|
      ensures Ahead(full, mode) <==> full == Lexed(all.tokens, all.clean && mode == Code)
    {
    }

    lemma StepAhead(full: Lexed, mode: Mode)
      requires index < |source| && Ahead(full, mode)
      ensures var st := LexStep(inRange, source[index..], mode);
              var rest := Lex(inRange, source[index + st.len..], st.mode, index + st.len);
              && full.tokens == all.tokens + Emitted(st, index) + rest.tokens
              && full.clean == (all.clean && st.ok && rest.clean)
    {
      hide LexStep, Limited;
      var st := LexStep(inRange, source[index..], mode);
      assert source[index..][st.len..] == source[index + st.len..];
    }

    /** The main loop: the whole report for the source, plus the closing `End` token. */
    method Tokenize()
      requires Valid() && index == 0 && all == Lexed([], true)
      modifies this
      ensures Tokenized(inRange, source, maxTokens).clean == clean
      ensures tokens == Tokenized(inRange, source, maxTokens).tokens + [Token(End, |source|, |source|)]
    {
      ghost var full := Lex(inRange, source, Code, 0);
      assert source[0..] == source;
      hide LexStep, Lex, Limited;
      while index < |source|
        invariant Valid() && Ahead(full, Code)
        decreases |source| - index
      {
        Turn(full);
      }
      AtEnd(full, Code);
      tokens := tokens + [Token(End, |source|, |source|)];
    }

    method Turn(ghost full: Lexed)
      requires Valid() && index < |source| && Ahead(full, Code)
      modifies this
      ensures Valid() && index > old(index) && Ahead(full, Code)
    {
      hide LexStep, Lex, Limited;
      if source[index] == '/' && index + 1 < |source| && source[index + 1] == '*' {
        SkipBlockComment(full);
      } else {
        StepAhead(full, Code);
        Dispatch();
      }
    }

    /** One step of the main loop outside block comments. */
    method Dispatch()
      requires Valid() && index < |source|
      requires !(source[index] == '/' && index + 1 < |source| && source[index + 1] == '*')
      modifies this
      ensures Did(old(index), old(all), LexStep(inRange, source[old(index)..], Code))
      ensures LexStep(inRange, source[old(index)..], Code).mode == Code
    {
      hide Limited, NumberExtent, StringExtent, SingleQuotedExtent;
      var c := source[index];
      ghost var s := source[index..];
      assert s[0] == c;
      if IsBlank(c) {
        index := index + 1;
      } else if IsLineBreak(c) {
        EmitLineBreak(Code);
      } else if c == '/' && index + 1 < |source| && source[index + 1] == '/' {
        index := index + 2;
        assert source[index..] == s[2..];
        SkipRun(IsCommentChar);
      } else if IsIdentifierStart(c) {
        ScanIdentifier();
      } else if IsDigit(c) {
        ScanNumber();
      } else if c == '"' {
        ScanString();
      } else if c == '\'' {
        ScanSingleQuotedString();
      } else if Punctuation(c).Some? {
        EmitSingle(Punctuation(c).value);
      } else if IsOperatorChar(c) {
        ScanOperator();
      } else {
        Report();
        index := index + 1;
      }
    }
  }
}
