/** A source that parses still parses with one more newline at its end: wherever a clean parse looks
    at the end of the source, a newline in its place changes no decision. */
module FinalNewline {
  import opened Tokens
  import opened Grammar
  import opened Recogniser

  /** `x` is `e` with a newline before the end. */
  ghost predicate Twin(e: Env, x: Env) {
    && ValidEnv(e) && x.maxNesting == e.maxNesting
    && x.ks == e.ks[..|e.ks| - 1] + [Newline, End]
    && forall i :: 0 <= i < |e.ks| - 1 ==> e.ks[i] != End
  }

  lemma {:induction false} Look(e: Env, x: Env, s: PS)
    requires Twin(e, x) && Ready(e, s)
    ensures Ready(x, s) && x.maxNesting == e.maxNesting
    ensures if s.index < |e.ks| - 1 then Cur(x, s) == Cur(e, s) != End else Cur(e, s) == End && Cur(x, s) == Newline
  {
  }

  lemma {:induction false} Step(e: Env, x: Env, s: PS)
    requires Twin(e, x) && Ready(e, s) && !At(e, s, End)
    ensures Ready(x, s) && Advance(x, s) == Advance(e, s)
  {
    Look(e, x, s);
  }

  lemma {:induction false} Want(e: Env, x: Env, s: PS, k: Kind)
    requires Twin(e, x) && Ready(e, s) && k != End && k != Newline && Expect(e, s, k).ok
    ensures Ready(x, s) && Expect(x, s, k) == Expect(e, s, k)
  {
    Look(e, x, s);
  }

  lemma {:induction false} WantName(e: Env, x: Env, s: PS)
    requires Twin(e, x) && Ready(e, s) && ExpectName(e, s).ok
    ensures Ready(x, s) && ExpectName(x, s) == ExpectName(e, s)
  {
    hide IsReserved;
    Look(e, x, s);
  }

  // ------------------------------------------------------------------ runs

  /** Ends are skipped alike, except that the new newline is skipped too. */
  lemma {:induction false} SkipEndsTwin(e: Env, x: Env, s: PS)
    requires Twin(e, x) && Ready(e, s)
    ensures Ready(x, s)
    ensures var r := SkipEnds(e, s);
            SkipEnds(x, s) == if At(e, r, End) then r.(index := r.index + 1) else r
    decreases Left(e, s)
  {
    hide Twin;
    Look(e, x, s);
    if AtEnds(e, s) {
      Step(e, x, s);
      SkipEndsTwin(e, x, Advance(e, s));
    } else if At(e, s, End) {
      EndsTwin(e, x, s);
    }
  }

  lemma {:induction false} EndsTwin(e: Env, x: Env, s: PS)
    requires Twin(e, x) && Ready(e, s) && At(e, s, End)
    ensures Ready(x, s) && SkipEnds(x, s) == s.(index := s.index + 1)
  {
    Look(e, x, s);
    var t := Advance(x, s);
    assert Cur(x, t) == End;
    assert SkipEnds(x, t) == t;
  }

  lemma {:induction false} SkipNewlinesTwin(e: Env, x: Env, s: PS)
    requires Twin(e, x) && Ready(e, s) && !At(e, SkipNewlines(e, s), End)
    ensures Ready(x, s) && SkipNewlines(x, s) == SkipNewlines(e, s)
    decreases Left(e, s)
  {
    hide Twin;
    Look(e, x, s);
    if At(e, s, Newline) {
      Step(e, x, s);
      SkipNewlinesTwin(e, x, Advance(e, s));
    }
  }

  lemma {:induction false} RequireStatementEndTwin(e: Env, x: Env, s: PS)
    requires Twin(e, x) && Ready(e, s) && RequireStatementEnd(e, s).ok
    ensures Ready(x, s)
    ensures var r := RequireStatementEnd(e, s);
            RequireStatementEnd(x, s) == if At(e, r, End) then r.(index := r.index + 1) else r
  {
    hide SkipEnds, SkipToBoundary, Twin;
    Look(e, x, s);
    SkipEndsTwin(e, x, s);
    if !AtEnds(e, s) && At(e, s, End) {
      assert SkipEnds(e, s) == s by { StopsAtEnd(e, s); }
    }
  }

  lemma {:induction false} StopsAtEnd(e: Env, s: PS)
    requires Ready(e, s) && At(e, s, End)
    ensures SkipEnds(e, s) == s
  {
  }

  // ------------------------------------------------------------------ statements

  lemma {:induction false} StatementsTwin(e: Env, x: Env, s: PS, value: bool)
    requires Twin(e, x) && Ready(e, s) && Statements(e, s, value).s.ok && !At(e, Statements(e, s, value).s, End)
    ensures Ready(x, s) && Statements(x, s, value) == Statements(e, s, value)
    decreases Left(e, s), 40
  {
    hide Twin, OneStatement, SkipEnds, StartsNonValue;
    Look(e, x, s);
    if !(At(e, s, End) || At(e, s, CloseCurly)) {
      OneStatementTwin(e, x, s);
      StatementsTwin(e, x, OneStatement(e, s), !StartsNonValue(Cur(e, s)));
    }
  }

  lemma {:induction false} OneStatementTwin(e: Env, x: Env, s: PS)
    requires Twin(e, x) && Ready(e, s) && !At(e, s, End) && OneStatement(e, s).ok && !At(e, OneStatement(e, s), End)
    ensures Ready(x, s) && OneStatement(x, s) == OneStatement(e, s)
    decreases Left(e, s), 39
  {
    hide Twin, ParseStatement, RequireStatementEnd, SkipEnds;
    Look(e, x, s);
    var t := ParseStatement(e, s);
    ParseStatementTwin(e, x, s);
    RequireStatementEndTwin(e, x, t);
  }

  lemma {:induction false} ParseBlockTwin(e: Env, x: Env, s: PS)
    requires Twin(e, x) && Ready(e, s) && ParseBlock(e, s).ok
    ensures Ready(x, s) && ParseBlock(x, s) == ParseBlock(e, s)
    decreases Left(e, s), 10
  {
    hide Twin, Statements, SkipEnds;
    Look(e, x, s);
    var inner := s.(nesting := s.nesting + 1);
    Step(e, x, inner);
    var t := Advance(e, inner);
    SkipEndsTwin(e, x, t);
    var body := Statements(e, SkipEnds(e, t), false);
    Want(e, x, body.s, CloseCurly);
    StatementsFirst(e, SkipEnds(e, t));
    StatementsTwin(e, x, SkipEnds(e, t), false);
  }

  /** If the statements do not end the source, neither do the ends before them. */
  lemma {:induction false} StatementsFirst(e: Env, s: PS)
    requires Ready(e, s) && !At(e, Statements(e, s, false).s, End)
    ensures !At(e, s, End)
  {
    hide OneStatement;
  }

  lemma {:induction false} ParseStatementTwin(e: Env, x: Env, s: PS)
    requires Twin(e, x) && Ready(e, s) && !At(e, s, End) && ParseStatement(e, s).ok
    ensures Ready(x, s) && ParseStatement(x, s) == ParseStatement(e, s)
    decreases Left(e, s), 38
  {
    hide Twin, ParseImport, ParseDeclaration, ParseFunctionDeclaration, ParseExpression;
    Look(e, x, s);
    Step(e, x, s);
    var t := Advance(e, s);
    if AtWord(e, s, "use") {
      ParseImportTwin(e, x, t);
    } else if AtWord(e, s, "let") {
      ParseDeclarationTwin(e, x, t);
    } else if AtWord(e, s, "fn") {
      ParseFunctionDeclarationTwin(e, x, t);
    } else if AtWord(e, s, "return") {
      Look(e, x, t);
      if !AtStatementBoundary(e, t) {
        ParseExpressionTwin(e, x, t);
      }
    } else if !(AtWord(e, s, "break") || AtWord(e, s, "continue")) {
      ParseExpressionTwin(e, x, s);
    }
  }

  lemma {:induction false} ParseImportTwin(e: Env, x: Env, s: PS)
    requires Twin(e, x) && Ready(e, s) && ParseImport(e, s).ok
    ensures Ready(x, s) && ParseImport(x, s) == ParseImport(e, s)
  {
    hide Twin, ImportPath, ExpectName;
    Look(e, x, s);
    Step(e, x, s);
    var t := Advance(e, s);
    Look(e, x, t);
    Step(e, x, t);
    var u := Advance(e, t);
    WantName(e, x, u);
    ImportPathTwin(e, x, ExpectName(e, u));
  }

  lemma {:induction false} ImportPathTwin(e: Env, x: Env, s: PS)
    requires Twin(e, x) && Ready(e, s) && ImportPath(e, s).ok
    ensures Ready(x, s) && ImportPath(x, s) == ImportPath(e, s)
    decreases Left(e, s), 1
  {
    hide Twin, ExpectName;
    Look(e, x, s);
    if AtOp(e, s, ".") {
      Step(e, x, s);
      WantName(e, x, Advance(e, s));
      ImportPathTwin(e, x, ExpectName(e, Advance(e, s)));
    }
  }

  lemma {:induction false} ParseDeclarationTwin(e: Env, x: Env, s: PS)
    requires Twin(e, x) && Ready(e, s) && ParseDeclaration(e, s).ok
    ensures Ready(x, s) && ParseDeclaration(x, s) == ParseDeclaration(e, s)
    decreases Left(e, s), 37
  {
    hide Twin, ExpectName, ParseExpression;
    Look(e, x, s);
    WantName(e, x, s);
    var t := ExpectName(e, s);
    Look(e, x, t);
    if AtOp(e, t, "=") {
      Step(e, x, t);
      ParseExpressionTwin(e, x, Advance(e, t));
    }
  }

  lemma {:induction false} ParseFunctionDeclarationTwin(e: Env, x: Env, s: PS)
    requires Twin(e, x) && Ready(e, s) && ParseFunctionDeclaration(e, s).ok
    ensures Ready(x, s) && ParseFunctionDeclaration(x, s) == ParseFunctionDeclaration(e, s)
    decreases Left(e, s), 37
  {
    hide Twin, ExpectName, ParseParameterList, ParseBlock;
    Look(e, x, s);
    WantName(e, x, s);
    var t := ExpectName(e, s);
    ParseParameterListTwin(e, x, t);
    ParseBlockTwin(e, x, ParseParameterList(e, t));
  }

  lemma {:induction false} ParseParameterListTwin(e: Env, x: Env, s: PS)
    requires Twin(e, x) && Ready(e, s) && ParseParameterList(e, s).ok
    ensures Ready(x, s) && ParseParameterList(x, s) == ParseParameterList(e, s)
  {
    hide Twin, Parameters;
    Look(e, x, s);
    Step(e, x, s);
    var t := Advance(e, s);
    Look(e, x, t);
    if At(e, t, CloseRound) {
      Step(e, x, t);
    } else {
      ParametersTwin(e, x, t);
    }
  }

  lemma {:induction false} ParametersTwin(e: Env, x: Env, s: PS)
    requires Twin(e, x) && Ready(e, s) && Parameters(e, s).ok
    ensures Ready(x, s) && Parameters(x, s) == Parameters(e, s)
    decreases Left(e, s), 1
  {
    hide Twin, ExpectName, Expect;
    Look(e, x, s);
    WantName(e, x, s);
    var t := ExpectName(e, s);
    Look(e, x, t);
    if At(e, t, Comma) {
      Step(e, x, t);
      Look(e, x, Advance(e, t));
      ParametersTwin(e, x, Advance(e, t));
    } else {
      Want(e, x, t, CloseRound);
    }
  }

  // ------------------------------------------------------------------ control expressions

  lemma {:induction false} ParseExpressionTwin(e: Env, x: Env, s: PS)
    requires Twin(e, x) && Ready(e, s) && ParseExpression(e, s).ok
    ensures Ready(x, s) && ParseExpression(x, s) == ParseExpression(e, s)
    decreases Left(e, s), 30
  {
    hide Twin, ExpressionBody;
    Look(e, x, s);
    ExpressionBodyTwin(e, x, s.(nesting := s.nesting + 1));
  }

  lemma {:induction false} ExpressionBodyTwin(e: Env, x: Env, s: PS)
    requires Twin(e, x) && Ready(e, s) && ExpressionBody(e, s).ok
    ensures Ready(x, s) && ExpressionBody(x, s) == ExpressionBody(e, s)
    decreases Left(e, s), 29
  {
    hide Twin, ParseIf, ParseTry, ParseFor, ParseBlock, ParseCondition, ParseBinary;
    Look(e, x, s);
    if AtWord(e, s, "if") {
      ParseIfTwin(e, x, s);
    } else if AtWord(e, s, "try") {
      ParseTryTwin(e, x, s);
    } else if AtWord(e, s, "for") {
      ParseForTwin(e, x, s);
    } else if AtWord(e, s, "loop") {
      Step(e, x, s);
      ParseBlockTwin(e, x, Advance(e, s));
    } else if AtWord(e, s, "while") {
      Step(e, x, s);
      ParseConditionTwin(e, x, Advance(e, s));
      ParseBlockTwin(e, x, ParseCondition(e, Advance(e, s)));
    } else {
      ParseBinaryTwin(e, x, s, 0);
    }
  }

  lemma {:induction false} ParseConditionTwin(e: Env, x: Env, s: PS)
    requires Twin(e, x) && Ready(e, s) && ParseCondition(e, s).ok
    ensures Ready(x, s) && ParseCondition(x, s) == ParseCondition(e, s)
    decreases Left(e, s), 28
  {
    hide Twin, ParseBinary;
    Look(e, x, s);
    ParseBinaryTwin(e, x, s, 0);
  }

  lemma {:induction false} ConditionOrFailTwin(e: Env, x: Env, s: PS)
    requires Twin(e, x) && Ready(e, s) && ConditionOrFail(e, s).ok
    ensures Ready(x, s) && ConditionOrFail(x, s) == ConditionOrFail(e, s)
    decreases Left(e, s), 29
  {
    hide Twin, ParseCondition;
    Look(e, x, s);
    ParseConditionTwin(e, x, s);
  }

  lemma {:induction false} ParseTryTwin(e: Env, x: Env, s: PS)
    requires Twin(e, x) && Ready(e, s) && !At(e, s, End) && ParseTry(e, s).ok
    ensures Ready(x, s) && ParseTry(x, s) == ParseTry(e, s)
    decreases Left(e, s), 28
  {
    hide Twin, TryArm;
    Look(e, x, s);
    Step(e, x, s);
    var t := Advance(e, s);
    TryArmTwin(e, x, t, true);
    var u := TryArm(e, t, true);
    Look(e, x, u);
    Step(e, x, u);
    TryArmTwin(e, x, Advance(e, u), false);
  }

  lemma {:induction false} TryArmTwin(e: Env, x: Env, s: PS, first: bool)
    requires Twin(e, x) && Ready(e, s) && TryArm(e, s, first).ok
    ensures Ready(x, s) && TryArm(x, s, first) == TryArm(e, s, first)
    decreases Left(e, s), 32
  {
    hide Twin, ParseTryBranch;
    Look(e, x, s);
    ParseTryBranchTwin(e, x, s);
  }

  lemma {:induction false} ParseTryBranchTwin(e: Env, x: Env, s: PS)
    requires Twin(e, x) && Ready(e, s) && ParseTryBranch(e, s).ok
    ensures Ready(x, s) && ParseTryBranch(x, s) == ParseTryBranch(e, s)
    decreases Left(e, s), 31
  {
    hide Twin, ParseExpression, ParseValueBlock;
    Look(e, x, s);
    if !At(e, s, OpenCurly) {
      ParseExpressionTwin(e, x, s);
    } else {
      ParseValueBlockTwin(e, x, s);
    }
  }

  lemma {:induction false} ParseValueBlockTwin(e: Env, x: Env, s: PS)
    requires Twin(e, x) && Ready(e, s) && At(e, s, OpenCurly) && ParseValueBlock(e, s).ok
    ensures Ready(x, s) && ParseValueBlock(x, s) == ParseValueBlock(e, s)
    decreases Left(e, s), 30
  {
    hide Twin, Statements, SkipEnds;
    Look(e, x, s);
    var inner := s.(nesting := s.nesting + 1);
    Step(e, x, inner);
    var t := Advance(e, inner);
    SkipEndsTwin(e, x, t);
    var body := Statements(e, SkipEnds(e, t), false);
    Look(e, x, body.s);
    Step(e, x, body.s);
    StatementsFirst(e, SkipEnds(e, t));
    StatementsTwin(e, x, SkipEnds(e, t), false);
  }

  lemma {:induction false} ParseIfTwin(e: Env, x: Env, s: PS)
    requires Twin(e, x) && Ready(e, s) && !At(e, s, End) && ParseIf(e, s).ok
    ensures Ready(x, s) && ParseIf(x, s) == ParseIf(e, s)
    decreases Left(e, s), 28
  {
    hide Twin, ConditionOrFail, ParseBranch, Elifs;
    Look(e, x, s);
    Step(e, x, s);
    var t := Advance(e, s);
    ConditionOrFailTwin(e, x, t);
    var u := ConditionOrFail(e, t);
    ParseBranchTwin(e, x, u);
    ElifsTwin(e, x, ParseBranch(e, u));
  }

  lemma {:induction false} ElifsTwin(e: Env, x: Env, s: PS)
    requires Twin(e, x) && Ready(e, s) && Elifs(e, s).ok
    ensures Ready(x, s) && Elifs(x, s) == Elifs(e, s)
    decreases Left(e, s), 1
  {
    hide Twin, ConditionOrFail, ParseBranch;
    Look(e, x, s);
    if AtWord(e, s, "elif") {
      Step(e, x, s);
      var t := Advance(e, s);
      ConditionOrFailTwin(e, x, t);
      var u := ConditionOrFail(e, t);
      ParseBranchTwin(e, x, u);
      ElifsTwin(e, x, ParseBranch(e, u));
    } else if AtWord(e, s, "else") {
      Step(e, x, s);
      ParseBranchTwin(e, x, Advance(e, s));
    }
  }

  lemma {:induction false} ParseBranchTwin(e: Env, x: Env, s: PS)
    requires Twin(e, x) && Ready(e, s) && ParseBranch(e, s).ok
    ensures Ready(x, s) && ParseBranch(x, s) == ParseBranch(e, s)
    decreases Left(e, s), 31
  {
    hide Twin, ParseBlock, ParseExpression;
    Look(e, x, s);
    if At(e, s, OpenCurly) {
      ParseBlockTwin(e, x, s);
    } else {
      ParseExpressionTwin(e, x, s);
    }
  }

  lemma {:induction false} ParseForTwin(e: Env, x: Env, s: PS)
    requires Twin(e, x) && Ready(e, s) && !At(e, s, End) && ParseFor(e, s).ok
    ensures Ready(x, s) && ParseFor(x, s) == ParseFor(e, s)
    decreases Left(e, s), 28
  {
    hide Twin, ForBindings, ConditionOrFail, ParseBlock;
    Look(e, x, s);
    Step(e, x, s);
    var b := ForBindings(e, Advance(e, s), 0);
    ForBindingsTwin(e, x, Advance(e, s), 0);
    Look(e, x, b.s);
    Step(e, x, b.s);
    var t := Advance(e, b.s);
    ConditionOrFailTwin(e, x, t);
    ParseBlockTwin(e, x, ConditionOrFail(e, t));
  }

  lemma {:induction false} ForBindingsTwin(e: Env, x: Env, s: PS, count: nat)
    requires Twin(e, x) && Ready(e, s) && ForBindings(e, s, count).s.ok
    ensures Ready(x, s) && ForBindings(x, s, count) == ForBindings(e, s, count)
    decreases Left(e, s), 1
  {
    hide Twin, ExpectName;
    Look(e, x, s);
    if !AtWord(e, s, "in") {
      WantName(e, x, s);
      var t := ExpectName(e, s);
      Look(e, x, t);
      if At(e, t, Comma) {
        Step(e, x, t);
        Look(e, x, Advance(e, t));
        ForBindingsTwin(e, x, Advance(e, t), count + 1);
      }
    }
  }

  // ------------------------------------------------------------------ operators

  lemma {:induction false} ParseBinaryTwin(e: Env, x: Env, s: PS, level: nat)
    requires Twin(e, x) && Ready(e, s) && level <= 7 && ParseBinary(e, s, level).ok
    ensures Ready(x, s) && ParseBinary(x, s, level) == ParseBinary(e, s, level)
    decreases Left(e, s), 27 - level
  {
    hide Twin, ParseUnary, BinaryTails;
    Look(e, x, s);
    if level == 7 {
      ParseUnaryTwin(e, x, s);
    } else {
      ParseBinaryTwin(e, x, s, level + 1);
      BinaryTailsTwin(e, x, ParseBinary(e, s, level + 1), level);
    }
  }

  lemma {:induction false} BinaryTailsTwin(e: Env, x: Env, s: PS, level: nat)
    requires Twin(e, x) && Ready(e, s) && level <= 6 && BinaryTails(e, s, level).ok
    ensures Ready(x, s) && BinaryTails(x, s, level) == BinaryTails(e, s, level)
    decreases Left(e, s), 1
  {
    hide Twin, ParseBinary, OperatorAt;
    Look(e, x, s);
    NoOperator(level);
    if OperatorAt(level, Cur(e, s)) {
      Step(e, x, s);
      ParseBinaryTwin(e, x, Advance(e, s), level + 1);
      BinaryTailsTwin(e, x, ParseBinary(e, Advance(e, s), level + 1), level);
    }
  }

  lemma {:induction false} NoOperator(level: nat)
    ensures !OperatorAt(level, End) && !OperatorAt(level, Newline)
  {
  }

  lemma {:induction false} ParseUnaryTwin(e: Env, x: Env, s: PS)
    requires Twin(e, x) && Ready(e, s) && ParseUnary(e, s).ok
    ensures Ready(x, s) && ParseUnary(x, s) == ParseUnary(e, s)
    decreases Left(e, s), 19
  {
    hide Twin, ParsePostfix;
    Look(e, x, s);
    if IsUnaryOperator(Cur(e, s)) {
      Step(e, x, s);
      ParsePostfixTwin(e, x, Advance(e, s));
    } else {
      ParsePostfixTwin(e, x, s);
    }
  }

  lemma {:induction false} ParsePostfixTwin(e: Env, x: Env, s: PS)
    requires Twin(e, x) && Ready(e, s) && ParsePostfix(e, s).ok
    ensures Ready(x, s) && ParsePostfix(x, s) == ParsePostfix(e, s)
    decreases Left(e, s), 18
  {
    hide Twin, ParsePrimary, Suffixes;
    Look(e, x, s);
    ParsePrimaryTwin(e, x, s);
    SuffixesTwin(e, x, ParsePrimary(e, s));
  }

  lemma {:induction false} SuffixesTwin(e: Env, x: Env, s: PS)
    requires Twin(e, x) && Ready(e, s) && Suffixes(e, s).ok
    ensures Ready(x, s) && Suffixes(x, s) == Suffixes(e, s)
    decreases Left(e, s), 1
  {
    hide Twin, ParseSuffix;
    Look(e, x, s);
    if StartsSuffix(Cur(e, s)) {
      ParseSuffixTwin(e, x, s);
      SuffixesTwin(e, x, ParseSuffix(e, s));
    }
  }

  lemma {:induction false} ParseSuffixTwin(e: Env, x: Env, s: PS)
    requires Twin(e, x) && Ready(e, s) && StartsSuffix(Cur(e, s)) && ParseSuffix(e, s).ok
    ensures Ready(x, s) && ParseSuffix(x, s) == ParseSuffix(e, s)
    decreases Left(e, s), 0, 1
  {
    hide Twin, ParseCall, ParseIndex, ExpectName;
    Look(e, x, s);
    if At(e, s, OpenRound) {
      ParseCallTwin(e, x, s);
    } else if AtOp(e, s, ".") {
      Step(e, x, s);
      WantName(e, x, Advance(e, s));
    } else {
      ParseIndexTwin(e, x, s);
    }
  }

  lemma {:induction false} ParseIndexTwin(e: Env, x: Env, s: PS)
    requires Twin(e, x) && Ready(e, s) && At(e, s, OpenSquare) && ParseIndex(e, s).ok
    ensures Ready(x, s) && ParseIndex(x, s) == ParseIndex(e, s)
    decreases Left(e, s), 0, 0
  {
    hide Twin, ParseExpression, Expect;
    Look(e, x, s);
    Step(e, x, s);
    var t := Advance(e, s);
    Look(e, x, t);
    ParseExpressionTwin(e, x, t);
    Want(e, x, ParseExpression(e, t), CloseSquare);
  }

  lemma {:induction false} ParseCallTwin(e: Env, x: Env, s: PS)
    requires Twin(e, x) && Ready(e, s) && At(e, s, OpenRound) && ParseCall(e, s).ok
    ensures Ready(x, s) && ParseCall(x, s) == ParseCall(e, s)
    decreases Left(e, s), 0, 0
  {
    hide Twin, Arguments;
    Look(e, x, s);
    Step(e, x, s);
    var t := Advance(e, s);
    Look(e, x, t);
    if At(e, t, CloseRound) {
      Step(e, x, t);
    } else {
      ArgumentsTwin(e, x, t, CloseRound);
    }
  }

  lemma {:induction false} ArgumentsTwin(e: Env, x: Env, s: PS, close: Kind)
    requires Twin(e, x) && Ready(e, s) && (close == CloseRound || close == CloseSquare) && Arguments(e, s, close).ok
    ensures Ready(x, s) && Arguments(x, s, close) == Arguments(e, s, close)
    decreases Left(e, s), 40
  {
    hide Twin, ParseExpression, Expect;
    Look(e, x, s);
    ParseExpressionTwin(e, x, s);
    var t := ParseExpression(e, s);
    Look(e, x, t);
    if At(e, t, Comma) {
      Step(e, x, t);
      Look(e, x, Advance(e, t));
      ArgumentsTwin(e, x, Advance(e, t), close);
    } else {
      Want(e, x, t, close);
    }
  }

  lemma {:induction false} ParsePrimaryTwin(e: Env, x: Env, s: PS)
    requires Twin(e, x) && Ready(e, s) && ParsePrimary(e, s).ok
    ensures Ready(x, s) && ParsePrimary(x, s) == ParsePrimary(e, s)
    decreases Left(e, s), 17
  {
    hide Twin, ParseArray, ParseRecord, ParseLambda, ParseExpression, Expect, IsReserved;
    Look(e, x, s);
    var k := Cur(e, s);
    if k.Number? || k.StringLiteral? || IsLiteralWord(k) || IsNameKind(k) {
      Step(e, x, s);
    } else if k == OpenSquare {
      ParseArrayTwin(e, x, s);
    } else if k == OpenCurly {
      ParseRecordTwin(e, x, s);
    } else if k == OpenRound {
      Step(e, x, s);
      ParseExpressionTwin(e, x, Advance(e, s));
      Want(e, x, ParseExpression(e, Advance(e, s)), CloseRound);
    } else {
      ParseLambdaTwin(e, x, s);
    }
  }

  lemma {:induction false} ParseArrayTwin(e: Env, x: Env, s: PS)
    requires Twin(e, x) && Ready(e, s) && At(e, s, OpenSquare) && ParseArray(e, s).ok
    ensures Ready(x, s) && ParseArray(x, s) == ParseArray(e, s)
    decreases Left(e, s), 16
  {
    hide Twin, Arguments;
    Look(e, x, s);
    Step(e, x, s);
    var t := Advance(e, s);
    Look(e, x, t);
    if At(e, t, CloseSquare) {
      Step(e, x, t);
    } else {
      ArgumentsTwin(e, x, t, CloseSquare);
    }
  }

  lemma {:induction false} ParseRecordTwin(e: Env, x: Env, s: PS)
    requires Twin(e, x) && Ready(e, s) && At(e, s, OpenCurly) && ParseRecord(e, s).ok
    ensures Ready(x, s) && ParseRecord(x, s) == ParseRecord(e, s)
    decreases Left(e, s), 16
  {
    hide Twin, RecordMembers, SkipNewlines;
    Look(e, x, s);
    Step(e, x, s);
    var t := SkipNewlines(e, Advance(e, s));
    if !At(e, t, CloseCurly) {
      MembersFirst(e, t);
    }
    SkipNewlinesTwin(e, x, Advance(e, s));
    Look(e, x, t);
    if At(e, t, CloseCurly) {
      Step(e, x, t);
    } else {
      RecordMembersTwin(e, x, t);
    }
  }

  lemma {:induction false} MembersFirst(e: Env, s: PS)
    requires Ready(e, s) && RecordMembers(e, s).ok
    ensures !At(e, s, End)
  {
    hide ParseExpression, MemberEnd, IsReserved;
  }

  lemma {:induction false} RecordMembersTwin(e: Env, x: Env, s: PS)
    requires Twin(e, x) && Ready(e, s) && RecordMembers(e, s).ok
    ensures Ready(x, s) && RecordMembers(x, s) == RecordMembers(e, s)
    decreases Left(e, s), 16
  {
    hide Twin, ExpectName, ParseExpression, MemberEnd;
    Look(e, x, s);
    WantName(e, x, s);
    var t := ExpectName(e, s);
    Look(e, x, t);
    Step(e, x, t);
    var u := ParseExpression(e, Advance(e, t));
    var n := MemberEnd(e, u);
    ParseExpressionTwin(e, x, Advance(e, t));
    if n.more {
      MembersFirst(e, n.s);
      MemberEndTwin(e, x, u);
      RecordMembersTwin(e, x, n.s);
    } else {
      MemberEndTwin(e, x, u);
    }
  }

  lemma {:induction false} MemberEndTwin(e: Env, x: Env, s: PS)
    requires Twin(e, x) && Ready(e, s) && MemberEnd(e, s).s.ok &&
      (MemberEnd(e, s).more ==> !At(e, MemberEnd(e, s).s, End))
    ensures Ready(x, s) && MemberEnd(x, s) == MemberEnd(e, s)
  {
    hide Twin, SkipNewlines;
    Look(e, x, s);
    if At(e, s, Comma) {
      Step(e, x, s);
      var t := SkipNewlines(e, Advance(e, s));
      SkipNewlinesTwin(e, x, Advance(e, s));
      Look(e, x, t);
    } else if At(e, s, Newline) {
      var t := SkipNewlines(e, s);
      SkipNewlinesTwin(e, x, s);
      Look(e, x, t);
      if At(e, t, CloseCurly) {
        Step(e, x, t);
      }
    } else {
      Want(e, x, s, CloseCurly);
    }
  }

  lemma {:induction false} ParseLambdaTwin(e: Env, x: Env, s: PS)
    requires Twin(e, x) && Ready(e, s) && StartsLambda(Cur(e, s)) && ParseLambda(e, s).ok
    ensures Ready(x, s) && ParseLambda(x, s) == ParseLambda(e, s)
    decreases Left(e, s), 16
  {
    hide Twin, LambdaParameters, ExpectName, ParseBody;
    Look(e, x, s);
    LambdaHeadTwin(e, x, s);
    ParseBodyTwin(e, x, LambdaHead(e, s).s);
  }

  lemma {:induction false} LambdaHeadTwin(e: Env, x: Env, s: PS)
    requires Twin(e, x) && Ready(e, s) && StartsLambda(Cur(e, s)) && LambdaHead(e, s).s.ok
    ensures Ready(x, s) && LambdaHead(x, s) == LambdaHead(e, s)
  {
    hide Twin, LambdaParameters, ExpectName;
    Look(e, x, s);
    Step(e, x, s);
    if !AtOp(e, s, "||") {
      var t := Advance(e, s);
      WantName(e, x, t);
      LambdaParametersTwin(e, x, ExpectName(e, t));
      var u := LambdaParameters(e, ExpectName(e, t));
      Look(e, x, u);
      Step(e, x, u);
    }
  }

  lemma {:induction false} LambdaParametersTwin(e: Env, x: Env, s: PS)
    requires Twin(e, x) && Ready(e, s) && LambdaParameters(e, s).ok
    ensures Ready(x, s) && LambdaParameters(x, s) == LambdaParameters(e, s)
    decreases Left(e, s), 1
  {
    hide Twin, ExpectName;
    Look(e, x, s);
    if At(e, s, Comma) {
      Step(e, x, s);
      WantName(e, x, Advance(e, s));
      LambdaParametersTwin(e, x, ExpectName(e, Advance(e, s)));
    }
  }

  lemma {:induction false} ParseBodyTwin(e: Env, x: Env, s: PS)
    requires Twin(e, x) && Ready(e, s) && ParseBody(e, s).ok
    ensures Ready(x, s) && ParseBody(x, s) == ParseBody(e, s)
    decreases Left(e, s), 31
  {
    hide Twin, ParseBlock, ParseExpression;
    Look(e, x, s);
    if At(e, s, OpenCurly) {
      ParseBlockTwin(e, x, s);
    } else {
      ParseExpressionTwin(e, x, s);
    }
  }

  // ------------------------------------------------------------------ programs

  lemma {:induction false} TopLevelTwin(e: Env, x: Env, s: PS)
    requires Twin(e, x) && Ready(e, s) && !At(e, s, End) && TopLevel(e, s).ok
    ensures Ready(x, s) && TopLevel(x, s).ok
    decreases Left(e, s)
  {
    hide Twin, ParseStatement, RequireStatementEnd;
    Look(e, x, s);
    var t := ParseStatement(e, s);
    ParseStatementTwin(e, x, s);
    RequireStatementEndTwin(e, x, t);
    EndsOrEnd(e, t);
    var r := OneStatement(e, s);
    Look(e, x, r);
    if At(e, r, End) {
      AtTheEnd(e, x, OneStatement(x, s));
    } else {
      TopLevelTwin(e, x, r);
    }
  }

  lemma {:induction false} AtTheEnd(e: Env, x: Env, s: PS)
    requires Twin(e, x) && s.index == |e.ks|
    ensures Ready(x, s) && TopLevel(x, s) == s
  {
  }

  /** One more newline at the end does not change the verdict on an accepted source. */
  lemma {:induction false} AcceptedWithNewline(e: Env, x: Env)
    requires Twin(e, x) && Accepts(e)
    ensures ValidEnv(x) && Accepts(x)
  {
    hide TopLevel, SkipEnds;
    var s := PS(0, 0, true);
    SkipEndsTwin(e, x, s);
    var t := SkipEnds(e, s);
    if At(e, t, End) {
      AtTheEnd(e, x, t.(index := t.index + 1));
    } else {
      TopLevelTwin(e, x, t);
    }
  }
}
