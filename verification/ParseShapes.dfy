/** Small facts about which rows of children the productions allow, one per place the parser closes a node. */
module ParseShapes {
  import opened Tokens
  import opened Grammar
  import opened Choices
  import opened SymbolEvents
  import opened R = Recogniser

  /** Passing newlines is looking behind them. */
  lemma {:induction false} NewlinesPassed(e: Env, s: PS)
    requires Ready(e, s)
    ensures BehindNewlines(e.ks, s.index) == Cur(e, SkipNewlines(e, s))
    decreases Left(e, s)
  {
    if At(e, s, Newline) {
      NewlinesPassed(e, Advance(e, s));
    }
  }

  // ------------------------------------------------------------------ operators

  lemma {:induction false} IsOperatorKind(level: nat, k: Kind)
    requires OperatorAt(level, k)
    ensures k != End
  {
  }

  lemma {:induction false} FirstOperand(level: nat)
    requires level <= 6
    ensures Production(Binary(level), One(N(Operand(level))))
  {
  }

  lemma {:induction false} OperatorOperand(level: nat, k: Kind)
    requires OperatorAt(level, k)
    ensures Production(BinaryTail(level), Two(T(k), N(Operand(level))))
  {
  }

  lemma {:induction false} MoreOperands(level: nat, r: seq<Root>)
    ensures Production(Binary(level), r) ==> Production(Binary(level), Snoc(r, N(BinaryTail(level))))
  {
  }

  lemma {:induction false} UnaryShape(k: Kind)
    ensures Production(Unary, One(N(Postfix)))
    ensures IsUnaryOperator(k) ==> Production(Unary, Two(T(k), N(Postfix)))
  {
  }

  lemma {:induction false} PostfixShape()
    ensures Production(Postfix, One(N(Primary)))
  {
  }

  lemma {:induction false} MoreSuffixes(r: seq<Root>)
    ensures Production(Postfix, r) ==> Production(Postfix, Snoc(r, N(Suffix)))
  {
  }

  lemma {:induction false} MemberShape(k: Kind)
    ensures IsNameKind(k) ==> Production(Suffix, Two(Op("."), T(k)))
  {
  }

  lemma {:induction false} CallSuffixShape()
    ensures Production(Suffix, One(N(Call)))
  {
  }

  lemma {:induction false} IndexShape(value: bool)
    ensures Production(Suffix, Three(T(OpenSquare), N(Expression(value)), T(CloseSquare)))
  {
  }

  lemma {:induction false} CallShape()
    ensures Production(Call, Two(T(OpenRound), T(CloseRound)))
    ensures Production(Call, Three(T(OpenRound), N(Exprs), T(CloseRound)))
  {
  }

  lemma {:induction false} ArrayShape()
    ensures Production(Array, Two(T(OpenSquare), T(CloseSquare)))
    ensures Production(Array, Three(T(OpenSquare), N(Exprs), T(CloseSquare)))
  {
  }

  // ------------------------------------------------------------------ lists

  /** Expressions each followed by a comma. */
  predicate ExpressionsSoFar(r: seq<Root>) {
    |r| % 2 == 0 && forall i :: 0 <= i < |r| ==> if i % 2 == 0 then IsExpression(r[i]) else r[i] == T(Comma)
  }

  lemma {:induction false} NoExpressions()
    ensures ExpressionsSoFar([])
  {
  }

  lemma {:induction false} OneMoreExpression(r: seq<Root>, value: bool, k: Kind)
    ensures ExpressionsSoFar(r) ==> Production(Exprs, Snoc(r, N(Expression(value)))) && NoBlockHere(r, k)
  {
  }

  lemma {:induction false} CommaAfterExpressions(r: seq<Root>)
    ensures Production(Exprs, r) ==> ExpressionsSoFar(Snoc(r, T(Comma)))
  {
  }

  /** Names each followed by the separator. */
  predicate NamesSoFar(r: seq<Root>, separator: Root) {
    |r| % 2 == 0 && forall i :: 0 <= i < |r| ==> if i % 2 == 0 then IsName(r[i]) else r[i] == separator
  }

  lemma {:induction false} NoNames(separator: Root)
    ensures NamesSoFar([], separator)
  {
  }

  lemma {:induction false} OneMoreName(r: seq<Root>, separator: Root, k: Kind)
    requires IsNameKind(k)
    ensures NamesSoFar(r, separator) ==> NameList(Snoc(r, T(k)), separator)
  {
    hide IsReserved;
  }

  lemma {:induction false} SeparatorAfterNames(r: seq<Root>, separator: Root)
    ensures NameList(r, separator) ==> NamesSoFar(Snoc(r, separator), separator)
  {
    hide IsReserved;
  }

  /** A separator adds no name. */
  lemma {:induction false} CountAfterComma(r: seq<Root>)
    ensures NameList(r, T(Comma)) ==> NameCount(|r| + 1) == NameCount(|r|)
  {
    hide IsReserved;
  }

  lemma {:induction false} EvenNames(r: seq<Root>, separator: Root)
    ensures NamesSoFar(r, separator) ==> |r| == 2 * NameCount(|r|) && NameCount(|r| + 1) == NameCount(|r|) + 1
  {
    hide IsReserved;
  }

  lemma {:induction false} LiteralIsNoName(k: Kind)
    ensures k.Number? || k.StringLiteral? || IsLiteralWord(k) ==> !IsNameKind(k)
  {
  }

  lemma {:induction false} NamesShape(r: seq<Root>)
    ensures NameList(r, T(Comma)) ==> Production(Names(true), r) && Production(Names(false), r)
    ensures NameList(r, T(Comma)) && |r| <= 5 ==> Production(Bindings, r)
    ensures NameList(r, Op(".")) ==> Production(Path, r)
  {
    hide NameList;
  }

  lemma {:induction false} ParametersShape()
    ensures Production(ParameterList, Two(T(OpenRound), T(CloseRound)))
    ensures Production(ParameterList, Three(T(OpenRound), N(Names(false)), T(CloseRound)))
  {
  }

  // ------------------------------------------------------------------ primaries

  lemma {:induction false} PrimaryToken(k: Kind)
    requires k.Number? || k.StringLiteral? || IsLiteralWord(k) || IsNameKind(k)
    ensures Production(Primary, One(T(k))) && k != End
  {
    hide IsReserved;
  }

  lemma {:induction false} PrimaryNode()
    ensures Production(Primary, One(N(Array))) && Production(Primary, One(N(Record))) &&
      Production(Primary, One(N(Lambda)))
  {
    hide IsReserved;
  }

  lemma {:induction false} PrimaryGroup(value: bool)
    ensures Production(Primary, Three(T(OpenRound), N(Expression(value)), T(CloseRound)))
  {
  }

  lemma {:induction false} BodyRoots(value: bool)
    ensures IsBody(N(Block(false))) && IsBody(N(Expression(value)))
    ensures IsBranch(N(Block(true))) && IsBranch(N(Expression(value)))
    ensures IsTryBranch(N(ValueBlock)) && IsTryBranch(N(Expression(value)))
  {
  }

  /** The bars of a lambda, with names between them unless it is `bare`. */
  function LambdaFront(bare: bool): (r: seq<Root>) {
    if bare then One(Op("||")) else Three(Op("|"), N(Names(true)), Op("|"))
  }

  lemma {:induction false} LambdaShapes(bare: bool, body: Root)
    requires IsBody(body)
    ensures Production(Lambda, Snoc(LambdaFront(bare), body))
  {
  }

  // ------------------------------------------------------------------ records

  predicate MembersSoFar(r: seq<Root>) {
    |r| % 2 == 0 && forall i :: 0 <= i < |r| ==> r[i] == N(if i % 2 == 0 then Member else MemberSeparator)
  }

  lemma {:induction false} NoMembers()
    ensures MembersSoFar([])
  {
  }

  lemma {:induction false} OneMoreMember(r: seq<Root>)
    ensures MembersSoFar(r) ==> Production(Members, Snoc(r, N(Member)))
  {
  }

  lemma {:induction false} SeparatorAfterMembers(r: seq<Root>)
    ensures Production(Members, r) ==> MembersSoFar(Snoc(r, N(MemberSeparator)))
  {
  }

  lemma {:induction false} MemberRow(k: Kind, value: bool)
    requires IsNameKind(k)
    ensures Production(Member, Three(T(k), Op(":"), N(Expression(value))))
  {
    hide IsReserved;
  }

  lemma {:induction false} SeparatorShapes()
    ensures Production(MemberSeparator, One(T(Comma)))
    ensures Production(MemberSeparator, Two(T(Comma), N(Newlines)))
    ensures Production(MemberSeparator, One(N(Newlines)))
  {
  }

  /** The opening brace of a record and the newlines behind it. */
  function RecordFront(lines: bool): (r: seq<Root>) {
    if lines then Two(T(OpenCurly), N(Newlines)) else One(T(OpenCurly))
  }

  /** The members and the closing brace, with newlines in front of it. */
  function RecordClosed(r: seq<Root>, lines: bool): (s: seq<Root>) {
    Snoc(if lines then Snoc(Snoc(r, N(Members)), N(Newlines)) else Snoc(r, N(Members)), T(CloseCurly))
  }

  lemma {:induction false} RecordRows(open: bool, close: bool)
    ensures Production(Record, Snoc(RecordFront(open), T(CloseCurly)))
    ensures Production(Record, RecordClosed(RecordFront(open), close))
  {
  }

  lemma {:induction false} NoNewlines()
    ensures All([], 0, T(Newline))
  {
  }

  lemma {:induction false} NewlinesShape(r: seq<Root>)
    requires All(r, 0, T(Newline))
    ensures Production(Newlines, Snoc(r, T(Newline))) && All(Snoc(r, T(Newline)), 0, T(Newline))
  {
  }

  // ------------------------------------------------------------------ statements

  predicate AllEnds(r: seq<Root>) {
    forall i :: 0 <= i < |r| ==> IsEnd(r[i])
  }

  lemma {:induction false} NoEnds()
    ensures AllEnds([])
  {
  }

  lemma {:induction false} EndsShape(r: seq<Root>, k: Kind)
    requires AllEnds(r) && (k == Newline || k == Semicolon)
    ensures Production(Ends, Snoc(r, T(k))) && AllEnds(Snoc(r, T(k)))
  {
  }

  lemma {:induction false} WordStatement(k: Kind, value: bool)
    requires k == Identifier("return") || k == Identifier("break") || k == Identifier("continue")
    ensures Production(Statement(false), One(T(k)))
    ensures k == Identifier("return") ==> Production(Statement(false), Two(T(k), N(Expression(value))))
  {
  }

  lemma {:induction false} StatementNode(value: bool)
    ensures Production(Statement(value), One(N(Expression(value))))
    ensures Production(Statement(false), One(N(Import))) && Production(Statement(false), One(N(Declaration)))
    ensures Production(Statement(false), One(N(FunctionDeclaration)))
  {
  }

  lemma {:induction false} ImportRow()
    ensures Production(Import, Four(Keyword("use"), Keyword("mod"), Op("."), N(Path)))
  {
  }

  /** A declaration with its initializer, which is an expression with or without a value. */
  function Initialized(r: seq<Root>, initializer: Option<bool>): (s: seq<Root>) {
    if initializer.None? then r else Snoc(Snoc(r, Op("=")), N(Expression(initializer.value)))
  }

  lemma {:induction false} DeclarationRow(k: Kind, initializer: Option<bool>)
    requires IsNameKind(k)
    ensures Production(Declaration, Initialized(Two(Keyword("let"), T(k)), initializer))
  {
    hide IsReserved;
  }

  lemma {:induction false} FunctionRow(k: Kind)
    requires IsNameKind(k)
    ensures Production(FunctionDeclaration, Four(Keyword("fn"), T(k), N(ParameterList), N(Block(false))))
  {
    hide IsReserved;
  }

  /** An opening brace, possibly ends, then lines. */
  predicate BlockFront(r: seq<Root>) {
    |r| >= 1 && r[0] == T(OpenCurly) && Lines(r, LeadingEnds(r, 1), |r|)
  }

  lemma {:induction false} BlockStart()
    ensures BlockFront(One(T(OpenCurly))) && BlockFront(Two(T(OpenCurly), N(Ends)))
  {
  }

  lemma {:induction false} BlockLine(r: seq<Root>, value: bool)
    ensures BlockFront(r) ==> BlockFront(Snoc(r, N(Line(value))))
  {
    if BlockFront(r) {
      var s := r + [N(Line(value))];
      assert LeadingEnds(s, 1) == LeadingEnds(r, 1);
      assert forall i :: LeadingEnds(r, 1) <= i < |r| ==> s[i] == r[i] && IsLine(r[i]);
    }
  }

  lemma {:induction false} BlockRow(r: seq<Root>, conditional: bool)
    requires BlockFront(r)
    ensures Production(Block(conditional), Snoc(r, T(CloseCurly)))
    ensures r[|r| - 1] == N(Line(true)) ==> Production(ValueBlock, Snoc(r, T(CloseCurly)))
  {
    var s := r + [T(CloseCurly)];
    assert LeadingEnds(s, 1) == LeadingEnds(r, 1);
    assert forall i :: LeadingEnds(r, 1) <= i < |r| ==> s[i] == r[i] && IsLine(r[i]);
    assert BlockShape(s);
    assert |s| >= 3 ==> s[|s| - 2] == r[|r| - 1];
  }

  // ------------------------------------------------------------------ control expressions

  lemma {:induction false} ExpressionRow()
    ensures Production(Expression(true), One(N(Conditional))) && Production(Expression(true), One(N(TryExpression)))
    ensures Production(Expression(true), One(N(Binary(0)))) && Production(Expression(false), One(N(Loop)))
  {
  }

  lemma {:induction false} LoopRows()
    ensures Production(Loop, Five(Keyword("for"), N(Bindings), Keyword("in"), N(Binary(0)), N(Block(false))))
    ensures Production(Loop, Two(Keyword("loop"), N(Block(false))))
    ensures Production(Loop, Three(Keyword("while"), N(Binary(0)), N(Block(false))))
  {
  }

  lemma {:induction false} TryRow(body: Root, fallback: Root)
    requires IsTryBranch(body) && IsTryBranch(fallback)
    ensures Production(TryExpression, Four(Keyword("try"), body, Keyword("catch"), fallback))
  {
  }

  lemma {:induction false} ConditionalStart(branch: Root)
    requires IsBranch(branch)
    ensures Production(Conditional, Three(Keyword("if"), N(Binary(0)), branch))
    ensures Production(ElifPart, Three(Keyword("elif"), N(Binary(0)), branch))
    ensures Production(ElsePart, Two(Keyword("else"), branch))
  {
  }

  /** A conditional without its `else`. */
  predicate OpenConditional(r: seq<Root>) {
    && |r| >= 3 && r[0] == Keyword("if") && r[1] == N(Binary(0)) && IsBranch(r[2])
    && forall i :: 3 <= i < |r| ==> r[i] == N(ElifPart)
  }

  lemma {:induction false} OpenConditionalStart(branch: Root)
    requires IsBranch(branch)
    ensures OpenConditional(Three(Keyword("if"), N(Binary(0)), branch))
  {
  }

  lemma {:induction false} MoreElif(r: seq<Root>)
    ensures OpenConditional(r) ==> OpenConditional(Snoc(r, N(ElifPart)))
  {
  }

  lemma {:induction false} ConditionalRow(r: seq<Root>)
    requires OpenConditional(r)
    ensures Production(Conditional, r) && Production(Conditional, Snoc(r, N(ElsePart)))
  {
  }

  // ------------------------------------------------------------------ program

  predicate ProgramFront(r: seq<Root>) {
    Lines(r, LeadingEnds(r, 0), |r|)
  }

  lemma {:induction false} ProgramStart()
    ensures ProgramFront([]) && ProgramFront(One(N(Ends)))
  {
  }

  lemma {:induction false} ProgramLine(r: seq<Root>, value: bool)
    ensures ProgramFront(r) ==> ProgramFront(Snoc(r, N(Line(value))))
  {
    if ProgramFront(r) {
      var s := r + [N(Line(value))];
      assert LeadingEnds(s, 0) == LeadingEnds(r, 0);
      assert forall i :: LeadingEnds(r, 0) <= i < |r| ==> s[i] == r[i] && IsLine(r[i]);
    }
  }

  lemma {:induction false} ProgramRow(r: seq<Root>, value: bool)
    requires ProgramFront(r)
    ensures Production(Program, r)
    ensures Production(Program, Snoc(r, N(Statement(value))))
  {
    var s := r + [N(Statement(value))];
    assert LeadingEnds(s, 0) == LeadingEnds(r, 0);
    assert forall i :: LeadingEnds(r, 0) <= i < |r| ==> s[i] == r[i] && IsLine(r[i]);
    assert ProgramShape(s);
  }

  lemma {:induction false} ProgramLastRow(r: seq<Root>, value: bool)
    requires ProgramFront(r)
    ensures Production(Program, Snoc(Snoc(r, N(Statement(value))), N(Ends)))
  {
    var s := r + [N(Statement(value)), N(Ends)];
    assert LeadingEnds(s, 0) == LeadingEnds(r, 0);
    assert forall i :: LeadingEnds(r, 0) <= i < |r| ==> s[i] == r[i] && IsLine(r[i]);
    assert ProgramShape(s);
  }
}
