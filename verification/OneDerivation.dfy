/** The tokens of a source have at most one derivation whose choices are all forced.

    The next child of a node is a function of the children so far and of the tokens ahead, so two such derivations agree
    child by child. Only a program needs more than that: whether its last statement is a line is known behind it. */
module OneDerivation {
  import opened Tokens
  import opened Grammar
  import opened Choices

  // ------------------------------------------------------------------ first tokens

  predicate IsLoopWord(k: Kind) {
    k == Identifier("for") || k == Identifier("loop") || k == Identifier("while")
  }

  predicate IsStatementWord(k: Kind) {
    k == Identifier("use") || k == Identifier("let") || k == Identifier("fn") || k == Identifier("return") ||
    k == Identifier("break") || k == Identifier("continue")
  }

  predicate IsBar(k: Kind) {
    k == Operator("|") || k == Operator("||")
  }

  predicate StartsPrimary(k: Kind) {
    k.Number? || k.StringLiteral? || IsLiteralWord(k) || IsNameKind(k) || k == OpenRound || k == OpenSquare ||
    k == OpenCurly || IsBar(k)
  }

  predicate StartsOperand(k: Kind) {
    StartsPrimary(k) || IsUnaryOperator(k)
  }

  predicate StartsValue(k: Kind) {
    StartsOperand(k) || k == Identifier("if") || k == Identifier("try")
  }

  predicate StartsExpression(value: bool, k: Kind) {
    if value then StartsValue(k) else IsLoopWord(k)
  }

  predicate StartsStatement(value: bool, k: Kind) {
    if value then StartsValue(k) else IsLoopWord(k) || IsStatementWord(k)
  }

  /** A token that a node of this symbol may start with. */
  predicate First(sym: Sym, k: Kind) {
    match sym
    case Program => true
    case Ends => k == Newline || k == Semicolon
    case Line(value) => StartsStatement(value, k)
    case Statement(value) => StartsStatement(value, k)
    case Import => k == Identifier("use")
    case Path => IsNameKind(k)
    case Declaration => k == Identifier("let")
    case FunctionDeclaration => k == Identifier("fn")
    case ParameterList => k == OpenRound
    case Names(_) => IsNameKind(k)
    case Bindings => IsNameKind(k)
    case Block(_) => k == OpenCurly
    case ValueBlock => k == OpenCurly
    case Expression(value) => StartsExpression(value, k)
    case Conditional => k == Identifier("if")
    case ElifPart => k == Identifier("elif")
    case ElsePart => k == Identifier("else")
    case TryExpression => k == Identifier("try")
    case Loop => IsLoopWord(k)
    case Binary(_) => StartsOperand(k)
    case BinaryTail(level) => OperatorAt(level, k)
    case Unary => StartsOperand(k)
    case Postfix => StartsPrimary(k)
    case Suffix => IsSuffixStart(k)
    case Call => k == OpenRound
    case Exprs => StartsValue(k) || IsLoopWord(k)
    case Primary => StartsPrimary(k)
    case Array => k == OpenSquare
    case Record => k == OpenCurly
    case Members => IsNameKind(k)
    case Member => IsNameKind(k)
    case MemberSeparator => k == Comma || k == Newline
    case Newlines => k == Newline
    case Lambda => IsBar(k)
  }

  predicate RootFirst(x: Root, k: Kind) {
    if x.T? then k == x.kind else First(x.sym, k)
  }

  lemma {:induction false} RowFirst(sym: Sym, r: seq<Root>, k: Kind)
    requires Production(sym, r) && sym != Program
    ensures r != [] && r[0] != N(Program) && (RootFirst(r[0], k) ==> First(sym, k))
  {
    hide Production, First;
    if sym.Binary? || sym.BinaryTail? || sym == Unary || sym == Postfix {
      OperatorFirst(sym, r, k);
    } else if sym == Primary {
      PrimaryFirst(r, k);
    } else if sym.Expression? || sym == Suffix || sym == Call || sym == Exprs {
      ExpressionFirst(sym, r, k);
    } else if IsLiteral(sym) {
      LiteralFirst(sym, r, k);
    } else if IsControl(sym) {
      ControlFirst(sym, r, k);
    } else {
      StatementFirst(sym, r, k);
    }
  }

  predicate IsLiteral(sym: Sym) {
    sym == Array || sym == Record || sym == Members || sym == Member || sym == MemberSeparator || sym == Newlines ||
    sym == Lambda
  }

  predicate IsControl(sym: Sym) {
    sym == Conditional || sym == ElifPart || sym == ElsePart || sym == TryExpression || sym == Loop
  }

  lemma {:induction false} OperatorFirst(sym: Sym, r: seq<Root>, k: Kind)
    requires Production(sym, r) && (sym.Binary? || sym.BinaryTail? || sym == Unary || sym == Postfix)
    ensures r != [] && r[0] != N(Program) && (RootFirst(r[0], k) ==> First(sym, k))
  {
    hide IsReserved, OperatorAt, StartsPrimary, IsUnaryOperator;
  }

  lemma {:induction false} PrimaryFirst(r: seq<Root>, k: Kind)
    requires Production(Primary, r)
    ensures r != [] && r[0] != N(Program) && (RootFirst(r[0], k) ==> First(Primary, k))
  {
    hide IsReserved, IsLiteralWord, IsNameKind, IsBar, StatementShape, DeclarationShape, ConditionalShape, LoopShape,
      ProgramShape, BlockShape, RecordShape, LambdaShape, OperatorAt, SuffixShape;
  }

  lemma {:induction false} ExpressionFirst(sym: Sym, r: seq<Root>, k: Kind)
    requires Production(sym, r) && (sym.Expression? || sym == Suffix || sym == Call || sym == Exprs)
    ensures r != [] && r[0] != N(Program) && (RootFirst(r[0], k) ==> First(sym, k))
  {
    hide Production, First;
    if sym.Expression? || sym == Exprs {
      ValueFirst(sym, r, k);
    } else {
      SuffixFirst(sym, r, k);
    }
  }

  lemma {:induction false} ValueFirst(sym: Sym, r: seq<Root>, k: Kind)
    requires Production(sym, r) && (sym.Expression? || sym == Exprs)
    ensures r != [] && r[0] != N(Program) && (RootFirst(r[0], k) ==> First(sym, k))
  {
    hide StartsOperand, IsLoopWord;
    assert sym.Expression? ==> |r| == 1 && r[0].N?;
  }

  lemma {:induction false} SuffixFirst(sym: Sym, r: seq<Root>, k: Kind)
    requires Production(sym, r) && (sym == Suffix || sym == Call)
    ensures r != [] && r[0] != N(Program) && (RootFirst(r[0], k) ==> First(sym, k))
  {
    hide IsReserved;
  }

  lemma {:induction false} LiteralFirst(sym: Sym, r: seq<Root>, k: Kind)
    requires Production(sym, r) && IsLiteral(sym)
    ensures r != [] && r[0] != N(Program) && (RootFirst(r[0], k) ==> First(sym, k))
  {
    hide Production, First;
    if sym == Record {
      RecordFirst(r, k);
    } else if sym == Array || sym == Lambda {
      OpeningFirst(sym, r, k);
    } else {
      MemberFirst(sym, r, k);
    }
  }

  lemma {:induction false} RecordFirst(r: seq<Root>, k: Kind)
    requires Production(Record, r)
    ensures r != [] && r[0] != N(Program) && (RootFirst(r[0], k) ==> First(Record, k))
  {
    assert r[0] == T(OpenCurly);
  }

  lemma {:induction false} OpeningFirst(sym: Sym, r: seq<Root>, k: Kind)
    requires Production(sym, r) && (sym == Array || sym == Lambda)
    ensures r != [] && r[0] != N(Program) && (RootFirst(r[0], k) ==> First(sym, k))
  {
    hide IsBody;
    assert r[0].T?;
  }

  lemma {:induction false} MemberFirst(sym: Sym, r: seq<Root>, k: Kind)
    requires Production(sym, r) && (sym == Members || sym == Member || sym == MemberSeparator || sym == Newlines)
    ensures r != [] && r[0] != N(Program) && (RootFirst(r[0], k) ==> First(sym, k))
  {
    hide IsReserved;
  }

  lemma {:induction false} ControlFirst(sym: Sym, r: seq<Root>, k: Kind)
    requires Production(sym, r) && IsControl(sym)
    ensures r != [] && r[0] != N(Program) && (RootFirst(r[0], k) ==> First(sym, k))
  {
    hide IsBranch, IsTryBranch;
  }

  lemma {:induction false} StatementFirst(sym: Sym, r: seq<Root>, k: Kind)
    requires Production(sym, r) && sym != Program && !IsLiteral(sym) && !IsControl(sym)
    requires !sym.Binary? && !sym.BinaryTail? && sym != Unary && sym != Postfix && sym != Primary
    requires !sym.Expression? && sym != Suffix && sym != Call && sym != Exprs
    ensures r != [] && r[0] != N(Program) && (RootFirst(r[0], k) ==> First(sym, k))
  {
    hide IsReserved, StartsValue, IsLoopWord, IsNameKind, ExpressionShape, ConditionalShape, LoopShape, SuffixShape,
      PrimaryShape, RecordShape, LambdaShape, OperatorAt, StartsPrimary;
  }

  /** The first token of a node is one it may start with. */
  lemma {:induction false} TreeFirst(t: Tree)
    requires t.Node? && t.sym != Program && Derives(t)
    ensures Yield(t) != [] && First(t.sym, Yield(t)[0])
    decreases t
  {
    hide First, Production, YieldAll;
    var r := Roots(t.kids);
    RowFirst(t.sym, r, End);
    var kid := t.kids[0];
    assert r[0] == RootOf(kid) && Derives(kid);
    FirstYield(t);
    if kid.Node? {
      TreeFirst(kid);
    }
    RowFirst(t.sym, r, Yield(kid)[0]);
  }

  lemma {:induction false} FirstYield(t: Tree)
    requires t.Node? && t.kids != []
    ensures Yield(t.kids[0]) <= Yield(t)
  {
    hide YieldAll;
    var first, rest := t.kids[..1], t.kids[1..];
    assert t.kids == first + rest && first == [] + [t.kids[0]];
    YieldConcat(first, rest);
    YieldAppend([], t.kids[0]);
    assert YieldAll([]) == [] by { NothingYields(); }
    assert [] + Yield(t.kids[0]) == Yield(t.kids[0]);
  }

  lemma {:induction false} NothingYields()
    ensures YieldAll([]) == []
  {
  }

  // ------------------------------------------------------------------ the next child

  function Expr(k: Kind): (x: Root) {
    N(Expression(!IsLoopWord(k)))
  }

  /** An arm that is a block if it starts with a brace. */
  function Arm(block: Sym, k: Kind): (x: Root) {
    if k == OpenCurly then N(block) else Expr(k)
  }

  function NameChoice(n: nat, separator: Root, k: Kind): (x: Option<Root>) {
    if n % 2 == 0 then Some(T(k)) else if T(k) == separator then Some(separator) else None
  }

  function StatementChoice(value: bool, r: seq<Root>, k: Kind): (x: Option<Root>) {
    if r == [] then
      Some(if value then N(Expression(true))
           else if k == Identifier("use") then N(Import)
           else if k == Identifier("let") then N(Declaration)
           else if k == Identifier("fn") then N(FunctionDeclaration)
           else if IsLoopWord(k) then N(Expression(false))
           else T(k))
    else if !value && |r| == 1 && r[0] == Keyword("return") && !IsStatementBoundary(k) then Some(Expr(k))
    else None
  }

  function BlockChoice(r: seq<Root>, k: Kind): (x: Option<Root>) {
    if r == [] then Some(T(OpenCurly))
    else if r[|r| - 1] == T(CloseCurly) then None
    else if k == CloseCurly then Some(T(k))
    else if k == Newline || k == Semicolon then Some(N(Ends))
    else Some(N(Line(!IsLoopWord(k) && !IsStatementWord(k))))
  }

  function ConditionalChoice(r: seq<Root>, k: Kind): (x: Option<Root>) {
    if r == [] then Some(Keyword("if"))
    else if |r| == 1 then Some(N(Binary(0)))
    else if |r| == 2 then Some(Arm(Block(true), k))
    else if r[|r| - 1] == N(ElsePart) then None
    else if k == Identifier("elif") then Some(N(ElifPart))
    else if k == Identifier("else") then Some(N(ElsePart))
    else None
  }

  function LoopChoice(r: seq<Root>, k: Kind): (x: Option<Root>) {
    if r == [] then Some(T(k))
    else if r[0] == Keyword("for") then
      (if |r| == 1 then Some(N(Bindings)) else if |r| == 2 then Some(Keyword("in"))
        else if |r| == 3 then Some(N(Binary(0)))
       else if |r| == 4 then Some(N(Block(false))) else None)
    else if r[0] == Keyword("while") then
      (if |r| == 1 then Some(N(Binary(0))) else if |r| == 2 then Some(N(Block(false))) else None)
    else if |r| == 1 then Some(N(Block(false)))
    else None
  }

  function SuffixChoice(r: seq<Root>, k: Kind): (x: Option<Root>) {
    if r == [] then Some(if k == OpenRound then N(Call) else T(k))
    else if |r| == 1 && r[0] == Op(".") then Some(T(k))
    else if |r| == 1 && r[0] == T(OpenSquare) then Some(Expr(k))
    else if |r| == 2 && r[0] == T(OpenSquare) then Some(T(CloseSquare))
    else None
  }

  /** A bracket, possibly something inside, and the closing bracket. */
  function BracketChoice(r: seq<Root>, inside: Sym, close: Kind, k: Kind): (x: Option<Root>) {
    if r == [] then Some(T(k))
    else if |r| == 1 then Some(if k == close then T(close) else N(inside))
    else if |r| == 2 && r[1].N? then Some(T(close))
    else None
  }

  function PrimaryChoice(r: seq<Root>, k: Kind): (x: Option<Root>) {
    if r == [] then
      Some(if k == OpenSquare then N(Array) else if k == OpenCurly then N(Record) else if IsBar(k) then N(Lambda)
        else T(k))
    else if |r| == 1 && r[0] == T(OpenRound) then Some(Expr(k))
    else if |r| == 2 then Some(T(CloseRound))
    else None
  }

  function RecordChoice(r: seq<Root>, k: Kind): (x: Option<Root>) {
    if r == [] then Some(T(OpenCurly))
    else if r[|r| - 1] == T(CloseCurly) then None
    else if k == CloseCurly then Some(T(k))
    else if k == Newline then Some(N(Newlines))
    else Some(N(Members))
  }

  function MembersChoice(n: nat, ks: seq<Kind>, at: nat): (x: Option<Root>)
    requires at < |ks|
  {
    if n % 2 == 0 then Some(N(Member))
    else if ks[at] == Comma || (ks[at] == Newline && BehindNewlines(ks, at) != CloseCurly) then Some(N(MemberSeparator))
    else None
  }

  function LambdaChoice(r: seq<Root>, k: Kind): (x: Option<Root>) {
    if r == [] then Some(T(k))
    else if r[0] == Op("||") then (if |r| == 1 then Some(Arm(Block(false), k)) else None)
    else if |r| == 1 then Some(N(Names(true)))
    else if |r| == 2 then Some(Op("|"))
    else if |r| == 3 then Some(Arm(Block(false), k))
    else None
  }

  /** The child that follows these in a node of this symbol, or none; a program is not covered. */
  function Choice(sym: Sym, r: seq<Root>, ks: seq<Kind>, at: nat): (x: Option<Root>)
    requires at < |ks|
  {
    var k, n := ks[at], |r|;
    match sym
    case Program => None
    case Ends => if k == Newline || k == Semicolon then Some(T(k)) else None
    case Line(value) => if n == 0 then Some(N(Statement(value))) else if n == 1 then Some(N(Ends)) else None
    case Statement(value) => StatementChoice(value, r, k)
    case Import => if n < 3 then Some(T(k)) else if n == 3 then Some(N(Path)) else None
    case Path => NameChoice(n, Op("."), k)
    case Declaration =>
      if n < 2 then Some(T(k)) else if n == 2 && k == Operator("=") then Some(T(k)) else if n == 3 then Some(Expr(k))
        else None
    case FunctionDeclaration =>
      if n < 2 then Some(T(k)) else if n == 2 then Some(N(ParameterList)) else if n == 3 then Some(N(Block(false)))
        else None
    case ParameterList => BracketChoice(r, Names(false), CloseRound, k)
    case Names(_) => NameChoice(n, T(Comma), k)
    case Bindings => NameChoice(n, T(Comma), k)
    case Block(_) => BlockChoice(r, k)
    case ValueBlock => BlockChoice(r, k)
    case Expression(value) =>
      if n > 0 then None
      else Some(N(if !value then Loop else if k == Identifier("if") then Conditional
                  else if k == Identifier("try") then TryExpression else Binary(0)))
    case Conditional => ConditionalChoice(r, k)
    case ElifPart =>
      if n == 0 then Some(T(k)) else if n == 1 then Some(N(Binary(0))) else if n == 2 then Some(Arm(Block(true), k))
        else None
    case ElsePart => if n == 0 then Some(T(k)) else if n == 1 then Some(Arm(Block(true), k)) else None
    case TryExpression =>
      if n == 0 || n == 2 then Some(T(k)) else if n == 1 || n == 3 then Some(Arm(ValueBlock, k)) else None
    case Loop => LoopChoice(r, k)
    case Binary(level) =>
      if n == 0 then Some(N(Operand(level))) else if OperatorAt(level, k) then Some(N(BinaryTail(level))) else None
    case BinaryTail(level) => if n == 0 then Some(T(k)) else if n == 1 then Some(N(Operand(level))) else None
    case Unary =>
      if n == 0 then Some(if IsUnaryOperator(k) then T(k) else N(Postfix))
      else if n == 1 && r[0].T? then Some(N(Postfix)) else None
    case Postfix => if n == 0 then Some(N(Primary)) else if IsSuffixStart(k) then Some(N(Suffix)) else None
    case Suffix => SuffixChoice(r, k)
    case Call => BracketChoice(r, Exprs, CloseRound, k)
    case Exprs => if n % 2 == 0 then Some(Expr(k)) else if k == Comma then Some(T(k)) else None
    case Primary => PrimaryChoice(r, k)
    case Array => BracketChoice(r, Exprs, CloseSquare, k)
    case Record => RecordChoice(r, k)
    case Members => MembersChoice(n, ks, at)
    case Member => if n < 2 then Some(T(k)) else if n == 2 then Some(Expr(k)) else None
    case MemberSeparator =>
      if n == 0 then Some(if k == Comma then T(k) else N(Newlines))
      else if n == 1 && r[0] == T(Comma) && k == Newline then Some(N(Newlines)) else None
    case Newlines => if k == Newline then Some(T(k)) else None
    case Lambda => LambdaChoice(r, k)
  }

  // ------------------------------------------------------------------ every child is chosen

  predicate IsOrdinaryWord(k: Kind) {
    !IsLoopWord(k) && !IsStatementWord(k)
  }

  lemma {:induction false} NameWord(k: Kind)
    requires IsNameKind(k)
    ensures IsOrdinaryWord(k)
  {
  }

  lemma {:induction false} LiteralWord(k: Kind)
    requires IsLiteralWord(k)
    ensures IsOrdinaryWord(k)
  {
  }

  lemma {:induction false} ControlWord(k: Kind)
    requires k == Identifier("if") || k == Identifier("try")
    ensures IsOrdinaryWord(k)
  {
  }

  lemma {:induction false} NoWord(k: Kind)
    requires !k.Identifier?
    ensures IsOrdinaryWord(k)
  {
  }

  /** Values start with no keyword of a statement and no punctuation that ends one. */
  lemma {:induction false} ValueWord(k: Kind)
    requires StartsValue(k)
    ensures !IsLoopWord(k) && !IsStatementWord(k)
    ensures !IsStatementBoundary(k) && k != Comma && k != CloseRound && k != CloseSquare
  {
    hide IsReserved, IsLoopWord, IsStatementWord;
    if k.Identifier? {
      if IsNameKind(k) {
        NameWord(k);
      } else if IsLiteralWord(k) {
        LiteralWord(k);
      } else {
        ControlWord(k);
      }
    } else {
      NoWord(k);
    }
  }

  lemma {:induction false} ExpressionRoot(x: Root, k: Kind)
    requires IsExpression(x) && RootFirst(x, k)
    ensures x == Expr(k) && !IsStatementBoundary(k) && k != Comma && k != CloseRound && k != CloseSquare
  {
    hide StartsValue;
    if StartsValue(k) {
      ValueWord(k);
    }
  }

  lemma {:induction false} ArmRoot(x: Root, block: Sym, r: seq<Root>, k: Kind)
    requires (x == N(block) || IsExpression(x)) && (block.Block? || block == ValueBlock) && RootFirst(x, k)
    requires r != [] && IsArmPlace(r[|r| - 1]) && (IsExpression(x) ==> NoBlockHere(r, k))
    ensures x == Arm(block, k)
  {
    hide StartsValue, IsArmPlace;
    if IsExpression(x) {
      ExpressionRoot(x, k);
    }
  }

  lemma {:induction false} StatementChosen(value: bool, r: seq<Root>, i: nat, k: Kind)
    requires StatementShape(value, r) && i < |r| && RootFirst(r[i], k)
    ensures StatementChoice(value, r[..i], k) == Some(r[i])
  {
    hide StartsValue, IsStatementBoundary;
    if i == 1 {
      ExpressionRoot(r[1], k);
    }
  }

  lemma {:induction false} DeclarationChosen(r: seq<Root>, i: nat, k: Kind)
    requires DeclarationShape(r) && i < |r| && RootFirst(r[i], k)
    ensures i < 3 ==> r[i] == T(k) && (i == 2 ==> k == Operator("="))
    ensures i == 3 ==> r[i] == Expr(k)
  {
    hide IsReserved;
    if i == 3 {
      ExpressionRoot(r[3], k);
    }
  }

  lemma {:induction false} BlockChosen(r: seq<Root>, i: nat, k: Kind)
    requires BlockShape(r) && i < |r| && RootFirst(r[i], k)
    ensures BlockChoice(r[..i], k) == Some(r[i])
  {
    hide StartsValue;
    if StartsValue(k) {
      ValueWord(k);
    }
    if 0 < i < |r| - 1 && r[i] != N(Ends) {
      assert IsLine(r[i]);
    }
    if 0 < i {
      assert r[..i][i - 1] == r[i - 1];
      assert i == 1 || IsLine(r[i - 1]) || r[i - 1] == N(Ends);
    }
  }

  lemma {:induction false} ConditionalChosen(r: seq<Root>, i: nat, ks: seq<Kind>, at: nat)
    requires ConditionalShape(r) && i < |r| && at < |ks| && RootFirst(r[i], ks[at]) && Suits(r[..i], r[i], ks, at)
    ensures ConditionalChoice(r[..i], ks[at]) == Some(r[i])
  {
    hide StartsOperand, StartsValue, Arm;
    if i == 2 {
      assert r[..2][1] == r[1];
      ArmRoot(r[2], Block(true), r[..2], ks[at]);
    } else if i > 2 {
      assert r[..i][i - 1] == r[i - 1];
    }
  }

  lemma {:induction false} LoopChosen(r: seq<Root>, i: nat, k: Kind)
    requires LoopShape(r) && i < |r| && RootFirst(r[i], k)
    ensures LoopChoice(r[..i], k) == Some(r[i])
  {
    hide StartsOperand, IsNameKind;
  }

  lemma {:induction false} SuffixChosen(r: seq<Root>, i: nat, k: Kind)
    requires SuffixShape(r) && i < |r| && RootFirst(r[i], k)
    ensures SuffixChoice(r[..i], k) == Some(r[i])
  {
    hide IsNameKind, StartsValue;
    if i == 1 && r[0] == T(OpenSquare) {
      ExpressionRoot(r[1], k);
    }
  }

  lemma {:induction false} PrimaryChosen(r: seq<Root>, i: nat, k: Kind)
    requires PrimaryShape(r) && i < |r| && RootFirst(r[i], k)
    ensures PrimaryChoice(r[..i], k) == Some(r[i])
  {
    hide IsReserved, StartsValue;
    if i == 1 {
      ExpressionRoot(r[1], k);
    }
  }

  lemma {:induction false} RecordChosen(r: seq<Root>, i: nat, k: Kind)
    requires RecordShape(r) && i < |r| && RootFirst(r[i], k)
    ensures RecordChoice(r[..i], k) == Some(r[i])
  {
    hide IsReserved;
    if i > 0 {
      assert r[..i][i - 1] == r[i - 1];
    }
  }

  lemma {:induction false} LambdaChosen(r: seq<Root>, i: nat, ks: seq<Kind>, at: nat)
    requires LambdaShape(r) && i < |r| && at < |ks| && RootFirst(r[i], ks[at]) && Suits(r[..i], r[i], ks, at)
    ensures LambdaChoice(r[..i], ks[at]) == Some(r[i])
  {
    hide StartsValue, Arm, IsNameKind;
    if i == |r| - 1 {
      assert r[..i][i - 1] == r[i - 1];
      ArmRoot(r[i], Block(false), r[..i], ks[at]);
    }
  }

  /** Child `i` of a row, whose first token is `at`. */
  predicate InRow(sym: Sym, r: seq<Root>, i: nat, ks: seq<Kind>, at: nat) {
    && Production(sym, r) && i < |r| && at < |ks|
    && RootFirst(r[i], ks[at]) && Suits(r[..i], r[i], ks, at)
  }

  lemma {:induction false} ListChosen(sym: Sym, r: seq<Root>, i: nat, ks: seq<Kind>, at: nat)
    requires InRow(sym, r, i, ks, at)
    requires sym == Ends || sym == Newlines || sym == Path || sym.Names? || sym == Bindings
    ensures Choice(sym, r[..i], ks, at) == Some(r[i])
  {
    hide IsReserved;
  }

  predicate IsStatementSym(sym: Sym) {
    sym.Line? || sym.Statement? || sym == Import || sym == Declaration || sym == FunctionDeclaration || sym.Block? ||
    sym == ValueBlock
  }

  lemma {:induction false} StatementsChosen(sym: Sym, r: seq<Root>, i: nat, ks: seq<Kind>, at: nat)
    requires InRow(sym, r, i, ks, at) && IsStatementSym(sym)
    ensures Choice(sym, r[..i], ks, at) == Some(r[i])
  {
    hide IsReserved, StatementShape, DeclarationShape, BlockShape, StatementChoice, BlockChoice, StartsValue, Suits,
      Expr;
    var k := ks[at];
    match sym {
      case Statement(value) => StatementChosen(value, r, i, k);
      case Declaration =>
        assert |r| <= 4 by { DeclarationSize(r); }
        DeclarationChosen(r, i, k);
      case Block(_) => BlockChosen(r, i, k);
      case ValueBlock => BlockChosen(r, i, k);
      case _ =>
    }
  }

  lemma {:induction false} DeclarationSize(r: seq<Root>)
    requires DeclarationShape(r)
    ensures |r| <= 4
  {
  }

  predicate IsControlSym(sym: Sym) {
    sym.Expression? || sym == Conditional || sym == ElifPart || sym == ElsePart || sym == TryExpression ||
      sym == Loop ||
    sym == Lambda
  }

  lemma {:induction false} ControlsChosen(sym: Sym, r: seq<Root>, i: nat, ks: seq<Kind>, at: nat)
    requires InRow(sym, r, i, ks, at) && IsControlSym(sym)
    ensures Choice(sym, r[..i], ks, at) == Some(r[i])
  {
    hide IsReserved, ConditionalShape, LoopShape, LambdaShape, ConditionalChoice, LoopChoice, LambdaChoice, Arm;
    var k := ks[at];
    match sym {
      case Conditional => ConditionalChosen(r, i, ks, at);
      case Loop => LoopChosen(r, i, k);
      case Lambda => LambdaChosen(r, i, ks, at);
      case Expression(value) => BranchlessChosen(value, r, k);
      case _ => PartChosen(sym, r, i, ks, at);
    }
  }

  lemma {:induction false} BranchlessChosen(value: bool, r: seq<Root>, k: Kind)
    requires ExpressionShape(value, r) && RootFirst(r[0], k)
    ensures r[0] == N(if !value then Loop else if k == Identifier("if") then Conditional
                      else if k == Identifier("try") then TryExpression else Binary(0))
  {
  }

  lemma {:induction false} PartChosen(sym: Sym, r: seq<Root>, i: nat, ks: seq<Kind>, at: nat)
    requires InRow(sym, r, i, ks, at) && (sym == ElifPart || sym == ElsePart || sym == TryExpression)
    ensures Choice(sym, r[..i], ks, at) == Some(r[i])
  {
    hide IsReserved, StartsValue, Arm, StartsOperand;
    var block := if sym == TryExpression then ValueBlock else Block(true);
    if i > 0 && (IsExpression(r[i]) || r[i] == N(block)) {
      assert r[..i][i - 1] == r[i - 1];
      ArmRoot(r[i], block, r[..i], ks[at]);
    }
  }

  lemma {:induction false} OperatorsChosen(sym: Sym, r: seq<Root>, i: nat, ks: seq<Kind>, at: nat)
    requires InRow(sym, r, i, ks, at)
    requires sym.Binary? || sym.BinaryTail? || sym == Unary || sym == Postfix || sym == Suffix
    ensures Choice(sym, r[..i], ks, at) == Some(r[i])
  {
    hide IsReserved, SuffixShape, SuffixChoice, OperatorAt, IsSuffixStart;
    if sym == Suffix {
      SuffixChosen(r, i, ks[at]);
    }
  }

  lemma {:induction false} BracketsChosen(sym: Sym, r: seq<Root>, i: nat, ks: seq<Kind>, at: nat)
    requires InRow(sym, r, i, ks, at)
    requires sym == ParameterList || sym == Call || sym == Array || sym == Exprs || sym == Primary || sym == Member
    ensures Choice(sym, r[..i], ks, at) == Some(r[i])
  {
    hide IsReserved, PrimaryShape, PrimaryChoice, StartsValue, Expr;
    if IsExpression(r[i]) {
      ExpressionRoot(r[i], ks[at]);
    }
    if sym == Primary {
      PrimaryChosen(r, i, ks[at]);
    }
    if StartsValue(ks[at]) {
      ValueWord(ks[at]);
    }
  }

  lemma {:induction false} RecordsChosen(sym: Sym, r: seq<Root>, i: nat, ks: seq<Kind>, at: nat)
    requires InRow(sym, r, i, ks, at) && (sym == Record || sym == Members || sym == MemberSeparator)
    requires sym == Members && i % 2 == 1 && ks[at] == Newline ==> BehindNewlines(ks, at) != CloseCurly
    ensures Choice(sym, r[..i], ks, at) == Some(r[i])
  {
    hide IsReserved, RecordShape, RecordChoice, BehindNewlines, IsNameKind;
    if sym == Record {
      RecordChosen(r, i, ks[at]);
    }
  }

  /** The child is the one chosen for its place. */
  lemma {:induction false} RowChosen(sym: Sym, r: seq<Root>, i: nat, ks: seq<Kind>, at: nat)
    requires InRow(sym, r, i, ks, at) && sym != Program
    requires sym == Members && i % 2 == 1 && ks[at] == Newline ==> BehindNewlines(ks, at) != CloseCurly
    ensures Choice(sym, r[..i], ks, at) == Some(r[i])
  {
    hide Production, Choice, InRow, BehindNewlines;
    assert at < |ks| && i < |r| by { InRowBounds(sym, r, i, ks, at); }
    if IsStatementSym(sym) {
      StatementsChosen(sym, r, i, ks, at);
    } else if IsControlSym(sym) {
      ControlsChosen(sym, r, i, ks, at);
    } else if sym == Record || sym == Members || sym == MemberSeparator {
      RecordsChosen(sym, r, i, ks, at);
    } else if sym.Binary? || sym.BinaryTail? || sym == Unary || sym == Postfix || sym == Suffix {
      OperatorsChosen(sym, r, i, ks, at);
    } else if sym == ParameterList || sym == Call || sym == Array || sym == Exprs || sym == Primary || sym == Member {
      BracketsChosen(sym, r, i, ks, at);
    } else {
      ListChosen(sym, r, i, ks, at);
    }
  }

  lemma {:induction false} InRowBounds(sym: Sym, r: seq<Root>, i: nat, ks: seq<Kind>, at: nat)
    requires InRow(sym, r, i, ks, at)
    ensures at < |ks| && i < |r|
  {
  }

  // ------------------------------------------------------------------ every node ends where nothing is chosen

  lemma {:induction false} RowHalts(sym: Sym, r: seq<Root>, ks: seq<Kind>, at: nat)
    requires Production(sym, r) && sym != Program && Halts(sym, r, ks, at)
    ensures Choice(sym, r, ks, at) == None
  {
    hide Production, Choice, Halts;
    assert at < |ks| by { HaltsBound(sym, r, ks, at); }
    if IsStatementSym(sym) {
      StatementHalts(sym, r, ks, at);
    } else if IsControlSym(sym) {
      ControlHalts(sym, r, ks, at);
    } else if sym == Record || sym == Members || sym == MemberSeparator {
      RecordHalts(sym, r, ks, at);
    } else if sym.Binary? || sym.BinaryTail? || sym == Unary || sym == Postfix || sym == Suffix {
      OperatorHalts(sym, r, ks, at);
    } else if sym == ParameterList || sym == Call || sym == Array || sym == Exprs || sym == Primary || sym == Member {
      BracketHalts(sym, r, ks, at);
    } else {
      ListHalts(sym, r, ks, at);
    }
  }

  lemma {:induction false} HaltsBound(sym: Sym, r: seq<Root>, ks: seq<Kind>, at: nat)
    requires Halts(sym, r, ks, at)
    ensures at < |ks|
  {
  }

  lemma {:induction false} StatementHalts(sym: Sym, r: seq<Root>, ks: seq<Kind>, at: nat)
    requires Production(sym, r) && IsStatementSym(sym) && Halts(sym, r, ks, at)
    ensures Choice(sym, r, ks, at) == None
  {
    hide IsReserved, IsStatementBoundary, IsLoopWord, IsStatementWord;
  }

  lemma {:induction false} ControlHalts(sym: Sym, r: seq<Root>, ks: seq<Kind>, at: nat)
    requires Production(sym, r) && IsControlSym(sym) && Halts(sym, r, ks, at)
    ensures Choice(sym, r, ks, at) == None
  {
    hide IsReserved, Arm;
  }

  lemma {:induction false} OperatorHalts(sym: Sym, r: seq<Root>, ks: seq<Kind>, at: nat)
    requires Production(sym, r) && Halts(sym, r, ks, at)
    requires sym.Binary? || sym.BinaryTail? || sym == Unary || sym == Postfix || sym == Suffix
    ensures Choice(sym, r, ks, at) == None
  {
    hide IsReserved, OperatorAt, IsSuffixStart, IsNameKind;
  }

  lemma {:induction false} BracketHalts(sym: Sym, r: seq<Root>, ks: seq<Kind>, at: nat)
    requires Production(sym, r) && Halts(sym, r, ks, at)
    requires sym == ParameterList || sym == Call || sym == Array || sym == Exprs || sym == Primary || sym == Member
    ensures Choice(sym, r, ks, at) == None
  {
    hide IsReserved, IsLoopWord;
  }

  lemma {:induction false} RecordHalts(sym: Sym, r: seq<Root>, ks: seq<Kind>, at: nat)
    requires Production(sym, r) && Halts(sym, r, ks, at) && (sym == Record || sym == Members || sym == MemberSeparator)
    ensures Choice(sym, r, ks, at) == None
  {
    hide IsReserved, BehindNewlines;
  }

  lemma {:induction false} ListHalts(sym: Sym, r: seq<Root>, ks: seq<Kind>, at: nat)
    requires Production(sym, r) && Halts(sym, r, ks, at)
    requires sym == Ends || sym == Newlines || sym == Path || sym.Names? || sym == Bindings
    ensures Choice(sym, r, ks, at) == None
  {
    hide IsReserved;
  }

  // ------------------------------------------------------------------ two derivations of the same tokens

  /** A derivation of the tokens from `at` on, all of whose choices are forced. */
  ghost predicate Fits(ks: seq<Kind>, at: nat, t: Tree) {
    && Derives(t) && Forced(ks, at, t)
    && at + |Yield(t)| <= |ks| && ks[at..at + |Yield(t)|] == Yield(t)
  }

  /** Where child `i` starts. */
  function From(at: nat, t: Tree, i: nat): (p: nat)
    requires t.Node? && i <= |t.kids|
  {
    at + |YieldAll(t.kids[..i])|
  }

  lemma {:induction false} NextFrom(at: nat, t: Tree, i: nat)
    requires t.Node? && i < |t.kids|
    ensures From(at, t, i + 1) == From(at, t, i) + |Yield(t.kids[i])| && From(at, t, 0) == at
    ensures From(at, t, |t.kids|) == at + |Yield(t)|
  {
    hide YieldAll;
    assert t.kids[..i + 1] == t.kids[..i] + [t.kids[i]] && t.kids[..0] == [] && t.kids[..|t.kids|] == t.kids;
    YieldAppend(t.kids[..i], t.kids[i]);
    NothingYields();
  }

  lemma {:induction false} KidFits(ks: seq<Kind>, at: nat, t: Tree, i: nat)
    requires t.Node? && Fits(ks, at, t) && i < |t.kids|
    ensures Fits(ks, From(at, t, i), t.kids[i]) && Roots(t.kids)[i] == RootOf(t.kids[i])
    ensures Suits(Roots(t.kids)[..i], RootOf(t.kids[i]), ks, From(at, t, i))
    ensures From(at, t, i) + |Yield(t.kids[i])| <= at + |Yield(t)|
  {
    hide YieldAll, Yield, Production, ForcedAll, Suits, Halts;
    var kids := t.kids;
    KidDerives(t, i);
    hide Derives;
    ForcedAt(ks, at, kids, i);
    assert Roots(kids[..i]) == Roots(kids)[..i];
    KidYield(ks, at, t, i);
  }

  lemma {:induction false} KidDerives(t: Tree, i: nat)
    requires t.Node? && Derives(t) && i < |t.kids|
    ensures Derives(t.kids[i]) && Production(t.sym, Roots(t.kids))
  {
    hide Production;
  }

  lemma {:induction false} KidYield(ks: seq<Kind>, at: nat, t: Tree, i: nat)
    requires t.Node? && at + |Yield(t)| <= |ks| && ks[at..at + |Yield(t)|] == Yield(t) && i < |t.kids|
    ensures var p, y := From(at, t, i), Yield(t.kids[i]);
            p + |y| <= at + |Yield(t)| && ks[p..p + |y|] == y
  {
    hide YieldAll;
    var kids := t.kids;
    var a, y, c := YieldAll(kids[..i]), Yield(kids[i]), YieldAll(kids[i + 1..]);
    assert kids == kids[..i + 1] + kids[i + 1..] && kids[..i + 1] == kids[..i] + [kids[i]];
    YieldConcat(kids[..i + 1], kids[i + 1..]);
    YieldAppend(kids[..i], kids[i]);
    assert Yield(t) == a + y + c;
    hide Yield;
    var p := at + |a|;
    forall j | 0 <= j < |y| ensures ks[p + j] == y[j] {
      assert ks[p + j] == ks[at..at + |Yield(t)|][|a| + j];
    }
  }

  /** The first token of a tree. */
  lemma {:induction false} FitsFirst(ks: seq<Kind>, at: nat, t: Tree)
    requires Fits(ks, at, t) && RootOf(t) != N(Program)
    ensures at < |ks| && Yield(t) != [] && RootFirst(RootOf(t), ks[at])
  {
    hide Derives, Forced, First;
    if t.Node? {
      TreeFirst(t);
    }
    assert ks[at..at + |Yield(t)|][0] == ks[at];
  }

  lemma {:induction false} RowInner(sym: Sym, r: seq<Root>, i: nat)
    requires Production(sym, r) && sym != Program && i < |r|
    ensures r[i] != N(Program)
  {
    hide IsReserved, OperatorAt;
  }

  /** What stands behind a run of newlines. */
  lemma {:induction false} BehindRun(ks: seq<Kind>, at: nat, n: nat)
    requires at + n < |ks| && ks[at + n] != Newline && forall i :: at <= i < at + n ==> ks[i] == Newline
    ensures BehindNewlines(ks, at) == ks[at + n]
    decreases n
  {
    if n > 0 {
      BehindRun(ks, at + 1, n - 1);
    }
  }

  lemma {:induction false} NewlinesOnly(t: Tree)
    requires t.Node? && t.sym == Newlines && Derives(t)
    ensures forall i :: 0 <= i < |Yield(t)| ==> Yield(t)[i] == Newline
  {
    var r := Roots(t.kids);
    forall i | 0 <= i < |t.kids| ensures t.kids[i] == Leaf(Newline) {
      assert r[i] == RootOf(t.kids[i]);
    }
    NewlineLeaves(t.kids);
  }

  lemma {:induction false} NewlineLeaves(ts: seq<Tree>)
    requires forall i :: 0 <= i < |ts| ==> ts[i] == Leaf(Newline)
    ensures forall i :: 0 <= i < |YieldAll(ts)| ==> YieldAll(ts)[i] == Newline
    decreases |ts|
  {
    if ts != [] {
      NewlineLeaves(ts[..|ts| - 1]);
    }
  }

  lemma {:induction false} SeparatorKids(t: Tree)
    requires t.Node? && t.sym == MemberSeparator && Derives(t)
    ensures t.kids != [] && Derives(t.kids[0]) && Yield(t.kids[0]) <= Yield(t)
    ensures t.kids[0] == Leaf(Comma) || (RootOf(t.kids[0]) == N(Newlines) && |t.kids| == 1)
    ensures t.kids[0] == Leaf(Comma) ==> Yield(t) != [] && Yield(t)[0] == Comma
  {
    hide YieldAll;
    var r, kid := Roots(t.kids), t.kids[0];
    assert r[0] == RootOf(kid);
    FirstYield(t);
    KidDerives(t, 0);
    assert kid.Leaf? ==> Yield(kid) == [Comma];
  }

  /** A separator that starts with a newline is newlines only. */
  lemma {:induction false} SeparatorLines(t: Tree)
    requires t.Node? && t.sym == MemberSeparator && Derives(t) && Yield(t) != [] && Yield(t)[0] == Newline
    ensures forall i :: 0 <= i < |Yield(t)| ==> Yield(t)[i] == Newline
  {
    hide YieldAll, Derives;
    SeparatorKids(t);
    var kid := t.kids[0];
    NewlinesOnly(kid);
    assert t.kids == [] + [kid];
    YieldAppend([], kid);
    NothingYields();
    assert [] + Yield(kid) == Yield(kid);
  }

  /** Newlines between members have a member behind them. */
  lemma {:induction false} MoreMembers(ks: seq<Kind>, at: nat, t: Tree, i: nat)
    requires t.Node? && t.sym == Members && Fits(ks, at, t) && i < |t.kids| && i % 2 == 1
    requires From(at, t, i) < |ks| && ks[From(at, t, i)] == Newline
    ensures BehindNewlines(ks, From(at, t, i)) != CloseCurly
  {
    hide YieldAll, Yield, Forced, BehindNewlines, Suits, From, Fits;
    MemberBehind(ks, at, t, i);
    var m, next := t.kids[i], t.kids[i + 1];
    KidFits(ks, at, t, i);
    KidFits(ks, at, t, i + 1);
    NextFrom(at, t, i);
    var p, y := From(at, t, i), Yield(m);
    FitsFirst(ks, p, m);
    FitsFirst(ks, p + |y|, next);
    SeparatorRun(ks, p, m);
    BehindRun(ks, p, |y|);
  }

  lemma {:induction false} MemberBehind(ks: seq<Kind>, at: nat, t: Tree, i: nat)
    requires t.Node? && t.sym == Members && Fits(ks, at, t) && i < |t.kids| && i % 2 == 1
    ensures i + 1 < |t.kids| && RootOf(t.kids[i]) == N(MemberSeparator) && RootOf(t.kids[i + 1]) == N(Member)
  {
    hide Yield, Forced;
    var r := Roots(t.kids);
    assert MemberList(r);
    assert r[i] == RootOf(t.kids[i]) && r[i + 1] == RootOf(t.kids[i + 1]);
  }

  lemma {:induction false} SeparatorRun(ks: seq<Kind>, at: nat, t: Tree)
    requires Fits(ks, at, t) && RootOf(t) == N(MemberSeparator) && Yield(t) != [] && ks[at] == Newline
    ensures forall i :: at <= i < at + |Yield(t)| ==> ks[i] == Newline
  {
    hide Yield, Forced, Derives;
    var y := Yield(t);
    assert ks[at..at + |y|][0] == ks[at];
    SeparatorLines(t);
    forall j | at <= j < at + |y| ensures ks[j] == Newline {
      assert ks[at..at + |y|][j - at] == ks[j];
    }
  }

  /** Each child is the one chosen by the children in front of it and the tokens ahead. */
  lemma {:induction false} KidChosen(ks: seq<Kind>, at: nat, t: Tree, i: nat)
    requires t.Node? && t.sym != Program && Fits(ks, at, t) && i < |t.kids|
    ensures From(at, t, i) < |ks| && RootOf(t.kids[i]) != N(Program)
    ensures Choice(t.sym, Roots(t.kids)[..i], ks, From(at, t, i)) == Some(RootOf(t.kids[i]))
  {
    hide Production, Choice, Forced, Yield, BehindNewlines, From, RootFirst, Suits;
    var r, p := Roots(t.kids), From(at, t, i);
    KidDerives(t, i);
    hide Derives;
    KidFits(ks, at, t, i);
    RowInner(t.sym, r, i);
    FitsFirst(ks, p, t.kids[i]);
    if t.sym == Members && i % 2 == 1 && ks[p] == Newline {
      MoreMembers(ks, at, t, i);
    }
    RowChosen(t.sym, r, i, ks, p);
  }

  /** Behind the last child nothing is chosen. */
  lemma {:induction false} NothingChosen(ks: seq<Kind>, at: nat, t: Tree)
    requires t.Node? && t.sym != Program && Fits(ks, at, t)
    ensures at + |Yield(t)| < |ks| && Choice(t.sym, Roots(t.kids), ks, at + |Yield(t)|) == None
  {
    hide Production, Choice, Yield, ForcedAll, Halts;
    var end := at + |Yield(t)|;
    assert Production(t.sym, Roots(t.kids));
    HaltsBound(t.sym, Roots(t.kids), ks, end);
    RowHalts(t.sym, Roots(t.kids), ks, end);
  }

  /** Two derivations of the same symbol at the same place agree in their first `n` children. */
  lemma {:induction false} SameFront(ks: seq<Kind>, at: nat, t: Tree, u: Tree, n: nat)
    requires t.Node? && u.Node? && t.sym == u.sym && t.sym != Program && Fits(ks, at, t) && Fits(ks, at, u)
    requires n <= |t.kids| && n <= |u.kids|
    ensures t.kids[..n] == u.kids[..n]
    decreases t, 0, n
  {
    hide Fits, Choice;
    if n > 0 {
      SameFront(ks, at, t, u, n - 1);
      SameKid(ks, at, t, u, n - 1);
      assert t.kids[..n] == t.kids[..n - 1] + [t.kids[n - 1]] && u.kids[..n] == u.kids[..n - 1] + [u.kids[n - 1]];
    }
  }

  lemma {:induction false} SameKid(ks: seq<Kind>, at: nat, t: Tree, u: Tree, i: nat)
    requires t.Node? && u.Node? && t.sym == u.sym && t.sym != Program && Fits(ks, at, t) && Fits(ks, at, u)
    requires i < |t.kids| && i < |u.kids| && t.kids[..i] == u.kids[..i]
    ensures t.kids[i] == u.kids[i]
    decreases t, 0, 0
  {
    hide Fits, Choice, Suits;
    SamePlace(at, t, u, i);
    hide From;
    KidChosen(ks, at, t, i);
    KidChosen(ks, at, u, i);
    KidFits(ks, at, t, i);
    KidFits(ks, at, u, i);
    SameTree(ks, From(at, t, i), t.kids[i], u.kids[i]);
  }

  lemma {:induction false} SamePlace(at: nat, t: Tree, u: Tree, i: nat)
    requires t.Node? && u.Node? && i <= |t.kids| && i <= |u.kids| && t.kids[..i] == u.kids[..i]
    ensures From(at, t, i) == From(at, u, i) && Roots(t.kids)[..i] == Roots(u.kids)[..i]
  {
    assert Roots(t.kids)[..i] == Roots(t.kids[..i]) && Roots(u.kids)[..i] == Roots(u.kids[..i]);
  }

  lemma {:induction false} SameTree(ks: seq<Kind>, at: nat, t: Tree, u: Tree)
    requires RootOf(t) == RootOf(u) != N(Program) && Fits(ks, at, t) && Fits(ks, at, u)
    ensures t == u
    decreases t, 1
  {
    hide Fits, Choice;
    if t.Node? {
      if |t.kids| <= |u.kids| {
        SameFront(ks, at, t, u, |t.kids|);
        NoLonger(ks, at, t, u);
      } else {
        SameFront(ks, at, t, u, |u.kids|);
        NoLonger(ks, at, u, t);
      }
      assert t.kids[..|t.kids|] == t.kids && u.kids[..|u.kids|] == u.kids;
    }
  }

  /** A derivation that agrees with a whole other one has no more children. */
  lemma {:induction false} NoLonger(ks: seq<Kind>, at: nat, t: Tree, u: Tree)
    requires t.Node? && u.Node? && t.sym == u.sym && t.sym != Program && Fits(ks, at, t) && Fits(ks, at, u)
    requires |t.kids| <= |u.kids| && u.kids[..|t.kids|] == t.kids
    ensures |t.kids| == |u.kids|
  {
    hide Fits, Choice;
    var n := |t.kids|;
    assert t.kids[..n] == t.kids && Roots(t.kids)[..n] == Roots(t.kids);
    SamePlace(at, t, u, n);
    NothingChosen(ks, at, t);
    assert From(at, t, n) == at + |Yield(t)|;
    if n < |u.kids| {
      KidChosen(ks, at, u, n);
      assert false;
    }
  }

  // ------------------------------------------------------------------ programs

  lemma {:induction false} ProgramRow(r: seq<Root>, i: nat)
    requires ProgramShape(r) && i < |r|
    ensures r[i] == N(Ends) || IsLine(r[i]) || IsStatement(r[i])
    ensures IsStatement(r[i]) ==> i == |r| - 1 || (i == |r| - 2 && r[i + 1] == N(Ends))
  {
  }

  lemma {:induction false} ProgramKid(ks: seq<Kind>, at: nat, t: Tree, i: nat)
    requires t.Node? && t.sym == Program && Fits(ks, at, t) && i < |t.kids|
    ensures var x := RootOf(t.kids[i]);
            && (x == N(Ends) || IsLine(x) || IsStatement(x))
            && (IsStatement(x) ==>
                  i == |t.kids| - 1 || (i == |t.kids| - 2 && RootOf(t.kids[i + 1]) == N(Ends)))
  {
    hide Yield, Forced;
    var r := Roots(t.kids);
    assert ProgramShape(r);
    hide Derives;
    ProgramRow(r, i);
    assert r[i] == RootOf(t.kids[i]);
    if i + 1 < |t.kids| {
      assert r[i + 1] == RootOf(t.kids[i + 1]);
    }
  }

  /** What the first token says about a child of a program. */
  lemma {:induction false} ProgramFirst(x: Root, k: Kind)
    requires (x == N(Ends) || IsLine(x) || IsStatement(x)) && RootFirst(x, k)
    ensures k != End && (x == N(Ends) <==> k == Newline || k == Semicolon)
    ensures x != N(Ends) ==> x.sym.value == (!IsLoopWord(k) && !IsStatementWord(k))
  {
    hide StartsValue;
    if StartsValue(k) {
      ValueWord(k);
    }
  }

  /** A line has ends behind its statement, and is not the end of the source. */
  lemma {:induction false} LineKids(ks: seq<Kind>, at: nat, t: Tree)
    requires t.Node? && t.sym.Line? && Fits(ks, at, t)
    ensures |t.kids| == 2 && RootOf(t.kids[0]) == N(Statement(t.sym.value)) && RootOf(t.kids[1]) == N(Ends)
    ensures From(at, t, 0) == at && From(at, t, 1) == at + |Yield(t.kids[0])|
    ensures at + |Yield(t)| == at + |Yield(t.kids[0])| + |Yield(t.kids[1])|
    ensures at + |Yield(t)| < |ks| && ks[at + |Yield(t)|] != End
  {
    hide ForcedAll, Yield, From;
    var r := Roots(t.kids);
    assert r[0] == RootOf(t.kids[0]) && r[1] == RootOf(t.kids[1]);
    hide Derives;
    NextFrom(at, t, 0);
    NextFrom(at, t, 1);
  }

  /** A line of one program cannot be a bare statement of another. */
  lemma {:induction false} LineOrStatement(ks: seq<Kind>, at: nat, t: Tree, u: Tree, i: nat)
    requires t.Node? && u.Node? && t.sym == Program && u.sym == Program && Fits(ks, at, t) && Fits(ks, at, u)
    requires i < |t.kids| && i < |u.kids| && From(at, t, i) == From(at, u, i)
    requires t.kids[i].Node? && t.kids[i].sym.Line?
    requires at + |Yield(u)| < |ks| && ks[at + |Yield(u)|] == End
    ensures RootOf(u.kids[i]) != N(Statement(t.kids[i].sym.value))
  {
    hide Fits, Yield, Suits, From, First;
    var line, stmt, p := t.kids[i], u.kids[i], From(at, t, i);
    KidFits(ks, at, t, i);
    KidFits(ks, at, u, i);
    LineKids(ks, p, line);
    KidFits(ks, p, line, 0);
    KidFits(ks, p, line, 1);
    var q := p + |Yield(line.kids[0])|;
    FitsFirst(ks, q, line.kids[1]);
    ProgramFirst(N(Ends), ks[q]);
    ProgramKid(ks, at, u, i);
    NextFrom(at, u, i);
    if RootOf(stmt) == RootOf(line.kids[0]) {
      SameTree(ks, p, stmt, line.kids[0]);
      if i + 1 < |u.kids| {
        KidFits(ks, at, u, i + 1);
        NextFrom(at, u, i + 1);
        SameTree(ks, q, u.kids[i + 1], line.kids[1]);
        assert false;
      }
      assert false;
    }
  }

  lemma {:induction false} SameProgramKid(ks: seq<Kind>, at: nat, t: Tree, u: Tree, i: nat)
    requires t.Node? && u.Node? && t.sym == Program && u.sym == Program && Fits(ks, at, t) && Fits(ks, at, u)
    requires i < |t.kids| && i < |u.kids| && t.kids[..i] == u.kids[..i]
    requires at + |Yield(t)| < |ks| && ks[at + |Yield(t)|] == End && at + |Yield(u)| < |ks| &&
      ks[at + |Yield(u)|] == End
    ensures t.kids[i] == u.kids[i]
  {
    hide Fits, Yield, Suits, First;
    SamePlace(at, t, u, i);
    hide From;
    var p, x, y := From(at, t, i), t.kids[i], u.kids[i];
    ProgramKid(ks, at, t, i);
    ProgramKid(ks, at, u, i);
    KidFits(ks, at, t, i);
    KidFits(ks, at, u, i);
    FitsFirst(ks, p, x);
    FitsFirst(ks, p, y);
    ProgramFirst(RootOf(x), ks[p]);
    ProgramFirst(RootOf(y), ks[p]);
    if RootOf(x) == RootOf(y) {
      SameTree(ks, p, x, y);
    } else if x.sym.Line? {
      LineOrStatement(ks, at, t, u, i);
    } else {
      LineOrStatement(ks, at, u, t, i);
    }
  }

  lemma {:induction false} SameProgramFront(ks: seq<Kind>, at: nat, t: Tree, u: Tree, n: nat)
    requires t.Node? && u.Node? && t.sym == Program && u.sym == Program && Fits(ks, at, t) && Fits(ks, at, u)
    requires n <= |t.kids| && n <= |u.kids|
    requires at + |Yield(t)| < |ks| && ks[at + |Yield(t)|] == End && at + |Yield(u)| < |ks| &&
      ks[at + |Yield(u)|] == End
    ensures t.kids[..n] == u.kids[..n]
    decreases n
  {
    hide Fits, Yield;
    if n > 0 {
      SameProgramFront(ks, at, t, u, n - 1);
      SameProgramKid(ks, at, t, u, n - 1);
      assert t.kids[..n] == t.kids[..n - 1] + [t.kids[n - 1]] && u.kids[..n] == u.kids[..n - 1] + [u.kids[n - 1]];
    }
  }

  /** No child of a program starts at the end of the source. */
  lemma {:induction false} NoMoreLines(ks: seq<Kind>, at: nat, t: Tree, u: Tree)
    requires t.Node? && u.Node? && u.sym == Program && Fits(ks, at, u)
    requires |t.kids| <= |u.kids| && u.kids[..|t.kids|] == t.kids
    requires at + |Yield(t)| < |ks| && ks[at + |Yield(t)|] == End
    ensures |t.kids| == |u.kids|
  {
    hide Fits, First, Suits, YieldAll;
    var n := |t.kids|;
    if n < |u.kids| {
      assert t.kids[..n] == t.kids;
      SamePlace(at, t, u, n);
      ProgramKid(ks, at, u, n);
      KidFits(ks, at, u, n);
      FitsFirst(ks, From(at, u, n), u.kids[n]);
      ProgramFirst(RootOf(u.kids[n]), ks[From(at, u, n)]);
      assert false;
    }
  }

  /** A source has at most one derivation with forced choices. */
  lemma {:induction false} OneProgram(ks: seq<Kind>, t: Tree, u: Tree)
    requires t.Node? && u.Node? && t.sym == Program && u.sym == Program && Fits(ks, 0, t) && Fits(ks, 0, u)
    ensures t == u
  {
    hide Yield;
    var m, n := |t.kids|, |u.kids|;
    assert Halts(Program, Roots(t.kids), ks, 0 + |Yield(t)|) && Halts(Program, Roots(u.kids), ks, 0 + |Yield(u)|);
    hide Fits;
    if m <= n {
      SameProgramFront(ks, 0, t, u, m);
      assert t.kids[..m] == t.kids;
      NoMoreLines(ks, 0, t, u);
    } else {
      SameProgramFront(ks, 0, t, u, n);
      assert u.kids[..n] == u.kids;
      NoMoreLines(ks, 0, u, t);
    }
    assert t.kids[..m] == t.kids && u.kids[..n] == u.kids;
  }

  /** The derivation of a whole source, whose last token is `End`. */
  ghost predicate IsDerivation(ks: seq<Kind>, t: Tree) {
    t.Node? && t.sym == Program && Derives(t) && Yield(t) + [End] == ks && Forced(ks, 0, t)
  }

  lemma {:induction false} DerivationIsUnique(ks: seq<Kind>, t: Tree, u: Tree)
    requires IsDerivation(ks, t) && IsDerivation(ks, u)
    ensures t == u
  {
    hide Derives, Forced, Yield;
    assert ks[0..0 + |Yield(t)|] == Yield(t) && ks[0..0 + |Yield(u)|] == Yield(u);
    OneProgram(ks, t, u);
  }

  /** The kind of block that may stand in an arm of this node. */
  function ArmBlock(sym: Sym): (block: Sym) {
    if sym == TryExpression then ValueBlock else Block(sym != Lambda)
  }

  predicate HasArms(sym: Sym) {
    sym == Conditional || sym == ElifPart || sym == ElsePart || sym == TryExpression || sym == Lambda
  }

  lemma {:induction false} ArmRow(sym: Sym, r: seq<Root>, i: nat)
    requires Production(sym, r) && HasArms(sym) && 0 < i < |r| && IsArmPlace(r[i - 1])
    requires sym == Lambda ==> i == |r| - 1
    ensures r[i] == N(ArmBlock(sym)) || IsExpression(r[i])
  {
    hide IsReserved;
  }

  /** A brace where a block may stand opens one, in every node of a derivation. */
  lemma {:induction false} BraceOpensBlock(ks: seq<Kind>, at: nat, t: Tree, i: nat)
    requires t.Node? && HasArms(t.sym) && Fits(ks, at, t) && 0 < i < |t.kids| && IsArmPlace(RootOf(t.kids[i - 1]))
    requires t.sym == Lambda ==> i == |t.kids| - 1
    ensures From(at, t, i) < |ks|
    ensures ks[From(at, t, i)] == OpenCurly <==> RootOf(t.kids[i]) == N(ArmBlock(t.sym))
  {
    hide Yield, Forced, From, Production, RootFirst;
    var r, p := Roots(t.kids), From(at, t, i);
    KidDerives(t, i);
    hide Derives;
    ArmRow(t.sym, r, i);
    KidFits(ks, at, t, i);
    hide Fits;
    FitsFirst(ks, p, t.kids[i]);
    ArmRoot(r[i], ArmBlock(t.sym), r[..i], ks[p]);
  }
}
