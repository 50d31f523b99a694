/** What the canonical layout looks like, said of the nodes of the derivation.

    Two neighbouring tokens meet between two children of exactly one node. Whether a blank stands between them
    depends on that node and on the token that follows, and how far a line is indented on the braces open there. */
module NodeLayout {
  import opened Tokens
  import opened Lexing
  import opened Tiling
  import opened Grammar
  import opened Formatting
  import opened OneDerivation
  import opened RecordShapes
  import opened RecordNodes
  import OS = OperatorSpacing

  // ------------------------------------------------------------------ last tokens

  /** A token that an expression, a list or a block may end with. */
  predicate EndsValue(k: Kind) {
    IsNameKind(k) || IsLiteralWord(k) || k.Number? || k.StringLiteral? || k == CloseRound || k == CloseSquare ||
    k == CloseCurly
  }

  /** A token that a node of this symbol may end with. */
  predicate Last(sym: Sym, k: Kind) {
    match sym
    case Program => true
    case Ends => k == Newline || k == Semicolon
    case Line(_) => k == Newline || k == Semicolon
    case Statement(value) =>
      EndsValue(k) ||
      (!value && (k == Identifier("return") || k == Identifier("break") || k == Identifier("continue")))
    case MemberSeparator => k == Comma || k == Newline
    case Newlines => k == Newline
    case _ => EndsValue(k)
  }

  predicate RootLast(x: Root, k: Kind) {
    if x.T? then k == x.kind else Last(x.sym, k)
  }

  predicate RowEndsIn(sym: Sym, r: seq<Root>, k: Kind) {
    r != [] && r[|r| - 1] != N(Program) && (RootLast(r[|r| - 1], k) ==> Last(sym, k))
  }

  lemma {:induction false} RowLast(sym: Sym, r: seq<Root>, k: Kind)
    requires Production(sym, r) && sym != Program
    ensures RowEndsIn(sym, r, k)
  {
    hide Production, RowEndsIn;
    if sym.Binary? || sym.BinaryTail? || sym == Unary || sym == Postfix || sym == Exprs || sym == Primary ||
       sym == Suffix {
      OperatorLast(sym, r, k);
    } else if IsControl(sym) || sym == Lambda {
      ControlLast(sym, r, k);
    } else if HasBrackets(sym) {
      BracketLast(sym, r, k);
    } else {
      StatementLast(sym, r, k);
    }
  }

  lemma {:induction false} OperatorLast(sym: Sym, r: seq<Root>, k: Kind)
    requires Production(sym, r)
    requires sym.Binary? || sym.BinaryTail? || sym == Unary || sym == Postfix || sym == Exprs || sym == Primary ||
      sym == Suffix
    ensures RowEndsIn(sym, r, k)
  {
    hide Production, RowEndsIn;
    if sym == Exprs || sym == Primary || sym == Suffix {
      OperandLast(sym, r, k);
    } else {
      LevelLast(sym, r, k);
    }
  }

  lemma {:induction false} OperandLast(sym: Sym, r: seq<Root>, k: Kind)
    requires Production(sym, r) && (sym == Exprs || sym == Primary || sym == Suffix)
    ensures RowEndsIn(sym, r, k)
  {
    hide IsReserved;
  }

  lemma {:induction false} LevelLast(sym: Sym, r: seq<Root>, k: Kind)
    requires Production(sym, r) && (sym.Binary? || sym.BinaryTail? || sym == Unary || sym == Postfix)
    ensures RowEndsIn(sym, r, k)
  {
    hide IsUnaryOperator, OperatorAt, EndsValue;
  }

  lemma {:induction false} ControlLast(sym: Sym, r: seq<Root>, k: Kind)
    requires Production(sym, r) && (IsControl(sym) || sym == Lambda)
    ensures RowEndsIn(sym, r, k)
  {
    ControlRow(sym, r);
    hide Production, EndsValue;
  }

  predicate EndsControl(x: Root) {
    x.N? && (IsControl(x.sym) || x.sym.Block? || x.sym == ValueBlock || x.sym.Expression?)
  }

  lemma {:induction false} ControlRow(sym: Sym, r: seq<Root>)
    requires Production(sym, r) && (IsControl(sym) || sym == Lambda)
    ensures r != [] && EndsControl(r[|r| - 1])
  {
    hide Production, EndsControl;
    if sym == Conditional || sym == ElifPart || sym == ElsePart {
      BranchRow(sym, r);
    } else {
      LoopingRow(sym, r);
    }
  }

  lemma {:induction false} BranchRow(sym: Sym, r: seq<Root>)
    requires Production(sym, r) && (sym == Conditional || sym == ElifPart || sym == ElsePart)
    ensures r != [] && EndsControl(r[|r| - 1])
  {
  }

  lemma {:induction false} LoopingRow(sym: Sym, r: seq<Root>)
    requires Production(sym, r) && (sym == TryExpression || sym == Loop || sym == Lambda)
    ensures r != [] && EndsControl(r[|r| - 1])
  {
  }

  lemma {:induction false} BracketLast(sym: Sym, r: seq<Root>, k: Kind)
    requires Production(sym, r) && HasBrackets(sym)
    ensures RowEndsIn(sym, r, k)
  {
  }

  lemma {:induction false} StatementLast(sym: Sym, r: seq<Root>, k: Kind)
    requires Production(sym, r) && sym != Program && !HasBrackets(sym) && !IsControl(sym) && sym != Lambda
    requires !sym.Binary? && !sym.BinaryTail? && sym != Unary && sym != Postfix && sym != Exprs && sym != Primary &&
      sym != Suffix
    ensures RowEndsIn(sym, r, k)
  {
    hide Production, RowEndsIn;
    if sym.Statement? || sym == Import || sym == Declaration || sym == FunctionDeclaration || sym.Expression? {
      DeclaredLast(sym, r, k);
    } else {
      ListLast(sym, r, k);
    }
  }

  lemma {:induction false} DeclaredLast(sym: Sym, r: seq<Root>, k: Kind)
    requires Production(sym, r)
    requires sym.Statement? || sym == Import || sym == Declaration || sym == FunctionDeclaration || sym.Expression?
    ensures RowEndsIn(sym, r, k)
  {
    hide Production, RowEndsIn;
    if sym.Statement? || sym.Expression? {
      ValuedLast(sym, r, k);
    } else {
      NamedLast(sym, r, k);
    }
  }

  lemma {:induction false} ValuedLast(sym: Sym, r: seq<Root>, k: Kind)
    requires Production(sym, r) && (sym.Statement? || sym.Expression?)
    ensures RowEndsIn(sym, r, k)
  {
    hide EndsValue;
  }

  lemma {:induction false} NamedLast(sym: Sym, r: seq<Root>, k: Kind)
    requires Production(sym, r) && (sym == Import || sym == Declaration || sym == FunctionDeclaration)
    ensures RowEndsIn(sym, r, k)
  {
    hide IsReserved, EndsValue;
    NameEnds(k);
  }

  lemma {:induction false} NameEnds(k: Kind)
    ensures IsNameKind(k) ==> EndsValue(k)
  {
  }

  lemma {:induction false} ListLast(sym: Sym, r: seq<Root>, k: Kind)
    requires Production(sym, r)
    requires sym.Line? || sym == Ends || sym == Path || sym.Names? || sym == Bindings || sym == Members ||
      sym == Member || sym == MemberSeparator || sym == Newlines
    ensures RowEndsIn(sym, r, k)
  {
    hide Production, RowEndsIn;
    if sym == Path || sym.Names? || sym == Bindings {
      NamesLast(sym, r, k);
    } else {
      LinesLast(sym, r, k);
    }
  }

  lemma {:induction false} NamesLast(sym: Sym, r: seq<Root>, k: Kind)
    requires Production(sym, r) && (sym == Path || sym.Names? || sym == Bindings)
    ensures RowEndsIn(sym, r, k)
  {
    hide IsReserved, EndsValue;
    NameEnds(k);
  }

  lemma {:induction false} LinesLast(sym: Sym, r: seq<Root>, k: Kind)
    requires Production(sym, r)
    requires sym.Line? || sym == Ends || sym == Members || sym == Member || sym == MemberSeparator || sym == Newlines
    ensures RowEndsIn(sym, r, k)
  {
    hide IsReserved, EndsValue;
  }

  lemma {:induction false} TreeLast(t: Tree)
    requires t.Node? && t.sym != Program && Derives(t)
    ensures Yield(t) != [] && Last(t.sym, Yield(t)[|Yield(t)| - 1])
    decreases t
  {
    hide Last, Production, YieldAll;
    var r := Roots(t.kids);
    RowLast(t.sym, r, End);
    var kid := t.kids[|t.kids| - 1];
    assert r[|r| - 1] == RootOf(kid) && Derives(kid);
    assert Yield(t) == YieldAll(t.kids[..|t.kids| - 1]) + Yield(kid) by {
      LastYield(t);
    }
    if kid.Node? {
      TreeLast(kid);
    }
    RowLast(t.sym, r, Yield(kid)[|Yield(kid)| - 1]);
  }

  lemma {:induction false} LastYield(t: Tree)
    requires t.Node? && t.kids != []
    ensures Yield(t) == YieldAll(t.kids[..|t.kids| - 1]) + Yield(t.kids[|t.kids| - 1])
  {
  }

  // ------------------------------------------------------------------ where two children meet

  lemma {:induction false} RowsInside(sym: Sym, r: seq<Root>, i: nat)
    requires Production(sym, r) && i < |r|
    ensures r[i] != N(Program)
  {
    hide Production;
    if sym == Program {
      assert ProgramShape(r) by {
        ProgramRow(r);
      }
      OS.ProgramTidy(r);
    } else {
      RowInner(sym, r, i);
    }
  }

  lemma {:induction false} ProgramRow(r: seq<Root>)
    requires Production(Program, r)
    ensures ProgramShape(r)
  {
  }

  /** The tokens on both sides of the start of child `i`. */
  lemma {:induction false} KidsMeet(ks: seq<Kind>, at: nat, t: Tree, i: nat)
    requires t.Node? && Derives(t) && Stands(ks, at, t) && 0 < i < |t.kids|
    ensures at < From(at, t, i) < |ks|
    ensures RootLast(RootOf(t.kids[i - 1]), ks[From(at, t, i) - 1]) && RootFirst(RootOf(t.kids[i]), ks[From(at, t, i)])
  {
    hide Yield, From, Production, Last, First, Stands;
    var r, p := Roots(t.kids), From(at, t, i);
    KidStands(ks, at, t, i - 1);
    KidStands(ks, at, t, i);
    KidDerives(t, i);
    hide Derives;
    RowsInside(t.sym, r, i - 1);
    RowsInside(t.sym, r, i);
    LastToken(ks, From(at, t, i - 1), t.kids[i - 1]);
    FirstToken(ks, p, t.kids[i]);
    assert p + |Yield(t.kids[i])| <= |ks| by {
      StandsInside(ks, p, t.kids[i]);
    }
    FromGrows(at, t, i - 1);
  }

  lemma {:induction false} StandsInside(ks: seq<Kind>, at: nat, t: Tree)
    requires Stands(ks, at, t)
    ensures at + |Yield(t)| <= |ks|
  {
  }

  lemma {:induction false} FromGrows(at: nat, t: Tree, i: nat)
    requires t.Node? && i <= |t.kids|
    ensures at <= From(at, t, i)
  {
  }

  lemma {:induction false} LastToken(ks: seq<Kind>, at: nat, t: Tree)
    requires Derives(t) && Stands(ks, at, t) && RootOf(t) != N(Program)
    ensures |Yield(t)| > 0 && RootLast(RootOf(t), ks[at + |Yield(t)| - 1])
  {
    hide Derives, Last;
    var n := |Yield(t)|;
    if t.Node? {
      TreeLast(t);
    }
    assert ks[at..at + n][n - 1] == ks[at + n - 1];
  }

  lemma {:induction false} FirstToken(ks: seq<Kind>, at: nat, t: Tree)
    requires Derives(t) && Stands(ks, at, t) && RootOf(t) != N(Program)
    ensures |Yield(t)| > 0 && RootFirst(RootOf(t), ks[at])
  {
    hide Derives, First;
    if t.Node? {
      TreeFirst(t);
    }
    assert ks[at..at + |Yield(t)|][0] == ks[at];
  }

  // ------------------------------------------------------------------ lambda bars

  /** The place is between the bars of a lambda. */
  predicate BetweenBars(sym: Sym, r: seq<Root>, i: nat) {
    OS.HasBars(sym, r) && 1 <= i <= 2
  }

  lemma {:induction false} RowBars(t: Tree, i: nat)
    requires t.Node? && Derives(t) && i <= |t.kids|
    ensures OS.OddBars(YieldAll(t.kids[..i])) == BetweenBars(t.sym, Roots(t.kids), i)
  {
    hide Production, OS.OddBars, YieldAll, OS.Tidy;
    if OS.HasBars(t.sym, Roots(t.kids)) {
      LambdaBars(t, i);
    } else {
      OS.ProductionTidy(t.sym, Roots(t.kids));
      OS.RowsTidy(t.kids, i);
    }
  }

  lemma {:induction false} LambdaBars(t: Tree, i: nat)
    requires t.Node? && Derives(t) && i <= |t.kids| && OS.HasBars(t.sym, Roots(t.kids))
    ensures OS.OddBars(YieldAll(t.kids[..i])) == (1 <= i <= 2)
  {
    hide Production, OS.OddBars, YieldAll, OS.Tidy, Yield;
    OS.LambdaRow(t);
    var k := t.kids;
    OS.NoYield();
    OS.EmptyTidy();
    assert k[..0] == [];
    BarStep(k, 0);
    OS.LeafTidy(Operator("|"));
    BarStep(k, 1);
    OS.NamesOnly(k[1]);
    OS.NoBars(Yield(k[1]));
    BarStep(k, 2);
    BarStep(k, 3);
    OS.TreeTidy(k[3]);
    LeafYield(k[0]);
    LeafYield(k[2]);
  }

  lemma {:induction false} BarStep(kids: seq<Tree>, i: nat)
    requires i < |kids|
    ensures OS.OddBars(YieldAll(kids[..i + 1])) == (OS.OddBars(YieldAll(kids[..i])) != OS.OddBars(Yield(kids[i])))
  {
    hide YieldAll, Yield, OS.OddBars;
    assert kids[..i + 1] == kids[..i] + [kids[i]];
    YieldAppend(kids[..i], kids[i]);
    OS.OddBarsConcat(YieldAll(kids[..i]), Yield(kids[i]));
  }

  /** Lambda parameters are open at child `i` exactly between the bars of the node itself. */
  lemma {:induction false} KidOpen(ks: seq<Kind>, at: nat, t: Tree, i: nat)
    requires t.Node? && Derives(t) && Stands(ks, at, t) && i <= |t.kids| && !LambdaOpen(ks, at)
    ensures From(at, t, i) <= |ks| && LambdaOpen(ks, From(at, t, i)) == BetweenBars(t.sym, Roots(t.kids), i)
  {
    hide OS.OddBars, LambdaOpen, Yield, Derives;
    RowBars(t, i);
    RowFront(ks, at, t, i);
    var p, y := From(at, t, i), YieldAll(t.kids[..i]);
    assert ks[..p] == ks[..at] + y;
    OS.OddBarsConcat(ks[..at], y);
    OS.OpenIsOdd(ks, at);
    OS.OpenIsOdd(ks, p);
  }

  /** The first children stand in front of the others. */
  lemma {:induction false} RowFront(ks: seq<Kind>, at: nat, t: Tree, i: nat)
    requires t.Node? && Stands(ks, at, t) && i <= |t.kids|
    ensures From(at, t, i) <= |ks| && ks[at..From(at, t, i)] == YieldAll(t.kids[..i])
  {
    hide YieldAll;
    assert t.kids == t.kids[..i] + t.kids[i..];
    YieldConcat(t.kids[..i], t.kids[i..]);
    var y, z := YieldAll(t.kids[..i]), YieldAll(t.kids[i..]);
    assert Yield(t) == y + z;
    assert ks[at..at + |Yield(t)|][..|y|] == ks[at..at + |y|];
  }

  // ------------------------------------------------------------------ the blanks of a row

  /** Behind a word a bracket stands tight, unless it is a round one behind a conditional word. */
  predicate BlankBehindWord(word: Kind, current: Kind) {
    current != OpenSquare && (current == OpenRound ==> IsControlKeyword(word))
  }

  /** Between the lines of a block or program; only `;` leaves two statements on one line. */
  predicate BlankBetweenLines(before: Root, x: Root, current: Kind) {
    if x == T(CloseCurly) || x == N(Ends) then false
    else if before == T(OpenCurly) then current == OpenSquare
    else current != OpenRound
  }

  /** One blank stands in front of child `i`, which starts with `current` on the line of `previous`. */
  predicate Blank(sym: Sym, r: seq<Root>, i: nat, previous: Kind, current: Kind)
    requires 0 < i < |r|
  {
    match sym
    case Program => BlankBetweenLines(r[i - 1], r[i], current)
    case Block(_) => BlankBetweenLines(r[i - 1], r[i], current)
    case ValueBlock => BlankBetweenLines(r[i - 1], r[i], current)
    case Statement(_) => BlankBehindWord(previous, current)
    case Import => i == 1
    case Declaration => i == 3 ==> current != OpenRound
    case FunctionDeclaration => i != 2
    case Names(_) => i % 2 == 0
    case Bindings => i % 2 == 0
    case Exprs => i % 2 == 0 && current != OpenRound
    case Members => i % 2 == 0
    case Member => i == 2 && current != OpenRound
    case Conditional => i > 2 || BlankBehindWord(previous, current)
    case ElifPart => BlankBehindWord(previous, current)
    case ElsePart => BlankBehindWord(previous, current)
    case TryExpression => i == 2 || BlankBehindWord(previous, current)
    case Loop => r[i - 1].N? || BlankBehindWord(previous, current)
    case Binary(_) => true
    case BinaryTail(_) => current != OpenRound
    case Unary => current != OpenRound
    case Postfix => previous.Number? && current == Operator(".")
    case Lambda => if |r| == 4 then i == 3 else current != OpenRound
    case _ => false
  }

  /** The formatter puts a blank in front of this child exactly if the table says so. */
  predicate Agrees(sym: Sym, r: seq<Root>, i: nat, previous: Kind, current: Kind)
    requires 0 < i < |r|
  {
    NeedsSpace(previous, current, OS.HasBars(sym, r) && i == 3, OS.HasBars(sym, r) && i == 2) <==>
    Blank(sym, r, i, previous, current)
  }

  // ------------------------------------------------------------------ which tokens want a blank

  /** A token that starts an operand, a block, a statement or a word. */
  predicate Opens(k: Kind) {
    k.Identifier? || k.Number? || k.StringLiteral? || k == OpenRound || k == OpenSquare || k == OpenCurly ||
    (k.Operator? && k != Operator(".") && k != Operator(":"))
  }

  predicate Tight(previous: Kind, current: Kind) {
    !NeedsSpace(previous, current, false, false)
  }

  lemma {:induction false} BehindValue(p: Kind, c: Kind)
    requires EndsValue(p)
    ensures IsClosing(c) || c == Operator(":") || c == OpenRound || c == OpenSquare ==> Tight(p, c)
    ensures c == Operator(".") ==> Tight(p, c) == !p.Number?
    ensures c.Identifier? || c == OpenCurly ==> !Tight(p, c)
    ensures c.Operator? && c != Operator(".") && c != Operator(":") ==> !Tight(p, c)
    ensures Opens(c) ==> Tight(p, c) == (c == OpenRound || c == OpenSquare)
    ensures !p.Operator? && !IsControlKeyword(p)
  {
  }

  lemma {:induction false} BehindWord(p: Kind, c: Kind)
    requires p.Identifier? && Opens(c)
    ensures Tight(p, c) == !BlankBehindWord(p, c)
  {
  }

  lemma {:induction false} BehindOperator(p: Kind, c: Kind)
    requires p.Operator? && p != Operator("|") && p != Operator(".") && Opens(c)
    ensures Tight(p, c) == (c == OpenRound)
  {
  }

  lemma {:induction false} BehindMark(p: Kind, c: Kind)
    requires (p == Comma || p == Semicolon) && Opens(c)
    ensures Tight(p, c) == (c == OpenRound)
  {
  }

  lemma {:induction false} BehindBrace(c: Kind)
    requires Opens(c)
    ensures Tight(OpenCurly, c) == (c != OpenSquare)
  {
  }

  lemma {:induction false} BehindOpen(p: Kind, c: Kind)
    requires p == OpenRound || p == OpenSquare || p == Operator(".")
    ensures Tight(p, c)
  {
  }

  lemma {:induction false} BeforeMark(p: Kind, c: Kind)
    requires p != Operator("|") && (IsClosing(c) || (c == Operator(".") && !p.Number?) || c == Operator(":"))
    ensures Tight(p, c)
  {
  }

  /** A node whose last token ends a value. */
  predicate ValueSym(sym: Sym) {
    sym != Program && sym != Ends && !sym.Line? && !sym.Statement? && sym != MemberSeparator && sym != Newlines
  }

  lemma {:induction false} ValueLast(sym: Sym, k: Kind)
    requires ValueSym(sym) && Last(sym, k)
    ensures EndsValue(k)
  {
    hide EndsValue;
  }

  /** A node that starts with an operand, a block, a statement or a word. */
  predicate OpeningSym(sym: Sym) {
    sym != Program && sym != Ends && sym != Suffix && sym != MemberSeparator && sym != Newlines && !sym.BinaryTail?
  }

  lemma {:induction false} OpeningFirstToken(sym: Sym, k: Kind)
    requires OpeningSym(sym) && First(sym, k)
    ensures Opens(k)
  {
    hide Opens, StartsValue, StartsOperand, StartsPrimary, IsLoopWord, IsStatementWord, IsBar;
    ValueOpens(k);
    hide IsNameKind;
  }

  lemma {:induction false} ValueOpens(k: Kind)
    ensures StartsValue(k) || StartsOperand(k) || StartsPrimary(k) || IsBar(k) ==> Opens(k)
    ensures IsLoopWord(k) || IsStatementWord(k) ==> Opens(k)
    ensures k.Identifier? || k == OpenRound || k == OpenSquare || k == OpenCurly ==> Opens(k)
    ensures IsNameKind(k) ==> Opens(k)
  {
    hide IsReserved;
  }

  // ------------------------------------------------------------------ row by row

  /** Everything the neighbours of a blank can say about it. */
  lemma {:induction false} Decides(p: Kind, c: Kind)
    ensures EndsValue(p) && (IsClosing(c) || c == Operator(":") || c == OpenRound || c == OpenSquare) ==> Tight(p, c)
    ensures EndsValue(p) && c == Operator(".") ==> Tight(p, c) == !p.Number?
    ensures EndsValue(p) && Opens(c) ==> Tight(p, c) == (c == OpenRound || c == OpenSquare)
    ensures EndsValue(p) ==> !p.Operator? && !IsControlKeyword(p)
    ensures IsNameKind(p) ==> EndsValue(p) && p.Identifier?
    ensures IsNameKind(c) ==> c.Identifier?
    ensures p.Identifier? && Opens(c) ==> Tight(p, c) == !BlankBehindWord(p, c)
    ensures p.Operator? && p != Operator("|") && p != Operator(".") && Opens(c) ==> Tight(p, c) == (c == OpenRound)
    ensures (p == Comma || p == Semicolon) && Opens(c) ==> Tight(p, c) == (c == OpenRound)
    ensures p == OpenCurly && Opens(c) ==> Tight(p, c) == (c != OpenSquare)
    ensures p == OpenRound || p == OpenSquare || p == Operator(".") ==> Tight(p, c)
    ensures p != Operator("|") && (IsClosing(c) || (c == Operator(".") && !p.Number?) || c == Operator(":")) ==>
      Tight(p, c)
  {
    assert IsNameKind(p) ==> EndsValue(p) && p.Identifier?;
    assert IsNameKind(c) ==> c.Identifier?;
    hide Tight, EndsValue, Opens, BlankBehindWord, IsNameKind, IsControlKeyword;
    if EndsValue(p) { BehindValue(p, c); }
    if p.Identifier? && Opens(c) { BehindWord(p, c); }
    if p.Operator? && p != Operator("|") && p != Operator(".") && Opens(c) { BehindOperator(p, c); }
    if (p == Comma || p == Semicolon) && Opens(c) { BehindMark(p, c); }
    if p == OpenCurly && Opens(c) { BehindBrace(c); }
    if p == OpenRound || p == OpenSquare || p == Operator(".") { BehindOpen(p, c); }
    if p != Operator("|") && (IsClosing(c) || (c == Operator(".") && !p.Number?) || c == Operator(":")) {
      BeforeMark(p, c);
    }
  }

  /** What two children that meet say of the tokens on both sides. */
  ghost predicate Facing(r: seq<Root>, i: nat, previous: Kind, current: Kind) {
    && 0 < i < |r| && previous != Newline && current != Newline
    && (r[i - 1].T? ==> previous == r[i - 1].kind)
    && (r[i].T? ==> current == r[i].kind)
    && (r[i - 1].N? && ValueSym(r[i - 1].sym) ==> EndsValue(previous))
    && (r[i].N? && OpeningSym(r[i].sym) ==> Opens(current))
    && (r[i - 1] == N(Ends) || IsLine(r[i - 1]) ==> previous == Semicolon)
    && (IsStatement(r[i - 1]) ==> previous.Identifier? || EndsValue(previous))
    && (r[i - 1] == N(MemberSeparator) ==> previous == Comma)
    && (r[i] == N(Ends) ==> current == Semicolon)
    && (r[i] == N(MemberSeparator) ==> current == Comma)
    && (r[i].N? && r[i].sym.BinaryTail? ==> current.Operator? && Opens(current))
    && (r[i] == N(Suffix) ==> current == OpenRound || current == OpenSquare || current == Operator("."))
    && r[i - 1] != N(Newlines) && r[i] != N(Newlines)
    && (r[i].N? && IsBlockSym(r[i].sym) ==> current == OpenCurly)
    && (r[i].N? && StartsWithWord(r[i].sym) ==> current.Identifier?)
    && (r[i] == N(ParameterList) ==> current == OpenRound)
  }

  predicate IsBlockSym(sym: Sym) {
    sym.Block? || sym == ValueBlock
  }

  predicate StartsWithWord(sym: Sym) {
    sym == Path || sym.Names? || sym == Bindings || sym == Members || sym == Member || sym == ElifPart ||
    sym == ElsePart
  }

  lemma {:induction false} FirstWords(x: Root, k: Kind)
    requires RootFirst(x, k)
    ensures x.N? && IsBlockSym(x.sym) ==> k == OpenCurly
    ensures x.N? && StartsWithWord(x.sym) ==> k.Identifier?
    ensures x == N(ParameterList) ==> k == OpenRound
  {
    hide IsReserved;
  }

  lemma {:induction false} LastMarks(x: Root, k: Kind)
    requires RootLast(x, k) && k != Newline
    ensures x == N(Ends) || IsLine(x) ==> k == Semicolon
    ensures IsStatement(x) ==> k.Identifier? || EndsValue(k)
    ensures x == N(MemberSeparator) ==> k == Comma
    ensures x != N(Newlines)
  {
    hide EndsValue;
  }

  lemma {:induction false} FirstMarks(x: Root, k: Kind)
    requires RootFirst(x, k) && k != Newline
    ensures x == N(Ends) ==> k == Semicolon
    ensures x == N(MemberSeparator) ==> k == Comma
    ensures x.N? && x.sym.BinaryTail? ==> k.Operator? && Opens(k)
    ensures x == N(Suffix) ==> k == OpenRound || k == OpenSquare || k == Operator(".")
    ensures x != N(Newlines)
  {
  }

  lemma {:induction false} LastFaces(x: Root, k: Kind)
    requires RootLast(x, k)
    ensures x.T? ==> k == x.kind
    ensures x.N? && ValueSym(x.sym) ==> EndsValue(k)
  {
    hide EndsValue, Last, ValueSym;
    if x.N? && ValueSym(x.sym) {
      ValueLast(x.sym, k);
    }
  }

  lemma {:induction false} FirstFaces(x: Root, k: Kind)
    requires RootFirst(x, k)
    ensures x.T? ==> k == x.kind
    ensures x.N? && OpeningSym(x.sym) ==> Opens(k)
  {
    hide Opens, First, OpeningSym;
    if x.N? && OpeningSym(x.sym) {
      OpeningFirstToken(x.sym, k);
    }
  }

  lemma {:induction false} Faces(r: seq<Root>, i: nat, previous: Kind, current: Kind)
    requires 0 < i < |r| && RootLast(r[i - 1], previous) && RootFirst(r[i], current)
    requires previous != Newline && current != Newline
    ensures Facing(r, i, previous, current)
  {
    hide EndsValue, Opens, RootLast, RootFirst, ValueSym, OpeningSym, IsBlockSym, StartsWithWord, IsLine, IsStatement;
    LastFaces(r[i - 1], previous);
    FirstFaces(r[i], current);
    LastMarks(r[i - 1], previous);
    FirstMarks(r[i], current);
    FirstWords(r[i], current);
  }

  lemma {:induction false} ProgramBlank(r: seq<Root>, i: nat, previous: Kind, current: Kind)
    requires Production(Program, r) && Facing(r, i, previous, current)
    ensures Agrees(Program, r, i, previous, current)
  {
    Decides(previous, current);
    hide EndsValue, NeedsSpace, IsNameKind;
  }

  lemma {:induction false} EndsBlank(r: seq<Root>, i: nat, previous: Kind, current: Kind)
    requires Production(Ends, r) && Facing(r, i, previous, current)
    ensures Agrees(Ends, r, i, previous, current)
  {
    Decides(previous, current);
    hide EndsValue, NeedsSpace, IsNameKind;
  }

  lemma {:induction false} LineBlank(value: bool, r: seq<Root>, i: nat, previous: Kind, current: Kind)
    requires Production(Line(value), r) && Facing(r, i, previous, current)
    ensures Agrees(Line(value), r, i, previous, current)
  {
    Decides(previous, current);
    hide EndsValue, NeedsSpace, IsNameKind;
  }

  lemma {:induction false} StatementBlank(value: bool, r: seq<Root>, i: nat, previous: Kind, current: Kind)
    requires Production(Statement(value), r) && Facing(r, i, previous, current)
    ensures Agrees(Statement(value), r, i, previous, current)
  {
    Decides(previous, current);
    hide EndsValue, NeedsSpace, IsNameKind;
  }

  lemma {:induction false} ImportBlank(r: seq<Root>, i: nat, previous: Kind, current: Kind)
    requires Production(Import, r) && Facing(r, i, previous, current)
    ensures Agrees(Import, r, i, previous, current)
  {
    Decides(previous, current);
    hide EndsValue, NeedsSpace, IsNameKind;
  }

  lemma {:induction false} PathBlank(r: seq<Root>, i: nat, previous: Kind, current: Kind)
    requires Production(Path, r) && Facing(r, i, previous, current)
    ensures Agrees(Path, r, i, previous, current)
  {
    Decides(previous, current);
    hide EndsValue, NeedsSpace, IsNameKind;
  }

  lemma {:induction false} DeclarationBlank(r: seq<Root>, i: nat, previous: Kind, current: Kind)
    requires Production(Declaration, r) && Facing(r, i, previous, current)
    ensures Agrees(Declaration, r, i, previous, current)
  {
    Decides(previous, current);
    hide EndsValue, NeedsSpace, IsNameKind;
  }

  lemma {:induction false} FunctionRow(r: seq<Root>)
    requires Production(FunctionDeclaration, r)
    ensures |r| == 4 && r[0] == Keyword("fn") && IsName(r[1]) && r[2] == N(ParameterList) && r[3] == N(Block(false))
  {
    hide IsReserved;
  }

  lemma {:induction false} FunctionBlank(r: seq<Root>, i: nat, previous: Kind, current: Kind)
    requires Production(FunctionDeclaration, r) && Facing(r, i, previous, current)
    ensures Agrees(FunctionDeclaration, r, i, previous, current)
  {
    FunctionRow(r);
    Decides(previous, current);
    hide EndsValue, NeedsSpace, IsNameKind, Production;
  }

  lemma {:induction false} ParameterListBlank(r: seq<Root>, i: nat, previous: Kind, current: Kind)
    requires Production(ParameterList, r) && Facing(r, i, previous, current)
    ensures Agrees(ParameterList, r, i, previous, current)
  {
    Decides(previous, current);
    hide EndsValue, NeedsSpace, IsNameKind;
  }

  lemma {:induction false} NamesBlank(lambda: bool, r: seq<Root>, i: nat, previous: Kind, current: Kind)
    requires Production(Names(lambda), r) && Facing(r, i, previous, current)
    ensures Agrees(Names(lambda), r, i, previous, current)
  {
    Decides(previous, current);
    hide EndsValue, NeedsSpace, IsNameKind;
  }

  lemma {:induction false} BindingsBlank(r: seq<Root>, i: nat, previous: Kind, current: Kind)
    requires Production(Bindings, r) && Facing(r, i, previous, current)
    ensures Agrees(Bindings, r, i, previous, current)
  {
    Decides(previous, current);
    hide EndsValue, NeedsSpace, IsNameKind;
  }

  lemma {:induction false} BlockBlank(conditional: bool, r: seq<Root>, i: nat, previous: Kind, current: Kind)
    requires Production(Block(conditional), r) && Facing(r, i, previous, current)
    ensures Agrees(Block(conditional), r, i, previous, current)
  {
    Decides(previous, current);
    hide EndsValue, NeedsSpace, IsNameKind;
  }

  lemma {:induction false} ValueBlockBlank(r: seq<Root>, i: nat, previous: Kind, current: Kind)
    requires Production(ValueBlock, r) && Facing(r, i, previous, current)
    ensures Agrees(ValueBlock, r, i, previous, current)
  {
    hide Facing, BlankBetweenLines, NeedsSpace, BlockShape;
    assert Production(Block(false), r);
    BlockBlank(false, r, i, previous, current);
  }

  lemma {:induction false} ConditionalBlank(r: seq<Root>, i: nat, previous: Kind, current: Kind)
    requires Production(Conditional, r) && Facing(r, i, previous, current)
    ensures Agrees(Conditional, r, i, previous, current)
  {
    Decides(previous, current);
    hide EndsValue, NeedsSpace, IsNameKind;
  }

  lemma {:induction false} ElifBlank(r: seq<Root>, i: nat, previous: Kind, current: Kind)
    requires Production(ElifPart, r) && Facing(r, i, previous, current)
    ensures Agrees(ElifPart, r, i, previous, current)
  {
    Decides(previous, current);
    hide EndsValue, NeedsSpace, IsNameKind;
  }

  lemma {:induction false} ElseBlank(r: seq<Root>, i: nat, previous: Kind, current: Kind)
    requires Production(ElsePart, r) && Facing(r, i, previous, current)
    ensures Agrees(ElsePart, r, i, previous, current)
  {
    Decides(previous, current);
    hide EndsValue, NeedsSpace, IsNameKind;
  }

  lemma {:induction false} TryBlank(r: seq<Root>, i: nat, previous: Kind, current: Kind)
    requires Production(TryExpression, r) && Facing(r, i, previous, current)
    ensures Agrees(TryExpression, r, i, previous, current)
  {
    Decides(previous, current);
    hide EndsValue, NeedsSpace, IsNameKind;
  }

  lemma {:induction false} LoopBlank(r: seq<Root>, i: nat, previous: Kind, current: Kind)
    requires Production(Loop, r) && Facing(r, i, previous, current)
    ensures Agrees(Loop, r, i, previous, current)
  {
    Decides(previous, current);
    hide EndsValue, NeedsSpace, IsNameKind;
  }

  lemma {:induction false} BinaryBlank(level: nat, r: seq<Root>, i: nat, previous: Kind, current: Kind)
    requires Production(Binary(level), r) && Facing(r, i, previous, current)
    ensures Agrees(Binary(level), r, i, previous, current)
  {
    Decides(previous, current);
    hide EndsValue, NeedsSpace, IsNameKind;
  }

  lemma {:induction false} BinaryTailBlank(level: nat, r: seq<Root>, i: nat, previous: Kind, current: Kind)
    requires Production(BinaryTail(level), r) && Facing(r, i, previous, current)
    ensures Agrees(BinaryTail(level), r, i, previous, current)
  {
    Decides(previous, current);
    hide EndsValue, NeedsSpace, IsNameKind;
  }

  lemma {:induction false} UnaryBlank(r: seq<Root>, i: nat, previous: Kind, current: Kind)
    requires Production(Unary, r) && Facing(r, i, previous, current)
    ensures Agrees(Unary, r, i, previous, current)
  {
    Decides(previous, current);
    hide EndsValue, NeedsSpace, IsNameKind;
  }

  lemma {:induction false} PostfixBlank(r: seq<Root>, i: nat, previous: Kind, current: Kind)
    requires Production(Postfix, r) && Facing(r, i, previous, current)
    ensures Agrees(Postfix, r, i, previous, current)
  {
    Decides(previous, current);
    hide EndsValue, NeedsSpace, IsNameKind;
  }

  lemma {:induction false} SuffixBlank(r: seq<Root>, i: nat, previous: Kind, current: Kind)
    requires Production(Suffix, r) && Facing(r, i, previous, current)
    ensures Agrees(Suffix, r, i, previous, current)
  {
    Decides(previous, current);
    hide EndsValue, NeedsSpace, IsNameKind;
  }

  lemma {:induction false} CallBlank(r: seq<Root>, i: nat, previous: Kind, current: Kind)
    requires Production(Call, r) && Facing(r, i, previous, current)
    ensures Agrees(Call, r, i, previous, current)
  {
    Decides(previous, current);
    hide EndsValue, NeedsSpace, IsNameKind;
  }

  lemma {:induction false} ExprsBlank(r: seq<Root>, i: nat, previous: Kind, current: Kind)
    requires Production(Exprs, r) && Facing(r, i, previous, current)
    ensures Agrees(Exprs, r, i, previous, current)
  {
    Decides(previous, current);
    hide EndsValue, NeedsSpace, IsNameKind;
  }

  lemma {:induction false} PrimaryBlank(r: seq<Root>, i: nat, previous: Kind, current: Kind)
    requires Production(Primary, r) && Facing(r, i, previous, current)
    ensures Agrees(Primary, r, i, previous, current)
  {
    Decides(previous, current);
    hide EndsValue, NeedsSpace, IsNameKind;
  }

  lemma {:induction false} ArrayBlank(r: seq<Root>, i: nat, previous: Kind, current: Kind)
    requires Production(Array, r) && Facing(r, i, previous, current)
    ensures Agrees(Array, r, i, previous, current)
  {
    Decides(previous, current);
    hide EndsValue, NeedsSpace, IsNameKind;
  }

  lemma {:induction false} RecordRow(r: seq<Root>, i: nat)
    requires Production(Record, r) && 0 < i < |r|
    ensures r[i] == T(CloseCurly) || r[i] == N(Newlines) ||
      (r[i] == N(Members) && r[i - 1] in [T(OpenCurly), N(Newlines)])
    ensures r[i] == T(CloseCurly) ==> r[i - 1] in [T(OpenCurly), N(Members), N(Newlines)]
  {
  }

  lemma {:induction false} RecordBlank(r: seq<Root>, i: nat, previous: Kind, current: Kind)
    requires Production(Record, r) && Facing(r, i, previous, current)
    ensures Agrees(Record, r, i, previous, current)
  {
    RecordRow(r, i);
    Decides(previous, current);
    hide EndsValue, NeedsSpace, IsNameKind, Production;
  }

  lemma {:induction false} MembersBlank(r: seq<Root>, i: nat, previous: Kind, current: Kind)
    requires Production(Members, r) && Facing(r, i, previous, current)
    ensures Agrees(Members, r, i, previous, current)
  {
    Decides(previous, current);
    hide EndsValue, NeedsSpace, IsNameKind;
  }

  lemma {:induction false} MemberBlank(r: seq<Root>, i: nat, previous: Kind, current: Kind)
    requires Production(Member, r) && Facing(r, i, previous, current)
    ensures Agrees(Member, r, i, previous, current)
  {
    Decides(previous, current);
    hide EndsValue, NeedsSpace, IsNameKind;
  }

  lemma {:induction false} BarsBlank(p: Kind, c: Kind)
    ensures NeedsSpace(Operator("|"), c, true, false)
    ensures c != Operator("|") ==> !NeedsSpace(Operator("|"), c, false, false)
    ensures !NeedsSpace(p, Operator("|"), false, true)
  {
  }

  lemma {:induction false} LambdaRowIs(r: seq<Root>)
    requires Production(Lambda, r) && |r| == 4
    ensures r[0] == Op("|") && r[1] == N(Names(true)) && r[2] == Op("|") && IsBody(r[3])
  {
  }

  lemma {:induction false} BarLambdaBlank(r: seq<Root>, i: nat, previous: Kind, current: Kind)
    requires |r| == 4 && r[0] == Op("|") && r[1] == N(Names(true)) && r[2] == Op("|") && IsBody(r[3])
    requires Facing(r, i, previous, current)
    ensures Agrees(Lambda, r, i, previous, current)
  {
    BarsBlank(previous, current);
    hide EndsValue, NeedsSpace, IsNameKind, ValueSym, OpeningSym, IsBlockSym, IsLine, IsStatement, Opens;
  }

  lemma {:induction false} PlainLambdaBlank(r: seq<Root>, i: nat, previous: Kind, current: Kind)
    requires |r| == 2 && r[0] == Op("||") && IsBody(r[1]) && Facing(r, i, previous, current)
    ensures Agrees(Lambda, r, i, previous, current)
  {
    BehindOperator(previous, current);
    hide EndsValue, NeedsSpace, IsNameKind, ValueSym, IsBlockSym, IsLine, IsStatement, Opens;
  }

  lemma {:induction false} LambdaRows(r: seq<Root>)
    requires Production(Lambda, r)
    ensures |r| == 4 || (|r| == 2 && r[0] == Op("||") && IsBody(r[1]))
  {
  }

  lemma {:induction false} LambdaBlank(r: seq<Root>, i: nat, previous: Kind, current: Kind)
    requires Production(Lambda, r) && Facing(r, i, previous, current)
    ensures Agrees(Lambda, r, i, previous, current)
  {
    hide Production, Facing, Agrees;
    LambdaRows(r);
    if |r| == 4 {
      LambdaRowIs(r);
      BarLambdaBlank(r, i, previous, current);
    } else {
      PlainLambdaBlank(r, i, previous, current);
    }
  }

  lemma {:induction false} OneChild(value: bool, r: seq<Root>)
    requires Production(Expression(value), r)
    ensures |r| == 1
  {
  }

  lemma {:induction false} LineBreaks(sym: Sym, r: seq<Root>, i: nat)
    requires Production(sym, r) && (sym == MemberSeparator || sym == Newlines) && 0 < i < |r|
    ensures r[i] == N(Newlines) || r[i] == T(Newline)
  {
  }

  lemma {:induction false} RowSpacing(sym: Sym, r: seq<Root>, i: nat, previous: Kind, current: Kind)
    requires Production(sym, r) && Facing(r, i, previous, current)
    ensures Agrees(sym, r, i, previous, current)
  {
    assert 0 < i < |r| && r[i] != N(Newlines) && r[i] != T(Newline);
    hide Production, Facing, Agrees;
    match sym {
      case Program => ProgramBlank(r, i, previous, current);
      case Ends => EndsBlank(r, i, previous, current);
      case Line(value) => LineBlank(value, r, i, previous, current);
      case Statement(value) => StatementBlank(value, r, i, previous, current);
      case Import => ImportBlank(r, i, previous, current);
      case Path => PathBlank(r, i, previous, current);
      case Declaration => DeclarationBlank(r, i, previous, current);
      case FunctionDeclaration => FunctionBlank(r, i, previous, current);
      case ParameterList => ParameterListBlank(r, i, previous, current);
      case Names(lambda) => NamesBlank(lambda, r, i, previous, current);
      case Bindings => BindingsBlank(r, i, previous, current);
      case Block(conditional) => BlockBlank(conditional, r, i, previous, current);
      case ValueBlock => ValueBlockBlank(r, i, previous, current);
      case Expression(value) => OneChild(value, r);
      case Conditional => ConditionalBlank(r, i, previous, current);
      case ElifPart => ElifBlank(r, i, previous, current);
      case ElsePart => ElseBlank(r, i, previous, current);
      case TryExpression => TryBlank(r, i, previous, current);
      case Loop => LoopBlank(r, i, previous, current);
      case Binary(level) => BinaryBlank(level, r, i, previous, current);
      case BinaryTail(level) => BinaryTailBlank(level, r, i, previous, current);
      case Unary => UnaryBlank(r, i, previous, current);
      case Postfix => PostfixBlank(r, i, previous, current);
      case Suffix => SuffixBlank(r, i, previous, current);
      case Call => CallBlank(r, i, previous, current);
      case Exprs => ExprsBlank(r, i, previous, current);
      case Primary => PrimaryBlank(r, i, previous, current);
      case Array => ArrayBlank(r, i, previous, current);
      case Record => RecordBlank(r, i, previous, current);
      case Members => MembersBlank(r, i, previous, current);
      case Member => MemberBlank(r, i, previous, current);
      case MemberSeparator => LineBreaks(sym, r, i);
      case Newlines => LineBreaks(sym, r, i);
      case Lambda => LambdaBlank(r, i, previous, current);
    }
  }

  // ------------------------------------------------------------------ every node

  /** The gap in front of token `p`, when it is on the line of the token before it and holds no comment. */
  ghost predicate GapIs(items: seq<Item>, p: nat, blank: bool) {
    && 0 < p < |items|
    && (items[p - 1].kind != Newline && items[p].kind != Newline && AllBlank(items[p].gap) ==>
          LaidOut(items)[p].gap == if blank then " " else "")
  }

  /** Every two children of every node are set apart as the table says. */
  ghost predicate LaidByNode(items: seq<Item>, at: nat, t: Tree)
    decreases t
  {
    t.Leaf? ||
    (&& (forall i :: 0 < i < |t.kids| ==>
           From(at, t, i) < |items| && 0 < From(at, t, i) &&
           GapIs(items, From(at, t, i),
             Blank(t.sym, Roots(t.kids), i, items[From(at, t, i) - 1].kind, items[From(at, t, i)].kind)))
     && (forall i :: 0 <= i < |t.kids| ==> LaidByNode(items, From(at, t, i), t.kids[i])))
  }

  /** A gap on one line is what the formatter's spacing rule says. */
  lemma {:induction false} GapOnLine(items: seq<Item>, p: nat)
    requires 0 < p < |items| && items[p - 1].kind != Newline && items[p].kind != Newline && AllBlank(items[p].gap)
    ensures LaidOut(items)[p].gap == if Spaced(Kinds(items), p) then " " else ""
  {
    hide Spaced, AllBlank;
  }

  /** Where a node stands, no lambda parameters are open, unless the node is those parameters. */
  predicate Outside(ks: seq<Kind>, at: nat, t: Tree) {
    t.Node? && !t.sym.Names? ==> at <= |ks| && !LambdaOpen(ks, at)
  }

  lemma {:induction false} NodeGap(items: seq<Item>, at: nat, t: Tree, i: nat)
    requires t.Node? && Derives(t) && Stands(Kinds(items), at, t) && 0 < i < |t.kids| && Outside(Kinds(items), at, t)
    ensures 0 < From(at, t, i) < |items|
    ensures GapIs(items, From(at, t, i),
      Blank(t.sym, Roots(t.kids), i, items[From(at, t, i) - 1].kind, items[From(at, t, i)].kind))
  {
    hide From, Stands, LambdaOpen, Blank, RootLast, RootFirst, NeedsSpace;
    var ks, r, p := Kinds(items), Roots(t.kids), From(at, t, i);
    KidDerives(t, i);
    KidsMeet(ks, at, t, i);
    if !t.sym.Names? {
      KidOpen(ks, at, t, i);
    }
    hide Derives, Production;
    if ks[p - 1] != Newline && ks[p] != Newline && AllBlank(items[p].gap) {
      hide AllBlank, LaidOut, OS.HasBars, BetweenBars;
      Faces(r, i, ks[p - 1], ks[p]);
      RowSpacing(t.sym, r, i, ks[p - 1], ks[p]);
      SpacingAt(t.sym, r, i, ks, p);
      GapOnLine(items, p);
    }
  }

  /** The formatter's spacing at a place inside a node. */
  lemma {:induction false} SpacingAt(sym: Sym, r: seq<Root>, i: nat, ks: seq<Kind>, p: nat)
    requires Production(sym, r) && 0 < p < |ks| && Facing(r, i, ks[p - 1], ks[p])
    requires sym.Names? || LambdaOpen(ks, p) == BetweenBars(sym, r, i)
    requires Agrees(sym, r, i, ks[p - 1], ks[p])
    ensures Spaced(ks, p) == Blank(sym, r, i, ks[p - 1], ks[p])
  {
    hide Production, EndsValue, Opens, Blank, LambdaOpen;
    if sym.Names? {
      NamesHaveNoBars(sym, r, i - 1);
      NamesHaveNoBars(sym, r, i);
    } else {
      BarsAt(sym, r, i, ks, p);
      assert ks[p - 1] != Newline;
      hide Facing, NeedsSpace, ClosesLambda, ClosedLambdaBefore;
    }
  }

  lemma {:induction false} NamesHaveNoBars(sym: Sym, r: seq<Root>, i: nat)
    requires Production(sym, r) && sym.Names? && i < |r|
    ensures r[i].T? && !r[i].kind.Operator?
  {
    hide IsReserved;
  }

  /** Outside a lambda no bar stands in front of a child. */
  lemma {:induction false} NoBarBefore(sym: Sym, r: seq<Root>, i: nat, previous: Kind, current: Kind)
    requires Production(sym, r) && !OS.HasBars(sym, r) && Facing(r, i, previous, current)
    ensures previous != Operator("|")
  {
    hide Production, EndsValue, Opens;
    OS.ProductionTidy(sym, r);
    Decides(previous, current);
    RowsInside(sym, r, i - 1);
    hide NeedsSpace, OS.Begins;
  }

  /** The bars the formatter counts are those of the node. */
  lemma {:induction false} BarsAt(sym: Sym, r: seq<Root>, i: nat, ks: seq<Kind>, p: nat)
    requires Production(sym, r) && 0 < p < |ks| && Facing(r, i, ks[p - 1], ks[p])
    requires LambdaOpen(ks, p) == BetweenBars(sym, r, i)
    ensures ClosesLambda(ks, p) == (OS.HasBars(sym, r) && i == 2)
    ensures ClosedLambdaBefore(ks, p) == (OS.HasBars(sym, r) && i == 3)
  {
    hide Production, EndsValue, Opens;
    if OS.HasBars(sym, r) {
      LambdaRowIs(r);
    } else {
      NoBarBefore(sym, r, i, ks[p - 1], ks[p]);
    }
  }

  lemma {:induction false} KidsOutside(ks: seq<Kind>, at: nat, t: Tree, i: nat)
    requires t.Node? && Derives(t) && Stands(ks, at, t) && i < |t.kids| && Outside(ks, at, t)
    ensures Outside(ks, From(at, t, i), t.kids[i])
  {
    hide From, Stands, LambdaOpen, Production;
    var r := Roots(t.kids);
    KidDerives(t, i);
    assert r[i] == RootOf(t.kids[i]);
    if t.sym.Names? {
      NamesHaveNoBars(t.sym, r, i);
    } else {
      KidOpen(ks, at, t, i);
      if BetweenBars(t.sym, r, i) {
        LambdaRowIs(r);
      }
    }
  }

  /**
    The canonical layout of a derivation: wherever two children of a node meet on one line without a comment between
    them, one blank or nothing stands there, as the table of blanks says of that node.
  */
  lemma {:induction false} NodesLaidOut(items: seq<Item>, at: nat, t: Tree)
    requires Derives(t) && Stands(Kinds(items), at, t) && Outside(Kinds(items), at, t)
    ensures LaidByNode(items, at, t)
    decreases t
  {
    hide Stands, Outside, From, GapIs, Blank, Kinds, Production;
    if t.Node? {
      forall i | 0 < i < |t.kids|
        ensures From(at, t, i) < |items| && 0 < From(at, t, i) &&
          GapIs(items, From(at, t, i),
            Blank(t.sym, Roots(t.kids), i, items[From(at, t, i) - 1].kind, items[From(at, t, i)].kind))
      {
        NodeGap(items, at, t, i);
      }
      forall i | 0 <= i < |t.kids| ensures LaidByNode(items, From(at, t, i), t.kids[i]) {
        hide LaidByNode;
        KidStands(Kinds(items), at, t, i);
        KidsOutside(Kinds(items), at, t, i);
        NodesLaidOut(items, From(at, t, i), t.kids[i]);
      }
    }
  }

  /**
    What the table says of the marks a reader looks for. Nothing stands in front of the bracket of a call, an index
    or parameters, around a dot, in front of a comma or inside round and square brackets, except that a number keeps a
    blank in front of a dot. An operator has a blank in front of it; behind it, and behind a comma, one stands exactly
    if no round bracket follows.
  */
  lemma {:induction false} LayoutLaws(items: seq<Item>, at: nat, t: Tree, i: nat)
    requires t.Node? && Derives(t) && Stands(Kinds(items), at, t) && 0 < i < |t.kids| && Outside(Kinds(items), at, t)
    ensures 0 < From(at, t, i) < |items|
    ensures var p := From(at, t, i); var next := items[p].kind;
      && (t.sym == FunctionDeclaration && i == 2 ==> GapIs(items, p, false))
      && (t.sym == Postfix ==> GapIs(items, p, next == Operator(".") && items[p - 1].kind.Number?))
      && (t.sym == Suffix || t.sym == Path || t.sym == ParameterList || t.sym == Call || t.sym == Array ==>
            GapIs(items, p, false))
      && (t.sym == Primary ==> GapIs(items, p, false))
      && (t.sym.Binary? ==> GapIs(items, p, true))
      && (t.sym.BinaryTail? ==> GapIs(items, p, next != OpenRound))
      && (t.sym.Names? || t.sym == Bindings || t.sym == Members ==> GapIs(items, p, i % 2 == 0))
      && (t.sym == Exprs ==> GapIs(items, p, i % 2 == 0 && next != OpenRound))
      && (t.sym == Member ==> GapIs(items, p, i == 2 && next != OpenRound))
  {
    NodeGap(items, at, t, i);
    hide From, Stands, Outside, GapIs, Derives, Kinds;
  }

  // ------------------------------------------------------------------ indentation

  lemma {:induction false} StackStep(ks: seq<Kind>, n: nat)
    requires n < |ks| && Stack(ks, 0, n).Some?
    ensures var open := Stack(ks, 0, n).value; var next := Stack(ks, 0, n + 1);
      && (IsOpen(ks[n]) ==> next == Some(open + [ks[n]]))
      && (!IsOpen(ks[n]) && !IsClose(ks[n]) ==> next == Some(open))
      && (IsClose(ks[n]) && open != [] && CloserOf(open[|open| - 1]) == ks[n] ==> next == Some(open[..|open| - 1]))
      && (IsClose(ks[n]) && next.Some? ==> open != [] && CloserOf(open[|open| - 1]) == ks[n])
  {
  }

  /** The tokens of a tree leave the open brackets as they were. */
  lemma {:induction false} TreeBalanced(ks: seq<Kind>, at: nat, t: Tree)
    requires t.Node? && Derives(t) && Stands(ks, at, t) && Stack(ks, 0, at).Some?
    ensures at + |Yield(t)| <= |ks| && Stack(ks, 0, at + |Yield(t)|) == Stack(ks, 0, at)
    decreases t, 2, 0
  {
    hide Production, Yield, From, Stack, BracketRow, QuietRow;
    var r, n := Roots(t.kids), |t.kids|;
    assert Production(t.sym, r);
    RowBrackets(t.sym, r);
    WholeTree(at, t);
    if BracketRow(r) {
      BracketBalanced(ks, at, t);
    } else {
      KidsBalanced(ks, at, t, 0, n);
    }
  }

  lemma {:induction false} BracketBalanced(ks: seq<Kind>, at: nat, t: Tree)
    requires t.Node? && Derives(t) && Stands(ks, at, t) && BracketRow(Roots(t.kids)) && Stack(ks, 0, at).Some?
    ensures Stack(ks, 0, at + |Yield(t)|) == Stack(ks, 0, at)
    decreases t, 1, 0
  {
    hide Production, Yield, From, Derives, Stack;
    var r, n := Roots(t.kids), |t.kids|;
    WholeTree(at, t);
    KidStands(ks, at, t, 0);
    KidStands(ks, at, t, n - 1);
    StackStep(ks, at);
    KidsBalanced(ks, at, t, 1, n - 1);
    StackStep(ks, From(at, t, n - 1));
  }

  lemma {:induction false} KidsBalanced(ks: seq<Kind>, at: nat, t: Tree, lo: nat, hi: nat)
    requires t.Node? && Derives(t) && Stands(ks, at, t) && lo <= hi <= |t.kids| && QuietRow(Roots(t.kids), lo, hi)
    requires From(at, t, lo) <= |ks| && Stack(ks, 0, From(at, t, lo)).Some?
    ensures From(at, t, hi) <= |ks| && Stack(ks, 0, From(at, t, hi)) == Stack(ks, 0, From(at, t, lo))
    decreases t, 0, hi
  {
    hide Production, Yield, From, Derives, Stack;
    if lo < hi {
      var i := hi - 1;
      KidsBalanced(ks, at, t, lo, i);
      KidStands(ks, at, t, i);
      assert Quiet(Roots(t.kids)[i]);
      if t.kids[i].Leaf? {
        StackStep(ks, From(at, t, i));
      } else {
        TreeBalanced(ks, From(at, t, i), t.kids[i]);
      }
    }
  }

  lemma {:induction false} StackPrefix(ks: seq<Kind>, n: nat, m: nat)
    requires n <= m <= |ks| && Stack(ks, 0, m).Some?
    ensures Stack(ks, 0, n).Some?
    decreases m
  {
    if n < m {
      StackPrefix(ks, n, m - 1);
    }
  }

  /** The braces open in front of token `n`, where brackets are closed in the order they were opened. */
  function OpenBraces(ks: seq<Kind>, n: nat): (count: nat)
    requires n <= |ks| && Stack(ks, 0, n).Some?
  {
    Count(Stack(ks, 0, n).value, OpenCurly)
  }

  /** The formatter's running level is the number of open braces. */
  lemma {:induction false} LevelIsOpenBraces(ks: seq<Kind>, n: nat)
    requires n <= |ks| && Stack(ks, 0, n).Some?
    ensures Indentation(ks, n) == OpenBraces(ks, n)
    decreases n
  {
    hide Stack;
    if n == 0 {
      NothingOpen(ks);
    } else {
      StackPrefix(ks, n - 1, n);
      LevelIsOpenBraces(ks, n - 1);
      StackStep(ks, n - 1);
      CountLast(Stack(ks, 0, n - 1).value, ks[n - 1]);
    }
  }

  lemma {:induction false} NothingOpen(ks: seq<Kind>)
    ensures Stack(ks, 0, 0) == Some([]) && Count([], OpenCurly) == 0
  {
  }

  lemma {:induction false} CountLast(stack: seq<Kind>, k: Kind)
    ensures Count(stack + [k], OpenCurly) == Count(stack, OpenCurly) + if k == OpenCurly then 1 else 0
    ensures stack != [] ==>
      Count(stack, OpenCurly) ==
      Count(stack[..|stack| - 1], OpenCurly) + if stack[|stack| - 1] == OpenCurly then 1 else 0
  {
    assert (stack + [k])[..|stack|] == stack;
  }

  /**
    A token that starts a line stands behind four blanks for every brace open there, a closing brace behind those of
    the braces it leaves open; a comment that starts a line stands behind the blanks of all open braces.
  */
  ghost predicate LineIndented(items: seq<Item>, n: nat)
    requires n < |items|
  {
    var ks := Kinds(items);
    && Stack(ks, 0, n).Some? && Stack(ks, 0, n + 1).Some?
    && (LineStart(ks, n) && ks[n] != Newline ==>
          LaidOut(items)[n].gap ==
          if !AllBlank(items[n].gap) then Spaces(4 * OpenBraces(ks, n)) + TrimStart(items[n].gap)
          else if ks[n] == CloseCurly then Spaces(4 * OpenBraces(ks, n + 1))
          else Spaces(4 * OpenBraces(ks, n)))
  }

  ghost predicate LinesIndented(items: seq<Item>) {
    forall n :: 0 <= n < |items| ==> LineIndented(items, n)
  }

  lemma {:induction false} TreeIndented(items: seq<Item>, t: Tree)
    requires t.Node? && Derives(t) && Yield(t) == Kinds(items)
    ensures LinesIndented(items)
  {
    hide Stack, Yield, Derives, LineIndented;
    var ks := Kinds(items);
    assert ks[0..0 + |Yield(t)|] == ks;
    assert Stands(ks, 0, t);
    NothingOpen(ks);
    TreeBalanced(ks, 0, t);
    forall n | 0 <= n < |items| ensures LineIndented(items, n) {
      StackPrefix(ks, n, |ks|);
      StackPrefix(ks, n + 1, |ks|);
      IndentedHere(items, n);
    }
  }

  lemma {:induction false} IndentedHere(items: seq<Item>, n: nat)
    requires n < |items| && Stack(Kinds(items), 0, n).Some? && Stack(Kinds(items), 0, n + 1).Some?
    ensures LineIndented(items, n)
  {
    hide Stack, OpenBraces, Indentation, AllBlank, TrimStart;
    var ks := Kinds(items);
    LevelIsOpenBraces(ks, n);
    LevelIsOpenBraces(ks, n + 1);
    LevelBehind(ks, n);
  }

  lemma {:induction false} LevelBehind(ks: seq<Kind>, n: nat)
    requires n < |ks|
    ensures ks[n] == CloseCurly ==> Indentation(ks, n + 1) == TokenLevel(ks, n)
    ensures ks[n] != CloseCurly ==> Indentation(ks, n) == TokenLevel(ks, n)
  {
  }

  // ------------------------------------------------------------------ comments

  /** A gap without the blanks at its ends: nothing, or comments. */
  function Bare(gap: string): (s: string) {
    TrimEnd(TrimStart(gap))
  }

  /** Only blanks at the ends of gaps change; what comments say stays. */
  ghost predicate CommentsKept(items: seq<Item>) {
    forall n :: 0 <= n < |items| ==> Bare(LaidOut(items)[n].gap) == Bare(items[n].gap)
  }

  lemma {:induction false} BareBlank(gap: string)
    requires AllBlank(gap)
    ensures Bare(gap) == "" && TrimEnd(gap) == ""
  {
    RunIs(gap, IsBlank, |gap|);
    TrimsAll(gap);
  }

  lemma {:induction false} TrimsAll(s: string)
    requires AllBlank(s)
    ensures TrimEnd(s) == ""
    decreases |s|
  {
    if s != "" {
      TrimsAll(s[..|s| - 1]);
    }
  }

  /** Blanks in front of a comment and behind it are not part of it. */
  lemma {:induction false} BareComment(b: string, c: string)
    requires AllBlank(b) && c != "" && !IsBlank(c[0])
    ensures Bare(b + c) == TrimEnd(c) && Bare(TrimEnd(b + c)) == TrimEnd(c)
  {
    hide AllBlank, TrimStart, TrimEnd;
    BlanksThenComment(b, c);
    TrimEndKeepsFront(b, c);
    BlanksThenComment(b, TrimEnd(c));
    TrimEndAgain(c);
  }

  lemma {:induction false} SplitComment(gap: string)
    requires !AllBlank(gap)
    ensures var b := gap[..Run(gap, IsBlank)]; var c := gap[Run(gap, IsBlank)..];
      AllBlank(b) && c != "" && !IsBlank(c[0]) && gap == b + c && TrimStart(gap) == c
  {
  }

  lemma {:induction false} BlankGapKept(items: seq<Item>, n: nat)
    requires n < |items| && AllBlank(items[n].gap)
    ensures Bare(LaidOut(items)[n].gap) == Bare(items[n].gap)
  {
    hide Spaced, Indentation, TokenLevel, Bare;
    var laid := LaidOut(items)[n].gap;
    BareBlank("");
    assert AllBlank(laid);
    BareBlank(items[n].gap);
    BareBlank(laid);
  }

  lemma {:induction false} CommentGap(items: seq<Item>, n: nat)
    requires n < |items| && !AllBlank(items[n].gap)
    ensures var ks, gap := Kinds(items), items[n].gap;
      var text := if LineStart(ks, n) then Indent(Indentation(ks, n)) + TrimStart(gap) else gap;
      LaidOut(items)[n].gap == if ks[n] == Newline then TrimEnd(text) else text
  {
    hide AllBlank, TrimStart, TrimEnd, Indentation, Spaced;
  }

  lemma {:induction false} CommentGapKept(items: seq<Item>, n: nat)
    requires n < |items| && !AllBlank(items[n].gap)
    ensures Bare(LaidOut(items)[n].gap) == Bare(items[n].gap)
  {
    var ks, gap := Kinds(items), items[n].gap;
    CommentGap(items, n);
    SplitComment(gap);
    var b, c := gap[..Run(gap, IsBlank)], gap[Run(gap, IsBlank)..];
    BareComment(b, c);
    var blanks := Indent(Indentation(ks, n));
    assert AllBlank(blanks);
    BareComment(blanks, c);
    hide TrimStart, TrimEnd, Bare, Run, LaidOut, AllBlank, Indentation;
  }

  lemma {:induction false} GapKept(items: seq<Item>, n: nat)
    requires n < |items|
    ensures Bare(LaidOut(items)[n].gap) == Bare(items[n].gap)
  {
    hide Bare, LaidOut, AllBlank;
    if AllBlank(items[n].gap) {
      BlankGapKept(items, n);
    } else {
      CommentGapKept(items, n);
    }
  }

  lemma {:induction false} LayoutKeepsComments(items: seq<Item>)
    ensures CommentsKept(items)
  {
    hide Bare, LaidOut;
    forall n | 0 <= n < |items| ensures Bare(LaidOut(items)[n].gap) == Bare(items[n].gap) {
      GapKept(items, n);
    }
  }

  /** The canonical layout of the items of a derivation. */
  ghost predicate CanonicalLayout(items: seq<Item>, t: Tree) {
    LaidByNode(items, 0, t) && LinesIndented(items) && CommentsKept(items)
  }

  lemma {:induction false} LayoutIsCanonical(items: seq<Item>, t: Tree)
    requires t.Node? && t.sym == Program && Derives(t) && Yield(t) == Kinds(items)
    ensures CanonicalLayout(items, t)
  {
    hide LaidByNode, LinesIndented, CommentsKept, Derives, Yield;
    var ks := Kinds(items);
    assert ks[0..0 + |Yield(t)|] == ks;
    assert Stands(ks, 0, t) && !LambdaOpen(ks, 0);
    NodesLaidOut(items, 0, t);
    TreeIndented(items, t);
    LayoutKeepsComments(items);
  }

  // ------------------------------------------------------------------ where a reader may be surprised

  /** A round bracket stands tight behind an operator and behind a comma: `a +(b,(c))`. */
  lemma {:induction false} RoundBracketsAreTight()
    ensures var ks := [Identifier("a"), Operator("+"), OpenRound, Identifier("b"), Comma, OpenRound];
      !Spaced(ks, 2) && !Spaced(ks, 5)
  {
    hide LambdaOpen;
  }
}
