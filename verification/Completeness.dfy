/** The parser accepts every program it should.

    Of a derivation with forced choices the recogniser takes exactly the tokens of each node, unless the tree nests too
    deep or has one of the few starts the parser refuses beyond the grammar. Both conditions are read off the tree. */
module Completeness {
  import opened Tokens
  import opened Grammar
  import opened Choices
  import opened OneDerivation
  import R = Recogniser

  // ------------------------------------------------------------------ what is refused beyond the grammar

  /** A node that takes one level of nesting. */
  predicate Nests(sym: Sym) {
    sym.Expression? || sym.Block? || sym == ValueBlock
  }

  function Inside(sym: Sym, room: int): (inner: int) {
    if Nests(sym) then room - 1 else room
  }

  function FirstOf(t: Tree): (k: Kind) {
    if Yield(t) == [] then End else Yield(t)[0]
  }

  predicate StartsWithBar(t: Tree) {
    IsBar(FirstOf(t))
  }

  /** A condition, an iterable or a conditional branch that starts with a lambda, and a `try` followed by `catch`. */
  predicate Refused(sym: Sym, kids: seq<Tree>) {
    if sym == Conditional || sym == ElifPart then
      |kids| >= 3 && (StartsWithBar(kids[1]) || StartsWithBar(kids[2]))
    else if sym == ElsePart then |kids| >= 2 && StartsWithBar(kids[1])
    else if sym == Loop then
      exists i :: 0 <= i < |kids| && kids[i].Node? && kids[i].sym == Binary(0) && StartsWithBar(kids[i])
    else if sym == TryExpression then |kids| >= 2 && FirstOf(kids[1]) == Identifier("catch")
    else false
  }

  /** The tree nests at most `room` deep, and none of its nodes is refused. */
  predicate Fine(t: Tree, room: int) {
    t.Leaf? ||
    (&& (Nests(t.sym) ==> room > 0) && !Refused(t.sym, t.kids)
     && forall i :: 0 <= i < |t.kids| ==> Fine(t.kids[i], Inside(t.sym, room)))
  }

  predicate FineFrom(kids: seq<Tree>, i: nat, room: int) {
    forall j :: i <= j < |kids| ==> Fine(kids[j], room)
  }

  // ------------------------------------------------------------------ places in a tree

  function Room(e: R.Env, s: R.PS): (room: int) {
    e.maxNesting - s.nesting
  }

  /** The recogniser stands in front of the tree, with nothing reported. */
  ghost predicate Here(e: R.Env, s: R.PS, t: Tree) {
    R.ValidEnv(e) && s.ok && Fits(e.ks, s.index, t) && s.index + |Yield(t)| < |e.ks|
  }

  function Past(s: R.PS, t: Tree): (r: R.PS) {
    s.(index := s.index + |Yield(t)|)
  }

  /** In front of child `i`. */
  function Place(s: R.PS, t: Tree, i: nat): (r: R.PS)
    requires t.Node? && i <= |t.kids|
  {
    s.(index := From(s.index, t, i))
  }

  /** The recogniser takes the tree, or reports. */
  ghost predicate Takes(e: R.Env, s: R.PS, t: Tree, r: R.PS) {
    if Fine(t, Room(e, s)) then r == Past(s, t) else !r.ok
  }

  lemma {:induction false} Kid(e: R.Env, s: R.PS, t: Tree, i: nat)
    requires t.Node? && Here(e, s, t) && i < |t.kids| && (t.sym == Program ==> RootOf(t.kids[i]) != N(Program))
    ensures R.Ready(e, Place(s, t, i)) && R.Ready(e, Place(s, t, i + 1))
    ensures Here(e, Place(s, t, i), t.kids[i]) && Past(Place(s, t, i), t.kids[i]) == Place(s, t, i + 1)
    ensures RootFirst(RootOf(t.kids[i]), R.Cur(e, Place(s, t, i)))
    ensures RootOf(t.kids[i]) == Roots(t.kids)[i] && RootOf(t.kids[i]) != N(Program)
    ensures FirstOf(t.kids[i]) == R.Cur(e, Place(s, t, i)) && Place(s, t, i + 1).index > Place(s, t, i).index
    ensures Room(e, Place(s, t, i)) == Room(e, s) && Place(s, t, i).ok
  {
    hide Forced, Production, Suits, Derives, First, From, Yield;
    KidFits(e.ks, s.index, t, i);
    KidDerives(t, i);
    if t.sym != Program {
      RowInner(t.sym, Roots(t.kids), i);
    }
    NextFrom(s.index, t, i);
    FitsFirst(e.ks, From(s.index, t, i), t.kids[i]);
    var p, y := From(s.index, t, i), Yield(t.kids[i]);
    assert e.ks[p..p + |y|][0] == e.ks[p];
  }

  /** The recogniser advances over a terminal. */
  lemma {:induction false} Terminal(e: R.Env, s: R.PS, t: Tree, i: nat)
    requires t.Node? && t.sym != Program && Here(e, s, t) && i < |t.kids| && t.kids[i].Leaf? && t.kids[i].kind != End
    ensures R.Ready(e, Place(s, t, i)) && R.Ready(e, Place(s, t, i + 1))
    ensures R.Cur(e, Place(s, t, i)) == t.kids[i].kind && R.Advance(e, Place(s, t, i)) == Place(s, t, i + 1)
    ensures RootOf(t.kids[i]) == Roots(t.kids)[i]
  {
    hide Fits, From, Place;
    Kid(e, s, t, i);
    OneToken(s, t, i);
  }

  lemma {:induction false} OneToken(s: R.PS, t: Tree, i: nat)
    requires t.Node? && i < |t.kids| && t.kids[i].Leaf?
    ensures Place(s, t, i + 1) == Place(s, t, i).(index := Place(s, t, i).index + 1)
  {
    hide YieldAll;
    NextFrom(s.index, t, i);
  }

  lemma {:induction false} Whole(e: R.Env, s: R.PS, t: Tree)
    requires t.Node? && Here(e, s, t)
    ensures Place(s, t, 0) == s && Place(s, t, |t.kids|) == Past(s, t) && R.Ready(e, s) && R.Ready(e, Past(s, t))
    ensures Production(t.sym, Roots(t.kids)) && Halts(t.sym, Roots(t.kids), e.ks, Past(s, t).index)
    ensures t.sym != Program ==> t.kids != []
  {
    hide Production, Halts, YieldAll, First;
    if t.sym != Program {
      RowFirst(t.sym, Roots(t.kids), End);
    }
    assert t.kids[..0] == [] && t.kids[..|t.kids|] == t.kids;
    NothingYields();
  }

  // ------------------------------------------------------------------ what is fine of a row

  predicate MayRefuse(sym: Sym) {
    sym == Conditional || sym == ElifPart || sym == ElsePart || sym == Loop || sym == TryExpression
  }

  lemma {:induction false} FineRow(t: Tree, room: int)
    requires t.Node? && !MayRefuse(t.sym)
    ensures Fine(t, room) <==> (Nests(t.sym) ==> room > 0) && FineFrom(t.kids, 0, Inside(t.sym, room))
  {
  }

  lemma {:induction false} FineNext(kids: seq<Tree>, i: nat, room: int)
    requires i < |kids|
    ensures FineFrom(kids, i, room) <==> Fine(kids[i], room) && FineFrom(kids, i + 1, room)
    ensures kids[i].Leaf? ==> Fine(kids[i], room)
  {
  }

  lemma {:induction false} FineEnd(kids: seq<Tree>, room: int)
    ensures FineFrom(kids, |kids|, room)
  {
  }

  /** A row of one child. */
  lemma {:induction false} FineOne(t: Tree, room: int)
    requires t.Node? && !MayRefuse(t.sym) && !Nests(t.sym) && |t.kids| == 1
    ensures Fine(t, room) == Fine(t.kids[0], room)
  {
    hide Fine, FineFrom;
    FineRow(t, room);
    FineNext(t.kids, 0, room);
    FineEnd(t.kids, room);
  }

  /** A row between two terminals. */
  lemma {:induction false} FineMiddle(t: Tree, room: int)
    requires t.Node? && !MayRefuse(t.sym) && !Nests(t.sym) && |t.kids| == 3 && t.kids[0].Leaf? && t.kids[2].Leaf?
    ensures Fine(t, room) == Fine(t.kids[1], room)
  {
    FineOnly(t, 1, room);
  }

  lemma {:induction false} FineThird(t: Tree, room: int)
    requires t.Node? && !MayRefuse(t.sym) && !Nests(t.sym) && |t.kids| == 3 && t.kids[0].Leaf? && t.kids[1].Leaf?
    ensures Fine(t, room) == Fine(t.kids[2], room)
  {
    FineOnly(t, 2, room);
  }

  lemma {:induction false} FineFourth(t: Tree, room: int)
    requires t.Node? && !MayRefuse(t.sym) && !Nests(t.sym) && |t.kids| == 4
    requires t.kids[0].Leaf? && t.kids[1].Leaf? && t.kids[2].Leaf?
    ensures Fine(t, room) == Fine(t.kids[3], room)
  {
    FineOnly(t, 3, room);
  }

  lemma {:induction false} FineSecond(t: Tree, room: int)
    requires t.Node? && !MayRefuse(t.sym) && !Nests(t.sym) && |t.kids| == 2 && t.kids[0].Leaf?
    ensures Fine(t, room) == Fine(t.kids[1], room)
  {
    FineOnly(t, 1, room);
  }

  /** A row of which only child `k` is a node. */
  lemma {:induction false} FineOnly(t: Tree, k: nat, room: int)
    requires t.Node? && !MayRefuse(t.sym) && !Nests(t.sym) && k < |t.kids|
    requires forall i :: 0 <= i < |t.kids| && i != k ==> t.kids[i].Leaf?
    ensures Fine(t, room) == Fine(t.kids[k], room)
  {
  }

  // ------------------------------------------------------------------ operators

  lemma {:induction false} UnaryTakes(e: R.Env, s: R.PS, t: Tree)
    requires t.Node? && t.sym == Unary && Here(e, s, t)
    ensures R.Ready(e, s) && Takes(e, s, t, R.ParseUnary(e, s))
    decreases t, 0
  {
    hide Production, From, Past, Place, Here, Halts, Fits, Fine, FineFrom, RootFirst, Yield, Room, R.Ready, R.Advance,
      R.ParsePostfix;
    Whole(e, s, t);
    UnaryRow(Roots(t.kids));
    Kid(e, s, t, 0);
    if |t.kids| == 1 {
      PostfixTakes(e, s, t.kids[0]);
      NoUnary(R.Cur(e, s));
      FineOne(t, Room(e, s));
    } else {
      Terminal(e, s, t, 0);
      Kid(e, s, t, 1);
      PostfixTakes(e, Place(s, t, 1), t.kids[1]);
      FineOnly(t, 1, Room(e, s));
    }
  }

  lemma {:induction false} NoUnary(k: Kind)
    requires RootFirst(N(Postfix), k)
    ensures !IsUnaryOperator(k)
  {
  }

  lemma {:induction false} UnaryRow(r: seq<Root>)
    requires Production(Unary, r)
    ensures |r| == 1 || |r| == 2
    ensures |r| == 1 ==> r[0] == N(Postfix)
    ensures |r| == 2 ==> r[0].T? && IsUnaryOperator(r[0].kind) && r[0].kind != End && r[1] == N(Postfix)
  {
  }

  lemma {:induction false} PostfixTakes(e: R.Env, s: R.PS, t: Tree)
    requires t.Node? && t.sym == Postfix && Here(e, s, t)
    ensures R.Ready(e, s) && Takes(e, s, t, R.ParsePostfix(e, s))
    decreases t, 2
  {
    hide Production, From, Past, Place, Here, Halts, Fits, Fine, FineFrom, RootFirst, Yield, Room, R.Ready, R.Advance,
      R.ParsePrimary, R.Suffixes;
    Whole(e, s, t);
    PostfixRow(Roots(t.kids));
    Kid(e, s, t, 0);
    PrimaryTakes(e, s, t.kids[0]);
    SuffixesTake(e, s, t, 1);
    FineRow(t, Room(e, s));
    FineNext(t.kids, 0, Room(e, s));
  }

  lemma {:induction false} PostfixRow(r: seq<Root>)
    requires Production(Postfix, r)
    ensures |r| >= 1 && r[0] == N(Primary) && forall i :: 1 <= i < |r| ==> r[i] == N(Suffix)
  {
  }

  lemma {:induction false} SuffixesTake(e: R.Env, s: R.PS, t: Tree, i: nat)
    requires t.Node? && t.sym == Postfix && Here(e, s, t) && 1 <= i <= |t.kids|
    ensures R.Ready(e, Place(s, t, i))
    ensures var r := R.Suffixes(e, Place(s, t, i));
      if FineFrom(t.kids, i, Room(e, s)) then r == Past(s, t) else !r.ok
    decreases t, 0, |t.kids| - i
  {
    hide Production, From, Past, Place, Here, Fits, Fine, FineFrom, RootFirst, Yield, Room, R.Ready, R.Advance,
      R.ParseSuffix;
    Whole(e, s, t);
    PostfixRow(Roots(t.kids));
    if i < |t.kids| {
      Kid(e, s, t, i);
      SuffixTakes(e, Place(s, t, i), t.kids[i]);
      SuffixesTake(e, s, t, i + 1);
      FineNext(t.kids, i, Room(e, s));
    } else {
      FineEnd(t.kids, Room(e, s));
    }
  }

  /** Seven levels of binary operators above the unary ones. */
  lemma {:induction false} BinaryTakes(e: R.Env, s: R.PS, t: Tree)
    requires t.Node? && t.sym.Binary? && Here(e, s, t)
    ensures t.sym.level <= 6 && R.Ready(e, s) && Takes(e, s, t, R.ParseBinary(e, s, t.sym.level))
    decreases t, 1
  {
    hide Production, From, Past, Place, Here, Halts, Fits, Fine, FineFrom, RootFirst, Yield, Room, R.Ready, R.Advance,
      R.ParseUnary, R.BinaryTails;
    Whole(e, s, t);
    var level := t.sym.level;
    BinaryRow(level, Roots(t.kids));
    Kid(e, s, t, 0);
    OperandTakes(e, s, t.kids[0], level);
    TailsTake(e, s, t, 1);
    FineRow(t, Room(e, s));
    FineNext(t.kids, 0, Room(e, s));
  }

  lemma {:induction false} BinaryRow(level: nat, r: seq<Root>)
    requires Production(Binary(level), r)
    ensures level <= 6 && |r| >= 1 && r[0] == N(Operand(level))
    ensures forall i :: 1 <= i < |r| ==> r[i] == N(BinaryTail(level))
  {
  }

  lemma {:induction false} TailRow(level: nat, r: seq<Root>)
    requires Production(BinaryTail(level), r)
    ensures |r| == 2 && r[0].T? && OperatorAt(level, r[0].kind) && r[1] == N(Operand(level))
  {
  }

  lemma {:induction false} OperandTakes(e: R.Env, s: R.PS, t: Tree, level: nat)
    requires level <= 6 && RootOf(t) == N(Operand(level)) && Here(e, s, t)
    ensures R.Ready(e, s) && Takes(e, s, t, R.ParseBinary(e, s, level + 1))
    decreases t, 2
  {
    hide Fits, Takes, R.ParseUnary, R.BinaryTails;
    if level < 6 {
      BinaryTakes(e, s, t);
    } else {
      UnaryTakes(e, s, t);
    }
  }

  lemma {:induction false} TailsTake(e: R.Env, s: R.PS, t: Tree, i: nat)
    requires t.Node? && t.sym.Binary? && t.sym.level <= 6 && Here(e, s, t) && 1 <= i <= |t.kids|
    ensures R.Ready(e, Place(s, t, i))
    ensures var r := R.BinaryTails(e, Place(s, t, i), t.sym.level);
      if FineFrom(t.kids, i, Room(e, s)) then r == Past(s, t) else !r.ok
    decreases t, 0, |t.kids| - i
  {
    hide Production, From, Past, Place, Here, Fits, Fine, FineFrom, RootFirst, Yield, Room, R.Ready, R.Advance,
      R.ParseBinary, OperatorAt;
    Whole(e, s, t);
    var level := t.sym.level;
    BinaryRow(level, Roots(t.kids));
    if i < |t.kids| {
      Kid(e, s, t, i);
      TailTakes(e, Place(s, t, i), t.kids[i]);
      TailsTake(e, s, t, i + 1);
      FineNext(t.kids, i, Room(e, s));
    } else {
      FineEnd(t.kids, Room(e, s));
    }
  }

  lemma {:induction false} TailTakes(e: R.Env, s: R.PS, t: Tree)
    requires t.Node? && t.sym.BinaryTail? && t.sym.level <= 6 && Here(e, s, t)
    ensures R.Ready(e, s) && OperatorAt(t.sym.level, R.Cur(e, s))
    ensures Takes(e, s, t, R.ParseBinary(e, R.Advance(e, s), t.sym.level + 1))
    decreases t, 0
  {
    hide Production, From, Past, Place, Here, Halts, Fits, Fine, FineFrom, RootFirst, Yield, Room, R.Ready, R.Advance,
      R.ParseBinary;
    Whole(e, s, t);
    TailRow(t.sym.level, Roots(t.kids));
    Kid(e, s, t, 0);
    Terminal(e, s, t, 0);
    Kid(e, s, t, 1);
    OperandTakes(e, Place(s, t, 1), t.kids[1], t.sym.level);
    FineOnly(t, 1, Room(e, s));
  }

  // ------------------------------------------------------------------ suffixes and lists of expressions

  lemma {:induction false} SuffixTakes(e: R.Env, s: R.PS, t: Tree)
    requires t.Node? && t.sym == Suffix && Here(e, s, t)
    ensures R.Ready(e, s) && R.StartsSuffix(R.Cur(e, s)) && Takes(e, s, t, R.ParseSuffix(e, s))
    decreases t, 1
  {
    hide Production, From, Past, Place, Here, Halts, Fits, Fine, FineFrom, RootFirst, Yield, Room, R.Ready, R.Advance,
      R.ParseCall, R.ParseIndex;
    Whole(e, s, t);
    SuffixRow(Roots(t.kids));
    Kid(e, s, t, 0);
    if |t.kids| == 1 {
      CallStarts(R.Cur(e, s));
      CallTakes(e, s, t.kids[0]);
      FineOne(t, Room(e, s));
    } else if |t.kids| == 2 {
      Terminal(e, s, t, 0);
      Terminal(e, s, t, 1);
      FineLeaves(t, Room(e, s));
    } else {
      IndexTakes(e, s, t);
    }
  }

  lemma {:induction false} IndexTakes(e: R.Env, s: R.PS, t: Tree)
    requires t.Node? && t.sym == Suffix && Here(e, s, t) && |t.kids| == 3
    ensures R.Ready(e, s) && R.At(e, s, OpenSquare) && Takes(e, s, t, R.ParseIndex(e, s))
    decreases t, 0
  {
    hide Production, From, Past, Place, Here, Halts, Fits, Fine, FineFrom, RootFirst, Yield, Room, R.Ready, R.Advance,
      R.ParseExpression;
    Whole(e, s, t);
    SuffixRow(Roots(t.kids));
    Terminal(e, s, t, 0);
    Kid(e, s, t, 1);
    Terminal(e, s, t, 2);
    NotClosing(t.kids[1], R.Cur(e, Place(s, t, 1)));
    ExpressionTakes(e, Place(s, t, 1), t.kids[1]);
    FineMiddle(t, Room(e, s));
  }

  lemma {:induction false} CallStarts(k: Kind)
    requires RootFirst(N(Call), k)
    ensures k == OpenRound
  {
  }

  lemma {:induction false} FineLeaves(t: Tree, room: int)
    requires t.Node? && !MayRefuse(t.sym) && !Nests(t.sym) && forall i :: 0 <= i < |t.kids| ==> t.kids[i].Leaf?
    ensures Fine(t, room)
  {
  }

  lemma {:induction false} SuffixRow(r: seq<Root>)
    requires Production(Suffix, r)
    ensures 1 <= |r| <= 3
    ensures |r| == 1 ==> r[0] == N(Call)
    ensures |r| == 2 ==> r[0] == Op(".") && IsName(r[1])
    ensures |r| == 3 ==> r[0] == T(OpenSquare) && IsExpression(r[1]) && r[2] == T(CloseSquare)
  {
    hide IsReserved;
  }

  /** An expression starts with no bracket that closes, no mark and no end. */
  predicate StartsAnything(k: Kind) {
    k != CloseRound && k != CloseSquare && k != CloseCurly && k != Comma && k != Newline && k != Semicolon &&
      k != End &&
    k != Identifier("in")
  }

  lemma {:induction false} NotClosing(t: Tree, k: Kind)
    requires RootFirst(RootOf(t), k) && IsExpression(RootOf(t))
    ensures StartsAnything(k) && k != CloseRound && k != CloseSquare
  {
  }

  lemma {:induction false} CallTakes(e: R.Env, s: R.PS, t: Tree)
    requires t.Node? && t.sym == Call && Here(e, s, t)
    ensures R.Ready(e, s) && R.At(e, s, OpenRound) && Takes(e, s, t, R.ParseCall(e, s))
    decreases t, 0
  {
    hide Production, From, Past, Place, Here, Halts, Fits, Fine, FineFrom, RootFirst, Yield, Room, R.Ready, R.Advance,
      R.Arguments;
    Whole(e, s, t);
    CallRow(Roots(t.kids));
    Terminal(e, s, t, 0);
    if |t.kids| == 2 {
      Terminal(e, s, t, 1);
      FineLeaves(t, Room(e, s));
    } else {
      Kid(e, s, t, 1);
      Terminal(e, s, t, 2);
      ListStarts(R.Cur(e, Place(s, t, 1)));
      Whole(e, Place(s, t, 1), t.kids[1]);
      ArgumentsTake(e, Place(s, t, 1), t.kids[1], 0, CloseRound);
      FineRow(t.kids[1], Room(e, s));
      FineMiddle(t, Room(e, s));
    }
  }

  lemma {:induction false} CallRow(r: seq<Root>)
    requires Production(Call, r)
    ensures |r| == 2 || |r| == 3
    ensures r[0] == T(OpenRound) && r[|r| - 1] == T(CloseRound) && (|r| == 3 ==> r[1] == N(Exprs))
  {
  }

  lemma {:induction false} ListStarts(k: Kind)
    requires RootFirst(N(Exprs), k)
    ensures StartsAnything(k)
  {
  }

  /** One expression of a list, and what the token behind it decides. */
  lemma {:induction false} ArgumentsStep(e: R.Env, s: R.PS, close: Kind)
    requires R.Ready(e, s)
    ensures var t, r := R.ParseExpression(e, s), R.Arguments(e, s, close);
      && R.Ready(e, t)
      && (!t.ok ==> !r.ok)
      && (R.Cur(e, t) != Comma ==> r == R.Expect(e, t, close))
      && (R.Cur(e, t) == Comma ==>
            var u := R.Advance(e, t);
            R.Ready(e, u) && (R.Cur(e, u) != close ==> r == R.Arguments(e, u, close)))
  {
    hide R.ParseExpression;
  }

  /** The list from expression `i` on, and the bracket behind it. */
  lemma {:induction false} ArgumentsTake(e: R.Env, s: R.PS, t: Tree, i: nat, close: Kind)
    requires t.Node? && t.sym == Exprs && Here(e, s, t) && i < |t.kids| && i % 2 == 0
    requires close == CloseRound || close == CloseSquare
    ensures R.Ready(e, Place(s, t, i)) && R.Ready(e, Past(s, t))
    ensures var r := R.Arguments(e, Place(s, t, i), close);
      if FineFrom(t.kids, i, Room(e, s)) then r == R.Expect(e, Past(s, t), close) else !r.ok
    decreases t, 0, |t.kids| - i
  {
    hide Production, From, Past, Place, Here, Halts, Fits, Fine, FineFrom, RootFirst, Yield, Room, R.Ready, R.Advance,
      R.ParseExpression, R.Expect, R.Arguments, StartsAnything, IsExpression;
    Whole(e, s, t);
    NoComma(e, s, t);
    var n := |t.kids|;
    ListRow(Roots(t.kids), i);
    Kid(e, s, t, i);
    ExpressionTakes(e, Place(s, t, i), t.kids[i]);
    ArgumentsStep(e, Place(s, t, i), close);
    FineNext(t.kids, i, Room(e, s));
    if i + 1 < n {
      Terminal(e, s, t, i + 1);
      Kid(e, s, t, i + 2);
      NotClosing(t.kids[i + 2], R.Cur(e, Place(s, t, i + 2)));
      ArgumentsTake(e, s, t, i + 2, close);
      FineNext(t.kids, i + 1, Room(e, s));
    } else {
      FineEnd(t.kids, Room(e, s));
    }
  }

  lemma {:induction false} NoComma(e: R.Env, s: R.PS, t: Tree)
    requires t.Node? && t.sym == Exprs && Here(e, s, t)
    ensures R.Ready(e, Past(s, t)) && R.Cur(e, Past(s, t)) != Comma
  {
    Whole(e, s, t);
  }

  lemma {:induction false} ListRow(r: seq<Root>, i: nat)
    requires Production(Exprs, r) && i < |r| && i % 2 == 0
    ensures IsExpression(r[i]) && (i + 1 < |r| ==> i + 2 < |r| && r[i + 1] == T(Comma) && IsExpression(r[i + 2]))
  {
  }

  lemma {:induction false} ArrayTakes(e: R.Env, s: R.PS, t: Tree)
    requires t.Node? && t.sym == Array && Here(e, s, t)
    ensures R.Ready(e, s) && R.At(e, s, OpenSquare) && Takes(e, s, t, R.ParseArray(e, s))
    decreases t, 0
  {
    hide Production, From, Past, Place, Here, Halts, Fits, Fine, FineFrom, RootFirst, Yield, Room, R.Ready, R.Advance,
      R.Arguments;
    Whole(e, s, t);
    ArrayRow(Roots(t.kids));
    Terminal(e, s, t, 0);
    if |t.kids| == 2 {
      Terminal(e, s, t, 1);
      FineLeaves(t, Room(e, s));
    } else {
      Kid(e, s, t, 1);
      Terminal(e, s, t, 2);
      ListStarts(R.Cur(e, Place(s, t, 1)));
      Whole(e, Place(s, t, 1), t.kids[1]);
      ArgumentsTake(e, Place(s, t, 1), t.kids[1], 0, CloseSquare);
      FineRow(t.kids[1], Room(e, s));
      FineMiddle(t, Room(e, s));
    }
  }

  lemma {:induction false} ArrayRow(r: seq<Root>)
    requires Production(Array, r)
    ensures |r| == 2 || |r| == 3
    ensures r[0] == T(OpenSquare) && r[|r| - 1] == T(CloseSquare) && (|r| == 3 ==> r[1] == N(Exprs))
  {
  }

  // ------------------------------------------------------------------ primaries

  lemma {:induction false} PrimaryRow(r: seq<Root>)
    requires Production(Primary, r)
    ensures |r| == 1 || |r| == 3
    ensures |r| == 1 ==> r[0].T? || r[0] == N(Array) || r[0] == N(Record) || r[0] == N(Lambda)
    ensures |r| == 1 && r[0].T? ==> IsAtom(r[0].kind)
    ensures |r| == 3 ==> r[0] == T(OpenRound) && IsExpression(r[1]) && r[2] == T(CloseRound)
  {
    hide IsReserved;
  }

  predicate IsAtom(k: Kind) {
    k.Number? || k.StringLiteral? || IsLiteralWord(k) || IsNameKind(k)
  }

  lemma {:induction false} PrimaryStarts(x: Root, k: Kind)
    requires RootFirst(x, k)
    ensures IsAtom(k) ==> k != End
    ensures x == N(Array) ==> k == OpenSquare
    ensures x == N(Record) ==> k == OpenCurly
    ensures x == N(Lambda) ==> R.StartsLambda(k)
    ensures k == OpenRound || k == OpenSquare || k == OpenCurly || R.StartsLambda(k) ==> !IsAtom(k)
  {
    hide IsReserved;
  }

  lemma {:induction false} PrimaryTakes(e: R.Env, s: R.PS, t: Tree)
    requires t.Node? && t.sym == Primary && Here(e, s, t)
    ensures R.Ready(e, s) && Takes(e, s, t, R.ParsePrimary(e, s))
    decreases t, 1
  {
    hide Production, From, Past, Place, Here, Halts, Fits, Fine, FineFrom, RootFirst, Yield, Room, R.Ready, R.Advance,
      R.ParseArray, R.ParseRecord, R.ParseLambda, R.ParseExpression, IsNameKind, IsLiteralWord;
    Whole(e, s, t);
    PrimaryRow(Roots(t.kids));
    Kid(e, s, t, 0);
    var kid := t.kids[0];
    PrimaryStarts(RootOf(kid), R.Cur(e, s));
    hide IsAtom;
    if |t.kids| == 3 {
      ParenthesisTakes(e, s, t);
    } else if kid.Leaf? {
      AtomTakes(e, s, t);
    } else {
      FineOne(t, Room(e, s));
      if kid.sym == Array {
        ArrayTakes(e, s, kid);
      } else if kid.sym == Record {
        RecordTakes(e, s, kid);
      } else {
        LambdaTakes(e, s, kid);
      }
    }
  }

  lemma {:induction false} AtomTakes(e: R.Env, s: R.PS, t: Tree)
    requires t.Node? && t.sym == Primary && Here(e, s, t) && |t.kids| == 1 && t.kids[0].Leaf?
    ensures R.Ready(e, s) && IsAtom(R.Cur(e, s)) && Takes(e, s, t, R.Advance(e, s))
  {
    hide Production, From, Past, Place, Here, Halts, Fits, Fine, FineFrom, RootFirst, Yield, Room, R.Ready, R.Advance,
      IsAtom;
    Whole(e, s, t);
    PrimaryRow(Roots(t.kids));
    Kid(e, s, t, 0);
    PrimaryStarts(RootOf(t.kids[0]), R.Cur(e, s));
    LeafKind(t.kids[0], R.Cur(e, s));
    Terminal(e, s, t, 0);
    FineLeaves(t, Room(e, s));
  }

  lemma {:induction false} ParenthesisTakes(e: R.Env, s: R.PS, t: Tree)
    requires t.Node? && t.sym == Primary && Here(e, s, t) && |t.kids| == 3
    ensures R.Ready(e, s) && R.At(e, s, OpenRound)
    ensures Takes(e, s, t, R.Expect(e, R.ParseExpression(e, R.Advance(e, s)), CloseRound))
    decreases t, 0
  {
    hide Production, From, Past, Place, Here, Halts, Fits, Fine, FineFrom, RootFirst, Yield, Room, R.Ready, R.Advance,
      R.ParseExpression;
    Whole(e, s, t);
    PrimaryRow(Roots(t.kids));
    Terminal(e, s, t, 0);
    Kid(e, s, t, 1);
    Terminal(e, s, t, 2);
    ExpressionTakes(e, Place(s, t, 1), t.kids[1]);
    FineMiddle(t, Room(e, s));
  }

  lemma {:induction false} LeafKind(t: Tree, k: Kind)
    requires t.Leaf? && RootFirst(RootOf(t), k)
    ensures k == t.kind
  {
  }

  // ------------------------------------------------------------------ newlines and names

  lemma {:induction false} SkipRun(e: R.Env, s: R.PS, n: nat)
    requires R.ValidEnv(e) && s.index <= n < |e.ks| && e.ks[n] != Newline
    requires forall j :: s.index <= j < n ==> e.ks[j] == Newline
    ensures R.Ready(e, s) && R.SkipNewlines(e, s) == s.(index := n)
    decreases n - s.index
  {
    if s.index < n {
      SkipRun(e, R.Advance(e, s), n);
    }
  }

  lemma {:induction false} NewlinesTaken(e: R.Env, s: R.PS, t: Tree)
    requires t.Node? && t.sym == Newlines && Here(e, s, t)
    ensures R.Ready(e, s) && R.SkipNewlines(e, s) == Past(s, t) && R.Cur(e, s) == Newline
    ensures R.Ready(e, Past(s, t)) && R.Cur(e, Past(s, t)) != Newline
  {
    hide Derives, R.SkipNewlines, Forced, Yield, Production;
    NewlinesOnly(t);
    Whole(e, s, t);
    FitsFirst(e.ks, s.index, t);
    var y := Yield(t);
    forall j | s.index <= j < s.index + |y| ensures e.ks[j] == Newline {
      assert e.ks[s.index..s.index + |y|][j - s.index] == e.ks[j];
    }
    SkipRun(e, s, s.index + |y|);
  }

  predicate IsEndKind(k: Kind) {
    k == Newline || k == Semicolon
  }

  lemma {:induction false} EndsRun(e: R.Env, s: R.PS, n: nat)
    requires R.ValidEnv(e) && s.index <= n < |e.ks| && !IsEndKind(e.ks[n])
    requires forall j :: s.index <= j < n ==> IsEndKind(e.ks[j])
    ensures R.Ready(e, s) && R.SkipEnds(e, s) == s.(index := n)
    decreases n - s.index
  {
    if s.index < n {
      assert IsEndKind(e.ks[s.index]);
      EndsRun(e, R.Advance(e, s), n);
    }
  }

  /** The tokens of statement ends. */
  lemma {:induction false} EndsOnly(t: Tree)
    requires t.Node? && t.sym == Ends && Derives(t)
    ensures forall i :: 0 <= i < |Yield(t)| ==> IsEndKind(Yield(t)[i])
  {
    var r := Roots(t.kids);
    forall i | 0 <= i < |t.kids| ensures t.kids[i].Leaf? && IsEndKind(t.kids[i].kind) {
      assert r[i] == RootOf(t.kids[i]) && IsEnd(r[i]);
    }
    EndLeaves(t.kids);
  }

  lemma {:induction false} EndLeaves(ts: seq<Tree>)
    requires forall i :: 0 <= i < |ts| ==> ts[i].Leaf? && IsEndKind(ts[i].kind)
    ensures forall i :: 0 <= i < |YieldAll(ts)| ==> IsEndKind(YieldAll(ts)[i])
    decreases |ts|
  {
    if ts != [] {
      EndLeaves(ts[..|ts| - 1]);
    }
  }

  lemma {:induction false} EndsTaken(e: R.Env, s: R.PS, t: Tree)
    requires t.Node? && t.sym == Ends && Here(e, s, t)
    ensures R.Ready(e, s) && R.AtEnds(e, s) && R.SkipEnds(e, s) == Past(s, t)
    ensures R.Ready(e, Past(s, t)) && !R.AtEnds(e, Past(s, t)) && Past(s, t).index > s.index
  {
    hide Derives, R.SkipEnds, Forced, Yield, Production;
    EndsOnly(t);
    Whole(e, s, t);
    FitsFirst(e.ks, s.index, t);
    var y := Yield(t);
    forall j | s.index <= j < s.index + |y| ensures IsEndKind(e.ks[j]) {
      assert e.ks[s.index..s.index + |y|][j - s.index] == e.ks[j];
    }
    EndsRun(e, s, s.index + |y|);
  }

  /** A name and what may follow it in a list of names. */
  lemma {:induction false} NameAt(e: R.Env, s: R.PS, t: Tree, i: nat)
    requires t.Node? && (t.sym == Path || t.sym.Names? || t.sym == Bindings) && Here(e, s, t)
    requires i < |t.kids| && i % 2 == 0
    ensures R.Ready(e, Place(s, t, i)) && R.Ready(e, Place(s, t, i + 1))
    ensures IsNameKind(R.Cur(e, Place(s, t, i)))
    ensures R.ExpectName(e, Place(s, t, i)) == Place(s, t, i + 1)
    ensures i + 1 < |t.kids| ==>
      && i + 2 < |t.kids| && R.Ready(e, Place(s, t, i + 2))
      && R.Cur(e, Place(s, t, i + 1)) == (if t.sym == Path then Operator(".") else Comma)
      && R.Advance(e, Place(s, t, i + 1)) == Place(s, t, i + 2)
    ensures i + 1 == |t.kids| ==>
      Place(s, t, i + 1) == Past(s, t) && Halts(t.sym, Roots(t.kids), e.ks, Past(s, t).index)
  {
    hide Production, From, Past, Place, Here, Halts, Fits, Fine, FineFrom, RootFirst, Yield, Room, R.Ready, R.Advance,
      IsNameKind;
    Whole(e, s, t);
    NameRow(t.sym, Roots(t.kids), i);
    Kid(e, s, t, i);
    NameKind(t.kids[i]);
    Terminal(e, s, t, i);
    if i + 1 < |t.kids| {
      Kid(e, s, t, i + 1);
      Terminal(e, s, t, i + 1);
    }
  }

  lemma {:induction false} NameKind(t: Tree)
    requires IsName(RootOf(t))
    ensures t.Leaf? && IsNameKind(t.kind) && t.kind.Identifier?
  {
    hide IsReserved;
  }

  lemma {:induction false} NameRow(sym: Sym, r: seq<Root>, i: nat)
    requires Production(sym, r) && (sym == Path || sym.Names? || sym == Bindings) && i < |r| && i % 2 == 0
    ensures IsName(r[i])
    ensures i + 1 < |r| ==> i + 2 < |r| && r[i + 1] == (if sym == Path then Op(".") else T(Comma))
    ensures sym == Bindings ==> |r| <= 5
  {
    hide IsReserved;
  }

  // ------------------------------------------------------------------ rows without expressions

  /** A node that holds no expression at all. */
  predicate IsPlain(sym: Sym) {
    sym == Newlines || sym == Ends || sym == MemberSeparator || sym.Names? || sym == Bindings || sym == Path ||
    sym == Import || sym == ParameterList
  }

  lemma {:induction false} PlainRow(sym: Sym, r: seq<Root>, i: nat)
    requires Production(sym, r) && IsPlain(sym) && i < |r|
    ensures r[i].N? ==> IsPlain(r[i].sym)
  {
    hide IsReserved;
  }

  lemma {:induction false} PlainFine(t: Tree, room: int)
    requires t.Node? && IsPlain(t.sym) && Derives(t)
    ensures Fine(t, room)
    decreases t
  {
    hide Production;
    forall i | 0 <= i < |t.kids| ensures Fine(t.kids[i], room) {
      KidDerives(t, i);
      PlainRow(t.sym, Roots(t.kids), i);
      assert Roots(t.kids)[i] == RootOf(t.kids[i]);
      if t.kids[i].Node? {
        PlainFine(t.kids[i], room);
      }
    }
  }

  /** A row of which only child `k` can hold expressions. */
  lemma {:induction false} FineBut(t: Tree, k: nat, room: int)
    requires t.Node? && Derives(t) && !MayRefuse(t.sym) && !Nests(t.sym) && k < |t.kids|
    requires forall i :: 0 <= i < |t.kids| && i != k && t.kids[i].Node? ==> IsPlain(t.kids[i].sym)
    ensures Fine(t, room) == Fine(t.kids[k], room)
  {
    hide Production;
    forall i | 0 <= i < |t.kids| && i != k ensures Fine(t.kids[i], room) {
      KidDerives(t, i);
      if t.kids[i].Node? {
        PlainFine(t.kids[i], room);
      }
    }
  }

  lemma {:induction false} HereDerives(e: R.Env, s: R.PS, t: Tree)
    requires Here(e, s, t)
    ensures Derives(t)
  {
  }

  // ------------------------------------------------------------------ records

  lemma {:induction false} RecordRow(r: seq<Root>)
    requires Production(Record, r)
    ensures 2 <= |r| <= 5 && r[0] == T(OpenCurly) && r[|r| - 1] == T(CloseCurly)
    ensures var first := if r[1] == N(Newlines) then 2 else 1;
      && first < |r|
      && (r[first] == T(CloseCurly) || r[first] == N(Members))
      && (r[first] == T(CloseCurly) ==> |r| == first + 1)
      && (r[first] == N(Members) ==> |r| == first + 2 || (|r| == first + 3 && r[first + 1] == N(Newlines)))
  {
  }

  lemma {:induction false} NoNewlines(e: R.Env, s: R.PS, x: Root)
    requires R.Ready(e, s) && RootFirst(x, R.Cur(e, s)) && (x == T(CloseCurly) || x == N(Members) || x == N(Member))
    ensures R.SkipNewlines(e, s) == s
    ensures x != T(CloseCurly) ==> R.Cur(e, s) != CloseCurly
  {
    hide IsReserved;
  }

  lemma {:induction false} RecordTakes(e: R.Env, s: R.PS, t: Tree)
    requires t.Node? && t.sym == Record && Here(e, s, t)
    ensures R.Ready(e, s) && R.At(e, s, OpenCurly) && Takes(e, s, t, R.ParseRecord(e, s))
    decreases t, 1
  {
    hide Production, From, Past, Place, Here, Halts, Fits, Fine, FineFrom, RootFirst, Yield, Room, R.Ready, R.Advance,
      R.SkipNewlines, R.RecordMembers, R.MemberEnd;
    Whole(e, s, t);
    var r, n := Roots(t.kids), |t.kids|;
    RecordRow(r);
    Terminal(e, s, t, 0);
    Kid(e, s, t, 1);
    Kid(e, s, t, n - 1);
    Terminal(e, s, t, n - 1);
    var first := if r[1] == N(Newlines) then 2 else 1;
    Kid(e, s, t, first);
    if first == 2 {
      NewlinesTaken(e, Place(s, t, 1), t.kids[1]);
    } else {
      NoNewlines(e, Place(s, t, 1), r[1]);
    }
    NoNewlines(e, Place(s, t, first), r[first]);
    if r[first] == N(Members) {
      Whole(e, Place(s, t, first), t.kids[first]);
      RecordEnds(e, s, t, first + 1);
      MembersTake(e, Place(s, t, first), t.kids[first], 0);
    }
    RecordFine(e, s, t, first);
  }

  lemma {:induction false} RecordFine(e: R.Env, s: R.PS, t: Tree, first: nat)
    requires t.Node? && t.sym == Record && Here(e, s, t)
    requires first == if |t.kids| > 1 && RootOf(t.kids[1]) == N(Newlines) then 2 else 1
    ensures first < |t.kids|
    ensures t.kids[first].Leaf? ==> Fine(t, Room(e, s))
    ensures t.kids[first].Node? ==> Fine(t, Room(e, s)) == FineFrom(t.kids[first].kids, 0, Room(e, s))
  {
    hide Production, From, Past, Place, Here, Halts, Fits, Fine, FineFrom, RootFirst, Yield, Room, R.Ready, R.Advance;
    Whole(e, s, t);
    var r, n, room := Roots(t.kids), |t.kids|, Room(e, s);
    RecordRow(r);
    FineRow(t, room);
    FineNext(t.kids, 0, room);
    Kid(e, s, t, 0);
    Kid(e, s, t, 1);
    if first == 2 {
      NewlinesFine(e, s, t, 1);
    }
    Kid(e, s, t, first);
    FineNext(t.kids, first, room);
    FineEnd(t.kids, room);
    if r[first] == N(Members) {
      FineRow(t.kids[first], room);
      Kid(e, s, t, first + 1);
      if n == first + 3 {
        NewlinesFine(e, s, t, first + 1);
        Kid(e, s, t, first + 2);
        FineNext(t.kids, first + 2, room);
      } else {
        FineNext(t.kids, first + 1, room);
      }
    }
  }

  /** Newlines between the children change nothing. */
  lemma {:induction false} NewlinesFine(e: R.Env, s: R.PS, t: Tree, i: nat)
    requires t.Node? && t.sym == Record && Here(e, s, t) && i < |t.kids| && RootOf(t.kids[i]) == N(Newlines)
    ensures FineFrom(t.kids, i, Room(e, s)) == FineFrom(t.kids, i + 1, Room(e, s))
  {
    hide Production, From, Past, Place, Here, Halts, Fits, Fine, FineFrom, RootFirst, Yield, Room, R.Ready, R.Advance;
    Kid(e, s, t, i);
    HereDerives(e, Place(s, t, i), t.kids[i]);
    PlainFine(t.kids[i], Room(e, s));
    FineNext(t.kids, i, Room(e, s));
  }

  /** The newlines and the brace behind the last member. */
  lemma {:induction false} RecordEnds(e: R.Env, s: R.PS, t: Tree, k: nat)
    requires t.Node? && t.sym == Record && Here(e, s, t) && 0 < k < |t.kids|
    requires RootOf(t.kids[k - 1]) == N(Members)
    ensures R.Ready(e, Place(s, t, k)) && R.MemberEnd(e, Place(s, t, k)) == R.Next(Past(s, t), false)
  {
    hide Production, From, Past, Place, Here, Halts, Fits, Fine, FineFrom, RootFirst, Yield, Room, R.Ready, R.Advance,
      R.SkipNewlines;
    Whole(e, s, t);
    var r := Roots(t.kids);
    RecordRow(r);
    assert r[k - 1] == RootOf(t.kids[k - 1]);
    Kid(e, s, t, k);
    if t.kids[k].Leaf? {
      Terminal(e, s, t, k);
    } else {
      NewlinesTaken(e, Place(s, t, k), t.kids[k]);
      Kid(e, s, t, k + 1);
      Terminal(e, s, t, k + 1);
    }
  }

  lemma {:induction false} SeparatorTaken(e: R.Env, s: R.PS, t: Tree)
    requires t.Node? && t.sym == MemberSeparator && Here(e, s, t)
    requires R.Ready(e, Past(s, t)) && RootFirst(N(Member), R.Cur(e, Past(s, t)))
    ensures R.Ready(e, s) && R.MemberEnd(e, s) == R.Next(Past(s, t), true)
  {
    hide Production, From, Past, Place, Here, Halts, Fits, Fine, FineFrom, RootFirst, Yield, Room, R.Ready, R.Advance,
      R.SkipNewlines;
    Whole(e, s, t);
    SeparatorRow(Roots(t.kids));
    Kid(e, s, t, 0);
    NoNewlines(e, Past(s, t), N(Member));
    if t.kids[0].Leaf? {
      Terminal(e, s, t, 0);
      if |t.kids| == 2 {
        Kid(e, s, t, 1);
        NewlinesTaken(e, Place(s, t, 1), t.kids[1]);
      }
    } else {
      NewlinesTaken(e, s, t.kids[0]);
    }
  }

  lemma {:induction false} SeparatorRow(r: seq<Root>)
    requires Production(MemberSeparator, r)
    ensures 1 <= |r| <= 2 && (r[0] == T(Comma) || (|r| == 1 && r[0] == N(Newlines)))
    ensures |r| == 2 ==> r[1] == N(Newlines)
  {
  }

  lemma {:induction false} MembersRow(r: seq<Root>, i: nat)
    requires Production(Members, r) && i < |r| && i % 2 == 0
    ensures r[i] == N(Member)
    ensures i + 1 < |r| ==> i + 2 < |r| && r[i + 1] == N(MemberSeparator) && r[i + 2] == N(Member)
  {
  }

  lemma {:induction false} MembersTake(e: R.Env, s: R.PS, t: Tree, i: nat)
    requires t.Node? && t.sym == Members && Here(e, s, t) && i < |t.kids| && i % 2 == 0
    requires R.Ready(e, Past(s, t)) && !R.MemberEnd(e, Past(s, t)).more
    ensures R.Ready(e, Place(s, t, i))
    ensures var r := R.RecordMembers(e, Place(s, t, i));
      if FineFrom(t.kids, i, Room(e, s)) then r == R.MemberEnd(e, Past(s, t)).s else !r.ok
    decreases t, 0, |t.kids| - i
  {
    hide Production, From, Past, Place, Here, Halts, Fits, Fine, FineFrom, RootFirst, Yield, Room, R.Ready, R.Advance,
      R.ParseExpression, R.MemberEnd, R.ExpectName;
    Whole(e, s, t);
    MembersRow(Roots(t.kids), i);
    Kid(e, s, t, i);
    MemberTakes(e, Place(s, t, i), t.kids[i]);
    FineNext(t.kids, i, Room(e, s));
    if i + 1 < |t.kids| {
      Kid(e, s, t, i + 1);
      Kid(e, s, t, i + 2);
      SeparatorTaken(e, Place(s, t, i + 1), t.kids[i + 1]);
      MembersTake(e, s, t, i + 2);
      FineNext(t.kids, i + 1, Room(e, s));
      HereDerives(e, Place(s, t, i + 1), t.kids[i + 1]);
      PlainFine(t.kids[i + 1], Room(e, s));
    } else {
      FineEnd(t.kids, Room(e, s));
    }
  }

  lemma {:induction false} MemberRow(r: seq<Root>)
    requires Production(Member, r)
    ensures |r| == 3 && IsName(r[0]) && r[1] == Op(":") && IsExpression(r[2])
  {
    hide IsReserved;
  }

  lemma {:induction false} MemberTakes(e: R.Env, s: R.PS, t: Tree)
    requires t.Node? && t.sym == Member && Here(e, s, t)
    ensures R.Ready(e, s) && R.AtOp(e, R.ExpectName(e, s), ":")
    ensures Takes(e, s, t, R.ParseExpression(e, R.Advance(e, R.ExpectName(e, s))))
    decreases t, 0
  {
    hide Production, From, Past, Place, Here, Halts, Fits, Fine, FineFrom, RootFirst, Yield, Room, R.Ready, R.Advance,
      R.ParseExpression, IsNameKind;
    Whole(e, s, t);
    MemberRow(Roots(t.kids));
    Kid(e, s, t, 0);
    NameKind(t.kids[0]);
    Terminal(e, s, t, 0);
    Kid(e, s, t, 1);
    Terminal(e, s, t, 1);
    Kid(e, s, t, 2);
    ExpressionTakes(e, Place(s, t, 2), t.kids[2]);
    FineThird(t, Room(e, s));
  }

  // ------------------------------------------------------------------ lambdas

  lemma {:induction false} LambdaTakes(e: R.Env, s: R.PS, t: Tree)
    requires t.Node? && t.sym == Lambda && Here(e, s, t)
    ensures R.Ready(e, s) && R.StartsLambda(R.Cur(e, s)) && Takes(e, s, t, R.ParseLambda(e, s))
    decreases t, 1
  {
    hide Production, From, Past, Place, Here, Halts, Fits, Fine, FineFrom, RootFirst, Yield, Room, R.Ready, R.Advance,
      R.ParseBody, R.LambdaHead;
    Whole(e, s, t);
    var n := |t.kids|;
    LambdaRow(Roots(t.kids));
    HeadTaken(e, s, t);
    Kid(e, s, t, n - 1);
    ArmKid(e, s, t, n - 1);
    BodyTakes(e, Place(s, t, n - 1), t.kids[n - 1]);
    LambdaFine(e, s, t);
  }

  lemma {:induction false} LambdaFine(e: R.Env, s: R.PS, t: Tree)
    requires t.Node? && t.sym == Lambda && Here(e, s, t)
    ensures t.kids != [] && Fine(t, Room(e, s)) == Fine(t.kids[|t.kids| - 1], Room(e, s))
  {
    hide Production, From, Past, Place, Here, Halts, Fits, Fine, FineFrom, RootFirst, Yield, Room, R.Ready, R.Advance;
    Whole(e, s, t);
    HereDerives(e, s, t);
    var last := |t.kids| - 1;
    forall i | 0 <= i < last ensures t.kids[i].Node? ==> IsPlain(t.kids[i].sym) {
      PlainHead(t, i);
    }
    FineBut(t, last, Room(e, s));
  }

  /** What stands in front of the body of a lambda. */
  lemma {:induction false} PlainHead(t: Tree, i: nat)
    requires t.Node? && Production(Lambda, Roots(t.kids)) && i + 1 < |t.kids|
    ensures t.kids[i].Node? ==> IsPlain(t.kids[i].sym)
  {
    hide Production, IsBody;
    LambdaRow(Roots(t.kids));
  }

  lemma {:induction false} LambdaRow(r: seq<Root>)
    requires Production(Lambda, r)
    ensures |r| == 2 || |r| == 4
    ensures |r| == 2 ==> r[0] == Op("||") && IsBody(r[1])
    ensures |r| == 4 ==> r[0] == Op("|") && r[1] == N(Names(true)) && r[2] == Op("|") && IsBody(r[3])
  {
  }

  lemma {:induction false} HeadTaken(e: R.Env, s: R.PS, t: Tree)
    requires t.Node? && t.sym == Lambda && Here(e, s, t)
    ensures R.Ready(e, s) && R.StartsLambda(R.Cur(e, s)) && t.kids != []
    ensures R.LambdaHead(e, s) == R.Next(Place(s, t, |t.kids| - 1), true)
  {
    hide Production, From, Past, Place, Here, Halts, Fits, Fine, FineFrom, RootFirst, Yield, Room, R.Ready, R.Advance,
      R.LambdaParameters, R.ExpectName;
    Whole(e, s, t);
    LambdaRow(Roots(t.kids));
    Kid(e, s, t, 0);
    Terminal(e, s, t, 0);
    if |t.kids| == 4 {
      Kid(e, s, t, 1);
      Kid(e, s, t, 2);
      Terminal(e, s, t, 2);
      var u := Place(s, t, 1);
      Whole(e, u, t.kids[1]);
      NameAt(e, u, t.kids[1], 0);
      ParametersTaken(e, u, t.kids[1], 1);
    }
  }

  lemma {:induction false} ParametersTaken(e: R.Env, s: R.PS, t: Tree, i: nat)
    requires t.Node? && t.sym == Names(true) && Here(e, s, t) && i <= |t.kids| && i % 2 == 1
    ensures R.Ready(e, Place(s, t, i)) && R.LambdaParameters(e, Place(s, t, i)) == Past(s, t)
    decreases |t.kids| - i
  {
    hide Production, From, Past, Place, Here, Fits, Fine, FineFrom, RootFirst, Yield, Room, R.Ready, R.Advance,
      R.ExpectName;
    NameAt(e, s, t, i - 1);
    if i < |t.kids| {
      NameAt(e, s, t, i + 1);
      ParametersTaken(e, s, t, i + 2);
    }
  }

  /** An arm is a block exactly if it starts with a brace. */
  lemma {:induction false} ArmKid(e: R.Env, s: R.PS, t: Tree, i: nat)
    requires t.Node? && HasArms(t.sym) && Here(e, s, t) && 0 < i < |t.kids| && IsArmPlace(RootOf(t.kids[i - 1]))
    requires t.sym == Lambda ==> i == |t.kids| - 1
    ensures R.Ready(e, Place(s, t, i))
    ensures R.Cur(e, Place(s, t, i)) == OpenCurly <==> RootOf(t.kids[i]) == N(ArmBlock(t.sym))
  {
    hide Fits, From;
    BraceOpensBlock(e.ks, s.index, t, i);
  }

  lemma {:induction false} BodyTakes(e: R.Env, s: R.PS, t: Tree)
    requires Here(e, s, t) && IsBody(RootOf(t)) && R.Ready(e, s) && RootFirst(RootOf(t), R.Cur(e, s))
    requires R.Cur(e, s) == OpenCurly <==> RootOf(t) == N(Block(false))
    ensures Takes(e, s, t, R.ParseBody(e, s))
    decreases t, 4
  {
    hide Here, Takes, RootFirst, R.ParseBlock, R.ParseExpression, R.Ready;
    if R.Cur(e, s) == OpenCurly {
      BlockTakes(e, s, t);
    } else {
      NotClosing(t, R.Cur(e, s));
      ExpressionTakes(e, s, t);
    }
  }

  // ------------------------------------------------------------------ expressions

  /** One nesting level down. */
  function Deeper(s: R.PS): (r: R.PS) {
    s.(nesting := s.nesting + 1)
  }

  lemma {:induction false} ExpressionTakes(e: R.Env, s: R.PS, t: Tree)
    requires t.Node? && t.sym.Expression? && Here(e, s, t)
    ensures R.Ready(e, s) && Takes(e, s, t, R.ParseExpression(e, s))
    decreases t, 1
  {
    hide Production, From, Fits, Fine, FineFrom, Halts, Yield, RootFirst, R.ExpressionBody;
    Whole(e, s, t);
    ExpressionRow(t.sym.value, Roots(t.kids));
    Kid(e, s, t, 0);
    FineNested(t, Room(e, s));
    if Room(e, s) > 0 {
      ValueTakes(e, Deeper(s), t.kids[0]);
    }
  }

  lemma {:induction false} ExpressionRow(value: bool, r: seq<Root>)
    requires Production(Expression(value), r)
    ensures |r| == 1 && (r[0] == N(Conditional) || r[0] == N(TryExpression) || r[0] == N(Loop) || r[0] == N(Binary(0)))
  {
  }

  lemma {:induction false} FineNested(t: Tree, room: int)
    requires t.Node? && t.sym.Expression? && |t.kids| == 1
    ensures Fine(t, room) <==> room > 0 && Fine(t.kids[0], room - 1)
  {
  }

  /** What an expression is, by its first word. */
  lemma {:induction false} ValueStarts(x: Root, k: Kind)
    requires RootFirst(x, k) && (x == N(Conditional) || x == N(TryExpression) || x == N(Loop) || x == N(Binary(0)))
    ensures k == Identifier("if") <==> x == N(Conditional)
    ensures k == Identifier("try") <==> x == N(TryExpression)
    ensures k == Identifier("for") || k == Identifier("loop") || k == Identifier("while") <==> x == N(Loop)
  {
  }

  lemma {:induction false} ValueTakes(e: R.Env, s: R.PS, t: Tree)
    requires Here(e, s, t) && R.Ready(e, s) && RootFirst(RootOf(t), R.Cur(e, s)) && t.Node?
    requires t.sym == Conditional || t.sym == TryExpression || t.sym == Loop || t.sym == Binary(0)
    ensures Takes(e, s, t, R.ExpressionBody(e, s))
    decreases t, 7
  {
    hide Here, Takes, RootFirst, R.ParseIf, R.ParseTry, R.ParseFor, R.ParseBlock, R.ParseCondition, R.ParseBinary,
      R.Ready, R.Advance;
    ValueStarts(RootOf(t), R.Cur(e, s));
    if t.sym == Conditional {
      ConditionalTakes(e, s, t);
    } else if t.sym == TryExpression {
      TryTakes(e, s, t);
    } else if t.sym == Loop {
      LoopTakes(e, s, t);
    } else {
      BinaryTakes(e, s, t);
    }
  }

  // ------------------------------------------------------------------ conditions and branches

  lemma {:induction false} ConditionStarts(k: Kind)
    requires RootFirst(N(Binary(0)), k)
    ensures !R.StartsControl(k) && StartsAnything(k) && (R.StartsLambda(k) <==> IsBar(k))
  {
  }

  lemma {:induction false} ConditionTakes(e: R.Env, s: R.PS, t: Tree)
    requires RootOf(t) == N(Binary(0)) && Here(e, s, t) && R.Ready(e, s) && RootFirst(RootOf(t), R.Cur(e, s))
    requires FirstOf(t) == R.Cur(e, s)
    ensures R.ConditionOrFail(e, s) == R.ParseCondition(e, s)
    ensures var r := R.ParseCondition(e, s);
      if !StartsWithBar(t) && Fine(t, Room(e, s)) then r == Past(s, t) else !r.ok
    decreases t, 3
  {
    hide Here, Fine, RootFirst, R.ParseBinary, R.Ready, Past, Room, FirstOf;
    ConditionStarts(R.Cur(e, s));
    BinaryTakes(e, s, t);
    hide StartsAnything;
    assert !R.AtExpressionBoundary(e, s) by {
      Boundary(e, s);
    }
  }

  lemma {:induction false} Boundary(e: R.Env, s: R.PS)
    requires R.Ready(e, s) && StartsAnything(R.Cur(e, s))
    ensures !R.AtExpressionBoundary(e, s)
  {
  }

  lemma {:induction false} BranchTakes(e: R.Env, s: R.PS, t: Tree)
    requires IsBranch(RootOf(t)) && Here(e, s, t) && R.Ready(e, s) && RootFirst(RootOf(t), R.Cur(e, s))
    requires R.Cur(e, s) == OpenCurly <==> RootOf(t) == N(Block(true))
    requires FirstOf(t) == R.Cur(e, s)
    ensures var r := R.ParseBranch(e, s);
      if !StartsWithBar(t) && Fine(t, Room(e, s)) then r == Past(s, t) else !r.ok
    decreases t, 4
  {
    hide Here, Fine, RootFirst, R.ParseExpression, R.ParseBlock, R.Ready, Past, Room, FirstOf, R.AtExpressionBoundary;
    if R.Cur(e, s) == OpenCurly {
      BlockTakes(e, s, t);
    } else {
      NotClosing(t, R.Cur(e, s));
      Boundary(e, s);
      ExpressionTakes(e, s, t);
    }
  }

  // ------------------------------------------------------------------ conditionals

  lemma {:induction false} ConditionalRow(r: seq<Root>)
    requires Production(Conditional, r)
    ensures |r| >= 3 && r[0] == Keyword("if") && r[1] == N(Binary(0)) && IsBranch(r[2])
    ensures forall i :: 3 <= i < |r| ==> r[i] == N(ElifPart) || (i == |r| - 1 && r[i] == N(ElsePart))
  {
  }

  lemma {:induction false} ElifRow(r: seq<Root>)
    requires Production(ElifPart, r)
    ensures |r| == 3 && r[0] == Keyword("elif") && r[1] == N(Binary(0)) && IsBranch(r[2])
  {
  }

  lemma {:induction false} ElseRow(r: seq<Root>)
    requires Production(ElsePart, r)
    ensures |r| == 2 && r[0] == Keyword("else") && IsBranch(r[1])
  {
  }

  /** The word, the condition and the branch of an `if` or `elif`. */
  lemma {:induction false} ArmTakes(e: R.Env, s: R.PS, t: Tree)
    requires t.Node? && (t.sym == Conditional || t.sym == ElifPart) && Here(e, s, t)
    ensures |t.kids| >= 3 && R.Ready(e, s) && R.Ready(e, Place(s, t, 3)) && R.Cur(e, s) != End
    ensures R.Cur(e, s) == Identifier(if t.sym == Conditional then "if" else "elif")
    ensures var r := R.ParseBranch(e, R.ConditionOrFail(e, R.Advance(e, s)));
      if !Refused(t.sym, t.kids) && Fine(t.kids[1], Room(e, s)) && Fine(t.kids[2], Room(e, s)) then
        r == Place(s, t, 3)
      else !r.ok
    decreases t, 2
  {
    hide Production, From, Past, Place, Here, Halts, Fits, Fine, FineFrom, RootFirst, Yield, Room, R.Ready, R.Advance,
      R.ParseBranch, R.ConditionOrFail, R.ParseCondition, FirstOf;
    Whole(e, s, t);
    if t.sym == Conditional {
      ConditionalRow(Roots(t.kids));
    } else {
      ElifRow(Roots(t.kids));
    }
    Kid(e, s, t, 0);
    Terminal(e, s, t, 0);
    Kid(e, s, t, 1);
    ConditionTakes(e, Place(s, t, 1), t.kids[1]);
    Kid(e, s, t, 2);
    ArmKid(e, s, t, 2);
    BranchTakes(e, Place(s, t, 2), t.kids[2]);
  }

  lemma {:induction false} FineArm(t: Tree, room: int)
    requires t.Node? && (t.sym == Conditional || t.sym == ElifPart) && |t.kids| >= 3 && t.kids[0].Leaf?
    ensures Fine(t, room) <==>
      !Refused(t.sym, t.kids) && Fine(t.kids[1], room) && Fine(t.kids[2], room) && FineFrom(t.kids, 3, room)
  {
    hide Refused;
  }

  lemma {:induction false} ElseTakes(e: R.Env, s: R.PS, t: Tree)
    requires t.Node? && t.sym == ElsePart && Here(e, s, t)
    ensures R.Ready(e, s) && R.Cur(e, s) == Identifier("else")
    ensures Takes(e, s, t, R.ParseBranch(e, R.Advance(e, s)))
    decreases t, 2
  {
    hide Production, From, Past, Place, Here, Halts, Fits, Fine, FineFrom, RootFirst, Yield, Room, R.Ready, R.Advance,
      R.ParseBranch, FirstOf;
    Whole(e, s, t);
    ElseRow(Roots(t.kids));
    Kid(e, s, t, 0);
    Terminal(e, s, t, 0);
    Kid(e, s, t, 1);
    ArmKid(e, s, t, 1);
    BranchTakes(e, Place(s, t, 1), t.kids[1]);
    FineElse(t, Room(e, s));
  }

  lemma {:induction false} FineElse(t: Tree, room: int)
    requires t.Node? && t.sym == ElsePart && |t.kids| == 2 && t.kids[0].Leaf?
    ensures Fine(t, room) <==> !StartsWithBar(t.kids[1]) && Fine(t.kids[1], room)
  {
  }

  lemma {:induction false} ElifsTake(e: R.Env, s: R.PS, t: Tree, i: nat)
    requires t.Node? && t.sym == Conditional && Here(e, s, t) && 3 <= i <= |t.kids|
    requires i == |t.kids| ==> RootOf(t.kids[i - 1]) != N(ElsePart)
    ensures R.Ready(e, Place(s, t, i))
    ensures var r := R.Elifs(e, Place(s, t, i));
      if FineFrom(t.kids, i, Room(e, s)) then r == Past(s, t) else !r.ok
    decreases t, 1, |t.kids| - i
  {
    hide Production, From, Past, Place, Here, Fits, Fine, FineFrom, RootFirst, Yield, Room, R.Ready, R.Advance,
      R.ParseBranch, R.ConditionOrFail;
    Whole(e, s, t);
    var n := |t.kids|;
    ConditionalRow(Roots(t.kids));
    if i < n {
      Kid(e, s, t, i);
      FineNext(t.kids, i, Room(e, s));
      if t.kids[i].sym == ElifPart {
        ElifTakes(e, Place(s, t, i), t.kids[i]);
        ElifsTake(e, s, t, i + 1);
      } else {
        ElseTakes(e, Place(s, t, i), t.kids[i]);
        FineEnd(t.kids, Room(e, s));
      }
    } else {
      assert Roots(t.kids)[i - 1] == RootOf(t.kids[i - 1]);
      FineEnd(t.kids, Room(e, s));
    }
  }

  lemma {:induction false} ElifTakes(e: R.Env, s: R.PS, t: Tree)
    requires t.Node? && t.sym == ElifPart && Here(e, s, t)
    ensures R.Ready(e, s) && R.Cur(e, s) == Identifier("elif")
    ensures Takes(e, s, t, R.ParseBranch(e, R.ConditionOrFail(e, R.Advance(e, s))))
    decreases t, 3
  {
    hide Production, From, Past, Place, Here, Halts, Fits, Fine, FineFrom, RootFirst, Yield, Room, R.Ready, R.Advance,
      R.ParseBranch, R.ConditionOrFail, Refused;
    Whole(e, s, t);
    ElifRow(Roots(t.kids));
    Kid(e, s, t, 0);
    ArmTakes(e, s, t);
    FineArm(t, Room(e, s));
    FineEnd(t.kids, Room(e, s));
  }

  lemma {:induction false} ConditionalTakes(e: R.Env, s: R.PS, t: Tree)
    requires t.Node? && t.sym == Conditional && Here(e, s, t)
    ensures R.Ready(e, s) && !R.At(e, s, End) && Takes(e, s, t, R.ParseIf(e, s))
    decreases t, 4
  {
    hide Production, From, Past, Place, Here, Halts, Fits, Fine, FineFrom, RootFirst, Yield, Room, R.Ready, R.Advance,
      R.ParseBranch, R.ConditionOrFail, Refused, R.Elifs;
    Whole(e, s, t);
    ConditionalRow(Roots(t.kids));
    Kid(e, s, t, 0);
    Kid(e, s, t, 2);
    ArmTakes(e, s, t);
    ElifsTake(e, s, t, 3);
    FineArm(t, Room(e, s));
  }

  // ------------------------------------------------------------------ try

  lemma {:induction false} TryRow(r: seq<Root>)
    requires Production(TryExpression, r)
    ensures |r| == 4 && r[0] == Keyword("try") && IsTryBranch(r[1]) && r[2] == Keyword("catch") && IsTryBranch(r[3])
  {
  }

  lemma {:induction false} TryArmTakes(e: R.Env, s: R.PS, t: Tree, first: bool)
    requires IsTryBranch(RootOf(t)) && Here(e, s, t) && R.Ready(e, s) && RootFirst(RootOf(t), R.Cur(e, s))
    requires R.Cur(e, s) == OpenCurly <==> RootOf(t) == N(ValueBlock)
    requires FirstOf(t) == R.Cur(e, s)
    ensures var r := R.TryArm(e, s, first);
      if !(first && FirstOf(t) == Identifier("catch")) && Fine(t, Room(e, s)) then r == Past(s, t) else !r.ok
    decreases t, 4
  {
    hide Here, Fine, RootFirst, R.ParseExpression, R.ParseValueBlock, R.Ready, Past, FirstOf, R.AtExpressionBoundary;
    if R.Cur(e, s) == OpenCurly {
      BraceIsNoBoundary(e, s);
      ValueBlockTakes(e, s, t);
    } else {
      NotClosing(t, R.Cur(e, s));
      Boundary(e, s);
      ExpressionTakes(e, s, t);
    }
  }

  lemma {:induction false} BraceIsNoBoundary(e: R.Env, s: R.PS)
    requires R.Ready(e, s) && R.Cur(e, s) == OpenCurly
    ensures !R.AtExpressionBoundary(e, s)
  {
  }

  lemma {:induction false} TryTakes(e: R.Env, s: R.PS, t: Tree)
    requires t.Node? && t.sym == TryExpression && Here(e, s, t)
    ensures R.Ready(e, s) && !R.At(e, s, End) && Takes(e, s, t, R.ParseTry(e, s))
    decreases t, 6
  {
    hide Production, From, Past, Place, Here, Halts, Fits, Fine, FineFrom, RootFirst, Yield, Room, R.Ready, R.Advance,
      R.TryArm, FirstOf, IsTryBranch;
    Whole(e, s, t);
    TryRow(Roots(t.kids));
    Kid(e, s, t, 0);
    Terminal(e, s, t, 0);
    TryKid(e, s, t, 1);
    Kid(e, s, t, 2);
    Terminal(e, s, t, 2);
    TryKid(e, s, t, 3);
    FineTry(t, Room(e, s));
  }

  lemma {:induction false} TryKid(e: R.Env, s: R.PS, t: Tree, i: nat)
    requires t.Node? && t.sym == TryExpression && Here(e, s, t) && (i == 1 || i == 3)
    ensures |t.kids| == 4 && R.Ready(e, Place(s, t, i))
    ensures var r := R.TryArm(e, Place(s, t, i), i == 1);
      if !(i == 1 && FirstOf(t.kids[i]) == Identifier("catch")) && Fine(t.kids[i], Room(e, s)) then
        r == Place(s, t, i + 1)
      else !r.ok
    decreases t, 5
  {
    hide Production, From, Past, Place, Here, Halts, Fits, Fine, FineFrom, RootFirst, Yield, Room, R.Ready, R.Advance,
      R.TryArm, FirstOf, IsTryBranch;
    Whole(e, s, t);
    TryRow(Roots(t.kids));
    Kid(e, s, t, i - 1);
    Kid(e, s, t, i);
    ArmKid(e, s, t, i);
    TryArmTakes(e, Place(s, t, i), t.kids[i], i == 1);
  }

  lemma {:induction false} FineTry(t: Tree, room: int)
    requires t.Node? && t.sym == TryExpression && |t.kids| == 4 && t.kids[0].Leaf? && t.kids[2].Leaf?
    ensures Fine(t, room) <==>
      FirstOf(t.kids[1]) != Identifier("catch") && Fine(t.kids[1], room) && Fine(t.kids[3], room)
  {
  }

  // ------------------------------------------------------------------ loops

  lemma {:induction false} LoopRow(r: seq<Root>)
    requires Production(Loop, r)
    ensures |r| == 5 || |r| == 2 || |r| == 3
    ensures |r| == 5 ==>
      r[0] == Keyword("for") && r[1] == N(Bindings) && r[2] == Keyword("in") && r[3] == N(Binary(0)) &&
      r[4] == N(Block(false))
    ensures |r| == 2 ==> r[0] == Keyword("loop") && r[1] == N(Block(false))
    ensures |r| == 3 ==> r[0] == Keyword("while") && r[1] == N(Binary(0)) && r[2] == N(Block(false))
  {
  }

  lemma {:induction false} LoopTakes(e: R.Env, s: R.PS, t: Tree)
    requires t.Node? && t.sym == Loop && Here(e, s, t)
    ensures R.Ready(e, s) && Takes(e, s, t, R.ExpressionBody(e, s))
    decreases t, 4
  {
    hide Production, From, Past, Place, Here, Halts, Fits, Fine, FineFrom, RootFirst, Yield, Room, R.Ready, R.Advance,
      R.ParseFor, R.ParseBlock, R.ParseCondition;
    Whole(e, s, t);
    LoopRow(Roots(t.kids));
    Kid(e, s, t, 0);
    if |t.kids| == 5 {
      ForTakes(e, s, t);
    } else if |t.kids| == 2 {
      EndlessTakes(e, s, t);
    } else {
      WhileTakes(e, s, t);
    }
  }

  lemma {:induction false} EndlessTakes(e: R.Env, s: R.PS, t: Tree)
    requires t.Node? && t.sym == Loop && Here(e, s, t) && |t.kids| == 2
    ensures R.Ready(e, s) && R.AtWord(e, s, "loop") && Takes(e, s, t, R.ParseBlock(e, R.Advance(e, s)))
    decreases t, 3
  {
    hide Production, From, Past, Place, Here, Halts, Fits, Fine, FineFrom, RootFirst, Yield, Room, R.Ready, R.Advance,
      R.ParseBlock;
    Whole(e, s, t);
    LoopRow(Roots(t.kids));
    Kid(e, s, t, 0);
    Terminal(e, s, t, 0);
    Kid(e, s, t, 1);
    BlockTakes(e, Place(s, t, 1), t.kids[1]);
    FineLoop(t, Room(e, s));
  }

  lemma {:induction false} WhileTakes(e: R.Env, s: R.PS, t: Tree)
    requires t.Node? && t.sym == Loop && Here(e, s, t) && |t.kids| == 3
    ensures R.Ready(e, s) && R.AtWord(e, s, "while")
    ensures Takes(e, s, t, R.ParseBlock(e, R.ParseCondition(e, R.Advance(e, s))))
    decreases t, 3
  {
    hide Production, From, Past, Place, Here, Halts, Fits, Fine, FineFrom, RootFirst, Yield, Room, R.Ready, R.Advance,
      R.ParseBlock, R.ParseCondition, R.ConditionOrFail, FirstOf;
    Whole(e, s, t);
    LoopRow(Roots(t.kids));
    Kid(e, s, t, 0);
    Terminal(e, s, t, 0);
    Kid(e, s, t, 1);
    ConditionTakes(e, Place(s, t, 1), t.kids[1]);
    Kid(e, s, t, 2);
    BlockTakes(e, Place(s, t, 2), t.kids[2]);
    FineWhile(t, Room(e, s));
  }

  lemma {:induction false} FineLoop(t: Tree, room: int)
    requires t.Node? && t.sym == Loop && |t.kids| == 2 && t.kids[0].Leaf? && t.kids[1].Node? && t.kids[1].sym.Block?
    ensures Fine(t, room) <==> Fine(t.kids[1], room)
  {
  }

  lemma {:induction false} FineWhile(t: Tree, room: int)
    requires t.Node? && t.sym == Loop && |t.kids| == 3 && t.kids[0].Leaf? && RootOf(t.kids[1]) == N(Binary(0))
    requires t.kids[2].Node? && t.kids[2].sym.Block?
    ensures Fine(t, room) <==> !StartsWithBar(t.kids[1]) && Fine(t.kids[1], room) && Fine(t.kids[2], room)
  {
    hide StartsWithBar;
  }

  lemma {:induction false} FineRefusing(t: Tree, room: int)
    requires t.Node? && !Nests(t.sym)
    ensures Fine(t, room) <==> !Refused(t.sym, t.kids) && FineFrom(t.kids, 0, room)
  {
    hide Refused;
  }

  lemma {:induction false} RefusedFor(t: Tree)
    requires t.Node? && t.sym == Loop && |t.kids| == 5 && t.kids[0].Leaf? && t.kids[2].Leaf?
    requires RootOf(t.kids[1]) == N(Bindings) && RootOf(t.kids[3]) == N(Binary(0)) &&
      RootOf(t.kids[4]) == N(Block(false))
    ensures Refused(Loop, t.kids) == StartsWithBar(t.kids[3])
  {
    hide StartsWithBar;
  }

  lemma {:induction false} FineFor(t: Tree, room: int)
    requires t.Node? && t.sym == Loop && |t.kids| == 5 && t.kids[0].Leaf? && t.kids[2].Leaf?
    requires RootOf(t.kids[1]) == N(Bindings) && RootOf(t.kids[3]) == N(Binary(0)) &&
      RootOf(t.kids[4]) == N(Block(false))
    requires Derives(t.kids[1])
    ensures Fine(t, room) <==> !StartsWithBar(t.kids[3]) && Fine(t.kids[3], room) && Fine(t.kids[4], room)
  {
    hide StartsWithBar, Derives, Fine, FineFrom, Refused;
    FineRefusing(t, room);
    RefusedFor(t);
    FineNext(t.kids, 0, room);
    PlainFine(t.kids[1], room);
    FineNext(t.kids, 1, room);
    FineNext(t.kids, 2, room);
    FineNext(t.kids, 3, room);
    FineNext(t.kids, 4, room);
    FineEnd(t.kids, room);
  }

  lemma {:induction false} ForTakes(e: R.Env, s: R.PS, t: Tree)
    requires t.Node? && t.sym == Loop && Here(e, s, t) && |t.kids| == 5
    ensures R.Ready(e, s) && R.AtWord(e, s, "for") && Takes(e, s, t, R.ParseFor(e, s))
    decreases t, 3
  {
    hide Production, From, Past, Place, Here, Halts, Fits, Fine, FineFrom, RootFirst, Yield, Room, R.Ready, R.Advance,
      R.ForBindings, R.ParseBlock, R.ConditionOrFail, R.ParseCondition;
    Whole(e, s, t);
    LoopRow(Roots(t.kids));
    Kid(e, s, t, 0);
    Terminal(e, s, t, 0);
    Kid(e, s, t, 1);
    var u := Place(s, t, 1);
    Whole(e, u, t.kids[1]);
    BindingsTaken(e, u, t.kids[1], 0);
    Kid(e, s, t, 2);
    Terminal(e, s, t, 2);
    Kid(e, s, t, 3);
    ConditionTakes(e, Place(s, t, 3), t.kids[3]);
    Kid(e, s, t, 4);
    BlockTakes(e, Place(s, t, 4), t.kids[4]);
    HereDerives(e, u, t.kids[1]);
    FineFor(t, Room(e, s));
  }

  /** At most three bindings, none of them `in`. */
  lemma {:induction false} BindingsTaken(e: R.Env, s: R.PS, t: Tree, i: nat)
    requires t.Node? && t.sym == Bindings && Here(e, s, t) && i < |t.kids| && i % 2 == 0
    ensures R.Ready(e, Place(s, t, i))
    ensures var b := R.ForBindings(e, Place(s, t, i), i / 2); b.s == Past(s, t) && b.count > 0
    decreases |t.kids| - i
  {
    hide Production, From, Past, Place, Here, Fits, Fine, FineFrom, RootFirst, Yield, Room, R.Ready, R.Advance,
      R.ExpectName, IsNameKind;
    Whole(e, s, t);
    NameRow(Bindings, Roots(t.kids), i);
    NameAt(e, s, t, i);
    NotIn(R.Cur(e, Place(s, t, i)));
    if i + 1 < |t.kids| {
      NameAt(e, s, t, i + 2);
      NotIn(R.Cur(e, Place(s, t, i + 2)));
      BindingsTaken(e, s, t, i + 2);
    }
  }

  lemma {:induction false} NotIn(k: Kind)
    requires IsNameKind(k)
    ensures k != Identifier("in")
  {
  }

  // ------------------------------------------------------------------ blocks

  lemma {:induction false} BlockRow(sym: Sym, r: seq<Root>)
    requires Production(sym, r) && (sym.Block? || sym == ValueBlock)
    ensures |r| >= 2 && r[0] == T(OpenCurly) && r[|r| - 1] == T(CloseCurly)
    ensures var first := LeadingEnds(r, 1); first < |r| && forall i :: first <= i < |r| - 1 ==> IsLine(r[i])
    ensures sym == ValueBlock ==> LeadingEnds(r, 1) < |r| - 1 && r[|r| - 2] == N(Line(true))
  {
  }

  lemma {:induction false} LineStarts(x: Root, k: Kind)
    requires RootFirst(x, k) && (IsLine(x) || IsStatement(x) || x == T(CloseCurly))
    ensures k != Newline && k != Semicolon && k != End
    ensures k == CloseCurly <==> x == T(CloseCurly)
    ensures IsLine(x) ==> R.StartsNonValue(k) == (x != N(Line(true)))
  {
    hide R.StartsNonValue, StartsValue;
    ValueWords(k);
    hide IsReserved;
  }

  lemma {:induction false} ValueWords(k: Kind)
    ensures StartsValue(k) ==> !R.StartsNonValue(k)
    ensures StartsValue(k) ==> k != Newline && k != Semicolon && k != End && k != CloseCurly
    ensures IsLoopWord(k) || IsStatementWord(k) ==> R.StartsNonValue(k)
  {
  }

  lemma {:induction false} NoEnds(e: R.Env, s: R.PS)
    requires R.Ready(e, s) && R.Cur(e, s) != Newline && R.Cur(e, s) != Semicolon
    ensures R.SkipEnds(e, s) == s
  {
  }

  lemma {:induction false} DeeperHere(e: R.Env, s: R.PS, t: Tree)
    requires Here(e, s, t)
    ensures Here(e, Deeper(s), t) && Room(e, Deeper(s)) == Room(e, s) - 1
    ensures Past(Deeper(s), t).(nesting := s.nesting) == Past(s, t)
    ensures s.nesting >= e.maxNesting <==> Room(e, s) <= 0
  {
    hide Fits;
  }

  /** Behind the brace and the ends that may follow it. */
  lemma {:induction false} BlockOpens(e: R.Env, s: R.PS, t: Tree, first: nat)
    requires t.Node? && (t.sym.Block? || t.sym == ValueBlock) && Here(e, s, t) && first == LeadingEnds(Roots(t.kids), 1)
    ensures first < |t.kids| && R.Ready(e, s) && R.At(e, s, OpenCurly) && R.Ready(e, Place(s, t, first))
    ensures R.SkipEnds(e, R.Advance(e, s)) == Place(s, t, first)
    ensures FineFrom(t.kids, 0, Room(e, s)) == FineFrom(t.kids, first, Room(e, s))
  {
    hide Production, From, Past, Place, Here, Halts, Fits, Fine, FineFrom, RootFirst, Yield, Room, R.Ready, R.Advance,
      R.SkipEnds, IsLine, IsStatement;
    Whole(e, s, t);
    var r := Roots(t.kids);
    BlockRow(t.sym, r);
    Kid(e, s, t, 0);
    Terminal(e, s, t, 0);
    Kid(e, s, t, 1);
    FineNext(t.kids, 0, Room(e, s));
    if first == 2 {
      EndsTaken(e, Place(s, t, 1), t.kids[1]);
      EndsFine(e, s, t);
      Kid(e, s, t, 2);
    } else {
      LineStarts(r[1], R.Cur(e, Place(s, t, 1)));
      NoEnds(e, Place(s, t, 1));
    }
  }

  lemma {:induction false} EndsFine(e: R.Env, s: R.PS, t: Tree)
    requires t.Node? && t.sym != Program && Here(e, s, t) && |t.kids| > 1 && RootOf(t.kids[1]) == N(Ends)
    ensures FineFrom(t.kids, 1, Room(e, s)) == FineFrom(t.kids, 2, Room(e, s))
  {
    hide Production, From, Past, Place, Here, Halts, Fits, Fine, FineFrom, RootFirst, Yield, Room, R.Ready, R.Advance;
    Kid(e, s, t, 1);
    HereDerives(e, Place(s, t, 1), t.kids[1]);
    PlainFine(t.kids[1], Room(e, s));
    FineNext(t.kids, 1, Room(e, s));
  }

  /** The lines from child `i` on, up to the closing brace. */
  lemma {:induction false} LinesTake(e: R.Env, s: R.PS, t: Tree, i: nat, value: bool)
    requires t.Node? && (t.sym.Block? || t.sym == ValueBlock) && Here(e, s, t)
    requires LeadingEnds(Roots(t.kids), 1) <= i < |t.kids|
    ensures R.Ready(e, Place(s, t, i))
    ensures var r, n := R.Statements(e, Place(s, t, i), value), |t.kids|;
      if !FineFrom(t.kids, i, Room(e, s)) then !r.s.ok
      else
        && r.s == Place(s, t, n - 1)
        && r.value == if i == n - 1 then value else Roots(t.kids)[n - 2] == N(Line(true))
    decreases t, 1, |t.kids| - i
  {
    hide Production, From, Past, Place, Here, Halts, Fits, Fine, FineFrom, RootFirst, Yield, Room, R.Ready, R.Advance,
      R.OneStatement;
    Whole(e, s, t);
    var r, n := Roots(t.kids), |t.kids|;
    BlockRow(t.sym, r);
    Kid(e, s, t, i);
    FineNext(t.kids, i, Room(e, s));
    LineStarts(r[i], R.Cur(e, Place(s, t, i)));
    hide R.StartsNonValue;
    if i < n - 1 {
      LineTakes(e, Place(s, t, i), t.kids[i]);
      LinesTake(e, s, t, i + 1, !R.StartsNonValue(R.Cur(e, Place(s, t, i))));
    } else {
      FineEnd(t.kids, Room(e, s));
    }
  }

  /** Everything between the braces, and the closing brace still ahead. */
  lemma {:induction false} BodyLines(e: R.Env, s: R.PS, t: Tree)
    requires t.Node? && (t.sym.Block? || t.sym == ValueBlock) && Here(e, s, t)
    ensures t.kids != [] && R.Ready(e, s) && R.At(e, s, OpenCurly)
    ensures var b := R.Statements(e, R.SkipEnds(e, R.Advance(e, s)), false);
      if !FineFrom(t.kids, 0, Room(e, s)) then !b.s.ok
      else
        && R.At(e, b.s, CloseCurly) && R.Advance(e, b.s) == Past(s, t)
        && (t.sym == ValueBlock ==> b.value)
    decreases t, 2
  {
    hide Production, From, Past, Place, Here, Halts, Fits, Fine, FineFrom, RootFirst, Yield, Room, R.Ready, R.Advance,
      R.SkipEnds, R.Statements;
    Whole(e, s, t);
    var n, first := |t.kids|, LeadingEnds(Roots(t.kids), 1);
    BlockRow(t.sym, Roots(t.kids));
    BlockOpens(e, s, t, first);
    LinesTake(e, s, t, first, false);
    Kid(e, s, t, n - 1);
    Terminal(e, s, t, n - 1);
  }

  lemma {:induction false} BlockTakes(e: R.Env, s: R.PS, t: Tree)
    requires t.Node? && t.sym.Block? && Here(e, s, t)
    ensures R.Ready(e, s) && Takes(e, s, t, R.ParseBlock(e, s))
    decreases t, 3
  {
    hide Production, From, Past, Place, Here, Halts, Fits, Fine, FineFrom, RootFirst, Yield, Room, R.Ready, R.Advance,
      R.SkipEnds, R.Statements;
    Whole(e, s, t);
    FineRow(t, Room(e, s));
    DeeperHere(e, s, t);
    BodyLines(e, Deeper(s), t);
  }

  lemma {:induction false} ValueBlockTakes(e: R.Env, s: R.PS, t: Tree)
    requires t.Node? && t.sym == ValueBlock && Here(e, s, t) && R.Ready(e, s) && R.At(e, s, OpenCurly)
    ensures var r := if s.nesting >= e.maxNesting then R.Fail(s) else R.ParseValueBlock(e, s); Takes(e, s, t, r)
    decreases t, 3
  {
    hide Production, From, Past, Place, Here, Halts, Fits, Fine, FineFrom, RootFirst, Yield, Room, R.Ready, R.Advance,
      R.SkipEnds, R.Statements;
    FineRow(t, Room(e, s));
    DeeperHere(e, s, t);
    BodyLines(e, Deeper(s), t);
  }

  // ------------------------------------------------------------------ statements

  lemma {:induction false} LineRow(value: bool, r: seq<Root>)
    requires Production(Line(value), r)
    ensures |r| == 2 && r[0] == N(Statement(value)) && r[1] == N(Ends)
  {
  }

  lemma {:induction false} LineTakes(e: R.Env, s: R.PS, t: Tree)
    requires t.Node? && t.sym.Line? && Here(e, s, t)
    ensures R.Ready(e, s) && Takes(e, s, t, R.OneStatement(e, s))
    decreases t, 0
  {
    hide Production, From, Past, Place, Here, Halts, Fits, Fine, FineFrom, RootFirst, Yield, Room, R.Ready, R.Advance,
      R.ParseStatement, R.SkipEnds, R.SkipToBoundary;
    Whole(e, s, t);
    LineRow(t.sym.value, Roots(t.kids));
    Kid(e, s, t, 0);
    Kid(e, s, t, 1);
    EndsTaken(e, Place(s, t, 1), t.kids[1]);
    StatementTakes(e, s, t.kids[0]);
    FineRow(t, Room(e, s));
    FineNext(t.kids, 0, Room(e, s));
    FineNext(t.kids, 1, Room(e, s));
    FineEnd(t.kids, Room(e, s));
    HereDerives(e, Place(s, t, 1), t.kids[1]);
    PlainFine(t.kids[1], Room(e, s));
  }

  lemma {:induction false} StatementRow(value: bool, r: seq<Root>)
    requires Production(Statement(value), r)
    ensures |r| == 1 || (|r| == 2 && r[0] == Keyword("return") && IsExpression(r[1]))
    ensures |r| == 1 ==>
      r[0] == N(Import) || r[0] == N(Declaration) || r[0] == N(FunctionDeclaration) || IsExpression(r[0]) ||
      r[0] == Keyword("return") || r[0] == Keyword("break") || r[0] == Keyword("continue")
  {
  }

  lemma {:induction false} StatementStarts(x: Root, k: Kind)
    requires RootFirst(x, k)
    ensures x == N(Import) ==> k == Identifier("use")
    ensures x == N(Declaration) ==> k == Identifier("let")
    ensures x == N(FunctionDeclaration) ==> k == Identifier("fn")
    ensures IsExpression(x) ==> !IsStatementWord(k)
  {
    if IsExpression(x) {
      NoStatementWord(x.sym.value, k);
    }
  }

  lemma {:induction false} NoStatementWord(value: bool, k: Kind)
    requires First(Expression(value), k)
    ensures !IsStatementWord(k)
  {
    hide R.StartsNonValue, StartsValue, IsLoopWord, IsStatementWord;
    WordsApart(k);
  }

  lemma {:induction false} WordsApart(k: Kind)
    ensures StartsValue(k) || IsLoopWord(k) ==> !IsStatementWord(k)
  {
  }

  lemma {:induction false} StatementTakes(e: R.Env, s: R.PS, t: Tree)
    requires t.Node? && t.sym.Statement? && Here(e, s, t)
    requires R.Ready(e, Past(s, t)) && R.AtStatementBoundary(e, Past(s, t))
    ensures R.Ready(e, s) && Takes(e, s, t, R.ParseStatement(e, s))
    decreases t, 1
  {
    hide Production, From, Past, Place, Here, Halts, Fits, Fine, FineFrom, RootFirst, Yield, Room, R.Ready, R.Advance,
      R.ParseImport, R.ParseDeclaration, R.ParseFunctionDeclaration, R.ParseExpression, R.AtStatementBoundary;
    Whole(e, s, t);
    StatementRow(t.sym.value, Roots(t.kids));
    Kid(e, s, t, 0);
    var kid := t.kids[0];
    StatementStarts(RootOf(kid), R.Cur(e, s));
    if kid.Leaf? {
      WordTakes(e, s, t);
    } else {
      FineOne(t, Room(e, s));
      if kid.sym == Import {
        ImportTakes(e, s, kid);
      } else if kid.sym == Declaration {
        DeclarationTakes(e, s, kid);
      } else if kid.sym == FunctionDeclaration {
        FunctionTakes(e, s, kid);
      } else {
        ExpressionTakes(e, s, kid);
      }
    }
  }

  lemma {:induction false} WordTakes(e: R.Env, s: R.PS, t: Tree)
    requires t.Node? && t.sym.Statement? && Here(e, s, t) && t.kids != [] && t.kids[0].Leaf?
    requires R.Ready(e, Past(s, t)) && R.AtStatementBoundary(e, Past(s, t))
    ensures R.Ready(e, s) && Takes(e, s, t, R.ParseStatement(e, s))
    decreases t, 0
  {
    hide Production, From, Past, Place, Here, Halts, Fits, Fine, FineFrom, RootFirst, Yield, Room, R.Ready, R.Advance,
      R.ParseExpression;
    Whole(e, s, t);
    StatementRow(t.sym.value, Roots(t.kids));
    Kid(e, s, t, 0);
    LeafKind(t.kids[0], R.Cur(e, s));
    Terminal(e, s, t, 0);
    if |t.kids| == 2 {
      Kid(e, s, t, 1);
      NotClosing(t.kids[1], R.Cur(e, Place(s, t, 1)));
      ExpressionTakes(e, Place(s, t, 1), t.kids[1]);
      FineSecond(t, Room(e, s));
    } else {
      FineLeaves(t, Room(e, s));
    }
  }

  lemma {:induction false} ImportRow(r: seq<Root>)
    requires Production(Import, r)
    ensures |r| == 4 && r[0] == Keyword("use") && r[1] == Keyword("mod") && r[2] == Op(".") && r[3] == N(Path)
  {
  }

  lemma {:induction false} ImportTakes(e: R.Env, s: R.PS, t: Tree)
    requires t.Node? && t.sym == Import && Here(e, s, t)
    ensures R.Ready(e, s) && Takes(e, s, t, R.ParseImport(e, R.Advance(e, s)))
  {
    hide Production, From, Past, Place, Here, Halts, Fits, Fine, FineFrom, RootFirst, Yield, Room, R.Ready, R.Advance,
      R.ImportPath, R.ExpectName;
    Whole(e, s, t);
    ImportRow(Roots(t.kids));
    Kid(e, s, t, 0);
    Terminal(e, s, t, 0);
    Kid(e, s, t, 1);
    Terminal(e, s, t, 1);
    Kid(e, s, t, 2);
    Terminal(e, s, t, 2);
    Kid(e, s, t, 3);
    var u := Place(s, t, 3);
    Whole(e, u, t.kids[3]);
    NameAt(e, u, t.kids[3], 0);
    PathTaken(e, u, t.kids[3], 1);
    HereDerives(e, s, t);
    PlainFine(t, Room(e, s));
  }

  lemma {:induction false} PathTaken(e: R.Env, s: R.PS, t: Tree, i: nat)
    requires t.Node? && t.sym == Path && Here(e, s, t) && i <= |t.kids| && i % 2 == 1
    ensures R.Ready(e, Place(s, t, i)) && R.ImportPath(e, Place(s, t, i)) == Past(s, t)
    decreases |t.kids| - i
  {
    hide Production, From, Past, Place, Here, Fits, Fine, FineFrom, RootFirst, Yield, Room, R.Ready, R.Advance,
      R.ExpectName;
    NameAt(e, s, t, i - 1);
    if i < |t.kids| {
      NameAt(e, s, t, i + 1);
      PathTaken(e, s, t, i + 2);
    }
  }

  lemma {:induction false} DeclarationRow(r: seq<Root>)
    requires Production(Declaration, r)
    ensures |r| == 2 || |r| == 4
    ensures r[0] == Keyword("let") && IsName(r[1]) && (|r| == 4 ==> r[2] == Op("=") && IsExpression(r[3]))
  {
    hide IsReserved;
  }

  lemma {:induction false} DeclarationTakes(e: R.Env, s: R.PS, t: Tree)
    requires t.Node? && t.sym == Declaration && Here(e, s, t)
    requires R.Ready(e, Past(s, t)) && R.AtStatementBoundary(e, Past(s, t))
    ensures R.Ready(e, s) && Takes(e, s, t, R.ParseDeclaration(e, R.Advance(e, s)))
    decreases t, 0
  {
    hide Production, From, Past, Place, Here, Halts, Fits, Fine, FineFrom, RootFirst, Yield, Room, R.Ready, R.Advance,
      R.ParseExpression, R.ExpectName, R.AtStatementBoundary;
    Whole(e, s, t);
    DeclarationRow(Roots(t.kids));
    NoInitializer(e, s, t);
    DeclaredName(e, s, t);
    if |t.kids| == 4 {
      Kid(e, s, t, 2);
      Terminal(e, s, t, 2);
      Kid(e, s, t, 3);
      ExpressionTakes(e, Place(s, t, 3), t.kids[3]);
      FineFourth(t, Room(e, s));
    } else {
      FineLeaves(t, Room(e, s));
    }
  }

  /** The keyword and the name. */
  lemma {:induction false} DeclaredName(e: R.Env, s: R.PS, t: Tree)
    requires t.Node? && (t.sym == Declaration || t.sym == FunctionDeclaration) && Here(e, s, t)
    ensures |t.kids| >= 2 && t.kids[0].Leaf? && t.kids[1].Leaf? && R.Ready(e, s) && R.Ready(e, Place(s, t, 2))
    ensures R.ExpectName(e, R.Advance(e, s)) == Place(s, t, 2)
  {
    hide Production, From, Past, Place, Here, Halts, Fits, Fine, FineFrom, RootFirst, Yield, Room, R.Ready, R.Advance,
      IsNameKind;
    Whole(e, s, t);
    NamedRow(t.sym, Roots(t.kids));
    Kid(e, s, t, 0);
    Terminal(e, s, t, 0);
    Kid(e, s, t, 1);
    NameKind(t.kids[1]);
    Terminal(e, s, t, 1);
  }

  lemma {:induction false} NamedRow(sym: Sym, r: seq<Root>)
    requires Production(sym, r) && (sym == Declaration || sym == FunctionDeclaration)
    ensures |r| >= 2 && (r[0] == Keyword("let") || r[0] == Keyword("fn")) && IsName(r[1])
  {
    hide IsReserved;
  }

  lemma {:induction false} NoInitializer(e: R.Env, s: R.PS, t: Tree)
    requires t.Node? && t.sym == Declaration && Here(e, s, t) 
    ensures R.Ready(e, Past(s, t)) && (|t.kids| == 2 ==> R.Cur(e, Past(s, t)) != Operator("="))
  {
    Whole(e, s, t);
  }

  lemma {:induction false} FunctionRow(r: seq<Root>)
    requires Production(FunctionDeclaration, r)
    ensures |r| == 4 && r[0] == Keyword("fn") && IsName(r[1]) && r[2] == N(ParameterList) && r[3] == N(Block(false))
  {
    hide IsReserved;
  }

  lemma {:induction false} FunctionTakes(e: R.Env, s: R.PS, t: Tree)
    requires t.Node? && t.sym == FunctionDeclaration && Here(e, s, t)
    ensures R.Ready(e, s) && Takes(e, s, t, R.ParseFunctionDeclaration(e, R.Advance(e, s)))
    decreases t, 0
  {
    hide Production, From, Past, Place, Here, Halts, Fits, Fine, FineFrom, RootFirst, Yield, Room, R.Ready, R.Advance,
      R.ParseBlock, R.ParseParameterList, R.ExpectName;
    Whole(e, s, t);
    FunctionRow(Roots(t.kids));
    DeclaredName(e, s, t);
    Kid(e, s, t, 2);
    ParameterListTaken(e, Place(s, t, 2), t.kids[2]);
    Kid(e, s, t, 3);
    BlockTakes(e, Place(s, t, 3), t.kids[3]);
    FunctionFine(e, s, t);
  }

  lemma {:induction false} FunctionFine(e: R.Env, s: R.PS, t: Tree)
    requires t.Node? && t.sym == FunctionDeclaration && Here(e, s, t) && |t.kids| == 4
    requires t.kids[0].Leaf? && t.kids[1].Leaf? && RootOf(t.kids[2]) == N(ParameterList)
    ensures Fine(t, Room(e, s)) == Fine(t.kids[3], Room(e, s))
  {
    HereDerives(e, s, t);
    hide Here, Derives, Fine;
    FineBut(t, 3, Room(e, s));
  }

  lemma {:induction false} ParameterListRow(r: seq<Root>)
    requires Production(ParameterList, r)
    ensures |r| == 2 || |r| == 3
    ensures r[0] == T(OpenRound) && r[|r| - 1] == T(CloseRound) && (|r| == 3 ==> r[1] == N(Names(false)))
  {
  }

  lemma {:induction false} ParameterListTaken(e: R.Env, s: R.PS, t: Tree)
    requires t.Node? && t.sym == ParameterList && Here(e, s, t)
    ensures R.Ready(e, s) && R.ParseParameterList(e, s) == Past(s, t)
  {
    hide Production, From, Past, Place, Here, Halts, Fits, Fine, FineFrom, RootFirst, Yield, Room, R.Ready, R.Advance,
      R.Parameters;
    Whole(e, s, t);
    ParameterListRow(Roots(t.kids));
    Terminal(e, s, t, 0);
    Kid(e, s, t, 1);
    if |t.kids| == 2 {
      Terminal(e, s, t, 1);
    } else {
      Terminal(e, s, t, 2);
      var u := Place(s, t, 1);
      Whole(e, u, t.kids[1]);
      NameAt(e, u, t.kids[1], 0);
      NamesTaken(e, u, t.kids[1], 0);
      NoBracket(R.Cur(e, u));
    }
  }

  lemma {:induction false} NoBracket(k: Kind)
    requires IsNameKind(k)
    ensures k != CloseRound
  {
    hide IsReserved;
  }

  lemma {:induction false} NamesTaken(e: R.Env, s: R.PS, t: Tree, i: nat)
    requires t.Node? && t.sym == Names(false) && Here(e, s, t) && i < |t.kids| && i % 2 == 0
    ensures R.Ready(e, Place(s, t, i)) && R.Ready(e, Past(s, t))
    ensures R.Parameters(e, Place(s, t, i)) == R.Expect(e, Past(s, t), CloseRound)
    decreases |t.kids| - i
  {
    hide Production, From, Past, Place, Here, Fits, Fine, FineFrom, RootFirst, Yield, Room, R.Ready, R.Advance,
      R.ExpectName, IsNameKind;
    Whole(e, s, t);
    NameAt(e, s, t, i);
    if i + 1 < |t.kids| {
      NameAt(e, s, t, i + 2);
      NoBracket(R.Cur(e, Place(s, t, i + 2)));
      NamesTaken(e, s, t, i + 2);
    }
  }

  // ------------------------------------------------------------------ programs

  /** A line, the last statement, or the ends behind it. */
  lemma {:induction false} ProgramRow(r: seq<Root>, i: nat)
    requires Production(Program, r) && LeadingEnds(r, 0) <= i < |r|
    ensures
      || IsLine(r[i])
      || (IsStatement(r[i]) && (i == |r| - 1 || (i == |r| - 2 && r[i + 1] == N(Ends))))
      || (r[i] == N(Ends) && i == |r| - 1 && i > LeadingEnds(r, 0) && IsStatement(r[i - 1]))
  {
  }

  lemma {:induction false} AtTheEnd(e: R.Env, s: R.PS, t: Tree)
    requires t.Node? && t.sym == Program && Here(e, s, t)
    ensures R.Ready(e, Past(s, t)) && R.Cur(e, Past(s, t)) == End
  {
    Whole(e, s, t);
  }

  /** A statement that the end of the source closes, with or without ends of its own. */
  lemma {:induction false} LastTakes(e: R.Env, s: R.PS, t: Tree, i: nat)
    requires t.Node? && t.sym == Program && Here(e, s, t) && i < |t.kids| && IsStatement(RootOf(t.kids[i]))
    requires i == |t.kids| - 1 || (i == |t.kids| - 2 && RootOf(t.kids[i + 1]) == N(Ends))
    ensures R.Ready(e, Place(s, t, i)) && !R.At(e, Place(s, t, i), End) && !R.At(e, Place(s, t, i), CloseCurly)
    ensures var r := R.OneStatement(e, Place(s, t, i));
      if FineFrom(t.kids, i, Room(e, s)) then r == Past(s, t) else !r.ok
  {
    hide Production, From, Past, Place, Here, Halts, Fits, Fine, FineFrom, RootFirst, Yield, Room, R.Ready, R.Advance,
      R.ParseStatement, R.SkipEnds, R.SkipToBoundary;
    Whole(e, s, t);
    AtTheEnd(e, s, t);
    Kid(e, s, t, i);
    LineStarts(RootOf(t.kids[i]), R.Cur(e, Place(s, t, i)));
    FineNext(t.kids, i, Room(e, s));
    FineEnd(t.kids, Room(e, s));
    if i == |t.kids| - 2 {
      Kid(e, s, t, i + 1);
      EndsTaken(e, Place(s, t, i + 1), t.kids[i + 1]);
      FineNext(t.kids, i + 1, Room(e, s));
      HereDerives(e, Place(s, t, i + 1), t.kids[i + 1]);
      PlainFine(t.kids[i + 1], Room(e, s));
    }
    StatementTakes(e, Place(s, t, i), t.kids[i]);
  }

  lemma {:induction false} TopTakes(e: R.Env, s: R.PS, t: Tree, i: nat)
    requires t.Node? && t.sym == Program && Here(e, s, t) && LeadingEnds(Roots(t.kids), 0) <= i <= |t.kids|
    requires i < |t.kids| ==> RootOf(t.kids[i]) != N(Ends)
    ensures R.Ready(e, Place(s, t, i))
    ensures var r := R.TopLevel(e, Place(s, t, i));
      if FineFrom(t.kids, i, Room(e, s)) then r == Past(s, t) else !r.ok
    decreases |t.kids| - i
  {
    hide Production, From, Past, Place, Here, Halts, Fits, Fine, FineFrom, RootFirst, Yield, Room, R.Ready, R.Advance,
      R.OneStatement;
    Whole(e, s, t);
    AtTheEnd(e, s, t);
    if i < |t.kids| {
      var r := Roots(t.kids);
      ProgramRow(r, i);
      assert r[i] == RootOf(t.kids[i]);
      if IsLine(r[i]) {
        Kid(e, s, t, i);
        LineStarts(r[i], R.Cur(e, Place(s, t, i)));
        LineTakes(e, Place(s, t, i), t.kids[i]);
        FineNext(t.kids, i, Room(e, s));
        if i + 1 < |t.kids| {
          ProgramRow(r, i + 1);
          assert r[i + 1] == RootOf(t.kids[i + 1]);
        }
        TopTakes(e, s, t, i + 1);
      } else {
        assert i + 1 < |t.kids| ==> r[i + 1] == RootOf(t.kids[i + 1]);
        LastTakes(e, s, t, i);
      }
    } else {
      FineEnd(t.kids, Room(e, s));
    }
  }

  lemma {:induction false} ProgramTakes(e: R.Env, s: R.PS, t: Tree)
    requires t.Node? && t.sym == Program && Here(e, s, t)
    ensures R.Ready(e, s) && Takes(e, s, t, R.ParseProgram(e, s))
  {
    hide Production, From, Past, Place, Here, Halts, Fits, Fine, FineFrom, RootFirst, Yield, Room, R.Ready, R.Advance,
      R.SkipEnds, R.TopLevel;
    Whole(e, s, t);
    AtTheEnd(e, s, t);
    var r := Roots(t.kids);
    var first := LeadingEnds(r, 0);
    FineRow(t, Room(e, s));
    if first == 1 {
      Kid(e, s, t, 0);
      EndsTaken(e, s, t.kids[0]);
      FineNext(t.kids, 0, Room(e, s));
      HereDerives(e, s, t.kids[0]);
      PlainFine(t.kids[0], Room(e, s));
    }
    if first < |t.kids| {
      ProgramRow(r, first);
      assert r[first] == RootOf(t.kids[first]);
      if first == 0 {
        Kid(e, s, t, 0);
        LineStarts(r[0], R.Cur(e, s));
        NoEnds(e, s);
      }
    } else if first == 0 {
      NoEnds(e, s);
    }
    TopTakes(e, s, t, first);
  }

  /**
    A source is accepted exactly if its derivation stays within the nesting limit and has none of the starts that the
    parser refuses beyond the grammar.
  */
  lemma {:induction false} AcceptsExactly(ks: seq<Kind>, t: Tree, maxNesting: nat)
    requires IsDerivation(ks, t)
    ensures R.ValidEnv(R.Env(ks, maxNesting))
    ensures R.Accepts(R.Env(ks, maxNesting)) <==> Fine(t, maxNesting)
  {
    hide Fine, R.ParseProgram, Derives, Forced, Yield;
    var e, s := R.Env(ks, maxNesting), R.PS(0, 0, true);
    assert ks[0..0 + |Yield(t)|] == Yield(t);
    ProgramTakes(e, s, t);
  }

  // ------------------------------------------------------------------ the condition, in two parts

  /** How many expressions and blocks stand inside each other. */
  function Nesting(t: Tree): (n: nat)
    decreases t, 0
  {
    if t.Leaf? then 0 else NestingOf(t.kids) + if Nests(t.sym) then 1 else 0
  }

  function NestingOf(ts: seq<Tree>): (n: nat)
    decreases ts, 1
  {
    if ts == [] then 0
    else
      var front, last := NestingOf(ts[..|ts| - 1]), Nesting(ts[|ts| - 1]);
      if front < last then last else front
  }

  predicate HasRefused(t: Tree) {
    t.Node? && (Refused(t.sym, t.kids) || exists i :: 0 <= i < |t.kids| && HasRefused(t.kids[i]))
  }

  lemma {:induction false} NestingBound(ts: seq<Tree>, room: int)
    requires room >= 0
    ensures NestingOf(ts) <= room <==> forall i :: 0 <= i < |ts| ==> Nesting(ts[i]) <= room
    decreases |ts|
  {
    if ts != [] {
      var front := ts[..|ts| - 1];
      NestingBound(front, room);
      assert forall i :: 0 <= i < |front| ==> front[i] == ts[i];
    }
  }

  lemma {:induction false} FineMeans(t: Tree, room: int)
    requires room >= 0
    ensures Fine(t, room) <==> Nesting(t) <= room && !HasRefused(t)
    decreases t
  {
    hide Refused;
    if t.Node? && (Nests(t.sym) ==> room > 0) {
      var inner := Inside(t.sym, room);
      NestingBound(t.kids, inner);
      forall i | 0 <= i < |t.kids| ensures Fine(t.kids[i], inner) <==>
        Nesting(t.kids[i]) <= inner && !HasRefused(t.kids[i]) {
        FineMeans(t.kids[i], inner);
      }
    }
  }

  /** The same in words: nested within the limit, and nothing refused anywhere. */
  lemma {:induction false} AcceptedIfAndOnlyIf(ks: seq<Kind>, t: Tree, maxNesting: nat)
    requires IsDerivation(ks, t)
    ensures R.ValidEnv(R.Env(ks, maxNesting))
    ensures R.Accepts(R.Env(ks, maxNesting)) <==> Nesting(t) <= maxNesting && !HasRefused(t)
  {
    hide Fine, IsDerivation, R.Accepts;
    AcceptsExactly(ks, t, maxNesting);
    FineMeans(t, maxNesting);
  }

  /** There is a derivation within the nesting limit that has nothing refused. */
  ghost predicate Derivable(ks: seq<Kind>, maxNesting: nat) {
    exists t :: IsDerivation(ks, t) && Nesting(t) <= maxNesting && !HasRefused(t)
  }

  lemma {:induction false} DerivableIsAccepted(ks: seq<Kind>, maxNesting: nat)
    requires Derivable(ks, maxNesting)
    ensures R.ValidEnv(R.Env(ks, maxNesting)) && R.Accepts(R.Env(ks, maxNesting))
  {
    hide IsDerivation, R.Accepts, Nesting, HasRefused;
    var t :| IsDerivation(ks, t) && Nesting(t) <= maxNesting && !HasRefused(t);
    AcceptedIfAndOnlyIf(ks, t, maxNesting);
  }

  lemma {:induction false} AcceptedIsDerivable(ks: seq<Kind>, t: Tree, maxNesting: nat)
    requires IsDerivation(ks, t) && R.ValidEnv(R.Env(ks, maxNesting)) && R.Accepts(R.Env(ks, maxNesting))
    ensures Derivable(ks, maxNesting)
  {
    hide IsDerivation, R.Accepts, Nesting, HasRefused;
    AcceptedIfAndOnlyIf(ks, t, maxNesting);
  }
}
