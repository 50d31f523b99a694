/** What the events of a derivation say about its `let` aliases: every definition has a name token of its own, and a
    plain alias uses its target before it is defined. */
module AliasEvents {
  import opened Tokens
  import opened Grammar
  import opened LoweringPlan
  import opened LexicalEvents
  import opened SymbolEvents
  import opened AliasNotes
  import opened ScopeRules
  import SymbolIndex

  /** The tokens from `at` on have these kinds, and are not the last of the list. */
  predicate Stands(tokens: seq<Token>, at: nat, ks: seq<Kind>) {
    at + |ks| < |tokens| && forall i :: 0 <= i < |ks| ==> tokens[at + i].kind == ks[i]
  }

  /** A definition of a name among the tokens from `lo` up to `hi`. */
  predicate DefinesIn(tokens: seq<Token>, e: Event, lo: nat, hi: nat) {
    e.Define? ==>
      var k := TokenFrom(tokens, e.start);
      lo <= k < hi && IsNameToken(tokens, k) && Span(e.start, e.end) == SpanAt(tokens, k)
  }

  ghost predicate AllDefineIn(tokens: seq<Token>, events: seq<Event>, lo: nat, hi: nat) {
    forall i :: 0 <= i < |events| ==> DefinesIn(tokens, events[i], lo, hi)
  }

  /** A declaration whose initializer is a bare name. */
  predicate IsPlainAlias(tokens: seq<Token>, e: Event) {
    e.Define? && e.kind == LetSymbol && Initializer(tokens, TokenFrom(tokens, e.start) + 1).Some? &&
    Initializer(tokens, TokenFrom(tokens, e.start) + 1).value.fields == 0
  }

  /** The use of its target that a plain alias makes. */
  function TargetUse(tokens: seq<Token>, e: Event): (use: Event)
    requires e.Define?
  {
    Reference(tokens, TokenFrom(tokens, e.start) + 2)
  }

  /** Every plain alias comes after the use of its target. */
  ghost predicate TargetsFirst(tokens: seq<Token>, events: seq<Event>) {
    forall p :: 0 <= p < |events| && IsPlainAlias(tokens, events[p]) ==> TargetUse(tokens, events[p]) in events[..p]
  }

  ghost predicate Sound(tokens: seq<Token>, events: seq<Event>, lo: nat, hi: nat) {
    AllDefineIn(tokens, events, lo, hi) && SymbolIndex.DefinedOnce(events) && TargetsFirst(tokens, events)
  }

  // ------------------------------------------------------------------ putting events together

  lemma {:induction false} TargetsFirstConcat(tokens: seq<Token>, a: seq<Event>, b: seq<Event>)
    requires TargetsFirst(tokens, a) && TargetsFirst(tokens, b)
    ensures TargetsFirst(tokens, a + b)
  {
    hide Initializer, TokenFrom, Reference;
    var all := a + b;
    forall p | 0 <= p < |all| && IsPlainAlias(tokens, all[p]) ensures TargetUse(tokens, all[p]) in all[..p] {
      if p < |a| {
        assert all[p] == a[p] && all[..p] == a[..p];
      } else {
        assert all[p] == b[p - |a|] && all[..p] == a + b[..p - |a|];
      }
    }
  }

  lemma {:induction false} DefinedOnceConcat(tokens: seq<Token>, a: seq<Event>, b: seq<Event>, lo: nat, hi: nat,
      from: nat, to: nat)
    requires AllDefineIn(tokens, a, lo, hi) && AllDefineIn(tokens, b, from, to) && (hi <= from || to <= lo)
    requires SymbolIndex.DefinedOnce(a) && SymbolIndex.DefinedOnce(b)
    ensures SymbolIndex.DefinedOnce(a + b)
  {
    hide IsNameToken, SpanAt, TokenFrom;
    var all := a + b;
    forall i, j | 0 <= i < j < |all| && all[i].Define? && all[j].Define? ensures all[i].start != all[j].start {
      if i < |a| <= j {
        assert DefinesIn(tokens, a[i], lo, hi) && DefinesIn(tokens, b[j - |a|], from, to);
      }
    }
  }

  /** Events of two separate stretches of tokens. */
  lemma {:induction false} SoundConcat(tokens: seq<Token>, a: seq<Event>, b: seq<Event>, lo: nat, hi: nat, from: nat,
      to: nat, first: nat, end: nat)
    requires Sound(tokens, a, lo, hi) && Sound(tokens, b, from, to) && (hi <= from || to <= lo)
    requires first <= lo && first <= from && hi <= end && to <= end
    ensures Sound(tokens, a + b, first, end)
  {
    TargetsFirstConcat(tokens, a, b);
    DefinedOnceConcat(tokens, a, b, lo, hi, from, to);
    hide TargetsFirst, SymbolIndex.DefinedOnce;
    var all := a + b;
    forall i | 0 <= i < |all| ensures DefinesIn(tokens, all[i], first, end) {
      if i < |a| {
        assert DefinesIn(tokens, a[i], lo, hi);
      } else {
        assert DefinesIn(tokens, b[i - |a|], from, to);
      }
    }
  }

  /** Events that define nothing fit anywhere. */
  lemma {:induction false} SoundSilent(tokens: seq<Token>, events: seq<Event>, lo: nat, hi: nat)
    requires forall i :: 0 <= i < |events| ==> !events[i].Define?
    ensures Sound(tokens, events, lo, hi)
  {
  }

  lemma {:induction false} SoundOne(tokens: seq<Token>, k: nat, kind: SymbolKind, from: nat)
    requires Ordered(tokens) && IsNameToken(tokens, k) && kind != LetSymbol
    ensures Sound(tokens, [Definition(tokens, k, kind, from)], k, k + 1)
  {
    hide Ordered, IsReserved, NameAt, TokenFrom;
    TokenIsFound(tokens, k);
  }

  /** Events inside a scope of their own. */
  lemma {:induction false} SoundScope(tokens: seq<Token>, events: seq<Event>, lo: nat, hi: nat, end: Event)
    requires Sound(tokens, events, lo, hi) && lo <= hi && !end.Define?
    ensures Sound(tokens, [PushScope] + events + [end], lo, hi)
  {
    SoundSilent(tokens, [PushScope], lo, lo);
    SoundSilent(tokens, [end], hi, hi);
    hide Sound;
    SoundConcat(tokens, [PushScope], events, lo, lo, lo, hi, lo, hi);
    SoundConcat(tokens, [PushScope] + events, [end], lo, hi, hi, hi, lo, hi);
  }

  lemma {:induction false} SoundNames(tokens: seq<Token>, at: nat, count: nat, kind: SymbolKind)
    requires Ordered(tokens) && kind != LetSymbol && forall i :: 0 <= i < count ==> IsNameToken(tokens, at + 2 * i)
    ensures Sound(tokens, NameEvents(tokens, at, count, kind), at, at + 2 * count)
    decreases count
  {
    hide Sound, Ordered, IsNameToken, Definition;
    if count == 0 {
      SoundSilent(tokens, [], at, at);
    } else {
      var k := at + 2 * (count - 1);
      SoundNames(tokens, at, count - 1, kind);
      SoundOne(tokens, k, kind, k + 1);
      SoundConcat(tokens, NameEvents(tokens, at, count - 1, kind), [Definition(tokens, k, kind, k + 1)], at, k, k,
        k + 1, at, at + 2 * count);
    }
  }

  lemma {:induction false} SoundBindings(tokens: seq<Token>, at: nat, count: nat, from: nat)
    requires Ordered(tokens) && forall i :: 0 <= i < count ==> IsNameToken(tokens, at + 2 * i)
    ensures Sound(tokens, BindingEvents(tokens, at, count, from), at, at + 2 * count)
    decreases count
  {
    hide Sound, Ordered, IsNameToken, Definition;
    if count == 0 {
      SoundSilent(tokens, [], at, at);
    } else {
      var k := at + 2 * (count - 1);
      SoundBindings(tokens, at, count - 1, from);
      SoundOne(tokens, k, LoopBindingSymbol, from);
      SoundConcat(tokens, BindingEvents(tokens, at, count - 1, from),
        [Definition(tokens, k, LoopBindingSymbol, from)], at, k, k, k + 1, at, at + 2 * count);
    }
  }

  lemma {:induction false} SoundWider(tokens: seq<Token>, events: seq<Event>, lo: nat, hi: nat, first: nat, end: nat)
    requires Sound(tokens, events, lo, hi) && first <= lo && hi <= end
    ensures Sound(tokens, events, first, end)
  {
    hide TargetsFirst, SymbolIndex.DefinedOnce, IsNameToken, TokenFrom;
  }

  // ------------------------------------------------------------------ expressions that start with a name

  /** What may follow the name that an expression starts with, inside that expression. */
  predicate Continues(k: Kind) {
    k.Operator? || k == OpenRound || k == OpenSquare
  }

  predicate IsValue(sym: Sym) {
    sym.Expression? || sym.Binary? || sym.Unary? || sym.Postfix? || sym.Primary?
  }

  /** Just a name, which it uses, or a name and something that goes on. */
  ghost predicate NameFirst(tokens: seq<Token>, at: nat, t: Tree) {
    var ks := Yield(t);
    && ks != []
    && (IsNameKind(ks[0]) ==>
          if |ks| == 1 then EventsOf(tokens, at, t) == [Reference(tokens, at)] else Continues(ks[1]))
  }

  lemma {:induction false} FirstToken(t: Tree)
    requires t.Node? && t.kids != [] && t.kids[0].Leaf?
    ensures Yield(t) != [] && Yield(t)[0] == t.kids[0].kind
  {
    hide YieldAll;
    var first, rest := t.kids[..1], t.kids[1..];
    assert t.kids == first + rest && first == [] + [t.kids[0]];
    YieldConcat(first, rest);
    YieldAppend([], t.kids[0]);
    assert YieldAll([]) == [] by { NothingYields(); }
  }

  lemma {:induction false} NothingYields()
    ensures YieldAll([]) == []
  {
  }

  /** A node over one child reads and says what the child does. */
  lemma {:induction false} OnlyChild(tokens: seq<Token>, at: nat, t: Tree)
    requires t.Node? && |t.kids| == 1 && (Silent(t.sym) || (t.sym == Primary && t.kids[0].Node?))
    ensures Yield(t) == Yield(t.kids[0]) && EventsOf(tokens, at, t) == EventsOf(tokens, at, t.kids[0])
  {
    var kids := t.kids;
    assert kids == [] + [kids[0]];
    YieldAppend([], kids[0]);
    EventsAppend(tokens, at, [], kids[0]);
    NothingYields();
    assert EventsAll(tokens, at, []) == [];
    hide EventsAll, YieldAll;
    assert EventsOf(tokens, at, t) == EventsAll(tokens, at, kids);
    assert [] + Yield(kids[0]) == Yield(kids[0]) && [] + EventsOf(tokens, at, kids[0]) == EventsOf(tokens, at, kids[0]);
  }

  /** The tokens of a node start with those of its first two children. */
  lemma {:induction false} TwoChildren(t: Tree) returns (rest: seq<Kind>)
    requires t.Node? && |t.kids| > 1
    ensures Yield(t) == Yield(t.kids[0]) + Yield(t.kids[1]) + rest
  {
    hide YieldAll;
    var kids := t.kids;
    assert kids == kids[..2] + kids[2..] && kids[..2] == [kids[0]] + [kids[1]] && [kids[0]] == [] + [kids[0]];
    YieldConcat(kids[..2], kids[2..]);
    YieldAppend([kids[0]], kids[1]);
    YieldAppend([], kids[0]);
    NothingYields();
    rest := YieldAll(kids[2..]);
    assert [] + Yield(kids[0]) == Yield(kids[0]);
  }

  /** A tail or suffix starts with a token that goes on. */
  lemma {:induction false} GoesOn(t: Tree)
    requires t.Node? && Derives(t) && (t.sym.BinaryTail? || t.sym == Suffix)
    ensures Yield(t) != [] && Continues(Yield(t)[0])
  {
    hide Yield, IsReserved;
    KidRoot(t, 0);
    if t.kids[0].Leaf? {
      FirstToken(t);
    } else {
      var call := t.kids[0];
      KidRoot(call, 0);
      FirstToken(call);
      assert Roots(t.kids) == [N(Call)];
      OnlyYield(t);
    }
  }

  lemma {:induction false} OnlyYield(t: Tree)
    requires t.Node? && |t.kids| == 1
    ensures Yield(t) == Yield(t.kids[0])
  {
    assert t.kids == [] + [t.kids[0]];
    YieldAppend([], t.kids[0]);
    NothingYields();
  }

  /** The last kinds of value: a name, or something that starts with no name. */
  lemma {:induction false} PrimaryFirst(tokens: seq<Token>, at: nat, t: Tree)
    requires t.Node? && Derives(t) && t.sym == Primary
    ensures NameFirst(tokens, at, t)
  {
    hide Yield, IsReserved, Reference, EventsOf;
    KidRoot(t, 0);
    var kid := t.kids[0];
    if kid.Leaf? {
      FirstToken(t);
      if |t.kids| == 1 {
        OnlyYield(t);
        LeafYield(kid);
        if IsNameKind(kid.kind) {
          NamePrimary(tokens, at, t);
        }
      }
    } else {
      OpensNoName(kid);
      OnlyYield(t);
    }
  }

  lemma {:induction false} NamePrimary(tokens: seq<Token>, at: nat, t: Tree)
    requires t.Node? && t.sym == Primary && |t.kids| == 1 && t.kids[0].Leaf? && IsNameKind(t.kids[0].kind)
    ensures EventsOf(tokens, at, t) == [Reference(tokens, at)]
  {
    hide IsReserved;
  }

  lemma {:induction false} OpensNoName(t: Tree)
    requires t.Node? && Derives(t) && (t.sym == Array || t.sym == Record || t.sym == Lambda)
    ensures Yield(t) != [] && !IsNameKind(Yield(t)[0])
  {
    hide Yield, IsReserved;
    KidRoot(t, 0);
    FirstToken(t);
  }

  lemma {:induction false} LeafYield(t: Tree)
    requires t.Leaf?
    ensures Yield(t) == [t.kind]
  {
  }

  /** Keywords open what is no operand. */
  lemma {:induction false} KeywordFirst(t: Tree)
    requires t.Node? && Derives(t) && (t.sym == Conditional || t.sym == TryExpression || t.sym == Loop)
    ensures Yield(t) != [] && !IsNameKind(Yield(t)[0])
  {
    hide Yield;
    KidRoot(t, 0);
    FirstToken(t);
  }

  lemma {:induction false} ValueNameFirst(tokens: seq<Token>, at: nat, t: Tree)
    requires t.Node? && Derives(t) && IsValue(t.sym)
    ensures NameFirst(tokens, at, t)
    decreases t
  {
    hide Yield, EventsOf, IsReserved, Reference;
    KidRoot(t, 0);
    var kid := t.kids[0];
    if t.sym == Primary {
      PrimaryFirst(tokens, at, t);
    } else if kid.Leaf? {
      FirstToken(t);
    } else if kid.sym == Conditional || kid.sym == TryExpression || kid.sym == Loop {
      KeywordFirst(kid);
      OnlyYield(t);
    } else {
      ValueNameFirst(tokens, at, kid);
      if |t.kids| == 1 {
        OnlyChild(tokens, at, t);
      } else {
        KidRoot(t, 1);
        GoesOn(t.kids[1]);
        var rest := TwoChildren(t);
      }
    }
  }

  // ------------------------------------------------------------------ declarations

  /** A declaration whose initializer is a bare name has used it. */
  lemma {:induction false} PlainAliasUses(tokens: seq<Token>, at: nat, t: Tree)
    requires t.Node? && t.sym == Declaration && Derives(t) && |t.kids| == 4 && Stands(tokens, at + 3, Yield(t.kids[3]))
    requires at + 4 < |tokens| && IsNameToken(tokens, at + 3) && EndsStatement(tokens[at + 4].kind)
    ensures EventsOf(tokens, at + 3, t.kids[3]) == [Reference(tokens, at + 3)]
  {
    hide Yield, EventsOf, IsReserved, Reference;
    KidRoot(t, 3);
    var value := t.kids[3];
    var ks := Yield(value);
    assert |ks| > 0 ==> tokens[at + 3 + 0].kind == ks[0];
    assert |ks| > 1 ==> tokens[at + 3 + 1].kind == ks[1];
    ValueNameFirst(tokens, at + 3, value);
  }

  lemma {:induction false} PlainTarget(tokens: seq<Token>, k: nat)
    requires Initializer(tokens, k).Some? && Initializer(tokens, k).value.fields == 0
    ensures k + 2 < |tokens| && tokens[k].kind == Operator("=") && IsNameToken(tokens, k + 1) &&
      EndsStatement(tokens[k + 2].kind)
    ensures Initializer(tokens, k).value.span == SpanAt(tokens, k + 1)
  {
    hide FieldsBehind, IsReserved;
  }

  /** Statements and programs are not followed by `=`. */
  predicate NeedsEnd(r: Root) {
    r.N? && (r.sym.Statement? || r.sym == Declaration || r.sym == Program)
  }

  predicate Closes(t: Tree, k: Kind) {
    NeedsEnd(RootOf(t)) ==> k != Operator("=")
  }

  /** The tokens of a subtree, with what may follow them. */
  ghost predicate Placed(tokens: seq<Token>, at: nat, t: Tree) {
    Derives(t) && Stands(tokens, at, Yield(t)) && Closes(t, tokens[at + |Yield(t)|].kind)
  }

  /** Only the last child is closed by what closes the node; every other one has statement ends behind it. */
  lemma {:induction false} StatementPlace(sym: Sym, r: seq<Root>, i: nat)
    requires Production(sym, r) && i < |r| && NeedsEnd(r[i])
    ensures (i == |r| - 1 && NeedsEnd(N(sym))) || (i + 1 < |r| && r[i + 1] == N(Ends))
  {
    hide Production;
    if sym == Program {
      ProgramPlace(r, i);
    } else if sym.Block? || sym == ValueBlock {
      BlockPlace(sym, r, i);
    } else if IsOperation(sym) {
      OperationPlace(sym, r, i);
    } else if IsLiteral(sym) {
      LiteralPlace(sym, r, i);
    } else {
      OtherPlace(sym, r, i);
    }
  }

  predicate IsOperation(sym: Sym) {
    sym.Binary? || sym.BinaryTail? || sym == Unary || sym == Postfix || sym == Suffix || sym == Call || sym == Exprs
  }

  predicate IsLiteral(sym: Sym) {
    || sym == Primary || sym == Array || sym == Record || sym == Members || sym == Member || sym == MemberSeparator ||
      sym == Lambda
  }

  lemma {:induction false} OperationPlace(sym: Sym, r: seq<Root>, i: nat)
    requires Production(sym, r) && i < |r| && IsOperation(sym)
    ensures !NeedsEnd(r[i])
  {
    hide IsReserved, OperatorAt;
  }

  lemma {:induction false} LiteralPlace(sym: Sym, r: seq<Root>, i: nat)
    requires Production(sym, r) && i < |r| && IsLiteral(sym)
    ensures !NeedsEnd(r[i])
  {
    hide IsReserved;
  }

  lemma {:induction false} OtherPlace(sym: Sym, r: seq<Root>, i: nat)
    requires Production(sym, r) && i < |r| && NeedsEnd(r[i])
    requires sym != Program && !sym.Block? && sym != ValueBlock && !IsOperation(sym) && !IsLiteral(sym)
    ensures (i == |r| - 1 && NeedsEnd(N(sym))) || (i + 1 < |r| && r[i + 1] == N(Ends))
  {
    hide IsReserved;
  }

  lemma {:induction false} ProgramPlace(r: seq<Root>, i: nat)
    requires Production(Program, r) && i < |r| && NeedsEnd(r[i])
    ensures i == |r| - 1 || r[i + 1] == N(Ends)
  {
  }

  lemma {:induction false} BlockPlace(sym: Sym, r: seq<Root>, i: nat)
    requires Production(sym, r) && i < |r| && (sym.Block? || sym == ValueBlock)
    ensures !NeedsEnd(r[i])
  {
  }

  /** Where a child stands. */
  lemma {:induction false} ChildStands(tokens: seq<Token>, at: nat, kids: seq<Tree>, i: nat)
    requires i < |kids| && Stands(tokens, at, YieldAll(kids))
    ensures var from := at + |YieldAll(kids[..i])|;
            && Stands(tokens, from, Yield(kids[i])) && from + |Yield(kids[i])| <= at + |YieldAll(kids)|
            && (i + 1 == |kids| ==> from + |Yield(kids[i])| == at + |YieldAll(kids)|)
            && from + |Yield(kids[i])| == at + |YieldAll(kids[..i + 1])|
  {
    hide YieldAll, Yield;
    var a, b, c := YieldAll(kids[..i]), Yield(kids[i]), YieldAll(kids[i + 1..]);
    assert kids == kids[..i + 1] + kids[i + 1..] && kids[..i + 1] == kids[..i] + [kids[i]];
    YieldConcat(kids[..i + 1], kids[i + 1..]);
    YieldAppend(kids[..i], kids[i]);
    assert YieldAll(kids) == a + b + c;
    if i + 1 == |kids| {
      assert kids[i + 1..] == [];
      NothingYields();
    }
    forall j | 0 <= j < |b| ensures tokens[at + |a| + j].kind == b[j] {
      assert tokens[at + (|a| + j)].kind == YieldAll(kids)[|a| + j];
    }
  }

  /** A token behind tokens only. */
  lemma {:induction false} LeafStands(tokens: seq<Token>, at: nat, kids: seq<Tree>, k: nat)
    requires k < |kids| && Stands(tokens, at, YieldAll(kids)) && forall i :: 0 <= i <= k ==> kids[i].Leaf?
    ensures at + k < |tokens| && tokens[at + k].kind == kids[k].kind
  {
    hide YieldAll, EventsAll;
    LeavesAreSilent(tokens, at, kids[..k]);
    ChildStands(tokens, at, kids, k);
    LeafYield(kids[k]);
    hide Yield;
    assert tokens[at + k + 0].kind == Yield(kids[k])[0];
  }

  lemma {:induction false} ChildPlaced(tokens: seq<Token>, at: nat, t: Tree, i: nat)
    requires t.Node? && Placed(tokens, at, t) && i < |t.kids|
    ensures Placed(tokens, at + |YieldAll(t.kids[..i])|, t.kids[i])
  {
    hide YieldAll, Production, Stands;
    var kids, kid := t.kids, t.kids[i];
    KidRoot(t, i);
    ChildStands(tokens, at, kids, i);
    hide Yield, Derives;
    if NeedsEnd(RootOf(kid)) {
      ChildClosed(tokens, at, t, i);
    }
  }

  lemma {:induction false} ChildClosed(tokens: seq<Token>, at: nat, t: Tree, i: nat)
    requires t.Node? && Placed(tokens, at, t) && i < |t.kids| && NeedsEnd(RootOf(t.kids[i]))
    ensures at + |YieldAll(t.kids[..i + 1])| < |tokens| &&
      tokens[at + |YieldAll(t.kids[..i + 1])|].kind != Operator("=")
  {
    hide YieldAll, Production, NeedsEnd;
    var kids := t.kids;
    KidRoot(t, i);
    ChildStands(tokens, at, kids, i);
    StatementPlace(t.sym, Roots(kids), i);
    if i + 1 < |kids| {
      KidRoot(t, i + 1);
      EndsFirst(kids[i + 1]);
      ChildStands(tokens, at, kids, i + 1);
      hide Yield, Derives;
      var from := at + |YieldAll(kids[..i + 1])|;
      assert tokens[from + 0].kind == Yield(kids[i + 1])[0];
    }
  }

  lemma {:induction false} EndsFirst(t: Tree)
    requires t.Node? && Derives(t) && t.sym == Ends
    ensures Yield(t) != [] && !Yield(t)[0].Operator?
  {
    hide Yield;
    KidRoot(t, 0);
    FirstToken(t);
  }

  // ------------------------------------------------------------------ whole trees

  lemma {:induction false} LetSound(tokens: seq<Token>, at: nat, t: Tree, value: seq<Event>)
    requires Ordered(tokens) && t.Node? && t.sym == Declaration && Placed(tokens, at, t)
    requires |t.kids| == 2 ==> value == []
    requires |t.kids| == 4 ==>
      value == EventsOf(tokens, at + 3, t.kids[3]) && Sound(tokens, value, at + 3, at + |Yield(t)|)
    requires EventsOf(tokens, at, t) == value + [Definition(tokens, at + 1, LetSymbol, at + |Yield(t)|)]
    ensures Sound(tokens, EventsOf(tokens, at, t), at, at + |Yield(t)|)
  {
    hide EventsOf, YieldAll, IsReserved, Ordered, Derives, TokenFrom, FieldsBehind, Sound, Yield, Stands;
    var end := at + |Yield(t)|;
    var own := Definition(tokens, at + 1, LetSymbol, end);
    LetTokens(tokens, at, t);
    TokenIsFound(tokens, at + 1);
    if |t.kids| == 2 {
      SoundSilent(tokens, value, at + 3, end);
    }
    if IsPlainAlias(tokens, own) {
      PlainTarget(tokens, at + 2);
      assert |t.kids| == 4;
      PlainAliasUses(tokens, at, t);
    }
    LetTold(tokens, value, own, at, end);
  }

  lemma {:induction false} LetTokens(tokens: seq<Token>, at: nat, t: Tree)
    requires t.Node? && t.sym == Declaration && Placed(tokens, at, t)
    ensures |t.kids| == 2 || |t.kids| == 4
    ensures at + 1 < at + |Yield(t)| && IsNameToken(tokens, at + 1)
    ensures |t.kids| == 2 ==> tokens[at + 2].kind != Operator("=")
    ensures |t.kids| == 4 ==> Stands(tokens, at + 3, Yield(t.kids[3])) && at + 3 <= at + |Yield(t)|
  {
    hide YieldAll, IsReserved;
    var kids := t.kids;
    forall i | 0 <= i < |kids| ensures Roots(kids)[i] == RootOf(kids[i]) {
      KidRoot(t, i);
    }
    LeafStands(tokens, at, kids, 1);
    if |kids| == 2 {
      LeavesAreSilent(tokens, at, kids);
    } else {
      LeavesAreSilent(tokens, at, kids[..3]);
      ChildStands(tokens, at, kids, 3);
    }
  }

  /** A definition behind the events of its initializer. */
  lemma {:induction false} LetTold(tokens: seq<Token>, value: seq<Event>, own: Event, at: nat, end: nat)
    requires Sound(tokens, value, at + 3, end) && own.Define? && TokenFrom(tokens, own.start) == at + 1 < end
    requires IsNameToken(tokens, at + 1) && Span(own.start, own.end) == SpanAt(tokens, at + 1)
    requires IsPlainAlias(tokens, own) ==> TargetUse(tokens, own) in value
    ensures Sound(tokens, value + [own], at, end)
  {
    hide TokenFrom, Initializer, Reference, IsReserved;
    var all := value + [own];
    assert all[..|value|] == value;
  }

  lemma {:induction false} ImportSound(tokens: seq<Token>, at: nat, t: Tree)
    requires Ordered(tokens) && t.Node? && t.sym == Import && Placed(tokens, at, t)
    ensures Sound(tokens, EventsOf(tokens, at, t), at, at + |Yield(t)|)
  {
    hide EventsOf, YieldAll, IsReserved, Ordered, Sound, Definition;
    var end := at + |Yield(t)|;
    ImportBindsLastName(tokens, at, t);
    assert IsNameToken(tokens, end - 1) by { ImportTokens(tokens, at, t); }
    SoundOne(tokens, end - 1, ImportSymbol, end);
    SoundWider(tokens, [Definition(tokens, end - 1, ImportSymbol, end)], end - 1, end, at, end);
  }

  lemma {:induction false} ImportTokens(tokens: seq<Token>, at: nat, t: Tree)
    requires t.Node? && t.sym == Import && Placed(tokens, at, t)
    ensures |Yield(t)| > 0 && IsNameToken(tokens, at + |Yield(t)| - 1)
  {
    hide YieldAll, IsReserved, Stands;
    assert Roots(t.kids) == [Keyword("use"), Keyword("mod"), Op("."), N(Path)];
    KidRoot(t, 3);
    ChildPlaced(tokens, at, t, 3);
    ChildStands(tokens, at, t.kids, 3);
    var from, path := at + |YieldAll(t.kids[..3])|, t.kids[3];
    NameTokens(tokens, from, path, Op("."));
    assert IsNameToken(tokens, from + 2 * (NameCount(|path.kids|) - 1));
  }

  /** Every other token of a list of names is a name. */
  lemma {:induction false} NameTokens(tokens: seq<Token>, at: nat, t: Tree, separator: Root)
    requires t.Node? && NameList(Roots(t.kids), separator) && separator.T? && Stands(tokens, at, Yield(t))
    ensures |Yield(t)| == |t.kids| && |t.kids| % 2 == 1
    ensures forall i :: 0 <= i < NameCount(|t.kids|) ==> IsNameToken(tokens, at + 2 * i)
  {
    hide YieldAll, IsReserved;
    var kids := t.kids;
    forall i | 0 <= i < |kids| ensures kids[i].Leaf? && (i % 2 == 0 ==> IsNameKind(kids[i].kind)) {
      assert Roots(kids)[i] == RootOf(kids[i]);
    }
    LeavesAreSilent(tokens, at, kids);
    forall i | 0 <= i < NameCount(|kids|) ensures IsNameToken(tokens, at + 2 * i) {
      var k := 2 * i;
      LeafStands(tokens, at, kids, k);
    }
  }

  lemma {:induction false} NamesSound(tokens: seq<Token>, at: nat, t: Tree)
    requires Ordered(tokens) && t.Node? && t.sym.Names? && Placed(tokens, at, t)
    ensures Sound(tokens, EventsOf(tokens, at, t), at, at + |Yield(t)|)
  {
    hide YieldAll, IsReserved, Ordered, Sound, NameEvents, Stands;
    NameTokens(tokens, at, t, T(Comma));
    var n := NameCount(|t.kids|);
    var kind := ParameterKind(t.sym.lambda);
    assert EventsOf(tokens, at, t) == NameEvents(tokens, at, n, kind);
    NamesTight(tokens, at, n, kind);
  }

  /** No token behind the last name is needed. */
  lemma {:induction false} NamesTight(tokens: seq<Token>, at: nat, count: nat, kind: SymbolKind)
    requires Ordered(tokens) && kind != LetSymbol && count > 0 && forall i :: 0 <= i < count ==>
      IsNameToken(tokens, at + 2 * i)
    ensures Sound(tokens, NameEvents(tokens, at, count, kind), at, at + 2 * count - 1)
  {
    hide Sound, Ordered, IsNameToken, Definition;
    var k := at + 2 * (count - 1);
    SoundNames(tokens, at, count - 1, kind);
    SoundOne(tokens, k, kind, k + 1);
    SoundConcat(tokens, NameEvents(tokens, at, count - 1, kind), [Definition(tokens, k, kind, k + 1)], at, k, k,
      k + 1, at, k + 1);
  }

  lemma {:induction false} FunctionSound(tokens: seq<Token>, at: nat, t: Tree)
    requires Ordered(tokens) && t.Node? && t.sym == FunctionDeclaration && Placed(tokens, at, t) && |t.kids| == 4
    requires var body := at + 2 + |Yield(t.kids[2])|;
             && Sound(tokens, EventsOf(tokens, at + 2, t.kids[2]), at + 2, body)
             && Sound(tokens, EventsOf(tokens, body, t.kids[3]), body, at + |Yield(t)|)
             && body <= at + |Yield(t)|
    ensures Sound(tokens, EventsOf(tokens, at, t), at, at + |Yield(t)|)
  {
    hide EventsOf, YieldAll, IsReserved, Ordered, Sound, Definition;
    FunctionVisibleInside(tokens, at, t);
    var body, end := at + 2 + |Yield(t.kids[2])|, at + |Yield(t)|;
    var inner := EventsOf(tokens, at + 2, t.kids[2]) + EventsOf(tokens, body, t.kids[3]);
    SoundConcat(tokens, EventsOf(tokens, at + 2, t.kids[2]), EventsOf(tokens, body, t.kids[3]), at + 2, body, body,
      end, at + 2, end);
    SoundScope(tokens, inner, at + 2, end, ScopeEnd(tokens, end));
    assert IsNameToken(tokens, at + 1) by { FunctionTokens(tokens, at, t); }
    var own := Definition(tokens, at + 1, FunctionSymbol, at + 2);
    SoundOne(tokens, at + 1, FunctionSymbol, at + 2);
    var scoped := [PushScope] + inner + [ScopeEnd(tokens, end)];
    SoundConcat(tokens, [own], scoped, at + 1, at + 2, at + 2, end, at, end);
    assert [own] + scoped == [own, PushScope] + inner + [ScopeEnd(tokens, end)];
  }

  lemma {:induction false} FunctionTokens(tokens: seq<Token>, at: nat, t: Tree)
    requires t.Node? && t.sym == FunctionDeclaration && Placed(tokens, at, t)
    ensures IsNameToken(tokens, at + 1)
  {
    hide YieldAll, IsReserved;
    KidRoot(t, 0);
    KidRoot(t, 1);
    LeafStands(tokens, at, t.kids, 1);
  }

  lemma {:induction false} ForSound(tokens: seq<Token>, at: nat, t: Tree)
    requires Ordered(tokens) && t.Node? && t.sym == Loop && Placed(tokens, at, t) && |t.kids| == 5
    requires var over := at + 2 + |Yield(t.kids[1])|;
             var body := over + |Yield(t.kids[3])|;
             && Sound(tokens, EventsOf(tokens, over, t.kids[3]), over, body)
             && Sound(tokens, EventsOf(tokens, body, t.kids[4]), body, at + |Yield(t)|)
             && body <= at + |Yield(t)|
    ensures Sound(tokens, EventsOf(tokens, at, t), at, at + |Yield(t)|)
  {
    hide EventsOf, YieldAll, IsReserved, Ordered, Sound, Definition, BindingEvents, Stands, Derives, Yield, IsNameToken;
    BindingsVisibleInBlock(tokens, at, t);
    var n := |Yield(t.kids[1])|;
    var over, end := at + 2 + n, at + |Yield(t)|;
    var body := over + |Yield(t.kids[3])|;
    var values, block := EventsOf(tokens, over, t.kids[3]), EventsOf(tokens, body, t.kids[4]);
    var bindings := BindingEvents(tokens, at + 1, NameCount(n), body);
    BindingTokens(tokens, at, t);
    SoundBindings(tokens, at + 1, NameCount(n), body);
    ScopedLoop(tokens, values, bindings, block, at, over, body, end);
  }

  lemma {:induction false} ScopedLoop(tokens: seq<Token>, values: seq<Event>, bindings: seq<Event>, block: seq<Event>,
      at: nat, over: nat, body: nat, end: nat)
    requires at < over <= body <= end && Sound(tokens, values, over, body)
    requires Sound(tokens, bindings, at + 1, over) && Sound(tokens, block, body, end)
    ensures Sound(tokens, values + [PushScope] + bindings + block + [ScopeEnd(tokens, end)], at, end)
  {
    var push, pop := [PushScope], [ScopeEnd(tokens, end)];
    SoundSilent(tokens, push, body, body);
    SoundSilent(tokens, pop, end, end);
    hide Sound, ScopeEnd;
    SoundConcat(tokens, values, push, over, body, body, body, over, body);
    SoundConcat(tokens, values + push, bindings, over, body, at + 1, over, at, body);
    SoundConcat(tokens, values + push + bindings, block, at, body, body, end, at, end);
    SoundConcat(tokens, values + push + bindings + block, pop, at, end, end, end, at, end);
  }

  lemma {:induction false} BindingTokens(tokens: seq<Token>, at: nat, t: Tree)
    requires t.Node? && t.sym == Loop && Placed(tokens, at, t) && |t.kids| == 5
    ensures var n := |Yield(t.kids[1])|;
            n % 2 == 1 && forall i :: 0 <= i < NameCount(n) ==> IsNameToken(tokens, at + 1 + 2 * i)
  {
    hide YieldAll, IsReserved, Stands;
    assert Roots(t.kids) == [Keyword("for"), N(Bindings), Keyword("in"), N(Binary(0)), N(Block(false))];
    KidRoot(t, 0);
    KidRoot(t, 1);
    assert NameList(Roots(t.kids[1].kids), T(Comma));
    hide Production, Derives, Yield;
    LeavesAreSilent(tokens, at, t.kids[..1]);
    ChildPlaced(tokens, at, t, 1);
    NameTokens(tokens, at + 1, t.kids[1], T(Comma));
  }

  /** The events of the first `n` children of a node. */
  lemma {:induction false} KidsSound(tokens: seq<Token>, at: nat, t: Tree, n: nat)
    requires Ordered(tokens) && t.Node? && Placed(tokens, at, t) && n <= |t.kids|
    ensures Sound(tokens, EventsAll(tokens, at, t.kids[..n]), at, at + |YieldAll(t.kids[..n])|)
    decreases t, 0, n
  {
    hide EventsOf, EventsAll, YieldAll, Ordered, Sound, Placed;
    var kids := t.kids;
    if n == 0 {
      assert kids[..0] == [];
      LeavesAreSilent(tokens, at, []);
      SoundSilent(tokens, [], at, at);
    } else {
      var front, kid := kids[..n - 1], kids[n - 1];
      var from := at + |YieldAll(front)|;
      KidsSound(tokens, at, t, n - 1);
      ChildPlaced(tokens, at, t, n - 1);
      TreeSound(tokens, from, kid);
      assert kids[..n] == front + [kid];
      EventsAppend(tokens, at, front, kid);
      YieldAppend(front, kid);
      SoundConcat(tokens, EventsAll(tokens, at, front), EventsOf(tokens, from, kid), at, from, from,
        from + |Yield(kid)|, at, from + |Yield(kid)|);
    }
  }

  /** The events of a derivation: every definition has a token of its own there, and every plain alias comes after the
      use of its target. */
  lemma {:induction false} TreeSound(tokens: seq<Token>, at: nat, t: Tree)
    requires Ordered(tokens) && Placed(tokens, at, t)
    ensures Sound(tokens, EventsOf(tokens, at, t), at, at + |Yield(t)|)
    decreases t, 1
  {
    hide EventsOf, EventsAll, YieldAll, Ordered, Sound, Derives, Stands, Reference;
    if t.Leaf? {
      LeafSays(tokens, at, t);
      SoundSilent(tokens, [], at, at + |Yield(t)|);
    } else if t.sym == Declaration {
      DeclarationSound(tokens, at, t);
    } else if t.sym == Import {
      ImportSound(tokens, at, t);
    } else if t.sym == FunctionDeclaration {
      FunctionParts(tokens, at, t);
    } else if t.sym.Names? {
      NamesSound(tokens, at, t);
    } else if t.sym == Loop && |t.kids| == 5 {
      ForParts(tokens, at, t);
    } else if t.sym == Primary && IsNamePrimary(t.kids) {
      NamePrimary(tokens, at, t);
      UseSound(tokens, at, at + |Yield(t)|);
    } else {
      KidsSound(tokens, at, t, |t.kids|);
      assert t.kids[..|t.kids|] == t.kids && Yield(t) == YieldAll(t.kids);
      hide Yield;
      KidsSay(tokens, at, t);
      var end := at + |Yield(t)|;
      if t.sym == Lambda || t.sym == Loop {
        SoundScope(tokens, EventsAll(tokens, at, t.kids), at, end, ScopeEnd(tokens, end));
      }
    }
  }

  lemma {:induction false} LeafSays(tokens: seq<Token>, at: nat, t: Tree)
    requires t.Leaf?
    ensures EventsOf(tokens, at, t) == []
  {
  }

  lemma {:induction false} UseSound(tokens: seq<Token>, at: nat, end: nat)
    ensures Sound(tokens, [Reference(tokens, at)], at, end)
  {
    SoundSilent(tokens, [Reference(tokens, at)], at, end);
  }

  /** Every other node says what its children say, a lambda and a loop inside a scope. */
  lemma {:induction false} KidsSay(tokens: seq<Token>, at: nat, t: Tree)
    requires t.Node? && (Silent(t.sym) || t.sym == Primary || t.sym == Lambda || t.sym == Loop)
    requires !(t.sym == Loop && |t.kids| == 5) && !(t.sym == Primary && IsNamePrimary(t.kids))
    ensures EventsOf(tokens, at, t) ==
            if t.sym == Lambda || t.sym == Loop then
              [PushScope] + EventsAll(tokens, at, t.kids) + [ScopeEnd(tokens, at + |Yield(t)|)]
            else EventsAll(tokens, at, t.kids)
  {
    hide EventsAll, YieldAll, ScopeEnd;
  }

  lemma {:induction false} DeclarationSound(tokens: seq<Token>, at: nat, t: Tree)
    requires Ordered(tokens) && t.Node? && t.sym == Declaration && Placed(tokens, at, t)
    ensures Sound(tokens, EventsOf(tokens, at, t), at, at + |Yield(t)|)
    decreases t, 0, 0
  {
    hide EventsOf, EventsAll, YieldAll, Ordered, Sound, Stands, Yield, Definition, Derives;
    LetVisibleBehind(tokens, at, t);
    var own := [Definition(tokens, at + 1, LetSymbol, at + |Yield(t)|)];
    if |t.kids| == 4 {
      LetPlaced(tokens, at, t);
      TreeSound(tokens, at + 3, t.kids[3]);
      LetSound(tokens, at, t, EventsOf(tokens, at + 3, t.kids[3]));
    } else {
      LetSound(tokens, at, t, []);
    }
  }

  lemma {:induction false} LetPlaced(tokens: seq<Token>, at: nat, t: Tree)
    requires t.Node? && t.sym == Declaration && Placed(tokens, at, t) && |t.kids| == 4
    ensures Placed(tokens, at + 3, t.kids[3]) && at + 3 + |Yield(t.kids[3])| == at + |Yield(t)|
  {
    hide EventsAll, YieldAll, Stands, IsReserved, Closes;
    forall i | 0 <= i < 3 ensures t.kids[i].Leaf? {
      KidRoot(t, i);
    }
    assert Yield(t) == YieldAll(t.kids);
    hide Derives, Yield;
    LeavesAreSilent(tokens, at, t.kids[..3]);
    ChildPlaced(tokens, at, t, 3);
    ChildStands(tokens, at, t.kids, 3);
  }

  lemma {:induction false} FunctionParts(tokens: seq<Token>, at: nat, t: Tree)
    requires Ordered(tokens) && t.Node? && t.sym == FunctionDeclaration && Placed(tokens, at, t)
    ensures Sound(tokens, EventsOf(tokens, at, t), at, at + |Yield(t)|)
    decreases t, 0, 0
  {
    hide EventsOf, EventsAll, YieldAll, Ordered, Sound, Stands, Yield, Derives;
    FunctionPlaced(tokens, at, t);
    var body := at + 2 + |Yield(t.kids[2])|;
    TreeSound(tokens, at + 2, t.kids[2]);
    TreeSound(tokens, body, t.kids[3]);
    FunctionSound(tokens, at, t);
  }

  lemma {:induction false} FunctionPlaced(tokens: seq<Token>, at: nat, t: Tree)
    requires t.Node? && t.sym == FunctionDeclaration && Placed(tokens, at, t)
    ensures |t.kids| == 4 && Placed(tokens, at + 2, t.kids[2])
    ensures var body := at + 2 + |Yield(t.kids[2])|;
            Placed(tokens, body, t.kids[3]) && body + |Yield(t.kids[3])| == at + |Yield(t)|
  {
    hide EventsAll, YieldAll, Stands, IsReserved;
    var kids := t.kids;
    assert |Roots(kids)| == 4;
    KidRoot(t, 0);
    KidRoot(t, 1);
    hide Derives;
    LeavesAreSilent(tokens, at, kids[..2]);
    ChildPlaced(tokens, at, t, 2);
    ChildStands(tokens, at, kids, 2);
    ChildPlaced(tokens, at, t, 3);
    ChildStands(tokens, at, kids, 3);
  }

  lemma {:induction false} ForParts(tokens: seq<Token>, at: nat, t: Tree)
    requires Ordered(tokens) && t.Node? && t.sym == Loop && |t.kids| == 5 && Placed(tokens, at, t)
    ensures Sound(tokens, EventsOf(tokens, at, t), at, at + |Yield(t)|)
    decreases t, 0, 0
  {
    hide EventsOf, EventsAll, YieldAll, Ordered, Sound, Stands, Yield, Derives;
    ForPlaced(tokens, at, t);
    var over := at + 2 + |Yield(t.kids[1])|;
    var body := over + |Yield(t.kids[3])|;
    TreeSound(tokens, over, t.kids[3]);
    TreeSound(tokens, body, t.kids[4]);
    ForSound(tokens, at, t);
  }

  lemma {:induction false} ForPlaced(tokens: seq<Token>, at: nat, t: Tree)
    requires t.Node? && t.sym == Loop && |t.kids| == 5 && Placed(tokens, at, t)
    ensures var over := at + 2 + |Yield(t.kids[1])|;
            var body := over + |Yield(t.kids[3])|;
            Placed(tokens, over, t.kids[3]) && Placed(tokens, body, t.kids[4]) &&
              body + |Yield(t.kids[4])| == at + |Yield(t)|
  {
    hide EventsAll, YieldAll, Stands, Derives, Closes;
    var kids := t.kids;
    ForKeywords(t);
    assert Yield(t) == YieldAll(kids);
    hide Yield;
    ForLengths(tokens, at, kids);
    ChildPlaced(tokens, at, t, 3);
    ChildPlaced(tokens, at, t, 4);
    ChildStands(tokens, at, kids, 4);
  }

  lemma {:induction false} ForKeywords(t: Tree)
    requires t.Node? && t.sym == Loop && |t.kids| == 5 && Derives(t)
    ensures t.kids[0].Leaf? && t.kids[2].Leaf?
  {
    hide IsReserved;
    assert Roots(t.kids)[0].T? && Roots(t.kids)[2].T?;
    KidRoot(t, 0);
    KidRoot(t, 2);
  }
}
