/** Where names become visible and scopes end, construct by construct, for every derivation. */
module ScopeRules {
  import opened Tokens
  import opened Grammar
  import opened LoweringPlan
  import opened LexicalEvents
  import opened SymbolEvents

  /** The events of children, the first `lead` of which are tokens. */
  lemma {:induction false} TokensFirst(tokens: seq<Token>, at: nat, kids: seq<Tree>, lead: nat)
    requires lead < |kids| && forall i :: 0 <= i < lead ==> kids[i].Leaf?
    ensures |YieldAll(kids[..lead])| == lead
    ensures EventsAll(tokens, at, kids[..lead + 1]) == EventsOf(tokens, at + lead, kids[lead])
  {
    hide EventsOf, EventsAll, YieldAll;
    LeavesAreSilent(tokens, at, kids[..lead]);
    assert kids[..lead + 1] == kids[..lead] + [kids[lead]];
    EventsAppend(tokens, at, kids[..lead], kids[lead]);
    assert [] + EventsOf(tokens, at + lead, kids[lead]) == EventsOf(tokens, at + lead, kids[lead]);
  }

  lemma {:induction false} KidRoot(t: Tree, i: nat)
    requires t.Node? && Derives(t) && i < |t.kids|
    ensures Roots(t.kids)[i] == RootOf(t.kids[i]) && Derives(t.kids[i])
  {
    hide Production;
  }

  /** A declaration says what its initializer says, and then its name is visible: not in its own initializer. */
  lemma {:induction false} LetVisibleBehind(tokens: seq<Token>, at: nat, t: Tree)
    requires t.Node? && t.sym == Declaration && Derives(t)
    ensures |t.kids| == 2 || |t.kids| == 4
    ensures var initializer := if |t.kids| == 4 then EventsOf(tokens, at + 3, t.kids[3]) else [];
            EventsOf(tokens, at, t) == initializer + [Definition(tokens, at + 1, LetSymbol, at + |Yield(t)|)]
  {
    hide EventsAll, YieldAll, IsReserved;
    var r := Roots(t.kids);
    assert DeclarationShape(r);
    forall i | 0 <= i < |t.kids| ensures r[i] == RootOf(t.kids[i]) {
      KidRoot(t, i);
    }
    if |t.kids| == 2 {
      LeavesAreSilent(tokens, at, t.kids);
    } else {
      TokensFirst(tokens, at, t.kids, 3);
      assert t.kids[..4] == t.kids;
    }
  }

  /** An import says one thing: its last name is visible behind it. */
  lemma {:induction false} ImportBindsLastName(tokens: seq<Token>, at: nat, t: Tree)
    requires t.Node? && t.sym == Import && Derives(t)
    ensures |Yield(t)| > 0
    ensures var end := at + |Yield(t)|; EventsOf(tokens, at, t) == [Definition(tokens, end - 1, ImportSymbol, end)]
  {
    hide EventsAll, YieldAll, IsReserved, Definition;
    var r := Roots(t.kids);
    assert r == [Keyword("use"), Keyword("mod"), Op("."), N(Path)];
    forall i | 0 <= i < 4 ensures r[i] == RootOf(t.kids[i]) && Derives(t.kids[i]) {
      KidRoot(t, i);
    }
    TokensFirst(tokens, at, t.kids, 3);
    assert t.kids[..4] == t.kids;
    PathIsSilent(tokens, at + 3, t.kids[3]);
    ImportIsLong(t);
    var end := at + |Yield(t)|;
    assert [] + [Definition(tokens, end - 1, ImportSymbol, end)] == [Definition(tokens, end - 1, ImportSymbol, end)];
  }

  lemma {:induction false} ImportIsLong(t: Tree)
    requires t.Node? && t.kids != [] && t.kids[0].Leaf?
    ensures |Yield(t)| > 0
  {
    SomeYield(t.kids);
  }

  lemma {:induction false} SomeYield(kids: seq<Tree>)
    requires kids != [] && kids[0].Leaf?
    ensures YieldAll(kids) != []
    decreases |kids|
  {
    if |kids| > 1 {
      SomeYield(kids[..|kids| - 1]);
    }
  }

  lemma {:induction false} PathIsSilent(tokens: seq<Token>, at: nat, t: Tree)
    requires t.Node? && t.sym == Path && Derives(t)
    ensures EventsOf(tokens, at, t) == []
  {
    hide EventsAll, IsReserved;
    assert NameList(Roots(t.kids), Op("."));
    forall i | 0 <= i < |t.kids| ensures t.kids[i].Leaf? {
      KidRoot(t, i);
    }
    LeavesAreSilent(tokens, at, t.kids);
  }

  /** A function is visible before its parameters and its body, which share a scope that ends with it. */
  lemma {:induction false} FunctionVisibleInside(tokens: seq<Token>, at: nat, t: Tree)
    requires t.Node? && t.sym == FunctionDeclaration && Derives(t)
    ensures |t.kids| == 4
    ensures var body := at + 2 + |Yield(t.kids[2])|;
            EventsOf(tokens, at, t) ==
            [Definition(tokens, at + 1, FunctionSymbol, at + 2), PushScope]
            + (EventsOf(tokens, at + 2, t.kids[2]) + EventsOf(tokens, body, t.kids[3]))
            + [ScopeEnd(tokens, at + |Yield(t)|)]
  {
    hide EventsAll, YieldAll, IsReserved, Definition, ScopeEnd;
    var r := Roots(t.kids);
    forall i | 0 <= i < 4 ensures r[i] == RootOf(t.kids[i]) {
      KidRoot(t, i);
    }
    var kids := t.kids;
    TokensFirst(tokens, at, kids, 2);
    EventsAppend(tokens, at, kids[..3], kids[3]);
    YieldAppend(kids[..2], kids[2]);
    assert kids[..3] == kids[..2] + [kids[2]] && kids[..3] + [kids[3]] == kids;
  }

  /** What a `for` iterates over is outside its scope; the bindings are visible from the first token of the block,
      and the scope ends with it. */
  lemma {:induction false} BindingsVisibleInBlock(tokens: seq<Token>, at: nat, t: Tree)
    requires t.Node? && t.sym == Loop && Derives(t) && |t.kids| == 5
    ensures var n := |Yield(t.kids[1])|;
            var body := at + 2 + n + |Yield(t.kids[3])|;
            EventsOf(tokens, at, t) ==
            EventsOf(tokens, at + 2 + n, t.kids[3])
            + [PushScope] + BindingEvents(tokens, at + 1, NameCount(n), body)
            + EventsOf(tokens, body, t.kids[4]) + [ScopeEnd(tokens, at + |Yield(t)|)]
  {
    hide EventsAll, YieldAll, IsReserved, BindingEvents, ScopeEnd;
    var r, kids := Roots(t.kids), t.kids;
    assert r == [Keyword("for"), N(Bindings), Keyword("in"), N(Binary(0)), N(Block(false))];
    forall i | 0 <= i < 5 ensures r[i] == RootOf(kids[i]) && Derives(kids[i]) {
      KidRoot(t, i);
    }
    ForLengths(tokens, at, kids);
    BindingsAreSilent(tokens, at + 1, kids[1]);
    FourKids(tokens, at, kids);
  }

  lemma {:induction false} ForLengths(tokens: seq<Token>, at: nat, kids: seq<Tree>)
    requires |kids| == 5 && kids[0].Leaf? && kids[2].Leaf?
    ensures |YieldAll(kids[..1])| == 1 && |YieldAll(kids[..2])| == 1 + |Yield(kids[1])|
    ensures |YieldAll(kids[..3])| == 2 + |Yield(kids[1])| &&
      |YieldAll(kids[..4])| == 2 + |Yield(kids[1])| + |Yield(kids[3])|
  {
    hide YieldAll;
    LeavesAreSilent(tokens, at, kids[..1]);
    assert kids[..2] == kids[..1] + [kids[1]] && kids[..3] == kids[..2] + [kids[2]] &&
      kids[..4] == kids[..3] + [kids[3]];
    YieldAppend(kids[..1], kids[1]);
    YieldAppend(kids[..2], kids[2]);
    YieldAppend(kids[..3], kids[3]);
  }

  lemma {:induction false} FourKids(tokens: seq<Token>, at: nat, kids: seq<Tree>)
    requires |kids| == 5 && kids[0].Leaf? && kids[2].Leaf? && EventsOf(tokens, at + 1, kids[1]) == []
    requires |YieldAll(kids[..1])| == 1 && |YieldAll(kids[..3])| == 2 + |Yield(kids[1])|
    ensures EventsAll(tokens, at, kids[..4]) == EventsOf(tokens, at + 2 + |Yield(kids[1])|, kids[3])
  {
    hide EventsAll, YieldAll, Yield;
    LeavesAreSilent(tokens, at, kids[..1]);
    assert kids[..2] == kids[..1] + [kids[1]] && kids[..3] == kids[..2] + [kids[2]] &&
      kids[..4] == kids[..3] + [kids[3]];
    EventsAppend(tokens, at, kids[..1], kids[1]);
    EventsAppend(tokens, at, kids[..2], kids[2]);
    EventsAppend(tokens, at, kids[..3], kids[3]);
    assert EventsOf(tokens, at + |YieldAll(kids[..2])|, kids[2]) == [];
    hide EventsOf;
    assert EventsAll(tokens, at, kids[..3]) == [];
  }

  lemma {:induction false} BindingsAreSilent(tokens: seq<Token>, at: nat, t: Tree)
    requires t.Node? && t.sym == Bindings && Derives(t)
    ensures EventsOf(tokens, at, t) == []
  {
    hide EventsAll, IsReserved;
    assert NameList(Roots(t.kids), T(Comma));
    forall i | 0 <= i < |t.kids| ensures t.kids[i].Leaf? {
      KidRoot(t, i);
    }
    LeavesAreSilent(tokens, at, t.kids);
  }

  /** The parameters of a lambda and then its body are inside a scope that ends with it. */
  lemma {:induction false} LambdaHasScope(tokens: seq<Token>, at: nat, t: Tree)
    requires t.Node? && t.sym == Lambda && Derives(t)
    ensures |t.kids| == 2 ==>
              EventsOf(tokens, at, t) ==
              [PushScope] + EventsOf(tokens, at + 1, t.kids[1]) + [ScopeEnd(tokens, at + |Yield(t)|)]
    ensures |t.kids| == 4 ==>
              var n := |Yield(t.kids[1])|;
              EventsOf(tokens, at, t) ==
              [PushScope]
              + (NameEvents(tokens, at + 1, NameCount(n), LambdaParameterSymbol) + EventsOf(tokens, at + 2 + n,
                t.kids[3]))
              + [ScopeEnd(tokens, at + |Yield(t)|)]
    ensures |t.kids| == 2 || |t.kids| == 4
  {
    hide EventsAll, YieldAll, IsReserved, NameEvents, ScopeEnd, IsBody;
    var r, kids := Roots(t.kids), t.kids;
    assert LambdaShape(r);
    forall i | 0 <= i < |kids| ensures r[i] == RootOf(kids[i]) {
      KidRoot(t, i);
    }
    TokensFirst(tokens, at, kids, 1);
    if |kids| == 2 {
      assert kids[..2] == kids;
    } else {
      ParametersAndBody(tokens, at, kids);
      KidRoot(t, 1);
      NamesAreTokens(kids[1]);
    }
  }

  lemma {:induction false} NamesAreTokens(t: Tree)
    requires t.Node? && t.sym.Names? && Derives(t)
    ensures |Yield(t)| == |t.kids|
  {
    hide IsReserved, YieldAll;
    var r := Roots(t.kids);
    forall i | 0 <= i < |t.kids| ensures t.kids[i].Leaf? {
      assert r[i] == RootOf(t.kids[i]);
    }
    LeavesAreSilent([], 0, t.kids);
  }

  lemma {:induction false} ParametersAndBody(tokens: seq<Token>, at: nat, kids: seq<Tree>)
    requires |kids| == 4 && kids[0].Leaf? && kids[2].Leaf?
    ensures EventsAll(tokens, at, kids) ==
      EventsOf(tokens, at + 1, kids[1]) + EventsOf(tokens, at + 2 + |Yield(kids[1])|, kids[3])
  {
    hide EventsAll, YieldAll, Yield;
    TokensFirst(tokens, at, kids, 1);
    assert kids[..2] == kids[..1] + [kids[1]] && kids[..3] == kids[..2] + [kids[2]] && kids == kids[..3] + [kids[3]];
    YieldAppend(kids[..1], kids[1]);
    YieldAppend(kids[..2], kids[2]);
    assert |Yield(kids[2])| == 1 by { OneToken(kids[2]); }
    EventsAppend(tokens, at, kids[..2], kids[2]);
    EventsAppend(tokens, at, kids[..3], kids[3]);
    assert EventsOf(tokens, at + |YieldAll(kids[..2])|, kids[2]) == [];
    hide EventsOf;
    assert EventsAll(tokens, at, kids[..2]) + [] == EventsAll(tokens, at, kids[..2]);
  }

  lemma {:induction false} OneToken(t: Tree)
    requires t.Leaf?
    ensures |Yield(t)| == 1
  {
  }
}
