/** What a derivation tells the symbol collector: which names it defines, where they become visible, which names it
    uses and where its scopes end. */
module SymbolEvents {
  import opened Tokens
  import opened Grammar
  import opened LoweringPlan
  import opened LexicalEvents

  function NameAt(tokens: seq<Token>, k: nat): (name: string) {
    if k < |tokens| && tokens[k].kind.Identifier? then tokens[k].kind.name else ""
  }

  /** The identifier at `k` is visible from token `from` on. */
  function Definition(tokens: seq<Token>, k: nat, kind: SymbolKind, from: nat): (e: Event) {
    Define(NameAt(tokens, k), Start(tokens, k), Finish(tokens, k), kind, Start(tokens, from))
  }

  function Reference(tokens: seq<Token>, k: nat): (e: Event) {
    Refer(NameAt(tokens, k), Start(tokens, k), Finish(tokens, k))
  }

  /** A scope that ends in front of token `k`. */
  function ScopeEnd(tokens: seq<Token>, k: nat): (e: Event) {
    PopScope(Start(tokens, k))
  }

  /** Comma-separated parameters from `at` on, each visible from the token behind it. */
  function NameEvents(tokens: seq<Token>, at: nat, count: nat, kind: SymbolKind): (events: seq<Event>)
    ensures |events| == count
  {
    if count == 0 then []
    else NameEvents(tokens, at, count - 1, kind) + [Definition(tokens, at + 2 * (count - 1), kind, at + 2 * count - 1)]
  }

  /** Comma-separated loop bindings from `at` on, all visible from token `from` on. */
  function BindingEvents(tokens: seq<Token>, at: nat, count: nat, from: nat): (events: seq<Event>)
    ensures |events| == count
  {
    if count == 0 then []
    else BindingEvents(tokens, at, count - 1,
      from) + [Definition(tokens, at + 2 * (count - 1), LoopBindingSymbol, from)]
  }

  /** How many names a comma-separated list of `length` tokens holds. */
  function NameCount(length: nat): (n: nat) {
    (length + 1) / 2
  }

  function ParameterKind(lambda: bool): (kind: SymbolKind) {
    if lambda then LambdaParameterSymbol else ParameterSymbol
  }

  /** The last token of the stretch from `at` to `end`. */
  function LastToken(at: nat, end: nat): (k: nat) {
    if end > at then end - 1 else at
  }

  predicate IsNamePrimary(kids: seq<Tree>) {
    |kids| == 1 && IsName(RootOf(kids[0]))
  }

  /** The events of a tree whose first token is `at`.

      A name is a use. An import binds its last name, and `let` its name, behind the whole statement. A function is
      visible in its own parameters and body, which have a scope. A lambda and a loop have a scope; the bindings of
      `for` are visible in its block but not in what it iterates over. */
  function EventsOf(tokens: seq<Token>, at: nat, t: Tree): (events: seq<Event>)
    decreases t, 0
  {
    if t.Leaf? then []
    else
      var end := at + |Yield(t)|;
      match t.sym
      case Primary => if IsNamePrimary(t.kids) then [Reference(tokens, at)] else EventsAll(tokens, at, t.kids)
      case Import => EventsAll(tokens, at, t.kids) + [Definition(tokens, LastToken(at, end), ImportSymbol, end)]
      case Declaration => EventsAll(tokens, at, t.kids) + [Definition(tokens, at + 1, LetSymbol, end)]
      case FunctionDeclaration =>
        [Definition(tokens, at + 1, FunctionSymbol, at + 2), PushScope] + EventsAll(tokens, at,
          t.kids) + [ScopeEnd(tokens, end)]
      case Names(lambda) => NameEvents(tokens, at, NameCount(|t.kids|), ParameterKind(lambda))
      case Lambda => [PushScope] + EventsAll(tokens, at, t.kids) + [ScopeEnd(tokens, end)]
      case Loop => LoopEvents(tokens, at, t.kids)
      case _ => EventsAll(tokens, at, t.kids)
  }

  function LoopEvents(tokens: seq<Token>, at: nat, kids: seq<Tree>): (events: seq<Event>)
    decreases kids, 2
  {
    var end := at + |YieldAll(kids)|;
    if |kids| == 5 then
      var body := at + |YieldAll(kids[..4])|;
      EventsAll(tokens, at, kids[..4])
      + [PushScope] + BindingEvents(tokens, at + 1, NameCount(|Yield(kids[1])|), body)
      + EventsOf(tokens, body, kids[4]) + [ScopeEnd(tokens, end)]
    else [PushScope] + EventsAll(tokens, at, kids) + [ScopeEnd(tokens, end)]
  }

  function EventsAll(tokens: seq<Token>, at: nat, ts: seq<Tree>): (events: seq<Event>)
    decreases ts, 1
  {
    if ts == [] then []
    else
      var front, last := ts[..|ts| - 1], ts[|ts| - 1];
      EventsAll(tokens, at, front) + EventsOf(tokens, at + |YieldAll(front)|, last)
  }

  lemma {:induction false} EventsAppend(tokens: seq<Token>, at: nat, ts: seq<Tree>, t: Tree)
    ensures EventsAll(tokens, at, ts + [t]) == EventsAll(tokens, at, ts) + EventsOf(tokens, at + |YieldAll(ts)|, t)
  {
    assert (ts + [t])[..|ts|] == ts;
  }

  lemma {:induction false} LeavesAreSilent(tokens: seq<Token>, at: nat, ts: seq<Tree>)
    requires forall i :: 0 <= i < |ts| ==> ts[i].Leaf?
    ensures EventsAll(tokens, at, ts) == [] && |YieldAll(ts)| == |ts|
    decreases |ts|
  {
    if ts != [] {
      LeavesAreSilent(tokens, at, ts[..|ts| - 1]);
    }
  }

  // ------------------------------------------------------------------ a node in progress

  /** An event of the node itself, told behind its first `after` children. */
  datatype Told = Told(after: nat, event: Event)

  /** The events of the children so far and those of the node itself, in order. */
  function Weave(tokens: seq<Token>, at: nat, kids: seq<Tree>, own: seq<Told>): (events: seq<Event>)
    decreases |kids| + |own|
  {
    if own != [] && own[|own| - 1].after >= |kids| then
      Weave(tokens, at, kids, own[..|own| - 1]) + [own[|own| - 1].event]
    else if kids == [] then []
    else
      var front, last := kids[..|kids| - 1], kids[|kids| - 1];
      Weave(tokens, at, front, own) + EventsOf(tokens, at + |YieldAll(front)|, last)
  }

  predicate ToldSoFar(own: seq<Told>, n: nat) {
    own == [] || own[|own| - 1].after <= n
  }

  lemma {:induction false} WeaveTold(tokens: seq<Token>, at: nat, kids: seq<Tree>, own: seq<Told>, e: Event)
    ensures Weave(tokens, at, kids, own + [Told(|kids|, e)]) == Weave(tokens, at, kids, own) + [e]
  {
    var more := own + [Told(|kids|, e)];
    assert more[..|more| - 1] == own;
  }

  lemma {:induction false} WeaveChild(tokens: seq<Token>, at: nat, kids: seq<Tree>, own: seq<Told>, t: Tree)
    requires ToldSoFar(own, |kids|)
    ensures Weave(tokens, at, kids + [t], own) ==
      Weave(tokens, at, kids, own) + EventsOf(tokens, at + |YieldAll(kids)|, t)
  {
    assert (kids + [t])[..|kids|] == kids;
  }

  lemma {:induction false} WeaveQuiet(tokens: seq<Token>, at: nat, kids: seq<Tree>)
    ensures Weave(tokens, at, kids, []) == EventsAll(tokens, at, kids)
    decreases |kids|
  {
    hide EventsOf;
    if kids != [] {
      WeaveQuiet(tokens, at, kids[..|kids| - 1]);
    }
  }

  /** Several events told behind the same child. */
  function ToldAll(after: nat, events: seq<Event>): (own: seq<Told>)
    ensures |own| == |events| && forall i :: 0 <= i < |events| ==> own[i] == Told(after, events[i])
  {
    seq(|events|, i requires 0 <= i < |events| => Told(after, events[i]))
  }

  lemma {:induction false} WeaveToldAll(tokens: seq<Token>, at: nat, kids: seq<Tree>, own: seq<Told>,
      events: seq<Event>)
    ensures Weave(tokens, at, kids, own + ToldAll(|kids|, events)) == Weave(tokens, at, kids, own) + events
    decreases |events|
  {
    hide Weave;
    if events == [] {
      assert own + ToldAll(|kids|, events) == own;
      assert Weave(tokens, at, kids, own) + events == Weave(tokens, at, kids, own);
    } else {
      var front, last := events[..|events| - 1], events[|events| - 1];
      assert own + ToldAll(|kids|, events) == (own + ToldAll(|kids|, front)) + [Told(|kids|, last)];
      WeaveToldAll(tokens, at, kids, own, front);
      WeaveTold(tokens, at, kids, own + ToldAll(|kids|, front), last);
      assert Weave(tokens, at, kids, own) + front + [last] == Weave(tokens, at, kids, own) + events;
    }
  }

  /** What is told in front of children that say nothing, or behind children that say nothing, is told around all. */
  lemma {:induction false} WeaveAfter(tokens: seq<Token>, at: nat, kids: seq<Tree>, lead: nat, events: seq<Event>)
    requires lead <= |kids| && forall i :: 0 <= i < lead ==> kids[i].Leaf?
    ensures Weave(tokens, at, kids, ToldAll(lead, events)) == events + EventsAll(tokens, at, kids)
    decreases |kids|
  {
    hide EventsOf;
    var own := ToldAll(lead, events);
    if |kids| == lead {
      LeavesAreSilent(tokens, at, kids);
      WeaveToldAll(tokens, at, kids, [], events);
      WeaveQuiet(tokens, at, kids);
      assert [] + own == own && [] + events == events && events + [] == events;
    } else {
      var front, last := kids[..|kids| - 1], kids[|kids| - 1];
      WeaveAfter(tokens, at, front, lead, events);
      assert kids == front + [last];
      WeaveChild(tokens, at, front, own, last);
      EventsAppend(tokens, at, front, last);
      assert events + EventsAll(tokens, at, front) + EventsOf(tokens, at + |YieldAll(front)|, last)
          == events + (EventsAll(tokens, at, front) + EventsOf(tokens, at + |YieldAll(front)|, last));
    }
  }

  // ------------------------------------------------------------------ nodes with events of their own

  /** Every other node says what its children say. */
  predicate Silent(sym: Sym) {
    !(sym.Primary? || sym.Import? || sym.Declaration? || sym.FunctionDeclaration? || sym.Names? || sym.Lambda? ||
      sym.Loop?)
  }

  lemma {:induction false} SilentNode(tokens: seq<Token>, at: nat, sym: Sym, kids: seq<Tree>)
    requires Silent(sym)
    ensures EventsOf(tokens, at, Node(sym, kids)) == Weave(tokens, at, kids, [])
  {
    hide EventsAll, Weave;
    WeaveQuiet(tokens, at, kids);
  }

  lemma {:induction false} PrimaryEvents(tokens: seq<Token>, at: nat, kids: seq<Tree>)
    ensures IsNamePrimary(kids) ==>
      EventsOf(tokens, at, Node(Primary, kids)) == Weave(tokens, at, kids, [Told(1, Reference(tokens, at))])
    ensures !IsNamePrimary(kids) ==> EventsOf(tokens, at, Node(Primary, kids)) == Weave(tokens, at, kids, [])
  {
    WeaveQuiet(tokens, at, kids);
    if IsNamePrimary(kids) {
      LeavesAreSilent(tokens, at, kids);
      WeaveTold(tokens, at, kids, [], Reference(tokens, at));
      hide Weave, EventsAll, Reference;
      assert [] + [Told(1, Reference(tokens, at))] == [Told(1, Reference(tokens, at))];
      assert [] + [Reference(tokens, at)] == [Reference(tokens, at)];
    }
  }

  lemma {:induction false} ImportNode(tokens: seq<Token>, at: nat, kids: seq<Tree>)
    requires YieldAll(kids) != []
    ensures var end := at + |YieldAll(kids)|;
            EventsOf(tokens, at, Node(Import, kids)) ==
              Weave(tokens, at, kids, [Told(|kids|, Definition(tokens, end - 1, ImportSymbol, end))])
  {
    var end := at + |YieldAll(kids)|;
    OneBehind(tokens, at, kids, Definition(tokens, end - 1, ImportSymbol, end));
    hide Weave, EventsAll;
  }

  lemma {:induction false} DeclarationNode(tokens: seq<Token>, at: nat, kids: seq<Tree>)
    ensures var end := at + |YieldAll(kids)|;
            EventsOf(tokens, at, Node(Declaration, kids)) ==
              Weave(tokens, at, kids, [Told(|kids|, Definition(tokens, at + 1, LetSymbol, end))])
  {
    OneBehind(tokens, at, kids, Definition(tokens, at + 1, LetSymbol, at + |YieldAll(kids)|));
    hide Weave, EventsAll;
  }

  lemma {:induction false} OneBehind(tokens: seq<Token>, at: nat, kids: seq<Tree>, e: Event)
    ensures Weave(tokens, at, kids, [Told(|kids|, e)]) == EventsAll(tokens, at, kids) + [e]
  {
    hide Weave, EventsAll;
    WeaveQuiet(tokens, at, kids);
    WeaveTold(tokens, at, kids, [], e);
    assert [] + [Told(|kids|, e)] == [Told(|kids|, e)];
  }

  /** Events in front of all children and one behind them. */
  lemma {:induction false} Around(tokens: seq<Token>, at: nat, kids: seq<Tree>, lead: nat, before: seq<Event>, e: Event)
    requires lead <= |kids| && forall i :: 0 <= i < lead ==> kids[i].Leaf?
    ensures Weave(tokens, at, kids, ToldAll(lead, before) + [Told(|kids|, e)]) ==
      before + EventsAll(tokens, at, kids) + [e]
  {
    hide Weave, EventsAll;
    WeaveAfter(tokens, at, kids, lead, before);
    WeaveTold(tokens, at, kids, ToldAll(lead, before), e);
  }

  lemma {:induction false} FunctionNode(tokens: seq<Token>, at: nat, kids: seq<Tree>)
    requires |kids| >= 2 && kids[0].Leaf? && kids[1].Leaf?
    ensures var end := at + |YieldAll(kids)|;
            EventsOf(tokens, at, Node(FunctionDeclaration, kids)) ==
            Weave(tokens, at, kids, [Told(2, Definition(tokens, at + 1, FunctionSymbol, at + 2)), Told(2, PushScope),
              Told(|kids|, ScopeEnd(tokens, end))])
  {
    var end := at + |YieldAll(kids)|;
    var before := [Definition(tokens, at + 1, FunctionSymbol, at + 2), PushScope];
    Around(tokens, at, kids, 2, before, ScopeEnd(tokens, end));
    hide Weave, EventsAll, Definition, ScopeEnd;
    assert ToldAll(2, before) + [Told(|kids|, ScopeEnd(tokens, end))]
        == [Told(2, before[0]), Told(2, PushScope), Told(|kids|, ScopeEnd(tokens, end))];
  }

  lemma {:induction false} LambdaNode(tokens: seq<Token>, at: nat, kids: seq<Tree>)
    ensures var end := at + |YieldAll(kids)|;
            EventsOf(tokens, at, Node(Lambda, kids)) ==
              Weave(tokens, at, kids, [Told(0, PushScope), Told(|kids|, ScopeEnd(tokens, end))])
  {
    var end := at + |YieldAll(kids)|;
    Around(tokens, at, kids, 0, [PushScope], ScopeEnd(tokens, end));
    hide Weave, EventsAll, ScopeEnd;
    assert ToldAll(0, [PushScope]) + [Told(|kids|, ScopeEnd(tokens, end))] ==
      [Told(0, PushScope), Told(|kids|, ScopeEnd(tokens, end))];
  }

  /** `loop` and `while`: the scope starts behind the keyword. */
  lemma {:induction false} LoopNode(tokens: seq<Token>, at: nat, kids: seq<Tree>)
    requires 1 <= |kids| != 5 && kids[0].Leaf?
    ensures var end := at + |YieldAll(kids)|;
            EventsOf(tokens, at, Node(Loop, kids)) ==
              Weave(tokens, at, kids, [Told(1, PushScope), Told(|kids|, ScopeEnd(tokens, end))])
  {
    var end := at + |YieldAll(kids)|;
    Around(tokens, at, kids, 1, [PushScope], ScopeEnd(tokens, end));
    hide Weave, EventsAll, ScopeEnd;
    assert ToldAll(1, [PushScope]) + [Told(|kids|, ScopeEnd(tokens, end))] ==
      [Told(1, PushScope), Told(|kids|, ScopeEnd(tokens, end))];
  }

  /** What a `for` tells between its iterable and its block. */
  function ForOpening(tokens: seq<Token>, at: nat, count: nat, body: nat): (own: seq<Told>) {
    Snoc([], Told(4, PushScope)) + ToldAll(4, BindingEvents(tokens, at + 1, count, body))
  }

  lemma {:induction false} ForNode(tokens: seq<Token>, at: nat, kids: seq<Tree>)
    requires |kids| == 5
    ensures var end := at + |YieldAll(kids)|;
            var body := at + |YieldAll(kids[..4])|;
            EventsOf(tokens, at, Node(Loop, kids)) ==
            Weave(tokens, at, kids, ForOpening(tokens, at, NameCount(|Yield(kids[1])|),
              body) + [Told(5, ScopeEnd(tokens, end))])
  {
    hide EventsAll, Weave, Yield, YieldAll, BindingEvents, ScopeEnd;
    var front, last := kids[..4], kids[4];
    var end := at + |YieldAll(kids)|;
    var body := at + |YieldAll(front)|;
    var bindings := BindingEvents(tokens, at + 1, NameCount(|Yield(kids[1])|), body);
    var own := ForOpening(tokens, at, NameCount(|Yield(kids[1])|), body);
    assert own == [] + ToldAll(4, [PushScope] + bindings);
    WeaveToldAll(tokens, at, front, [], [PushScope] + bindings);
    WeaveQuiet(tokens, at, front);
    assert kids == front + [last];
    WeaveChild(tokens, at, front, own, last);
    WeaveTold(tokens, at, kids, own, ScopeEnd(tokens, end));
    var inner, block := EventsAll(tokens, at, front), EventsOf(tokens, body, last);
    assert EventsOf(tokens, at, Node(Loop, kids)) == LoopEvents(tokens, at, kids);
    assert inner + [PushScope] + bindings + block + [ScopeEnd(tokens, end)] ==
      inner + ([PushScope] + bindings) + block + [ScopeEnd(tokens, end)];
  }

  /** What a list of parameters tells: each name behind itself. */
  function ToldNames(tokens: seq<Token>, at: nat, count: nat, kind: SymbolKind): (own: seq<Told>)
    ensures |own| == count && (count > 0 ==> own[count - 1].after == 2 * count - 1)
  {
    if count == 0 then []
    else Snoc(ToldNames(tokens, at, count - 1, kind),
      Told(2 * count - 1, Definition(tokens, at + 2 * (count - 1), kind, at + 2 * count - 1)))
  }

  lemma {:induction false} NamesWoven(tokens: seq<Token>, at: nat, kids: seq<Tree>, count: nat, kind: SymbolKind)
    requires forall i :: 0 <= i < |kids| ==> kids[i].Leaf?
    requires |kids| == 2 * count - 1 || |kids| == 2 * count
    ensures Weave(tokens, at, kids, ToldNames(tokens, at, count, kind)) == NameEvents(tokens, at, count, kind)
    decreases |kids|
  {
    hide Definition;
    var own := ToldNames(tokens, at, count, kind);
    if |kids| == 2 * count {
      if kids != [] {
        var front := kids[..|kids| - 1];
        NamesWoven(tokens, at, front, count, kind);
        assert kids == front + [kids[|kids| - 1]];
        WeaveChild(tokens, at, front, own, kids[|kids| - 1]);
        assert NameEvents(tokens, at, count, kind) + [] == NameEvents(tokens, at, count, kind);
      }
    } else {
      NamesBefore(tokens, at, kids, count, kind);
      WeaveTold(tokens, at, kids, ToldNames(tokens, at, count - 1, kind),
        Definition(tokens, at + 2 * (count - 1), kind, at + 2 * count - 1));
    }
  }

  /** Behind a name but before it is told. */
  lemma {:induction false} NamesBefore(tokens: seq<Token>, at: nat, kids: seq<Tree>, count: nat, kind: SymbolKind)
    requires forall i :: 0 <= i < |kids| ==> kids[i].Leaf?
    requires |kids| == 2 * count - 1
    ensures Weave(tokens, at, kids, ToldNames(tokens, at, count - 1, kind)) == NameEvents(tokens, at, count - 1, kind)
    decreases |kids|, 0
  {
    hide Definition;
    var own := ToldNames(tokens, at, count - 1, kind);
    var front := kids[..|kids| - 1];
    NamesWoven(tokens, at, front, count - 1, kind);
    assert kids == front + [kids[|kids| - 1]];
    WeaveChild(tokens, at, front, own, kids[|kids| - 1]);
    assert NameEvents(tokens, at, count - 1, kind) + [] == NameEvents(tokens, at, count - 1, kind);
  }

  lemma {:induction false} NamesNode(tokens: seq<Token>, at: nat, kids: seq<Tree>, lambda: bool)
    requires |kids| % 2 == 1 && forall i :: 0 <= i < |kids| ==> kids[i].Leaf?
    ensures EventsOf(tokens, at, Node(Names(lambda), kids)) ==
      Weave(tokens, at, kids, ToldNames(tokens, at, NameCount(|kids|), ParameterKind(lambda)))
  {
    NamesWoven(tokens, at, kids, NameCount(|kids|), ParameterKind(lambda));
    hide Weave, NameEvents;
  }
}
