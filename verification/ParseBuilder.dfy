/** The derivation tree, the lowering log and the symbol events grown beside a parse. */
module ParseBuilder {
  import opened Tokens
  import opened Grammar
  import opened Choices
  import opened LoweringPlan
  import opened LexicalEvents
  import opened SymbolEvents

  /** The children of the node in progress with their roots, the token it starts at, the logs and events when it
      started, and the events it told itself. */
  datatype Builder = Builder(
    start: nat, kids: seq<Tree>, roots: seq<Root>, seps0: seq<nat>, tails0: seq<Edit>, events0: seq<Event>,
      own: seq<Told>)

  function KindsOf(tokens: seq<Token>): (ks: seq<Kind>)
    ensures |ks| == |tokens| && forall i :: 0 <= i < |tokens| ==> ks[i] == tokens[i].kind
  {
    seq(|tokens|, i requires 0 <= i < |tokens| => tokens[i].kind)
  }

  ghost predicate Logged(tokens: seq<Token>, b: Builder, plan: seq<Mark>, seps: seq<nat>, tails: seq<Edit>)
    requires b.start < |tokens|
  {
    && NoneAbove(b.seps0, tokens[b.start].start)
    && seps == b.seps0 + Separators(tokens, b.start, plan)
    && tails == b.tails0 + TailEdits(tokens, b.start, plan)
  }

  /** The children derive exactly the tokens since `start`, and the logs hold exactly their
      edits, which are all aimed at real tokens. */
  ghost predicate Fits(tokens: seq<Token>, index: nat, b: Builder, seps: seq<nat>, tails: seq<Edit>) {
    && b.start <= index < |tokens|
    && YieldAll(b.kids) == KindsOf(tokens)[b.start..index]
    && AllDerive(b.kids) && b.roots == Roots(b.kids)
    && Aimed(tokens, b.start, PlanAll(b.kids))
    && (Ordered(tokens) ==> Logged(tokens, b, PlanAll(b.kids), seps, tails))
  }

  datatype Stack = Bottom | Enclosing(top: Builder, below: Stack)

  /** The builders of the enclosing nodes fit as well, each up to where the next one starts; the
      outermost starts at the first token with empty logs. */
  ghost predicate Chain(tokens: seq<Token>, index: nat, b: Builder, stack: Stack, seps: seq<nat>, tails: seq<Edit>)
    decreases stack
  {
    && Fits(tokens, index, b, seps, tails)
    && (stack.Bottom? ==> b.start == 0 && b.seps0 == [] && b.tails0 == [])
    && (stack.Enclosing? ==> Chain(tokens, b.start, stack.top, stack.below, b.seps0, b.tails0))
  }

  /** The events told are those of the children and of the nodes in progress, in order. */
  ghost predicate Telling(tokens: seq<Token>, b: Builder, stack: Stack, events: seq<Event>)
    decreases stack
  {
    && ToldSoFar(b.own, |b.kids|)
    && events == b.events0 + Weave(tokens, b.start, b.kids, b.own)
    && (stack.Bottom? ==> b.events0 == [])
    && (stack.Enclosing? ==> Telling(tokens, stack.top, stack.below, b.events0))
  }

  /** Every choice made in the children so far was forced. */
  ghost predicate Forcing(tokens: seq<Token>, b: Builder, stack: Stack)
    decreases stack
  {
    ForcedAll(KindsOf(tokens), b.start, b.kids) && (stack.Enclosing? ==> Forcing(tokens, stack.top, stack.below))
  }

  /** The node in progress has to end here, and may stand where it does. */
  predicate MayClose(tokens: seq<Token>, index: nat, b: Builder, stack: Stack, sym: Sym) {
    && Halts(sym, b.roots, KindsOf(tokens), index)
    && (stack.Enclosing? && sym.Expression? ==>
          b.start < |tokens| && NoBlockHere(stack.top.roots, tokens[b.start].kind))
  }

  function Opened(index: nat, seps: seq<nat>, tails: seq<Edit>, events: seq<Event>): (b: Builder) {
    Builder(index, [], [], seps, tails, events, [])
  }

  /** The node in progress tells an event. */
  function Tells(b: Builder, e: Event): (r: Builder) {
    b.(own := Snoc(b.own, Told(|b.kids|, e)))
  }

  function Closed(outer: Builder, b: Builder, sym: Sym): (r: Builder) {
    Extended(outer, Node(sym, b.kids))
  }

  function Extended(b: Builder, t: Tree): (r: Builder) {
    b.(kids := b.kids + [t], roots := Snoc(b.roots, RootOf(t)))
  }

  /** The children and one more. */
  predicate OneMore(a: seq<Tree>, b: seq<Tree>) {
    |b| == |a| + 1 && b[..|a|] == a
  }

  /** A node whose plan is that of its children. */
  predicate Ordinary(sym: Sym) {
    !sym.Line? && sym != Block(true)
  }

  lemma {:induction false} SlicesMeet(ks: seq<Kind>, i: nat, j: nat, k: nat)
    requires i <= j <= k <= |ks|
    ensures ks[i..j] + ks[j..k] == ks[i..k]
  {
  }

  lemma {:induction false} FitsOpened(tokens: seq<Token>, index: nat, outer: Builder, seps: seq<nat>,
      tails: seq<Edit>, events: seq<Event>)
    requires Fits(tokens, index, outer, seps, tails)
    ensures Fits(tokens, index, Opened(index, seps, tails, events), seps, tails)
  {
    hide PlanOf, Derives, Yield, Separators, TailEdits;
    NothingYet(tokens, index);
    if Ordered(tokens) {
      LogBound(tokens, index, outer, seps, tails);
      hide Ordered, Fits, NoneAbove;
      assert seps + [] == seps && tails + [] == tails;
    }
  }

  lemma {:induction false} NothingYet(tokens: seq<Token>, index: nat)
    requires index <= |tokens|
    ensures YieldAll([]) == KindsOf(tokens)[index..index] && AllDerive([]) && Roots([]) == []
    ensures PlanAll([]) == [] && Separators(tokens, index, []) == [] && TailEdits(tokens, index, []) == []
  {
  }

  /** No separator logged so far lies beyond the current token. */
  lemma {:induction false} LogBound(tokens: seq<Token>, index: nat, b: Builder, seps: seq<nat>, tails: seq<Edit>)
    requires Fits(tokens, index, b, seps, tails) && Ordered(tokens)
    ensures NoneAbove(seps, tokens[index].start)
  {
    hide PlanAll, PlanOf, Derives, Yield, Separators, TailEdits;
    PlanAllLength(b.kids);
    SeparatorsBound(tokens, b.start, PlanAll(b.kids));
    assert tokens[b.start].start <= tokens[index].start;
  }

  lemma {:induction false} DerivesAppend(ts: seq<Tree>, t: Tree)
    requires AllDerive(ts) && Derives(t)
    ensures AllDerive(ts + [t])
  {
    hide Derives;
  }

  /** A child whose plan is `p` extends the builder by `p`. */
  lemma {:induction false} FitsAppend(tokens: seq<Token>, mid: nat, index: nat, outer: Builder, seps0: seq<nat>,
      tails0: seq<Edit>,
                   t: Tree, seps: seq<nat>, tails: seq<Edit>)
    requires mid <= index && Fits(tokens, mid, outer, seps0, tails0)
    requires index < |tokens| && Derives(t) && Yield(t) == KindsOf(tokens)[mid..index] && Aimed(tokens, mid, PlanOf(t))
    requires Ordered(tokens) ==>
      seps == seps0 + Separators(tokens, mid, PlanOf(t)) && tails == tails0 + TailEdits(tokens, mid, PlanOf(t))
    ensures Fits(tokens, index, Extended(outer, t), seps, tails)
  {
    hide Derives, Yield, PlanOf, Separators, TailEdits, AllDerive, Aimed;
    PlanAppend(outer.kids, t);
    PlanAllLength(outer.kids);
    AimedConcat(tokens, outer.start, PlanAll(outer.kids), PlanOf(t));
    YieldAppend(outer.kids, t);
    SlicesMeet(KindsOf(tokens), outer.start, mid, index);
    DerivesAppend(outer.kids, t);
    assert Roots(outer.kids + [t]) == Roots(outer.kids) + [RootOf(t)];
    if Ordered(tokens) {
      SeparatorsConcat(tokens, outer.start, PlanAll(outer.kids), PlanOf(t));
      TailEditsConcat(tokens, outer.start, PlanAll(outer.kids), PlanOf(t));
    }
  }

  lemma {:induction false} FitsLeaf(tokens: seq<Token>, index: nat, b: Builder, seps: seq<nat>, tails: seq<Edit>)
    requires Fits(tokens, index, b, seps, tails) && index + 1 < |tokens|
    ensures Fits(tokens, index + 1, Extended(b, Leaf(tokens[index].kind)), seps, tails)
  {
    var t := Leaf(tokens[index].kind);
    LeafPlan(tokens, index, t);
    assert seps + [] == seps && tails + [] == tails;
    assert KindsOf(tokens)[index..index + 1] == [tokens[index].kind];
    hide Fits, Ordered;
    FitsAppend(tokens, index, index + 1, b, seps, tails, t, seps, tails);
  }

  lemma {:induction false} LeafPlan(tokens: seq<Token>, index: nat, t: Tree)
    requires t.Leaf?
    ensures Separators(tokens, index, PlanOf(t)) == [] && TailEdits(tokens, index, PlanOf(t)) == []
    ensures Aimed(tokens, index, PlanOf(t))
  {
    PlainEdits(tokens, index, 1);
    assert PlanOf(t) == Plains(1);
  }

  lemma {:induction false} FitsNode(tokens: seq<Token>, index: nat, outer: Builder, b: Builder, sym: Sym,
      seps: seq<nat>, tails: seq<Edit>)
    requires Fits(tokens, b.start, outer, b.seps0, b.tails0) && Fits(tokens, index, b, seps, tails)
    requires Production(sym, b.roots) && Ordinary(sym)
    ensures Fits(tokens, index, Closed(outer, b, sym), seps, tails)
  {
    var t := Node(sym, b.kids);
    NodeDerives(sym, b.kids);
    assert Yield(t) == YieldAll(b.kids) && PlanOf(t) == PlanAll(b.kids);
    hide Production, PlanOf, PlanAll, Yield, YieldAll, Derives;
    FitsAppend(tokens, b.start, index, outer, b.seps0, b.tails0, t, seps, tails);
  }

  lemma {:induction false} NodeDerives(sym: Sym, kids: seq<Tree>)
    requires Production(sym, Roots(kids)) && AllDerive(kids)
    ensures Derives(Node(sym, kids))
  {
    hide Production;
  }

  lemma {:induction false} ChainOpened(tokens: seq<Token>, index: nat, b: Builder, stack: Stack, seps: seq<nat>,
      tails: seq<Edit>,
                                       events: seq<Event>)
    requires Chain(tokens, index, b, stack, seps, tails)
    ensures Chain(tokens, index, Opened(index, seps, tails, events), Enclosing(b, stack), seps, tails)
  {
    FitsOpened(tokens, index, b, seps, tails, events);
  }

  // ------------------------------------------------------------------ choices

  lemma {:induction false} ForcingOpened(tokens: seq<Token>, index: nat, b: Builder, stack: Stack, seps: seq<nat>,
      tails: seq<Edit>, events: seq<Event>)
    requires Forcing(tokens, b, stack)
    ensures Forcing(tokens, Opened(index, seps, tails, events), Enclosing(b, stack))
  {
  }

  lemma {:induction false} ForcingTells(tokens: seq<Token>, b: Builder, stack: Stack, e: Event)
    requires Forcing(tokens, b, stack)
    ensures Forcing(tokens, Tells(b, e), stack)
  {
  }

  lemma {:induction false} ForcingLeaf(tokens: seq<Token>, b: Builder, stack: Stack, k: Kind)
    requires Forcing(tokens, b, stack)
    ensures Forcing(tokens, Extended(b, Leaf(k)), stack)
  {
    hide ForcedAll;
    ForcedAppend(KindsOf(tokens), b.start, b.kids, Leaf(k));
  }

  lemma {:induction false} ForcingClosed(tokens: seq<Token>, index: nat, b: Builder, stack: Stack, sym: Sym,
      seps: seq<nat>, tails: seq<Edit>)
    requires stack.Enclosing? && Chain(tokens, index, b, stack, seps, tails) && Forcing(tokens, b, stack)
    requires MayClose(tokens, index, b, stack, sym)
    ensures Forcing(tokens, Closed(stack.top, b, sym), stack.below)
  {
    hide ForcedAll, AllDerive, Aimed, Logged, Halts, NoBlockHere;
    var top := stack.top;
    assert |YieldAll(top.kids)| == |KindsOf(tokens)[top.start..b.start]|;
    assert |YieldAll(b.kids)| == |KindsOf(tokens)[b.start..index]|;
    hide YieldAll;
    ForcedAppend(KindsOf(tokens), top.start, top.kids, Node(sym, b.kids));
  }

  /** A conditional block is completed behind its closing brace. */
  lemma {:induction false} ForcingBranch(tokens: seq<Token>, index: nat, b: Builder, stack: Stack, seps: seq<nat>,
      tails: seq<Edit>)
    requires stack.Enclosing? && Chain(tokens, index, b, stack, seps, tails) && Forcing(tokens, b, stack)
    requires index + 1 < |tokens| && tokens[index].kind == CloseCurly
    ensures Forcing(tokens, Closed(stack.top, Extended(b, Leaf(CloseCurly)), Block(true)), stack.below)
  {
    hide Chain, Forcing;
    ChainLeaf(tokens, index, b, stack, seps, tails);
    ForcingLeaf(tokens, b, stack, CloseCurly);
    ForcingClosed(tokens, index + 1, Extended(b, Leaf(CloseCurly)), stack, Block(true), seps, tails);
  }

  // ------------------------------------------------------------------ events

  lemma {:induction false} TellingOpened(tokens: seq<Token>, index: nat, b: Builder, stack: Stack, seps: seq<nat>,
      tails: seq<Edit>,
                                         events: seq<Event>)
    requires Telling(tokens, b, stack, events)
    ensures Telling(tokens, Opened(index, seps, tails, events), Enclosing(b, stack), events)
  {
    hide EventsOf;
    assert Weave(tokens, index, [], []) == [];
    assert events + [] == events;
  }

  lemma {:induction false} TellingEvent(tokens: seq<Token>, b: Builder, stack: Stack, events: seq<Event>, e: Event)
    requires Telling(tokens, b, stack, events)
    ensures Telling(tokens, Tells(b, e), stack, events + [e])
  {
    hide Weave;
    WeaveTold(tokens, b.start, b.kids, b.own, e);
    assert b.events0 + (Weave(tokens, b.start, b.kids, b.own) + [e]) == events + [e];
  }

  lemma {:induction false} ChainTells(tokens: seq<Token>, index: nat, b: Builder, stack: Stack, seps: seq<nat>,
      tails: seq<Edit>, e: Event)
    requires Chain(tokens, index, b, stack, seps, tails)
    ensures Chain(tokens, index, Tells(b, e), stack, seps, tails)
  {
    hide AllDerive, YieldAll, Aimed, PlanAll;
  }

  /** A child that starts where the children so far end. */
  lemma {:induction false} TellingChild(tokens: seq<Token>, index: nat, b: Builder, stack: Stack, events: seq<Event>,
      t: Tree)
    requires Telling(tokens, b, stack, events) && b.start + |YieldAll(b.kids)| == index
    ensures Telling(tokens, Extended(b, t), stack, events + EventsOf(tokens, index, t))
  {
    hide Weave, EventsOf, YieldAll;
    WeaveChild(tokens, b.start, b.kids, b.own, t);
    assert b.events0 + (Weave(tokens, b.start, b.kids, b.own) + EventsOf(tokens, index, t)) ==
      events + EventsOf(tokens, index, t);
  }

  lemma {:induction false} TellingLeaf(tokens: seq<Token>, index: nat, b: Builder, stack: Stack, seps: seq<nat>,
      tails: seq<Edit>,
                                       events: seq<Event>, k: Kind)
    requires Chain(tokens, index, b, stack, seps, tails) && Telling(tokens, b, stack, events)
    ensures Telling(tokens, Extended(b, Leaf(k)), stack, events)
  {
    hide Weave, Telling, AllDerive, Aimed, Logged;
    assert |YieldAll(b.kids)| == |KindsOf(tokens)[b.start..index]|;
    hide YieldAll;
    assert EventsOf(tokens, index, Leaf(k)) == [];
    TellingChild(tokens, index, b, stack, events, Leaf(k));
    assert events + [] == events;
  }

  /** The node in progress said what its tree says. */
  ghost predicate Spoken(tokens: seq<Token>, b: Builder, sym: Sym) {
    Weave(tokens, b.start, b.kids, b.own) == EventsOf(tokens, b.start, Node(sym, b.kids))
  }

  lemma {:induction false} SilentSpoken(tokens: seq<Token>, b: Builder, sym: Sym)
    requires Silent(sym) && b.own == []
    ensures Spoken(tokens, b, sym)
  {
    hide Weave, EventsOf;
    SilentNode(tokens, b.start, sym, b.kids);
  }

  lemma {:induction false} TellingClosed(tokens: seq<Token>, index: nat, b: Builder, stack: Stack, sym: Sym,
      seps: seq<nat>, tails: seq<Edit>,
                                         events: seq<Event>)
    requires stack.Enclosing? && Chain(tokens, index, b, stack, seps, tails) && Telling(tokens, b, stack, events) &&
      Spoken(tokens, b, sym)
    ensures Telling(tokens, Closed(stack.top, b, sym), stack.below, events)
  {
    hide Weave, EventsOf, AllDerive, Aimed, Logged;
    var top := stack.top;
    assert |YieldAll(top.kids)| == |KindsOf(tokens)[top.start..b.start]|;
    hide YieldAll;
    TellingChild(tokens, b.start, top, stack.below, b.events0, Node(sym, b.kids));
  }

  /** A conditional block is completed behind its closing brace. */
  lemma {:induction false} TellingBranch(tokens: seq<Token>, index: nat, b: Builder, stack: Stack, seps: seq<nat>,
      tails: seq<Edit>,
                                         events: seq<Event>)
    requires stack.Enclosing? && Chain(tokens, index, b, stack, seps, tails) && Telling(tokens, b, stack, events) &&
      b.own == []
    requires index + 1 < |tokens| && tokens[index].kind == CloseCurly
    ensures Telling(tokens, Closed(stack.top, Extended(b, Leaf(CloseCurly)), Block(true)), stack.below, events)
  {
    hide Chain, Telling, Spoken;
    var c := Extended(b, Leaf(CloseCurly));
    ChainLeaf(tokens, index, b, stack, seps, tails);
    TellingLeaf(tokens, index, b, stack, seps, tails, events, CloseCurly);
    SilentSpoken(tokens, c, Block(true));
    TellingClosed(tokens, index + 1, c, stack, Block(true), seps, tails, events);
  }

  // ------------------------------------------------------------------ nodes that tell events of their own

  lemma {:induction false} PrimarySpoken(tokens: seq<Token>, b: Builder)
    requires b.roots == Roots(b.kids)
    requires b.own == if |b.roots| == 1 && IsName(b.roots[0]) then Snoc([], Told(1, Reference(tokens, b.start))) else []
    ensures Spoken(tokens, b, Primary)
  {
    hide Weave, EventsOf, IsReserved, Reference;
    assert Snoc([], Told(1, Reference(tokens, b.start))) == [Told(1, Reference(tokens, b.start))];
    PrimaryEvents(tokens, b.start, b.kids);
  }

  lemma {:induction false} ImportSpoken(tokens: seq<Token>, index: nat, b: Builder)
    requires b.start + |YieldAll(b.kids)| == index && b.roots == Roots(b.kids)
    requires b.roots == Four(Keyword("use"), Keyword("mod"), Op("."), N(Path))
    requires index > 0 && b.own == Snoc([], Told(4, Definition(tokens, index - 1, ImportSymbol, index)))
    ensures Spoken(tokens, b, Import)
  {
    hide Weave, EventsOf, Definition;
    assert RootOf(b.kids[0]) == b.roots[0] == Keyword("use");
    FirstLeaf(b.kids);
    hide YieldAll;
    assert b.own == [Told(4, Definition(tokens, index - 1, ImportSymbol, index))];
    ImportNode(tokens, b.start, b.kids);
  }

  lemma {:induction false} FirstLeaf(kids: seq<Tree>)
    requires kids != [] && kids[0].Leaf?
    ensures YieldAll(kids) != []
    decreases |kids|
  {
    if |kids| > 1 {
      FirstLeaf(kids[..|kids| - 1]);
    }
  }

  lemma {:induction false} DeclarationSpoken(tokens: seq<Token>, index: nat, b: Builder)
    requires b.start + |YieldAll(b.kids)| == index && |b.roots| == |b.kids|
    requires b.own == Snoc([], Told(|b.roots|, Definition(tokens, b.start + 1, LetSymbol, index)))
    ensures Spoken(tokens, b, Declaration)
  {
    hide Weave, EventsOf, YieldAll, Definition;
    assert b.own == [Told(|b.roots|, Definition(tokens, b.start + 1, LetSymbol, index))];
    DeclarationNode(tokens, b.start, b.kids);
  }

  lemma {:induction false} FunctionSpoken(tokens: seq<Token>, index: nat, b: Builder, k: Kind)
    requires b.start + |YieldAll(b.kids)| == index && b.roots == Roots(b.kids)
    requires b.roots == Four(Keyword("fn"), T(k), N(ParameterList), N(Block(false)))
    requires b.own == Snoc(Snoc(Snoc([], Told(2, Definition(tokens, b.start + 1, FunctionSymbol, b.start + 2))),
      Told(2, PushScope)), Told(4, ScopeEnd(tokens, index)))
    ensures Spoken(tokens, b, FunctionDeclaration)
  {
    hide Weave, EventsOf, YieldAll, Definition, ScopeEnd;
    assert RootOf(b.kids[0]) == b.roots[0] == Keyword("fn") && RootOf(b.kids[1]) == b.roots[1] == T(k);
    assert b.own == [Told(2, Definition(tokens, b.start + 1, FunctionSymbol, b.start + 2)), Told(2, PushScope),
      Told(4, ScopeEnd(tokens, index))];
    FunctionNode(tokens, b.start, b.kids);
  }

  lemma {:induction false} NamesSpoken(tokens: seq<Token>, b: Builder, lambda: bool)
    requires b.roots == Roots(b.kids) && NameList(b.roots, T(Comma))
    requires b.own == ToldNames(tokens, b.start, NameCount(|b.roots|), ParameterKind(lambda))
    ensures Spoken(tokens, b, Names(lambda))
  {
    hide Weave, EventsOf, IsReserved, ToldNames;
    forall i | 0 <= i < |b.kids| ensures b.kids[i].Leaf? {
      assert RootOf(b.kids[i]) == b.roots[i];
    }
    NamesNode(tokens, b.start, b.kids, lambda);
  }

  lemma {:induction false} LambdaSpoken(tokens: seq<Token>, index: nat, b: Builder)
    requires b.start + |YieldAll(b.kids)| == index && |b.roots| == |b.kids|
    requires b.own == Snoc(Snoc([], Told(0, PushScope)), Told(|b.roots|, ScopeEnd(tokens, index)))
    ensures Spoken(tokens, b, Lambda)
  {
    hide Weave, EventsOf, YieldAll, ScopeEnd;
    assert b.own == [Told(0, PushScope), Told(|b.roots|, ScopeEnd(tokens, index))];
    LambdaNode(tokens, b.start, b.kids);
  }

  lemma {:induction false} LoopSpoken(tokens: seq<Token>, index: nat, b: Builder)
    requires b.start + |YieldAll(b.kids)| == index && b.roots == Roots(b.kids)
    requires b.roots == Two(Keyword("loop"), N(Block(false))) ||
      b.roots == Three(Keyword("while"), N(Binary(0)), N(Block(false)))
    requires b.own == Snoc(Snoc([], Told(1, PushScope)), Told(|b.roots|, ScopeEnd(tokens, index)))
    ensures Spoken(tokens, b, Loop)
  {
    hide Weave, EventsOf, YieldAll, ScopeEnd;
    assert RootOf(b.kids[0]) == b.roots[0] && b.roots[0].T?;
    assert b.own == [Told(1, PushScope), Told(|b.roots|, ScopeEnd(tokens, index))];
    LoopNode(tokens, b.start, b.kids);
  }

  lemma {:induction false} ForSpoken(tokens: seq<Token>, index: nat, b: Builder, count: nat)
    requires b.start + |YieldAll(b.kids)| == index && |b.kids| == 5 && NameCount(|Yield(b.kids[1])|) == count
    requires b.own == Snoc(ForOpening(tokens, b.start, count, b.start + |YieldAll(b.kids[..4])|),
      Told(5, ScopeEnd(tokens, index)))
    ensures Spoken(tokens, b, Loop)
  {
    hide Weave, EventsOf, YieldAll, Yield, ForOpening;
    ForNode(tokens, b.start, b.kids);
  }

  lemma {:induction false} TwoYield(s: Tree, t: Tree)
    requires s.Leaf?
    ensures |YieldAll([s, t])| == 1 + |Yield(t)|
  {
    assert [s, t][..1] == [s] && [s][..0] == [];
    assert YieldAll([s]) == [s.kind];
  }

  /** The last child of a `for`. */
  lemma {:induction false} ForKids(two: seq<Tree>, four: seq<Tree>, five: seq<Tree>)
    requires |two| == 2 && |four| == 4 && four[1] == two[1] && OneMore(four, five)
    ensures |five| == 5 && five[..4] == four && five[1] == two[1]
  {
    assert five[1] == five[..4][1];
  }

  /** Every second token from `at` on. */
  function NamePositions(at: nat, count: nat): (r: seq<nat>)
    ensures |r| == count
  {
    if count == 0 then [] else NamePositions(at, count - 1) + [at + 2 * (count - 1)]
  }

  lemma {:induction false} PositionAt(at: nat, count: nat, i: nat)
    requires i < count
    ensures NamePositions(at, count)[i] == at + 2 * i
    decreases count
  {
    if i < count - 1 {
      PositionAt(at, count - 1, i);
    }
  }

  lemma {:induction false} OneMoreBinding(own: seq<Told>, tokens: seq<Token>, at: nat, count: nat, from: nat,
      after: nat)
    ensures own + ToldAll(after, BindingEvents(tokens, at, count + 1, from))
            == Snoc(own + ToldAll(after, BindingEvents(tokens, at, count, from)),
              Told(after, Definition(tokens, at + 2 * count, LoopBindingSymbol, from)))
  {
    hide Definition;
  }

  lemma {:induction false} ChainClosed(tokens: seq<Token>, index: nat, b: Builder, stack: Stack, sym: Sym,
      seps: seq<nat>, tails: seq<Edit>)
    requires stack.Enclosing? && Chain(tokens, index, b, stack, seps, tails)
    requires Production(sym, b.roots) && Ordinary(sym)
    ensures Chain(tokens, index, Closed(stack.top, b, sym), stack.below, seps, tails)
  {
    hide Fits, Production;
    FitsNode(tokens, index, stack.top, b, sym, seps, tails);
  }

  lemma {:induction false} ChainLeaf(tokens: seq<Token>, index: nat, b: Builder, stack: Stack, seps: seq<nat>,
      tails: seq<Edit>)
    requires Chain(tokens, index, b, stack, seps, tails) && index + 1 < |tokens|
    ensures Chain(tokens, index + 1, Extended(b, Leaf(tokens[index].kind)), stack, seps, tails)
  {
    hide Fits;
    FitsLeaf(tokens, index, b, seps, tails);
  }

  // ------------------------------------------------------------------ lines and conditional blocks

  /** The separator a line gets when it is not the last of the source. */
  function Separated(tokens: seq<Token>, index: nat, seps: seq<nat>, semicolon: bool): (r: seq<nat>) {
    if semicolon then seps else seps + [Start(tokens, index)]
  }

  lemma {:induction false} EndsAreOrdinary(tokens: seq<Token>, from: nat, ends: Tree)
    requires ends.Node? && ends.sym == Ends && Derives(ends)
    ensures PlanOf(ends) == Plains(|Yield(ends)|)
    ensures Separators(tokens, from, PlanOf(ends)) == [] && TailEdits(tokens, from, PlanOf(ends)) == []
  {
    forall i | 0 <= i < |ends.kids| ensures ends.kids[i].Leaf? {
      assert IsEnd(Roots(ends.kids)[i]);
    }
    LeavesPlan(ends.kids);
    PlainEdits(tokens, from, |Yield(ends)|);
  }

  lemma {:induction false} LeavesPlan(ts: seq<Tree>)
    requires forall i :: 0 <= i < |ts| ==> ts[i].Leaf?
    ensures PlanAll(ts) == Plains(|ts|) && |YieldAll(ts)| == |ts|
  {
    if ts != [] {
      LeavesPlan(ts[..|ts| - 1]);
      assert Plains(|ts|) == Plains(|ts| - 1) + [PLAIN];
    }
  }

  predicate RealToken(k: Kind) {
    k != Newline && k != End
  }

  lemma {:induction false} LineAimed(tokens: seq<Token>, index: nat, b: Builder, line: Tree)
    requires b.start <= index < |tokens| && AllDerive(b.kids) && YieldAll(b.kids) == KindsOf(tokens)[b.start..index]
    requires line.Node? && line.sym.Line? && line.kids == b.kids && |b.kids| == 2 && Yield(b.kids[1]) != []
    requires b.kids[1].Node? && b.kids[1].sym == Ends && RealToken(tokens[index].kind)
    requires Aimed(tokens, b.start, PlanAll(b.kids))
    ensures Aimed(tokens, b.start, PlanOf(line))
  {
    hide PlanOf, PlanAll, Yield, YieldAll, Derives, AllDerive, Aimed;
    RowPlans(b.kids, line);
    var p, ks := PlanOf(b.kids[0]), Yield(b.kids[1]);
    AimedPrefix(tokens, b.start, p, Plains(|ks|));
    EndsAimed(tokens, b.start + |p|, ks);
    AimedConcat(tokens, b.start, p, EndsPlan(ks));
  }

  lemma {:induction false} EndsAimed(tokens: seq<Token>, from: nat, ks: seq<Kind>)
    requires from + |ks| < |tokens| && RealToken(tokens[from + |ks|].kind)
    ensures Aimed(tokens, from, EndsPlan(ks))
  {
  }

  /** The children of a line in progress: a statement and its ends. */
  predicate IsLineRow(b: Builder, value: bool) {
    |b.kids| == 2 && b.roots == Two(N(Statement(value)), N(Ends))
  }

  lemma {:induction false} FitsLine(tokens: seq<Token>, index: nat, outer: Builder, b: Builder, value: bool,
      seps: seq<nat>, tails: seq<Edit>)
    requires Fits(tokens, b.start, outer, b.seps0, b.tails0) && Fits(tokens, index, b, seps, tails)
    requires IsLineRow(b, value) && Yield(b.kids[1]) != [] && RealToken(tokens[index].kind)
    ensures Fits(tokens, index, Closed(outer, b, Line(value)),
      Separated(tokens, index, seps, Semicolon in Yield(b.kids[1])), tails)
  {
    var t := Node(Line(value), b.kids);
    var semicolon := Semicolon in Yield(b.kids[1]);
    assert Production(Line(value), b.roots);
    NodeDerives(Line(value), b.kids);
    assert Yield(t) == YieldAll(b.kids);
    LineAimed(tokens, index, b, t);
    if Ordered(tokens) {
      LineLog(tokens, index, b, t, seps, tails);
    }
    hide Production, PlanOf, PlanAll, Yield, YieldAll, Derives;
    FitsAppend(tokens, b.start, index, outer, b.seps0, b.tails0, t, Separated(tokens, index, seps, semicolon), tails);
  }

  /** Replacing the end of a plan replaces the end of its log. */
  lemma {:induction false} LogSwap(tokens: seq<Token>, from: nat, p: seq<Mark>, q: seq<Mark>, e: seq<Mark>,
                                   seps0: seq<nat>, seps: seq<nat>, tails0: seq<Edit>, tails: seq<Edit>)
    requires Separators(tokens, from + |p|, q) == [] && TailEdits(tokens, from + |p|, q) == []
    requires seps == seps0 + Separators(tokens, from, p + q) && tails == tails0 + TailEdits(tokens, from, p + q)
    ensures seps0 + Separators(tokens, from, p + e) == seps + Separators(tokens, from + |p|, e)
    ensures tails0 + TailEdits(tokens, from, p + e) == tails + TailEdits(tokens, from + |p|, e)
  {
    hide Separators, TailEdits;
    SeparatorsConcat(tokens, from, p, q);
    SeparatorsConcat(tokens, from, p, e);
    TailEditsConcat(tokens, from, p, q);
    TailEditsConcat(tokens, from, p, e);
  }

  lemma {:induction false} LineLog(tokens: seq<Token>, index: nat, b: Builder, line: Tree, seps: seq<nat>,
      tails: seq<Edit>)
    requires Fits(tokens, index, b, seps, tails) && Ordered(tokens)
    requires line.Node? && line.sym.Line? && line.kids == b.kids && |b.kids| == 2 && Yield(b.kids[1]) != []
    requires b.kids[1].Node? && b.kids[1].sym == Ends
    ensures Separated(tokens, index, seps, Semicolon in Yield(b.kids[1])) ==
      b.seps0 + Separators(tokens, b.start, PlanOf(line))
    ensures tails == b.tails0 + TailEdits(tokens, b.start, PlanOf(line))
  {
    hide PlanOf, PlanAll, Yield, YieldAll, Derives, AllDerive, Ordered, Separators, TailEdits, NoneAbove, Roots;
    LinePlans(tokens, index, b, line);
    hide Fits;
    LogSwap(tokens, b.start, PlanOf(b.kids[0]), PlanOf(b.kids[1]), EndsPlan(Yield(b.kids[1])), b.seps0, seps,
      b.tails0, tails);
    assert seps + [] == seps && tails + [] == tails;
  }

  /** The plan of a statement and its ends, apart and as a line. */
  lemma {:induction false} RowPlans(kids: seq<Tree>, line: Tree)
    requires AllDerive(kids) && |kids| == 2 && kids[1].Node? && kids[1].sym == Ends
    requires line.Node? && line.sym.Line? && line.kids == kids
    ensures var p, ks := PlanOf(kids[0]), Yield(kids[1]);
            && PlanAll(kids) == p + Plains(|ks|) && PlanOf(line) == p + EndsPlan(ks)
            && |YieldAll(kids)| == |p| + |ks| && PlanOf(kids[1]) == Plains(|ks|)
  {
    hide Derives;
    LineYield(Node(Line(true), kids));
    PlanLength(kids[0]);
    assert Derives(kids[1]);
    EndsAreOrdinary([], 0, kids[1]);
    assert kids == [kids[0]] + [kids[1]];
    PlanAppend([kids[0]], kids[1]);
    PlanAppend([], kids[0]);
  }

  lemma {:induction false} LinePlans(tokens: seq<Token>, index: nat, b: Builder, line: Tree)
    requires b.start <= index < |tokens| && AllDerive(b.kids) && YieldAll(b.kids) == KindsOf(tokens)[b.start..index]
    requires line.Node? && line.sym.Line? && line.kids == b.kids && |b.kids| == 2 && Yield(b.kids[1]) != []
    requires b.kids[1].Node? && b.kids[1].sym == Ends
    ensures var p, q, ks := PlanOf(b.kids[0]), PlanOf(b.kids[1]), Yield(b.kids[1]);
            && PlanAll(b.kids) == p + q && PlanOf(line) == p + EndsPlan(ks)
            && Separators(tokens, b.start + |p|, q) == [] && TailEdits(tokens, b.start + |p|, q) == []
            && Separators(tokens, b.start + |p|, EndsPlan(ks)) ==
              (if Semicolon in ks then [] else [Start(tokens, index)])
            && TailEdits(tokens, b.start + |p|, EndsPlan(ks)) == []
  {
    hide PlanOf, PlanAll, Yield, YieldAll, Derives, AllDerive, Separators, TailEdits, EndsPlan;
    var p, ks := PlanOf(b.kids[0]), Yield(b.kids[1]);
    RowPlans(b.kids, line);
    PlainEdits(tokens, b.start + |p|, |ks|);
    EndsPlanEdits(tokens, b.start + |p|, ks);
  }

  /** The log after a line: its separator, unless it is there already. */
  function Recorded(tokens: seq<Token>, index: nat, seps: seq<nat>, semicolon: bool): (r: seq<nat>) {
    if semicolon || (seps != [] && seps[|seps| - 1] == Start(tokens, index)) then seps
      else seps + [Start(tokens, index)]
  }

  /** The separator of a line is never there already. */
  lemma {:induction false} FreshSeparator(tokens: seq<Token>, index: nat, b: Builder, value: bool, seps: seq<nat>,
      tails: seq<Edit>)
    requires Fits(tokens, index, b, seps, tails) && Ordered(tokens)
    requires IsLineRow(b, value) && Yield(b.kids[1]) != []
    ensures AllBelow(seps, tokens[index].start)
  {
    hide PlanOf, PlanAll, Yield, YieldAll, Derives, AllDerive, Separators, TailEdits, Production, EndsPlan;
    assert RootOf(b.kids[1]) == b.roots[1];
    RowPlans(b.kids, Node(Line(value), b.kids));
    PlainTailBound(tokens, b.start, index, PlanAll(b.kids));
    hide Plains;
    assert tokens[b.start].start < tokens[index].start;
  }

  lemma {:induction false} PlainTailBound(tokens: seq<Token>, from: nat, index: nat, plan: seq<Mark>)
    requires Ordered(tokens) && from + |plan| == index < |tokens| && plan != [] && plan[|plan| - 1] == PLAIN
    ensures AllBelow(Separators(tokens, from, plan), tokens[index].start)
  {
    SeparatorsBound(tokens, from, plan);
  }

  lemma {:induction false} ChainLine(tokens: seq<Token>, index: nat, b: Builder, stack: Stack, value: bool,
      semicolon: bool,
                                     seps: seq<nat>, tails: seq<Edit>)
    requires stack.Enclosing? && Chain(tokens, index, b, stack, seps, tails)
    requires IsLineRow(b, value) && Yield(b.kids[1]) != [] && (semicolon <==> Semicolon in Yield(b.kids[1]))
    requires index < |tokens| && RealToken(tokens[index].kind)
    ensures Chain(tokens, index, Closed(stack.top, b, Line(value)), stack.below,
      Recorded(tokens, index, seps, semicolon), tails)
  {
    hide Yield, IsLineRow, YieldAll, AllDerive, Logged, PlanAll;
    FitsLine(tokens, index, stack.top, b, value, seps, tails);
    if Ordered(tokens) {
      FreshSeparator(tokens, index, b, value, seps, tails);
    }
    hide Ordered, Closed;
  }

  /** A conditional block is closed with the logs of its branch plan. */
  lemma {:induction false} FitsBranch(tokens: seq<Token>, index: nat, outer: Builder, b: Builder, seps: seq<nat>,
      tails: seq<Edit>,
                                      seps2: seq<nat>, tails2: seq<Edit>)
    requires Fits(tokens, b.start, outer, b.seps0, b.tails0) && Fits(tokens, index, b, seps, tails)
    requires index + 1 < |tokens| && tokens[index].kind == CloseCurly
    requires Production(Block(true), Snoc(b.roots, T(CloseCurly))) && Aimed(tokens, b.start, BranchPlan(b.kids))
    requires Ordered(tokens) ==> seps2 == b.seps0 + Separators(tokens, b.start, BranchPlan(b.kids))
    requires Ordered(tokens) ==> tails2 == b.tails0 + TailEdits(tokens, b.start, BranchPlan(b.kids))
    ensures Fits(tokens, index + 1, Closed(outer, Extended(b, Leaf(CloseCurly)), Block(true)), seps2, tails2)
  {
    hide Production, PlanOf, PlanAll, Yield, YieldAll, Derives, BranchPlan, Ordered, Separators, TailEdits;
    var c := Extended(b, Leaf(CloseCurly));
    var t := Node(Block(true), c.kids);
    FitsLeaf(tokens, index, b, seps, tails);
    NodeDerives(Block(true), c.kids);
    BranchNode(b.kids, t);
    BranchClose(tokens, b.start, BranchPlan(b.kids));
    hide Fits, Aimed;
    FitsAppend(tokens, b.start, index + 1, outer, b.seps0, b.tails0, t, seps2, tails2);
  }

  lemma {:induction false} BranchClose(tokens: seq<Token>, from: nat, p: seq<Mark>)
    ensures Separators(tokens, from, p + [PLAIN]) == Separators(tokens, from, p)
    ensures TailEdits(tokens, from, p + [PLAIN]) == TailEdits(tokens, from, p)
    ensures Aimed(tokens, from, p) ==> Aimed(tokens, from, p + [PLAIN])
  {
    SeparatorsAppend(tokens, from, p, PLAIN);
  }

  lemma {:induction false} BranchNode(front: seq<Tree>, t: Tree)
    requires t == Node(Block(true), front + [Leaf(CloseCurly)])
    ensures PlanOf(t) == BranchPlan(front) + [PLAIN] && Yield(t) == YieldAll(t.kids)
  {
    assert t.kids[..|t.kids| - 1] == front;
  }

  /** The last child is a line whose ends are the given tokens. */
  predicate TailAt(b: Builder, ks: seq<Kind>) {
    b.kids != [] && IsLineOf(b.kids[|b.kids| - 1], true) && Yield(b.kids[|b.kids| - 1].kids[1]) == ks && ks != []
  }

  /** What the log loses when the separator before a closing brace is taken back. */
  function Popped(seps: seq<nat>, close: nat): (r: seq<nat>) {
    if seps != [] && seps[|seps| - 1] == close then seps[..|seps| - 1] else seps
  }

  lemma {:induction false} ValueBranchLog(tokens: seq<Token>, index: nat, b: Builder, boundary: nat, seps: seq<nat>,
      tails: seq<Edit>)
    requires Fits(tokens, index, b, seps, tails) && Ordered(tokens) && b.start <= boundary < index
    requires TailAt(b, KindsOf(tokens)[boundary..index])
    ensures Popped(seps, tokens[index].start) == b.seps0 + Separators(tokens, b.start, BranchPlan(b.kids))
    ensures tails + TailEdits(tokens, boundary, TailPlan(KindsOf(tokens)[boundary..index]))
            == b.tails0 + TailEdits(tokens, b.start, BranchPlan(b.kids))
  {
    var line := b.kids[|b.kids| - 1];
    var ks := KindsOf(tokens)[boundary..index];
    var p := PlanAll(b.kids[..|b.kids| - 1]) + PlanOf(line.kids[0]);
    ValueBranchPlans(b.kids, p, ks);
    PlanAllLength(b.kids);
    hide PlanOf, PlanAll, BranchPlan, Yield, YieldAll, Derives, AllDerive, Roots, TailAt, Ordered, Separators,
      TailEdits, EndsPlan, TailPlan;
    ValueLogs(tokens, b.start, boundary, index, p, ks, b.seps0, seps, b.tails0, tails);
  }

  lemma {:induction false} ValueLogs(tokens: seq<Token>, start: nat, boundary: nat, index: nat, p: seq<Mark>,
      ks: seq<Kind>,
                                     seps0: seq<nat>, seps: seq<nat>, tails0: seq<Edit>, tails: seq<Edit>)
    requires start + |p| == boundary < index == boundary + |ks| < |tokens| && Ordered(tokens)
    requires NoneAbove(seps0, tokens[start].start) && seps == seps0 + Separators(tokens, start, p + EndsPlan(ks))
    requires tails == tails0 + TailEdits(tokens, start, p + EndsPlan(ks))
    ensures Popped(seps, tokens[index].start) == seps0 + Separators(tokens, start, p + TailPlan(ks))
    ensures tails + TailEdits(tokens, boundary, TailPlan(ks)) == tails0 + TailEdits(tokens, start, p + TailPlan(ks))
  {
    hide Separators, TailEdits, EndsPlan, TailPlan, Popped;
    EndsPlanEdits(tokens, boundary, ks);
    TailPlanEdits(tokens, boundary, ks);
    var own := Separators(tokens, start, p);
    BelowLater(tokens, start, boundary, index, p, seps0);
    hide Ordered, NoneAbove, AllBelow;
    SeparatorsConcat(tokens, start, p, EndsPlan(ks));
    SeparatorsConcat(tokens, start, p, TailPlan(ks));
    PopsBack(seps0, own, seps, tokens[index].start, Semicolon in ks);
    assert own + [] == own;
    ValueTails(tokens, start, p, ks, tails0, tails);
  }

  lemma {:induction false} BelowLater(tokens: seq<Token>, start: nat, boundary: nat, index: nat, p: seq<Mark>,
      seps0: seq<nat>)
    requires start + |p| == boundary < index < |tokens| && Ordered(tokens) && NoneAbove(seps0, tokens[start].start)
    ensures AllBelow(seps0, tokens[index].start) && AllBelow(Separators(tokens, start, p), tokens[index].start)
  {
    hide Separators;
    SeparatorsBound(tokens, start, p);
    assert tokens[start].start <= tokens[boundary].start < tokens[index].start;
  }

  lemma {:induction false} ValueTails(tokens: seq<Token>, start: nat, p: seq<Mark>, ks: seq<Kind>, tails0: seq<Edit>,
      tails: seq<Edit>)
    requires tails == tails0 + TailEdits(tokens, start, p + EndsPlan(ks)) &&
      TailEdits(tokens, start + |p|, EndsPlan(ks)) == []
    ensures tails + TailEdits(tokens, start + |p|, TailPlan(ks)) == tails0 + TailEdits(tokens, start, p + TailPlan(ks))
  {
    hide TailEdits, EndsPlan, TailPlan;
    TailEditsConcat(tokens, start, p, EndsPlan(ks));
    TailEditsConcat(tokens, start, p, TailPlan(ks));
  }

  lemma {:induction false} PopsBack(seps0: seq<nat>, own: seq<nat>, seps: seq<nat>, close: nat, kept: bool)
    requires AllBelow(seps0, close) && AllBelow(own, close)
    requires seps == seps0 + (own + if kept then [] else [close])
    ensures Popped(seps, close) == seps0 + own
  {
    if kept {
      assert seps == seps0 + own;
    } else {
      assert seps[..|seps| - 1] == seps0 + own;
    }
  }

  lemma {:induction false} ValueBranchPlans(kids: seq<Tree>, p: seq<Mark>, ks: seq<Kind>)
    requires ValueTail(kids) && Yield(kids[|kids| - 1].kids[1]) == ks
    requires p == PlanAll(kids[..|kids| - 1]) + PlanOf(kids[|kids| - 1].kids[0])
    ensures PlanAll(kids) == p + EndsPlan(ks) && BranchPlan(kids) == p + TailPlan(ks)
  {
  }

  /** The last child is an opening brace, statement ends or a line without a value. */
  predicate EndsPlainly(b: Builder) {
    b.roots != [] &&
    (b.roots[|b.roots| - 1] == T(OpenCurly) || b.roots[|b.roots| - 1] == N(Ends) ||
      b.roots[|b.roots| - 1] == N(Line(false)))
  }

  lemma {:induction false} LastMark(t: Tree)
    requires Derives(t) && (RootOf(t) == T(OpenCurly) || RootOf(t) == N(Ends) || RootOf(t) == N(Line(false)))
    ensures PlanOf(t) != [] && !PlanOf(t)[|PlanOf(t)| - 1].nil
  {
    if RootOf(t) == N(Ends) {
      EndsAreOrdinary([], 0, t);
      EndsYield(t);
    } else if RootOf(t) == N(Line(false)) {
      assert |t.kids| == |Roots(t.kids)| == 2;
      assert Derives(t.kids[1]) && RootOf(t.kids[1]) == N(Ends);
      EndsYield(t.kids[1]);
    }
  }

  lemma {:induction false} EndsYield(t: Tree)
    requires Derives(t) && RootOf(t) == N(Ends)
    ensures Yield(t) != []
  {
    hide Production;
    assert Production(Ends, Roots(t.kids));
    EndsAreLeaves(t.kids);
    LeavesPlan(t.kids);
  }

  lemma {:induction false} EndsAreLeaves(kids: seq<Tree>)
    requires Production(Ends, Roots(kids))
    ensures kids != [] && forall i :: 0 <= i < |kids| ==> kids[i].Leaf?
  {
    forall i | 0 <= i < |kids| ensures kids[i].Leaf? {
      assert IsEnd(Roots(kids)[i]);
    }
  }

  lemma {:induction false} NilBranchLog(tokens: seq<Token>, index: nat, b: Builder, seps: seq<nat>, tails: seq<Edit>)
    requires Fits(tokens, index, b, seps, tails) && Ordered(tokens) && EndsPlainly(b)
    ensures seps == b.seps0 + Separators(tokens, b.start, BranchPlan(b.kids))
    ensures tails + [Edit(tokens[index].start, tokens[index].start, " nil ")]
            == b.tails0 + TailEdits(tokens, b.start, BranchPlan(b.kids))
  {
    hide PlanOf, PlanAll, BranchPlan, Yield, YieldAll, Derives, Roots, Ordered, Separators, TailEdits, SetNil,
      EndsPlainly;
    NilBranchPlan(b);
    var plan := PlanAll(b.kids);
    PlanAllLength(b.kids);
    NilLogs(tokens, b.start, plan);
    hide Fits, AllDerive;
    assert b.tails0 + (TailEdits(tokens, b.start, plan) + [Edit(tokens[index].start, tokens[index].start, " nil ")])
        == tails + [Edit(tokens[index].start, tokens[index].start, " nil ")];
  }

  lemma {:induction false} NilBranchPlan(b: Builder)
    requires b.roots == Roots(b.kids) && AllDerive(b.kids) && EndsPlainly(b)
    ensures var plan := PlanAll(b.kids);
            plan != [] && !plan[|plan| - 1].nil && BranchPlan(b.kids) == SetNil(plan)
  {
    hide Derives, PlanOf, Production;
    var last := b.kids[|b.kids| - 1];
    assert RootOf(last) == b.roots[|b.roots| - 1] && Derives(last);
    LastMark(last);
  }

  lemma {:induction false} NilLogs(tokens: seq<Token>, from: nat, plan: seq<Mark>)
    requires plan != [] && !plan[|plan| - 1].nil && from + |plan| < |tokens|
    ensures Separators(tokens, from, SetNil(plan)) == Separators(tokens, from, plan)
    ensures var start := tokens[from + |plan|].start;
            TailEdits(tokens, from, SetNil(plan)) == TailEdits(tokens, from, plan) + [Edit(start, start, " nil ")]
  {
    var n := |plan| - 1;
    assert plan == plan[..n] + [plan[n]];
    SeparatorsAppend(tokens, from, plan[..n], plan[n]);
    SeparatorsAppend(tokens, from, plan[..n], plan[n].(nil := true));
  }

  /** The logs after a conditional block. */
  lemma {:induction false} ChainBranch(tokens: seq<Token>, index: nat, b: Builder, stack: Stack, value: bool,
      boundary: nat,
                                       seps: seq<nat>, tails: seq<Edit>)
    requires stack.Enclosing? && Chain(tokens, index, b, stack, seps, tails)
    requires boundary <= index && index + 1 < |tokens| && tokens[index].kind == CloseCurly &&
      Production(Block(true), Snoc(b.roots, T(CloseCurly)))
    requires if value then b.start <= boundary < index && TailAt(b, KindsOf(tokens)[boundary..index])
      else EndsPlainly(b)
    ensures Chain(tokens, index + 1, Closed(stack.top, Extended(b, Leaf(CloseCurly)), Block(true)), stack.below,
                  BranchSeparators(tokens, index, value, seps), BranchEdits(tokens, index, value, boundary, tails))
  {
    var seps2, tails2 := BranchSeparators(tokens, index, value, seps),
      BranchEdits(tokens, index, value, boundary, tails);
    if value {
      ValueBranchAimed(tokens, index, b, boundary);
    } else {
      NilBranchAimed(tokens, index, b);
    }
    hide Aimed;
    if Ordered(tokens) {
      if value {
        ValueBranchLog(tokens, index, b, boundary, seps, tails);
      } else {
        NilBranchLog(tokens, index, b, seps, tails);
      }
    }
    hide Fits, Production, Ordered, TailAt, EndsPlainly, TailPlan, TailEdits, Separators, BranchPlan;
    FitsBranch(tokens, index, stack.top, b, seps, tails, seps2, tails2);
  }

  lemma {:induction false} ValueBranchAimed(tokens: seq<Token>, index: nat, b: Builder, boundary: nat)
    requires b.start <= boundary < index < |tokens| && TailAt(b, KindsOf(tokens)[boundary..index])
    requires YieldAll(b.kids) == KindsOf(tokens)[b.start..index] && Aimed(tokens, b.start, PlanAll(b.kids))
    ensures Aimed(tokens, b.start, BranchPlan(b.kids))
  {
    hide PlanOf, PlanAll, BranchPlan, Yield, YieldAll, Derives, AllDerive, Roots, Aimed, EndsPlan, TailPlan;
    var line := b.kids[|b.kids| - 1];
    var ks := KindsOf(tokens)[boundary..index];
    var p := PlanAll(b.kids[..|b.kids| - 1]) + PlanOf(line.kids[0]);
    ValueBranchPlans(b.kids, p, ks);
    PlanAllLength(b.kids);
    AimedPrefix(tokens, b.start, p, EndsPlan(ks));
    TailAimed(tokens, boundary, ks);
    AimedConcat(tokens, b.start, p, TailPlan(ks));
  }

  lemma {:induction false} TailAimed(tokens: seq<Token>, from: nat, ks: seq<Kind>)
    requires from + |ks| <= |tokens| && ks == KindsOf(tokens)[from..from + |ks|]
    ensures Aimed(tokens, from, TailPlan(ks))
  {
  }

  lemma {:induction false} NilBranchAimed(tokens: seq<Token>, index: nat, b: Builder)
    requires b.roots == Roots(b.kids) && AllDerive(b.kids) && EndsPlainly(b)
    requires b.start <= index < |tokens| && YieldAll(b.kids) == KindsOf(tokens)[b.start..index]
    requires Aimed(tokens, b.start, PlanAll(b.kids)) && RealToken(tokens[index].kind)
    ensures Aimed(tokens, b.start, BranchPlan(b.kids))
  {
    hide PlanOf, PlanAll, BranchPlan, YieldAll, Derives, EndsPlainly, AllDerive;
    NilBranchPlan(b);
    PlanAllLength(b.kids);
  }

  function BranchSeparators(tokens: seq<Token>, index: nat, value: bool, seps: seq<nat>): (r: seq<nat>) {
    if value then Popped(seps, Start(tokens, index)) else seps
  }

  function BranchEdits(tokens: seq<Token>, index: nat, value: bool, boundary: nat, tails: seq<Edit>): (r: seq<Edit>)
    requires boundary <= index < |tokens|
  {
    if value then tails + TailEdits(tokens, boundary, TailPlan(KindsOf(tokens)[boundary..index]))
    else tails + [Edit(tokens[index].start, tokens[index].start, " nil ")]
  }
}
