/** The recursive-descent parser, as the object that reads the tokens.

    Every method follows the recogniser step for step; beside it a derivation tree grows, so that a
    parse without a report has derived exactly the tokens it passed. The separator and tail-edit
    logs hold exactly the lowering plan of that tree, and the symbol events told are exactly the events
    of that tree. `frames` counts the calls in progress of the methods that can call each other in a
    cycle, and `peak` the most there ever were: they stay within a constant times the nesting level. */
module CanonicalParser {
  import opened Tokens
  import opened Grammar
  import opened Choices
  import opened LoweringPlan
  import opened ParseBuilder
  import opened LexicalEvents
  import opened SymbolEvents
  import opened AliasNotes
  import opened ParseShapes
  import opened R = Recogniser

  /** Frames a call may add before the next nesting level. */
  const FRAMES: nat := 38

  ghost predicate OnTime(tokens: seq<Token>, index: nat, events: seq<Event>, clean: bool) {
    Ordered(tokens) && index < |tokens| ==>
      && Timed(events) && Clock(events) <= tokens[index].start
      && (clean ==> KeysIncrease(events) && LastAt(events) <= tokens[index].start)
  }

  /** A definition made now would have a larger key than every earlier one. */
  ghost predicate IsSettled(tokens: seq<Token>, index: nat, events: seq<Event>) {
    Ordered(tokens) && index < |tokens| ==> LastAt(events) < tokens[index].start
  }

  lemma {:induction false} LaterIsSettled(tokens: seq<Token>, index: nat, events: seq<Event>, clean: bool)
    requires index + 1 < |tokens| && OnTime(tokens, index, events, clean)
    ensures OnTime(tokens, index + 1, events, clean)
    ensures clean ==> IsSettled(tokens, index + 1, events)
  {
    hide Timed, Clock, KeysIncrease, LastAt;
    assert Ordered(tokens) ==> tokens[index].start < tokens[index + 1].start;
  }

  /** The alias and import logs hold what the events say. */
  ghost predicate Noted(tokens: seq<Token>, events: seq<Event>, aliases: seq<Alias>, imports: seq<Span>) {
    Ordered(tokens) ==> aliases == AliasLog(tokens, events) && imports == ImportLog(tokens, events)
  }

  /** An event that is neither a declaration nor an import is not noted. */
  lemma {:induction false} NotNoted(tokens: seq<Token>, events: seq<Event>, aliases: seq<Alias>, imports: seq<Span>,
      e: Event)
    requires Noted(tokens, events, aliases, imports) && (e.Define? ==> e.kind != LetSymbol && e.kind != ImportSymbol)
    ensures Noted(tokens, events + [e], aliases, imports)
  {
    hide AliasLog, ImportLog, Ordered;
    LogsGrow(tokens, events, e);
    assert aliases + [] == aliases && imports + [] == imports;
  }

  lemma {:induction false} AliasNoted(tokens: seq<Token>, events: seq<Event>, aliases: seq<Alias>, imports: seq<Span>,
      k: nat, index: nat)
    requires Noted(tokens, events, aliases, imports) && k < |tokens|
    ensures var target := Initializer(tokens, k + 1);
            Noted(tokens, events + [Definition(tokens, k, LetSymbol, index)],
                  aliases + (if target.None? then [] else [Alias(SpanAt(tokens, k), target.value.span,
                    target.value.fields > 0)]), imports)
  {
    hide AliasLog, ImportLog, Initializer;
    LogsGrow(tokens, events, Definition(tokens, k, LetSymbol, index));
    if Ordered(tokens) {
      TokenIsFound(tokens, k);
    }
    assert imports + [] == imports;
  }

  lemma {:induction false} ImportNoted(tokens: seq<Token>, events: seq<Event>, aliases: seq<Alias>,
      imports: seq<Span>, k: nat, index: nat)
    requires Noted(tokens, events, aliases, imports) && k < |tokens| && index < |tokens|
    ensures Noted(tokens, events + [Definition(tokens, k, ImportSymbol, index)], aliases,
                  imports + (if EndsImport(tokens[index].kind) then [SpanAt(tokens, k)] else []))
  {
    hide AliasLog, ImportLog;
    LogsGrow(tokens, events, Definition(tokens, k, ImportSymbol, index));
    if Ordered(tokens) {
      TokenIsFound(tokens, index);
    }
    assert aliases + [] == aliases;
  }

  /** The identifier at `k` can be defined at the current token. */
  ghost predicate Definable(tokens: seq<Token>, index: nat, events: seq<Event>, clean: bool, k: nat) {
    && k < index < |tokens| && IsNameKind(tokens[k].kind)
    && (clean ==>
          || IsSettled(tokens, index, events)
          || (Ordered(tokens) ==> LastAt(events) == tokens[index].start && LastStart(events) < tokens[k].start))
  }

  lemma {:induction false} DefinitionFits(tokens: seq<Token>, index: nat, events: seq<Event>, clean: bool, k: nat,
      kind: SymbolKind)
    requires OnTime(tokens, index, events, clean) && Definable(tokens, index, events, clean, k)
    ensures var more := events + [Definition(tokens, k, kind, index)];
            && OnTime(tokens, index, more, clean) && Depth(more) == Depth(events)
            && LastAt(more) == tokens[index].start && LastStart(more) == tokens[k].start
            && tokens[k].kind.Identifier?
  {
    hide Timed, Clock, KeysIncrease, LastAt, LastStart, Depth, IsReserved;
    AddEvent(events, Definition(tokens, k, kind, index));
    assert Ordered(tokens) ==> tokens[k].start < tokens[k].end <= tokens[index].start;
  }

  function Higher(a: nat, b: nat): (m: nat)
    ensures m >= a && m >= b && (m == a || m == b)
  {
    if a < b then b else a
  }

  lemma {:induction false} FrontEnds(b: Builder, value: bool)
    requires BlockFront(b.roots) && value == (b.roots[|b.roots| - 1] == N(Line(true)))
    ensures !value ==> EndsPlainly(b)
  {
  }

  lemma {:induction false} NoEdits(tokens: seq<Token>, from: nat)
    ensures TailEdits(tokens, from, TailPlan([])) == []
  {
  }

  /** What lowering has to change: separators to insert and edits at the ends of conditional blocks. */
  datatype Edits = Edits(separators: seq<nat>, tailEdits: seq<Edit>)

  /** What the collectors are told. */
  datatype Notes = Notes(events: seq<Event>, aliases: seq<Alias>, imports: seq<Span>)

  /** The node in progress and the enclosing ones. */
  datatype Growth = Growth(b: Builder, stack: Stack)

  /** The calls in progress and the most there ever were. */
  datatype Calls = Calls(frames: nat, peak: nat)

  /** The state of a parser; `s` is its position, nesting and verdict. */
  datatype View = View(s: PS, edits: Edits, notes: Notes, g: Growth, calls: Calls)

  /** While nothing was reported the trees, logs and events fit the tokens passed; events are on time. */
  ghost predicate Grounded(tokens: seq<Token>, v: View) {
    && (v.s.ok ==>
          Chain(tokens, v.s.index, v.g.b, v.g.stack, v.edits.separators, v.edits.tailEdits) &&
            Telling(tokens, v.g.b, v.g.stack, v.notes.events) && Forcing(tokens, v.g.b, v.g.stack))
    && OnTime(tokens, v.s.index, v.notes.events, v.s.ok)
    && Noted(tokens, v.notes.events, v.notes.aliases, v.notes.imports)
  }

  /** Nesting and calls do not matter. */
  lemma {:induction false} StillGrounded(tokens: seq<Token>, v: View, w: View)
    requires Grounded(tokens, v) && w == v.(s := v.s.(nesting := w.s.nesting), calls := w.calls)
    ensures Grounded(tokens, w)
  {
    hide Chain, Telling, Forcing, OnTime, Noted;
  }

  /** What every parsing method keeps, events of the node in progress aside. */
  ghost predicate Held(o: View, v: View) {
    && v.g.stack == o.g.stack
    && Depth(v.notes.events) == Depth(o.notes.events)
    && v.s.nesting == o.s.nesting && v.s.index >= o.s.index && (v.s.ok ==> o.s.ok)
    && v.calls.frames == o.calls.frames && v.calls.peak >= o.calls.peak
    && (v.s.ok ==> v.g.b.start == o.g.b.start)
  }

  ghost predicate Kept(o: View, v: View) {
    Held(o, v) && (v.s.ok ==> v.g.b.own == o.g.b.own)
  }

  /** What a call in progress keeps, and that it was counted. */
  ghost predicate Called(o: View, v: View) {
    Kept(o, v) && v.calls.peak > o.calls.frames
  }

  /** A clean parse has added one child. */
  ghost predicate Grew(o: View, v: View, root: Root) {
    v.s.ok ==> v.g.b.roots == Snoc(o.g.b.roots, root)
  }

  /** So many more calls may be in progress at this nesting level. */
  ghost predicate Room(v: View, height: nat) {
    v.calls.frames + height <= FRAMES * (v.s.nesting + 1)
  }

  /** One more event, told by the node in progress. */
  ghost predicate Said(o: View, v: View, e: Event) {
    && v.notes.events == o.notes.events + [e] && v.g.stack == o.g.stack
    && v.g.b.start == o.g.b.start && v.g.b.kids == o.g.b.kids && v.g.b.roots == o.g.b.roots
    && (v.s.ok ==> v.g.b.own == Snoc(o.g.b.own, Told(|v.g.b.roots|, e)))
  }

  /** The names passed were told one by one. */
  ghost predicate NamesTold(tokens: seq<Token>, v: View, kind: SymbolKind) {
    v.s.index == v.g.b.start + |v.g.b.roots| &&
      v.g.b.own == ToldNames(tokens, v.g.b.start, NameCount(|v.g.b.roots|), kind)
  }

  /** Inside a block, behind its brace or a line; a value has its boundary where its ends start. */
  ghost predicate InBlock(tokens: seq<Token>, s: PS, b: Builder, events: seq<Event>, value: bool, boundary: nat)
    requires s.index < |tokens|
  {
    s.ok && tokens[s.index].kind != End ==>
      IsSettled(tokens, s.index, events) && BlockFront(b.roots) && b.roots != [] &&
      value == (b.roots[|b.roots| - 1] == N(Line(true))) &&
      (value ==> b.start <= boundary < s.index && TailAt(b, KindsOf(tokens)[boundary..s.index]))
  }

  lemma {:induction false} InBlockStart(tokens: seq<Token>, s: PS, b: Builder, events: seq<Event>, boundary: nat)
    requires s.index < |tokens|
    requires s.ok ==> IsSettled(tokens, s.index, events)
    requires s.ok ==> b.roots == One(T(OpenCurly)) || b.roots == Two(T(OpenCurly), N(Ends))
    ensures InBlock(tokens, s, b, events, false, boundary)
  {
    hide IsSettled, BlockFront, TailAt, KindsOf;
    BlockStart();
  }

  lemma {:induction false} InBlockFront(tokens: seq<Token>, s: PS, b: Builder, events: seq<Event>, value: bool,
                                        boundary: nat)
    requires s.index < |tokens| && tokens[s.index].kind != End && InBlock(tokens, s, b, events, value, boundary)
    ensures s.ok ==> BlockFront(b.roots)
  {
    hide IsSettled, BlockFront, TailAt, KindsOf;
  }

  lemma {:induction false} InBlockNext(tokens: seq<Token>, roots: seq<Root>, s: PS, b: Builder, events: seq<Event>,
                                       value: bool, boundary: nat)
    requires s.index < |tokens| && (s.ok ==> BlockFront(roots) && b.start <= boundary)
    requires s.ok && tokens[s.index].kind != End ==>
      IsSettled(tokens, s.index, events) && b.roots == Snoc(roots, N(Line(value))) && boundary < s.index &&
      (value ==> TailAt(b, KindsOf(tokens)[boundary..s.index]))
    ensures InBlock(tokens, s, b, events, value, boundary)
  {
    hide IsSettled, BlockFront, TailAt, KindsOf, Snoc;
    BlockLine(roots, value);
  }

  class Parser {
    const tokens: seq<Token>
    const maximumNesting: nat
    var index: nat
    var nesting: nat
    var clean: bool
    var edits: Edits
    var notes: Notes
    ghost var g: Growth
    ghost var calls: Calls

    ghost function E(): (e: Env) {
      Env(KindsOf(tokens), maximumNesting)
    }

    ghost function V(): (v: View)
      reads this
    {
      View(PS(index, nesting, clean), edits, notes, g, calls)
    }

    ghost predicate Valid(v: View) {
      && ValidEnv(E()) && v.s.index < |tokens| && v.s.nesting <= maximumNesting && Grounded(tokens, v)
      && v.calls.frames <= v.calls.peak <= FRAMES * (maximumNesting + 1)
    }

    /** One more call in progress. */
    ghost method Enter()
      requires Valid(V()) && Room(V(), 1)
      modifies this`calls
      ensures Valid(V()) && calls == Calls(old(calls.frames) + 1, Higher(old(calls.peak), old(calls.frames) + 1))
    {
      hide Snoc, Grounded, ValidEnv, KindsOf, Ordered;
      StillGrounded(tokens, V(), V().(calls := Calls(calls.frames + 1, Higher(calls.peak, calls.frames + 1))));
      calls := Calls(calls.frames + 1, Higher(calls.peak, calls.frames + 1));
    }

    ghost method Leave()
      requires Valid(V()) && calls.frames > 0
      modifies this`calls
      ensures Valid(V()) && calls == Calls(old(calls.frames) - 1, old(calls.peak))
    {
      hide Snoc, Grounded, ValidEnv, KindsOf, Ordered;
      StillGrounded(tokens, V(), V().(calls := Calls(calls.frames - 1, calls.peak)));
      calls := Calls(calls.frames - 1, calls.peak);
    }

    function Now(): (k: Kind)
      requires index < |tokens|
      reads this`index
    {
      tokens[index].kind
    }

    // ---------------------------------------------------------------- tree building

    ghost method Open()
      requires Valid(V())
      modifies this`g
      ensures Valid(V()) && g.b == Opened(index, edits.separators, edits.tailEdits, notes.events) &&
        g.b.roots == [] && g.b.own == [] && g.b.start == index
      ensures g.stack == Enclosing(old(g.b), old(g.stack))
    {
      hide Snoc, Chain, Telling, Forcing, OnTime, Noted, ValidEnv, Halts, KindsOf, Ordered;
      if clean {
        ChainOpened(tokens, index, g.b, g.stack, edits.separators, edits.tailEdits, notes.events);
        TellingOpened(tokens, index, g.b, g.stack, edits.separators, edits.tailEdits, notes.events);
        ForcingOpened(tokens, index, g.b, g.stack, edits.separators, edits.tailEdits, notes.events);
      }
      g := Growth(Opened(index, edits.separators, edits.tailEdits, notes.events), Enclosing(g.b, g.stack));
    }

    /** Completes the node in progress, which said nothing itself. */
    ghost method Close(sym: Sym)
      requires Valid(V()) && g.stack.Enclosing? && Ordinary(sym) && Silent(sym) &&
        (clean ==> Production(sym, g.b.roots) && g.b.own == [] && MayClose(tokens, index, g.b, g.stack, sym))
      modifies this`g
      ensures Valid(V()) && g.stack == old(g.stack.below)
      ensures g.b == Closed(old(g.stack.top), old(g.b), sym) && g.b.roots == Snoc(old(g.stack.top.roots), N(sym))
      ensures g.b.start == old(g.stack.top.start) && g.b.own == old(g.stack.top.own) &&
        OneMore(old(g.stack.top.kids), g.b.kids)
    {
      hide Snoc, MayClose, Grounded, ValidEnv, Production, Silent, Ordinary, Spoken, KindsOf, Ordered;
      if clean {
        SilentSpoken(tokens, g.b, sym);
      }
      CloseSpoken(sym);
    }

    /** Completes the node in progress, which said what its tree says. */
    ghost method CloseSpoken(sym: Sym)
      requires Valid(V()) && g.stack.Enclosing? && Ordinary(sym) &&
        (clean ==> Production(sym, g.b.roots) && Spoken(tokens, g.b, sym) && MayClose(tokens, index, g.b, g.stack, sym))
      modifies this`g
      ensures Valid(V()) && g.stack == old(g.stack.below)
      ensures g.b == Closed(old(g.stack.top), old(g.b), sym) && g.b.roots == Snoc(old(g.stack.top.roots), N(sym))
      ensures g.b.start == old(g.stack.top.start) && g.b.own == old(g.stack.top.own) &&
        OneMore(old(g.stack.top.kids), g.b.kids)
    {
      hide Snoc, MayClose, Chain, Telling, Forcing, OnTime, Noted, ValidEnv, Production, Spoken, Ordinary, KindsOf,
        Ordered;
      if clean {
        ChainClosed(tokens, index, g.b, g.stack, sym, edits.separators, edits.tailEdits);
        TellingClosed(tokens, index, g.b, g.stack, sym, edits.separators, edits.tailEdits, notes.events);
        ForcingClosed(tokens, index, g.b, g.stack, sym, edits.separators, edits.tailEdits);
      }
      g := Growth(Closed(g.stack.top, g.b, sym), g.stack.below);
    }

    /** One more call in progress, which grows a node of its own. */
    ghost method Begin()
      requires Valid(V()) && Room(V(), 1)
      modifies this`g, this`calls
      ensures Valid(V()) && g.b == Opened(index, edits.separators, edits.tailEdits, notes.events) &&
        g.b.roots == [] && g.b.own == [] && g.b.start == index
      ensures g.stack == Enclosing(old(g.b), old(g.stack))
      ensures calls == Calls(old(calls.frames) + 1, Higher(old(calls.peak), old(calls.frames) + 1))
    {
      hide Snoc, MayClose, Grounded, ValidEnv, Opened, KindsOf, Ordered;
      Open();
      Enter();
    }

    ghost method Done(sym: Sym)
      requires Valid(V()) && g.stack.Enclosing? && Ordinary(sym) && Silent(sym) &&
        (clean ==> Production(sym, g.b.roots) && g.b.own == [] && MayClose(tokens, index, g.b, g.stack, sym)) &&
          calls.frames > 0
      modifies this`g, this`calls
      ensures Valid(V()) && g.stack == old(g.stack.below) && calls == Calls(old(calls.frames) - 1, old(calls.peak))
      ensures g.b == Closed(old(g.stack.top), old(g.b), sym) && g.b.roots == Snoc(old(g.stack.top.roots), N(sym))
      ensures g.b.start == old(g.stack.top.start) && g.b.own == old(g.stack.top.own) &&
        OneMore(old(g.stack.top.kids), g.b.kids)
    {
      hide Snoc, MayClose, Grounded, ValidEnv, Production, Silent, Ordinary, OneMore, KindsOf, Ordered;
      Close(sym);
      Leave();
    }

    ghost method DoneSpoken(sym: Sym)
      requires Valid(V()) && g.stack.Enclosing? && Ordinary(sym) &&
        (clean ==>
          Production(sym, g.b.roots) && Spoken(tokens, g.b, sym) && MayClose(tokens, index, g.b, g.stack, sym)) &&
          calls.frames > 0
      modifies this`g, this`calls
      ensures Valid(V()) && g.stack == old(g.stack.below) && calls == Calls(old(calls.frames) - 1, old(calls.peak))
      ensures g.b == Closed(old(g.stack.top), old(g.b), sym) && g.b.roots == Snoc(old(g.stack.top.roots), N(sym))
      ensures g.b.start == old(g.stack.top.start) && g.b.own == old(g.stack.top.own) &&
        OneMore(old(g.stack.top.kids), g.b.kids)
    {
      hide Snoc, MayClose, Grounded, ValidEnv, Production, Spoken, Ordinary, OneMore, KindsOf, Ordered;
      CloseSpoken(sym);
      Leave();
    }

    /** The children of the node in progress derive the tokens since its start. */
    lemma {:induction false} TreeYield()
      requires Valid(V()) && clean
      ensures g.b.start <= index && YieldAll(g.b.kids) == KindsOf(tokens)[g.b.start..index]
      ensures g.b.roots == Roots(g.b.kids) && AllDerive(g.b.kids)
    {
      hide Snoc, YieldAll, AllDerive, Logged, Telling, Forcing, Noted, OnTime, KindsOf, Ordered;
    }

    lemma {:induction false} StartsBefore()
      requires Valid(V())
      ensures clean ==> g.b.start <= index
    {
      if clean {
        Reached();
      }
    }

    /** Where the node in progress has got to. */
    lemma {:induction false} Reached()
      requires Valid(V()) && clean
      ensures g.b.start + |YieldAll(g.b.kids)| == index && g.b.roots == Roots(g.b.kids)
    {
      hide Snoc, YieldAll, AllDerive, Logged, Telling, Forcing, Noted, OnTime, KindsOf, Ordered;
      assert |YieldAll(g.b.kids)| == |KindsOf(tokens)[g.b.start..index]|;
    }

    // ---------------------------------------------------------------- tokens

    method Advance()
      requires Valid(V())
      modifies this`index, this`g
      ensures Valid(V()) && Kept(old(V()), V()) && V().s == R.Advance(E(), old(V().s))
      ensures old(Now()) != End ==>
        index == old(index) + 1 && Grew(old(V()), V(), T(old(Now()))) &&
        (clean ==> IsSettled(tokens, index, notes.events))
      ensures g.b == if old(Now()) == End then old(g.b) else Extended(old(g.b), Leaf(old(Now())))
      ensures old(Now()) != End ==> OneMore(old(g.b.kids), g.b.kids)
    {
      hide Snoc, Chain, Telling, Forcing, OnTime, Noted, IsSettled, Depth, KindsOf, Ordered;
      if Now() != End {
        LaterIsSettled(tokens, index, notes.events, clean);
        if clean {
          ChainLeaf(tokens, index, g.b, g.stack, edits.separators, edits.tailEdits);
          TellingLeaf(tokens, index, g.b, g.stack, edits.separators, edits.tailEdits, notes.events, Now());
          ForcingLeaf(tokens, g.b, g.stack, Now());
        }
        g := g.(b := Extended(g.b, Leaf(Now())));
        index := index + 1;
      }
    }

    method Report()
      requires Valid(V())
      modifies this`clean
      ensures Valid(V()) && Kept(old(V()), V()) && V().s == Fail(old(V().s)) && g == old(g)
    {
      hide Snoc, Chain, Telling, Forcing, Timed, Clock, KeysIncrease, LastAt, Ordered, Depth, Noted, ValidEnv,
        KindsOf;
      clean := false;
    }

    /** Consumes the current token if it is the given one. */
    method Take(kind: Kind) returns (taken: bool)
      requires Valid(V()) && kind != End
      modifies this`index, this`g
      ensures Valid(V()) && Kept(old(V()), V()) && taken == (old(Now()) == kind)
      ensures V().s == if taken then R.Advance(E(), old(V().s)) else old(V().s)
      ensures taken ==>
        Grew(old(V()), V(), T(kind)) && index == old(index) + 1 && (clean ==> IsSettled(tokens, index, notes.events))
      ensures !taken ==> g.b == old(g.b)
    {
      hide Snoc, Grounded, IsSettled, Extended, R.Advance, KindsOf, Ordered;
      taken := Now() == kind;
      if taken {
        Advance();
      }
    }

    /** Takes the token or reports its absence. */
    method Require(kind: Kind)
      requires Valid(V()) && kind != End
      modifies this`index, this`g, this`clean
      ensures Valid(V()) && Kept(old(V()), V()) && V().s == Expect(E(), old(V().s), kind)
      ensures Grew(old(V()), V(), T(kind)) && (clean ==> IsSettled(tokens, index, notes.events))
    {
      hide Snoc, Grounded, IsSettled, Extended, R.Advance, KindsOf, Ordered;
      var taken := Take(kind);
      if !taken {
        Report();
      }
    }

    /** A non-reserved identifier, or a report; gives its token index. */
    method TakePlainIdentifier() returns (name: Option<nat>)
      requires Valid(V())
      modifies this`index, this`g, this`clean
      ensures Valid(V()) && Kept(old(V()), V()) && V().s == ExpectName(E(), old(V().s))
      ensures name == if IsNameKind(old(Now())) then Some(old(index)) else None
      ensures name.Some? ==>
        index == name.value + 1 && clean == old(clean) && Grew(old(V()), V(), T(old(Now()))) &&
        (clean ==> IsSettled(tokens, index, notes.events))
      ensures name.None? ==> !clean
    {
      hide Snoc, Grounded, IsSettled, IsReserved, Extended, R.Advance, KindsOf, Ordered;
      if IsNameKind(Now()) {
        name := Some(index);
        Advance();
      } else {
        name := None;
        Report();
      }
    }

    // ---------------------------------------------------------------- symbol events

    /** The tree in progress goes on with an event told. */
    ghost method Tell(e: Event)
      requires Valid(V())
      modifies this`g
      ensures clean ==>
        Chain(tokens, index, g.b, g.stack, edits.separators, edits.tailEdits) &&
        Telling(tokens, g.b, g.stack, notes.events + [e]) && Forcing(tokens, g.b, g.stack)
      ensures g.stack == old(g.stack) && g.b.start == old(g.b.start) && g.b.kids == old(g.b.kids) &&
        g.b.roots == old(g.b.roots)
      ensures clean ==> g.b.own == Snoc(old(g.b.own), Told(|g.b.roots|, e))
    {
      hide Snoc, Chain, Telling, Forcing, OnTime, Noted, ValidEnv, Halts, YieldAll, Yield, Roots, IsArmPlace,
        NoBlockHere, KindsOf, Ordered;
      if clean {
        ChainTells(tokens, index, g.b, g.stack, edits.separators, edits.tailEdits, e);
        TellingEvent(tokens, g.b, g.stack, notes.events, e);
        ForcingTells(tokens, g.b, g.stack, e);
        Reached();
      }
      g := g.(b := Tells(g.b, e));
    }

    method PushSymbolScope()
      requires Valid(V())
      modifies this`notes, this`g
      ensures Valid(V()) && Said(old(V()), V(), PushScope) && Depth(notes.events) == old(Depth(notes.events)) + 1
      ensures old(IsSettled(tokens, index, notes.events)) ==> IsSettled(tokens, index, notes.events)
    {
      hide Snoc, Chain, Telling, Forcing, Timed, Clock, KeysIncrease, LastAt, Ordered, Depth, AliasLog, ImportLog,
        Tells, KindsOf;
      AddEvent(notes.events, PushScope);
      NotNoted(tokens, notes.events, notes.aliases, notes.imports, PushScope);
      Tell(PushScope);
      notes := notes.(events := notes.events + [PushScope]);
    }

    method PopSymbolScope()
      requires Valid(V())
      modifies this`notes, this`g
      ensures Valid(V()) && Said(old(V()), V(), ScopeEnd(tokens, index)) &&
        Depth(notes.events) == old(Depth(notes.events)) - 1
      ensures old(IsSettled(tokens, index, notes.events)) ==> IsSettled(tokens, index, notes.events)
    {
      hide Snoc, Chain, Telling, Forcing, Timed, Clock, KeysIncrease, LastAt, Ordered, Depth, AliasLog, ImportLog,
        Tells, KindsOf;
      var e := PopScope(tokens[index].start);
      AddEvent(notes.events, e);
      NotNoted(tokens, notes.events, notes.aliases, notes.imports, e);
      Tell(e);
      notes := notes.(events := notes.events + [e]);
    }

    /** Makes the identifier at `k` visible from the current token on. */
    method DefineSymbol(k: nat, kind: SymbolKind)
      requires Valid(V()) && Definable(tokens, index, notes.events, clean, k) && kind != LetSymbol &&
        kind != ImportSymbol
      modifies this`notes, this`g
      ensures Valid(V()) && Said(old(V()), V(), Definition(tokens, k, kind, index)) &&
        Depth(notes.events) == old(Depth(notes.events))
      ensures Ordered(tokens) ==>
        LastAt(notes.events) == tokens[index].start && LastStart(notes.events) == tokens[k].start
    {
      hide Snoc, Chain, Telling, Forcing, OnTime, Noted, Ordered, Depth, Tells, LastAt, LastStart, IsReserved,
        KindsOf;
      var e := Define(tokens[k].kind.name, tokens[k].start, tokens[k].end, kind, tokens[index].start);
      DefinitionFits(tokens, index, notes.events, clean, k, kind);
      NotNoted(tokens, notes.events, notes.aliases, notes.imports, e);
      Tell(e);
      notes := notes.(events := notes.events + [e]);
    }

    /** Makes the name of a declaration visible and notes whether it only renames another. */
    method DefineLet(k: nat, target: Option<Target>)
      requires Valid(V()) && Definable(tokens, index, notes.events, clean, k) && target == Initializer(tokens, k + 1)
      modifies this`notes, this`g
      ensures Valid(V()) && Said(old(V()), V(), Definition(tokens, k, LetSymbol, index)) &&
        Depth(notes.events) == old(Depth(notes.events))
    {
      hide Snoc, Chain, Telling, Forcing, OnTime, Noted, Ordered, Depth, Tells, LastAt, LastStart, IsReserved,
        KindsOf, ValidEnv;
      var e := Define(tokens[k].kind.name, tokens[k].start, tokens[k].end, LetSymbol, tokens[index].start);
      DefinitionFits(tokens, index, notes.events, clean, k, LetSymbol);
      AliasNoted(tokens, notes.events, notes.aliases, notes.imports, k, index);
      assert notes.aliases + [] == notes.aliases;
      Tell(e);
      if target.Some? {
        notes := notes.(aliases := notes.aliases + [Alias(Span(tokens[k].start, tokens[k].end), target.value.span,
          target.value.fields > 0)]);
      }
      notes := notes.(events := notes.events + [e]);
    }

    /** Makes the last name of an import visible and notes the import if its statement ends here. */
    method DefineImport(k: nat)
      requires Valid(V()) && Definable(tokens, index, notes.events, clean, k)
      modifies this`notes, this`g
      ensures Valid(V()) && Said(old(V()), V(), Definition(tokens, k, ImportSymbol, index)) &&
        Depth(notes.events) == old(Depth(notes.events))
    {
      hide Snoc, Chain, Telling, Forcing, OnTime, Noted, Ordered, Depth, Tells, LastAt, LastStart, IsReserved,
        KindsOf, ValidEnv;
      var e := Define(tokens[k].kind.name, tokens[k].start, tokens[k].end, ImportSymbol, tokens[index].start);
      DefinitionFits(tokens, index, notes.events, clean, k, ImportSymbol);
      ImportNoted(tokens, notes.events, notes.aliases, notes.imports, k, index);
      assert notes.imports + [] == notes.imports;
      Tell(e);
      if EndsImport(Now()) {
        notes := notes.(imports := notes.imports + [Span(tokens[k].start, tokens[k].end)]);
      }
      notes := notes.(events := notes.events + [e]);
    }

    /** The identifier just passed is a use. */
    method ReferenceSymbol(k: nat)
      requires Valid(V()) && k + 1 == index && IsNameKind(tokens[k].kind)
      requires Ordered(tokens) ==> Clock(notes.events) <= tokens[k].start
      modifies this`notes, this`g
      ensures Valid(V()) && Said(old(V()), V(), Reference(tokens, k)) && Depth(notes.events) == old(Depth(notes.events))
      ensures old(IsSettled(tokens, index, notes.events)) ==> IsSettled(tokens, index, notes.events)
    {
      hide Snoc, Chain, Telling, Forcing, Noted, Timed, Clock, KeysIncrease, LastAt, LastStart, Depth, IsReserved,
        Tells, ValidEnv;
      var e := Refer(tokens[k].kind.name, tokens[k].start, tokens[k].end);
      AddEvent(notes.events, e);
      assert Ordered(tokens) ==> tokens[k].start < tokens[k].end <= tokens[index].start;
      NotNoted(tokens, notes.events, notes.aliases, notes.imports, e);
      Tell(e);
      notes := notes.(events := notes.events + [e]);
    }

    // ---------------------------------------------------------------- operators

    method ParseOperand(level: nat)
      requires Valid(V()) && level <= 6 && Room(V(), 3 * (7 - level) + 8)
      modifies this
      ensures Valid(V()) && Called(old(V()), V()) && V().s == R.ParseBinary(E(), old(V().s), level + 1)
      ensures Grew(old(V()), V(), N(Operand(level))) && (clean ==> IsSettled(tokens, index, notes.events))
      decreases Left(E(), V().s), 27 - level, 0
    {
      hide Snoc, Grounded, IsSettled, Production, Depth, ValidEnv, IsReserved, Opened, Closed, Extended, OneMore,
        R.ParseUnary, KindsOf, Ordered, R.Advance, OperatorAt, IsStatementBoundary, BehindNewlines;
      Enter();
      if level < 6 {
        ParseBinary(level + 1);
      } else {
        ParseUnary();
      }
      Leave();
    }

    /** One precedence level: operands joined by its operators. */
    method ParseBinary(level: nat)
      requires Valid(V()) && level <= 6 && Room(V(), 3 * (7 - level) + 10)
      modifies this
      ensures Valid(V()) && Called(old(V()), V()) && V().s == R.ParseBinary(E(), old(V().s), level)
      ensures Grew(old(V()), V(), N(Binary(level))) &&
        (clean ==> IsSettled(tokens, index, notes.events) && OneMore(old(g.b.kids), g.b.kids))
      decreases Left(E(), V().s), 27 - level, 1
    {
      hide Snoc, Grounded, IsSettled, Production, Depth, ValidEnv, IsReserved, Opened, Closed, Extended, OneMore,
        R.ParseUnary, OperatorAt, Operand, R.Advance, KindsOf, Ordered, IsStatementBoundary, BehindNewlines;
      Begin();
      ghost var begun := V();
      ParseOperand(level);
      ghost var first := V().s;
      FirstOperand(level);
      while OperatorAt(level, Now())
        invariant Valid(V()) && Kept(begun, V()) && index >= first.index
        invariant BinaryTails(E(), V().s, level) == BinaryTails(E(), first, level)
        invariant clean ==> IsSettled(tokens, index, notes.events) && Production(Binary(level), g.b.roots)
        decreases |tokens| - index
      {
        ghost var roots := g.b.roots;
        ParseBinaryTail(level);
        MoreOperands(level, roots);
      }
      Done(Binary(level));
    }

    method ParseBinaryTail(level: nat)
      requires Valid(V()) && level <= 6 && OperatorAt(level, Now()) && Room(V(), 3 * (7 - level) + 9)
      modifies this
      ensures Valid(V()) && Called(old(V()), V()) &&
        V().s == R.ParseBinary(E(), R.Advance(E(), old(V().s)), level + 1) && index > old(index)
      ensures Grew(old(V()), V(), N(BinaryTail(level))) && (clean ==> IsSettled(tokens, index, notes.events))
      decreases Left(E(), V().s), 1
    {
      hide Snoc, Grounded, IsSettled, Production, Depth, ValidEnv, IsReserved, Opened, Closed, Extended, OneMore,
        R.ParseBinary, OperatorAt, Operand, KindsOf, Ordered, IsArmPlace, R.Advance;
      Begin();
      ghost var k := Now();
      IsOperatorKind(level, k);
      Advance();
      ParseOperand(level);
      OperatorOperand(level, k);
      Done(BinaryTail(level));
    }

    method ParseUnary()
      requires Valid(V()) && Room(V(), 10)
      modifies this
      ensures Valid(V()) && Called(old(V()), V()) && V().s == R.ParseUnary(E(), old(V().s))
      ensures Grew(old(V()), V(), N(Unary)) && (clean ==> IsSettled(tokens, index, notes.events))
      decreases Left(E(), V().s), 19
    {
      hide Snoc, Grounded, IsSettled, Production, Depth, ValidEnv, IsReserved, Opened, Closed, Extended, OneMore,
        R.ParsePostfix, KindsOf, Ordered, R.Advance, OperatorAt, IsStatementBoundary, BehindNewlines;
      Begin();
      ghost var k := Now();
      if IsUnaryOperator(Now()) {
        Advance();
      }
      ParsePostfix();
      UnaryShape(k);
      Done(Unary);
    }

    method ParsePostfix()
      requires Valid(V()) && Room(V(), 9)
      modifies this
      ensures Valid(V()) && Called(old(V()), V()) && V().s == R.ParsePostfix(E(), old(V().s))
      ensures Grew(old(V()), V(), N(Postfix)) && (clean ==> IsSettled(tokens, index, notes.events))
      decreases Left(E(), V().s), 18
    {
      hide Snoc, Grounded, IsSettled, Production, Depth, ValidEnv, IsReserved, Opened, Closed, Extended, OneMore,
        R.ParsePrimary, R.ParseSuffix, KindsOf, Ordered, IsArmPlace;
      Begin();
      ghost var begun := V();
      ParsePrimary();
      ghost var first := V().s;
      PostfixShape();
      while StartsSuffix(Now())
        invariant Valid(V()) && Kept(begun, V()) && index >= first.index
        invariant Suffixes(E(), V().s) == Suffixes(E(), first)
        invariant clean ==> IsSettled(tokens, index, notes.events) && Production(Postfix, g.b.roots)
        decreases |tokens| - index
      {
        ghost var roots := g.b.roots;
        ParseSuffix();
        MoreSuffixes(roots);
      }
      Done(Postfix);
    }

    /** A call, a member access or an index. */
    method ParseSuffix()
      requires Valid(V()) && StartsSuffix(Now()) && Room(V(), 6)
      modifies this
      ensures Valid(V()) && Called(old(V()), V()) && V().s == R.ParseSuffix(E(), old(V().s))
      ensures Grew(old(V()), V(), N(Suffix)) && (clean ==> IsSettled(tokens, index, notes.events))
      decreases Left(E(), V().s), 1
    {
      hide Snoc, Grounded, IsSettled, Production, Depth, ValidEnv, IsReserved, Opened, Closed, Extended, OneMore,
        R.ParseCall, R.ParseIndex, IsNameKind, KindsOf, R.Advance, IsLiteralWord, OperatorAt, IsStatementBoundary,
        BehindNewlines, Fail, Expect, ExpectName;
      Begin();
      if Now() == OpenRound {
        ParseCall();
        CallSuffixShape();
      } else if Now() == OpenSquare {
        ghost var value := ParseIndex();
        IndexShape(value);
      } else {
        ParseAccess();
      }
      Done(Suffix);
    }

    /** A dot and a name. */
    method ParseAccess()
      requires Valid(V()) && Now() == Operator(".") && g.b.roots == []
      modifies this`index, this`clean, this`g
      ensures Valid(V()) && Kept(old(V()), V()) && V().s == ExpectName(E(), R.Advance(E(), old(V().s)))
      ensures clean ==> IsSettled(tokens, index, notes.events) && Production(Suffix, g.b.roots)
    {
      hide Snoc, Grounded, IsSettled, Production, Depth, ValidEnv, IsReserved, Extended, OneMore, IsNameKind, KindsOf,
        Ordered, IsLiteralWord, R.Advance;
      Advance();
      ghost var k := Now();
      var name := TakePlainIdentifier();
      MemberShape(k);
    }

    method ParseIndex() returns (ghost value: bool)
      requires Valid(V()) && Now() == OpenSquare && Room(V(), 2)
      modifies this
      ensures Valid(V()) && Called(old(V()), V()) && V().s == R.ParseIndex(E(), old(V().s))
      ensures clean ==>
        IsSettled(tokens, index, notes.events) &&
        g.b.roots == Snoc(Snoc(Snoc(old(g.b.roots), T(OpenSquare)), N(Expression(value))), T(CloseSquare))
      decreases Left(E(), V().s), 0
    {
      hide Snoc, Grounded, IsSettled, Production, Depth, ValidEnv, IsReserved, Opened, Closed, Extended, OneMore,
        R.ParseExpression, KindsOf, Ordered, R.Advance;
      Enter();
      Advance();
      value := !StartsLoop(Now());
      if Now() == CloseSquare {
        Report();
      } else {
        ParseExpression();
      }
      Require(CloseSquare);
      Leave();
    }

    method ParseCall()
      requires Valid(V()) && Now() == OpenRound && Room(V(), 5)
      modifies this
      ensures Valid(V()) && Called(old(V()), V()) && V().s == R.ParseCall(E(), old(V().s))
      ensures Grew(old(V()), V(), N(Call)) && (clean ==> IsSettled(tokens, index, notes.events))
      decreases Left(E(), V().s), 0
    {
      hide Snoc, Grounded, IsSettled, Production, Depth, ValidEnv, IsReserved, Opened, Closed, Extended, OneMore,
        R.Arguments, KindsOf, Ordered, R.Advance, OperatorAt, IsStatementBoundary, BehindNewlines, IsArmPlace,
        NoBlockHere;
      Begin();
      Advance();
      var none := Take(CloseRound);
      if !none {
        ParseArguments(CloseRound);
      }
      CallShape();
      Done(Call);
    }

    /** Comma-separated expressions and their closing bracket. */
    method ParseArguments(close: Kind)
      requires Valid(V()) && (close == CloseRound || close == CloseSquare) && Room(V(), 4)
      modifies this
      ensures Valid(V()) && Called(old(V()), V()) && V().s == Arguments(E(), old(V().s), close)
      ensures clean ==>
        IsSettled(tokens, index, notes.events) && g.b.roots == Snoc(Snoc(old(g.b.roots), N(Exprs)), T(close))
      decreases Left(E(), V().s), 40, 2
    {
      hide Snoc, Grounded, IsSettled, Production, Depth, ValidEnv, IsReserved, Opened, Closed, Extended, OneMore,
        Arguments, ExpressionsSoFar, KindsOf, Ordered, OperatorAt, IsStatementBoundary, BehindNewlines, IsArmPlace,
        R.Advance;
      Begin();
      ParseArgumentList(close);
      Done(Exprs);
      Require(close);
    }

    method ParseArgumentList(close: Kind)
      requires Valid(V()) && (close == CloseRound || close == CloseSquare) && Room(V(), 3) && g.b.roots == []
      modifies this
      ensures Valid(V()) && Called(old(V()), V()) && Arguments(E(), old(V().s), close) == Expect(E(), V().s, close)
      ensures clean ==> Production(Exprs, g.b.roots) && Now() != Comma
      decreases Left(E(), V().s), 40, 1
    {
      hide Snoc, Grounded, IsSettled, Production, Depth, ValidEnv, IsReserved, Arguments, ExpressionsSoFar, KindsOf,
        Ordered, ExpectName, Expect;
      Enter();
      ghost var begun := V();
      NoExpressions();
      var more := true;
      while more
        invariant Valid(V()) && Kept(begun, V())
        invariant Arguments(E(), begun.s, close) == if more then Arguments(E(), V().s, close)
          else Expect(E(), V().s, close)
        invariant clean ==>
          if more then ExpressionsSoFar(g.b.roots) else Production(Exprs, g.b.roots) && Now() != Comma
        decreases |tokens| - index, more
      {
        more := ParseArgument(close);
      }
      Leave();
    }

    /** One expression and its comma; a comma before the closing bracket is reported. */
    method ParseArgument(close: Kind) returns (more: bool)
      requires Valid(V()) && (close == CloseRound || close == CloseSquare) && Room(V(), 2)
      requires clean ==> ExpressionsSoFar(g.b.roots)
      modifies this
      ensures Valid(V()) && Called(old(V()), V()) && (more ==> index > old(index))
      ensures Arguments(E(), old(V().s), close) == if more then Arguments(E(), V().s, close)
        else Expect(E(), V().s, close)
      ensures clean ==>
        if more then ExpressionsSoFar(g.b.roots) else Production(Exprs, g.b.roots) && Now() != Comma
      decreases Left(E(), V().s), 40, 0
    {
      hide Snoc, Grounded, IsSettled, Production, Depth, ValidEnv, IsReserved, Opened, Closed, Extended, OneMore,
        R.ParseExpression, ExpressionsSoFar, KindsOf, Ordered, IsLiteralWord, IsNameKind, R.Advance, IsArmPlace,
        NoBlockHere, OperatorAt, IsStatementBoundary, BehindNewlines;
      Enter();
      OneMoreExpression(g.b.roots, !StartsLoop(Now()), Now());
      ParseExpression();
      CommaAfterExpressions(g.b.roots);
      more := Take(Comma);
      if more && Now() == close {
        Report();
        more := false;
      }
      Leave();
    }

    // ---------------------------------------------------------------- primaries

    method ParsePrimary()
      requires Valid(V()) && Room(V(), 8)
      modifies this
      ensures Valid(V()) && Called(old(V()), V()) && V().s == R.ParsePrimary(E(), old(V().s))
      ensures Grew(old(V()), V(), N(Primary)) && (clean ==> IsSettled(tokens, index, notes.events))
      decreases Left(E(), V().s), 17, 1
    {
      hide Snoc, Grounded, IsSettled, Production, Depth, ValidEnv, IsReserved, Opened, Closed, Extended, OneMore,
        R.ParseArray, R.ParseRecord, R.ParseLambda, R.ParseExpression, Spoken, YieldAll, Roots, KindsOf, Ordered,
        R.Advance, OperatorAt, IsStatementBoundary, BehindNewlines, IsArmPlace, NoBlockHere;
      Begin();
      ParseAlternative();
      if clean {
        Reached();
        PrimarySpoken(tokens, g.b);
      }
      DoneSpoken(Primary);
    }

    /** The alternatives of a primary; only a name is told. */
    method ParseAlternative()
      requires Valid(V()) && Room(V(), 7) && g.b.roots == [] && g.b.own == [] && g.b.start == index
      modifies this
      ensures Valid(V()) && Held(old(V()), V()) && calls.peak > old(calls.frames) &&
        V().s == R.ParsePrimary(E(), old(V().s))
      ensures clean ==> IsSettled(tokens, index, notes.events) && Production(Primary, g.b.roots)
      ensures clean ==>
        g.b.own == if |g.b.roots| == 1 && IsName(g.b.roots[0]) then Snoc([], Told(1, Reference(tokens, g.b.start)))
        else []
      decreases Left(E(), V().s), 17, 0
    {
      hide Snoc, Grounded, IsSettled, Production, Depth, ValidEnv, IsReserved, R.ParseArray, R.ParseRecord,
        R.ParseLambda, R.ParseExpression, Reference, KindsOf, Ordered, ExpectName, Expect, R.Advance, Fail,
        OperatorAt, IsStatementBoundary, BehindNewlines;
      Enter();
      ghost var k := Now();
      if Now().Number? || Now().StringLiteral? || IsLiteralWord(Now()) || IsNameKind(Now()) {
        PrimaryToken(k);
        ParseAtom();
      } else if Now() == OpenRound {
        ghost var value := ParseGroup();
        PrimaryGroup(value);
      } else {
        ghost var root := ParseCompound();
      }
      Leave();
    }

    /** A literal, or a name and the reference it is. */
    method ParseAtom()
      requires Valid(V()) && (Now().Number? || Now().StringLiteral? || IsLiteralWord(Now()) || IsNameKind(Now()))
      modifies this`index, this`g, this`notes
      ensures Valid(V()) && Held(old(V()), V()) && V().s == R.Advance(E(), old(V().s))
      ensures Grew(old(V()), V(), T(old(Now()))) && (clean ==> IsSettled(tokens, index, notes.events))
      ensures clean ==>
                g.b.own == if IsNameKind(old(Now())) then
                  Snoc(old(g.b.own), Told(|g.b.roots|, Reference(tokens, old(index)))) else old(g.b.own)
    {
      hide Snoc, Grounded, IsSettled, Production, Depth, ValidEnv, IsReserved, Opened, Closed, Extended, OneMore,
        KindsOf, Ordered, R.Advance;
      LiteralIsNoName(Now());
      if Now().Number? || Now().StringLiteral? || IsLiteralWord(Now()) {
        Advance();
      } else {
        ParseName();
      }
    }

    method ParseName()
      requires Valid(V()) && IsNameKind(Now())
      modifies this`index, this`g, this`notes
      ensures Valid(V()) && Held(old(V()), V()) && V().s == R.Advance(E(), old(V().s))
      ensures Grew(old(V()), V(), T(old(Now()))) && (clean ==> IsSettled(tokens, index, notes.events))
      ensures clean ==> g.b.own == Snoc(old(g.b.own), Told(|g.b.roots|, Reference(tokens, old(index))))
    {
      hide Snoc, Chain, Telling, Forcing, Noted, IsSettled, Production, Depth, ValidEnv, IsReserved, Opened, Closed,
        Extended, OneMore, Timed, Clock, KeysIncrease, LastAt, Ordered, R.Advance, KindsOf;
      var reference := index;
      Advance();
      ReferenceSymbol(reference);
    }

    method ParseGroup() returns (ghost value: bool)
      requires Valid(V()) && Now() == OpenRound && Room(V(), 2)
      modifies this
      ensures Valid(V()) && Called(old(V()), V()) &&
        V().s == Expect(E(), R.ParseExpression(E(), R.Advance(E(), old(V().s))), CloseRound)
      ensures clean ==>
        IsSettled(tokens, index, notes.events) &&
        g.b.roots == Snoc(Snoc(Snoc(old(g.b.roots), T(OpenRound)), N(Expression(value))), T(CloseRound))
      decreases Left(E(), V().s), 0
    {
      hide Snoc, Grounded, IsSettled, Production, Depth, ValidEnv, IsReserved, Opened, Closed, Extended, OneMore,
        R.ParseExpression, KindsOf, Ordered, R.Advance, ExpectName, Expect;
      Enter();
      Advance();
      value := !StartsLoop(Now());
      ParseExpression();
      Require(CloseRound);
      Leave();
    }

    /** An array, a record, a lambda, or a report. */
    method ParseCompound() returns (ghost root: Root)
      requires Valid(V()) && Room(V(), 6)
      requires !Now().Number? && !Now().StringLiteral? && !IsLiteralWord(Now()) && !IsNameKind(Now()) &&
        Now() != OpenRound
      modifies this
      ensures Valid(V()) && Called(old(V()), V()) && V().s == R.ParsePrimary(E(), old(V().s))
      ensures Grew(old(V()), V(), root) && root.N? &&
        (clean ==> IsSettled(tokens, index, notes.events) && Production(Primary, One(root)))
      decreases Left(E(), V().s), 16
    {
      hide Snoc, Grounded, IsSettled, Production, Depth, ValidEnv, IsReserved, Opened, Closed, Extended, OneMore,
        IsLiteralWord, IsNameKind, R.ParseArray, R.ParseRecord, R.ParseLambda, R.ParseExpression, KindsOf, Ordered;
      Enter();
      PrimaryNode();
      if Now() == OpenSquare {
        root := N(Array);
        ParseArray();
      } else if Now() == OpenCurly {
        root := N(Record);
        ParseRecord();
      } else if StartsLambda(Now()) {
        root := N(Lambda);
        ParseLambda();
      } else {
        root := N(Array);
        SkipUnexpected();
      }
      Leave();
    }

    method SkipUnexpected()
      requires Valid(V())
      modifies this`index, this`clean, this`g
      ensures Valid(V()) && Kept(old(V()), V()) && !clean && V().s == R.Advance(E(), Fail(old(V().s)))
    {
      hide Snoc, Grounded, IsSettled, Depth, ValidEnv, Extended, OneMore, R.Advance, KindsOf, Ordered;
      Report();
      Advance();
    }

    method ParseArray()
      requires Valid(V()) && Now() == OpenSquare && Room(V(), 5)
      modifies this
      ensures Valid(V()) && Called(old(V()), V()) && V().s == R.ParseArray(E(), old(V().s))
      ensures Grew(old(V()), V(), N(Array)) && (clean ==> IsSettled(tokens, index, notes.events))
      decreases Left(E(), V().s), 0
    {
      hide Snoc, Grounded, IsSettled, Production, Depth, ValidEnv, IsReserved, Opened, Closed, Extended, OneMore,
        R.Arguments, KindsOf, Ordered, OperatorAt, IsStatementBoundary, BehindNewlines, IsArmPlace, NoBlockHere;
      Begin();
      Advance();
      var none := Take(CloseSquare);
      if !none {
        ParseArguments(CloseSquare);
      }
      ArrayShape();
      Done(Array);
    }

    // ---------------------------------------------------------------- records

    method ConsumeNewlines()
      requires Valid(V())
      modifies this`index, this`g
      ensures Valid(V()) && Kept(old(V()), V()) && V().s == SkipNewlines(E(), old(V().s))
      ensures if old(Now()) == Newline then Grew(old(V()), V(), N(Newlines)) &&
        (clean ==> IsSettled(tokens, index, notes.events)) else g.b == old(g.b) && index == old(index)
    {
      hide Snoc, Grounded, IsSettled, Production, Depth, ValidEnv, IsReserved, Opened, Closed, Extended, OneMore,
        KindsOf, Ordered, R.Advance, OperatorAt, IsStatementBoundary, BehindNewlines;
      if Now() != Newline {
        return;
      }
      Open();
      PassNewlines();
      Close(Newlines);
    }

    method PassNewlines()
      requires Valid(V()) && Now() == Newline && g.b.roots == []
      modifies this`index, this`g
      ensures Valid(V()) && Kept(old(V()), V()) && V().s == SkipNewlines(E(), old(V().s)) && index > old(index)
      ensures clean ==> IsSettled(tokens, index, notes.events) && Production(Newlines, g.b.roots)
    {
      hide Snoc, Grounded, IsSettled, Production, Depth, ValidEnv, IsReserved, Extended, OneMore, All, OperatorAt,
        IsStatementBoundary, BehindNewlines, KindsOf, Ordered;
      NoNewlines();
      while Now() == Newline
        invariant Valid(V()) && Kept(old(V()), V()) && SkipNewlines(E(), V().s) == SkipNewlines(E(), old(V().s))
        invariant index > old(index) && clean ==>
          IsSettled(tokens, index, notes.events) && Production(Newlines, g.b.roots)
        invariant clean ==> All(g.b.roots, 0, T(Newline))
        decreases |tokens| - index
      {
        if clean {
          NewlinesShape(g.b.roots);
        }
        Advance();
      }
    }

    method ParseRecord()
      requires Valid(V()) && Now() == OpenCurly && Room(V(), 5)
      modifies this
      ensures Valid(V()) && Called(old(V()), V()) && V().s == R.ParseRecord(E(), old(V().s))
      ensures Grew(old(V()), V(), N(Record)) && (clean ==> IsSettled(tokens, index, notes.events))
      decreases Left(E(), V().s), 0
    {
      hide Snoc, Grounded, IsSettled, Production, Depth, ValidEnv, IsReserved, Opened, Closed, Extended, OneMore,
        R.RecordMembers, SkipNewlines, KindsOf, Ordered, OperatorAt, IsStatementBoundary, BehindNewlines, R.Advance,
        IsArmPlace, NoBlockHere;
      Begin();
      ghost var open := OpenRecord();
      var empty := Take(CloseCurly);
      ghost var close := false;
      if !empty {
        close := ParseMembers();
      }
      RecordRows(open, close);
      Done(Record);
    }

    /** The opening brace of a record and the newlines behind it. */
    method OpenRecord() returns (ghost lines: bool)
      requires Valid(V()) && Now() == OpenCurly && g.b.roots == []
      modifies this`index, this`g
      ensures Valid(V()) && Kept(old(V()), V()) && V().s == SkipNewlines(E(), R.Advance(E(), old(V().s))) &&
        index > old(index)
      ensures clean ==> g.b.roots == RecordFront(lines)
    {
      hide Snoc, Grounded, IsSettled, Depth, ValidEnv, IsReserved, Extended, SkipNewlines, KindsOf, Ordered;
      Advance();
      lines := Now() == Newline;
      ConsumeNewlines();
    }

    /** The members of a record and its closing brace. */
    method ParseMembers() returns (ghost lines: bool)
      requires Valid(V()) && Room(V(), 4)
      modifies this
      ensures Valid(V()) && Called(old(V()), V()) && V().s == RecordMembers(E(), old(V().s))
      ensures clean ==> IsSettled(tokens, index, notes.events)
      ensures clean ==> g.b.roots == RecordClosed(old(g.b.roots), lines)
      decreases Left(E(), V().s), 15
    {
      hide Snoc, Grounded, IsSettled, Production, Depth, ValidEnv, IsReserved, Opened, Closed, Extended, OneMore,
        MembersSoFar, R.RecordMembers, KindsOf, Ordered;
      Enter();
      Open();
      ghost var begun := V();
      NoMembers();
      var more := true;
      lines := false;
      while more
        invariant Valid(V()) && RecordMembers(E(), begun.s) == (if more then RecordMembers(E(), V().s) else V().s)
        invariant calls.frames == begun.calls.frames && calls.peak >= begun.calls.peak && (clean ==> begun.s.ok)
        invariant nesting == begun.s.nesting && index >= begun.s.index &&
          Depth(notes.events) == Depth(begun.notes.events)
        invariant g.stack == if more then begun.g.stack else begun.g.stack.below
        invariant clean && more ==> g.b.own == [] && MembersSoFar(g.b.roots)
        invariant clean && !more ==> IsSettled(tokens, index, notes.events)
        invariant clean && !more ==> g.b.roots == RecordClosed(begun.g.stack.top.roots, lines)
        invariant clean && !more ==> g.b.start == begun.g.stack.top.start && g.b.own == begun.g.stack.top.own
        decreases |tokens| - index, more
      {
        more, lines := ParseMemberAndEnd();
      }
      Leave();
    }

    /** One member and what follows it; the members node is closed behind the last one. */
    method ParseMemberAndEnd() returns (more: bool, ghost lines: bool)
      requires Valid(V()) && g.stack.Enclosing? && Room(V(), 3) && (clean ==> MembersSoFar(g.b.roots) && g.b.own == [])
      modifies this
      ensures Valid(V()) && RecordMembers(E(), old(V().s)) == if more then RecordMembers(E(), V().s) else V().s
      ensures calls.frames == old(calls.frames) && calls.peak > old(calls.frames) && calls.peak >= old(calls.peak) &&
        (clean ==> old(clean))
      ensures nesting == old(nesting) && index >= old(index) && (more ==> index > old(index))
      ensures Depth(notes.events) == old(Depth(notes.events)) && g.stack == if more then old(g.stack)
        else old(g.stack.below)
      ensures clean && more ==> g.b.own == [] && MembersSoFar(g.b.roots)
      ensures clean && !more ==> IsSettled(tokens, index, notes.events)
      ensures clean && !more ==> g.b.roots == RecordClosed(old(g.stack.top.roots), lines)
      ensures clean && !more ==> g.b.start == old(g.stack.top.start) && g.b.own == old(g.stack.top.own)
      decreases Left(E(), V().s), 14, 1
    {
      hide Snoc, Grounded, IsSettled, Production, Depth, ValidEnv, IsReserved, Opened, Closed, Extended, OneMore,
        MembersSoFar, MemberEnd, R.ParseExpression, Expect, KindsOf, Ordered, IsArmPlace, ExpectName, R.Advance,
        NoBlockHere, OperatorAt, IsStatementBoundary, BehindNewlines;
      Enter();
      OneMoreMember(g.b.roots);
      var colon := ParseMember();
      if colon {
        more, lines := EndMember();
      } else {
        more, lines := false, false;
        Close(Members);
      }
      Leave();
    }

    /** A name, a colon and a value. */
    method ParseMember() returns (colon: bool)
      requires Valid(V()) && Room(V(), 2)
      modifies this
      ensures Valid(V()) && Called(old(V()), V()) && Grew(old(V()), V(), N(Member)) &&
        (clean ==> IsSettled(tokens, index, notes.events))
      ensures colon == AtOp(E(), ExpectName(E(), old(V().s)), ":")
      ensures if colon then V().s == R.ParseExpression(E(), R.Advance(E(), ExpectName(E(), old(V().s)))) &&
        index > old(index)
              else V().s == Fail(ExpectName(E(), old(V().s)))
      decreases Left(E(), V().s), 14, 0
    {
      hide Snoc, Grounded, IsSettled, Production, Depth, ValidEnv, IsReserved, Opened, Closed, Extended, OneMore,
        IsNameKind, R.ParseExpression, KindsOf, Ordered, ExpectName, Expect, R.Advance;
      Begin();
      ghost var k := Now();
      colon := ParseMemberName();
      if colon {
        ghost var value := !StartsLoop(Now());
        ParseExpression();
        if clean {
          MemberRow(k, value);
        }
      } else {
        Report();
      }
      Done(Member);
    }

    method ParseMemberName() returns (colon: bool)
      requires Valid(V())
      modifies this`index, this`g, this`clean
      ensures Valid(V()) && Kept(old(V()), V()) && colon == AtOp(E(), ExpectName(E(), old(V().s)), ":")
      ensures V().s == if colon then R.Advance(E(), ExpectName(E(), old(V().s))) else ExpectName(E(), old(V().s))
      ensures colon ==> index > old(index)
      ensures clean ==> IsNameKind(old(Now()))
      ensures clean && colon ==>
        IsSettled(tokens, index, notes.events) && g.b.roots == Snoc(Snoc(old(g.b.roots), T(old(Now()))), Op(":"))
    {
      hide Snoc, Grounded, IsSettled, Production, Depth, ValidEnv, IsReserved, Opened, Closed, Extended, OneMore,
        IsNameKind, KindsOf, Ordered, ExpectName, Expect, R.Advance;
      var name := TakePlainIdentifier();
      colon := Take(Operator(":"));
    }

    /** After a member; the members node is closed before the brace and the newlines in front of it. */
    method EndMember() returns (more: bool, ghost lines: bool)
      requires Valid(V()) && g.stack.Enclosing? && (clean ==> Production(Members, g.b.roots) && g.b.own == [])
      modifies this`index, this`g, this`clean
      ensures Valid(V()) && Next(V().s, more) == MemberEnd(E(), old(V().s))
      ensures g.stack == if more then old(g.stack) else old(g.stack.below)
      ensures clean && more ==> g.b.start == old(g.b.start) && g.b.own == []
      ensures clean && !more ==> g.b.start == old(g.stack.top.start) && g.b.own == old(g.stack.top.own)
      ensures clean && more ==> MembersSoFar(g.b.roots)
      ensures clean && !more ==> IsSettled(tokens, index, notes.events)
      ensures clean && !more ==> g.b.roots == RecordClosed(old(g.stack.top.roots), lines)
    {
      hide Snoc, Grounded, IsSettled, Production, Depth, ValidEnv, IsReserved, Opened, Closed, Extended, OneMore,
        MembersSoFar, SkipNewlines, OperatorAt, IsStatementBoundary, BehindNewlines, KindsOf, Ordered, R.Advance;
      lines := false;
      if Now() == Comma {
        SeparatorAfterMembers(g.b.roots);
        ConsumeComma();
        more := Now() != CloseCurly;
        if !more {
          Report();
          Advance();
          Close(Members);
        }
      } else if Now() == Newline {
        more, lines := EndMemberLine();
      } else {
        more := false;
        Close(Members);
        Require(CloseCurly);
      }
    }

    /** Newlines after a member: before the closing brace they belong to the record. */
    method EndMemberLine() returns (more: bool, ghost lines: bool)
      requires Valid(V()) && Now() == Newline && g.stack.Enclosing? &&
        (clean ==> Production(Members, g.b.roots) && g.b.own == [])
      modifies this`index, this`g
      ensures Valid(V()) && Next(V().s, more) == MemberEnd(E(), old(V().s))
      ensures g.stack == if more then old(g.stack) else old(g.stack.below)
      ensures clean && more ==> g.b.start == old(g.b.start) && g.b.own == []
      ensures clean && !more ==> g.b.start == old(g.stack.top.start) && g.b.own == old(g.stack.top.own)
      ensures clean && more ==> MembersSoFar(g.b.roots)
      ensures clean && !more ==> IsSettled(tokens, index, notes.events)
      ensures clean && !more ==> g.b.roots == RecordClosed(old(g.stack.top.roots), lines)
    {
      hide Snoc, Grounded, IsSettled, Production, Depth, ValidEnv, IsReserved, Opened, Closed, Extended, OneMore,
        MembersSoFar, SkipNewlines, R.Advance, ExpectName, Expect, IsArmPlace, NoBlockHere, OperatorAt,
        IsStatementBoundary, BehindNewlines;
      lines := true;
      ghost var last := Cur(E(), SkipNewlines(E(), V().s)) == CloseCurly;
      SeparatorAfterMembers(g.b.roots);
      NewlinesPassed(E(), V().s);
      if last {
        Close(Members);
      }
      ConsumeNewlinesAs(!last);
      var closed := Take(CloseCurly);
      more := !closed;
    }

    method ConsumeNewlinesAs(ghost separator: bool)
      requires Valid(V()) && Now() == Newline
      modifies this`index, this`g
      ensures Valid(V()) && Kept(old(V()), V()) && V().s == SkipNewlines(E(), old(V().s))
      ensures Grew(old(V()), V(), N(if separator then MemberSeparator else Newlines))
    {
      hide Snoc, Grounded, IsSettled, Production, Depth, ValidEnv, IsReserved, Opened, Closed, Extended, OneMore,
        SkipNewlines, KindsOf, Ordered;
      if separator {
        Open();
      }
      ConsumeNewlines();
      if separator {
        SeparatorShapes();
        Close(MemberSeparator);
      }
    }

    /** A comma between members and the newlines after it. */
    method ConsumeComma()
      requires Valid(V()) && Now() == Comma
      modifies this`index, this`g
      ensures Valid(V()) && Kept(old(V()), V()) && V().s == SkipNewlines(E(), R.Advance(E(), old(V().s)))
      ensures Grew(old(V()), V(), N(MemberSeparator))
    {
      hide Snoc, Grounded, IsSettled, Production, Depth, ValidEnv, IsReserved, Opened, Closed, Extended, OneMore,
        SkipNewlines, R.Advance, KindsOf, Ordered, IsArmPlace, NoBlockHere;
      Open();
      Advance();
      ghost var lines := Now() == Newline;
      ConsumeNewlines();
      SeparatorShapes();
      Close(MemberSeparator);
    }

    // ---------------------------------------------------------------- lambdas

    method ParseLambda()
      requires Valid(V()) && StartsLambda(Now()) && Room(V(), 5)
      modifies this
      ensures Valid(V()) && Called(old(V()), V()) && V().s == R.ParseLambda(E(), old(V().s))
      ensures Grew(old(V()), V(), N(Lambda)) && (clean ==> IsSettled(tokens, index, notes.events))
      decreases Left(E(), V().s), 0, 1
    {
      hide Snoc, Grounded, IsSettled, Production, Depth, ValidEnv, IsReserved, Opened, Closed, Extended, OneMore,
        R.ParseLambda, Spoken, YieldAll, Roots, KindsOf, Ordered;
      Begin();
      PushSymbolScope();
      ParseLambdaParts();
      PopSymbolScope();
      if clean {
        Reached();
        LambdaSpoken(tokens, index, g.b);
      }
      DoneSpoken(Lambda);
    }

    method ParseLambdaParts()
      requires Valid(V()) && StartsLambda(Now()) && Room(V(), 4) && g.b.roots == []
      modifies this
      ensures Valid(V()) && Called(old(V()), V()) && V().s == R.ParseLambda(E(), old(V().s))
      ensures clean ==> IsSettled(tokens, index, notes.events) && Production(Lambda, g.b.roots)
      decreases Left(E(), V().s), 0, 0
    {
      hide Snoc, Grounded, IsSettled, Production, Depth, ValidEnv, IsReserved, R.ParseBody, LambdaHead, IsBody,
        KindsOf, Ordered, OperatorAt, IsStatementBoundary, BehindNewlines, IsLiteralWord, IsNameKind;
      Enter();
      var closed, bare := ParseLambdaHead();
      if closed {
        ghost var body := ParseBody();
        if clean {
          LambdaShapes(bare, body);
        }
      }
      Leave();
    }

    method ParseLambdaHead() returns (closed: bool, ghost bare: bool)
      requires Valid(V()) && StartsLambda(Now()) && g.b.roots == []
      modifies this`index, this`g, this`clean, this`notes
      ensures Valid(V()) && Kept(old(V()), V()) && Next(V().s, closed) == LambdaHead(E(), old(V().s))
      ensures closed || !clean
      ensures clean ==> IsSettled(tokens, index, notes.events) && g.b.roots == LambdaFront(bare)
    {
      hide Snoc, Grounded, IsSettled, Production, Depth, ValidEnv, IsReserved, Opened, Closed, Extended, OneMore,
        LambdaParameters, IsNameKind, KindsOf, Ordered, R.Advance;
      closed := Take(Operator("||"));
      bare := closed;
      if !closed {
        Advance();
        ParseLambdaNames();
        closed := Take(Operator("|"));
        if !closed {
          Report();
        }
      }
    }

    /** The names between the bars; each is visible from the token after it. */
    method ParseLambdaNames()
      requires Valid(V()) && (clean ==> IsSettled(tokens, index, notes.events))
      modifies this`index, this`g, this`clean, this`notes
      ensures Valid(V()) && Kept(old(V()), V()) && V().s == LambdaParameters(E(), ExpectName(E(), old(V().s)))
      ensures Grew(old(V()), V(), N(Names(true)))
    {
      hide Snoc, Grounded, IsSettled, Production, Depth, ValidEnv, IsReserved, Opened, Closed, Extended, OneMore,
        NamesSoFar, NameList, IsNameKind, Spoken, YieldAll, Roots, ToldNames, KindsOf, Ordered, R.Advance, ExpectName,
        Expect, OperatorAt, IsStatementBoundary, BehindNewlines, IsArmPlace, NoBlockHere;
      Open();
      ParseLambdaNameList();
      NamesShape(g.b.roots);
      if clean {
        Reached();
        NamesSpoken(tokens, g.b, true);
      }
      CloseSpoken(Names(true));
    }

    method ParseLambdaNameList()
      requires Valid(V()) && g.b.roots == [] && g.b.own == [] && g.b.start == index
      modifies this`index, this`g, this`clean, this`notes
      ensures Valid(V()) && Held(old(V()), V()) && V().s == LambdaParameters(E(), ExpectName(E(), old(V().s)))
      ensures clean ==>
        NameList(g.b.roots, T(Comma)) && NamesTold(tokens, V(), LambdaParameterSymbol) && Now() != Comma
    {
      hide Snoc, Grounded, IsSettled, Depth, ValidEnv, IsReserved, Extended, OneMore, NamesSoFar, NameList,
        IsNameKind, ToldNames, KindsOf, Ordered, ExpectName, Expect;
      NoNames(T(Comma));
      ParseParameterName(LambdaParameterSymbol);
      ghost var first := V().s;
      while Now() == Comma
        invariant Valid(V()) && Held(old(V()), V()) && index >= first.index
        invariant LambdaParameters(E(), V().s) == LambdaParameters(E(), first)
        invariant clean ==> NameList(g.b.roots, T(Comma)) && NamesTold(tokens, V(), LambdaParameterSymbol)
        decreases |tokens| - index
      {
        SeparatorAfterNames(g.b.roots, T(Comma));
        CountAfterComma(g.b.roots);
        Advance();
        ParseParameterName(LambdaParameterSymbol);
      }
    }

    /** One more name of a comma-separated list, defined at the token after it. */
    method ParseParameterName(kind: SymbolKind)
      requires Valid(V()) && (clean ==> NamesSoFar(g.b.roots, T(Comma)) && NamesTold(tokens, V(), kind)) &&
        kind != LetSymbol && kind != ImportSymbol
      modifies this`index, this`g, this`clean, this`notes
      ensures Valid(V()) && Held(old(V()), V()) && V().s == ExpectName(E(), old(V().s))
      ensures clean ==> NameList(g.b.roots, T(Comma)) && NamesTold(tokens, V(), kind)
    {
      hide Snoc, Grounded, IsSettled, Production, Depth, ValidEnv, IsReserved, Opened, Closed, Extended, OneMore,
        NamesSoFar, NameList, IsNameKind, Ordered, LastAt, LastStart, KindsOf, R.Advance;
      ghost var roots := g.b.roots;
      EvenNames(roots, T(Comma));
      ghost var k := Now();
      var name := TakePlainIdentifier();
      if name.Some? {
        OneMoreName(roots, T(Comma), k);
        DefineSymbol(name.value, kind);
      }
    }

    method ParseBody() returns (ghost root: Root)
      requires Valid(V()) && Room(V(), 3)
      modifies this
      ensures Valid(V()) && Called(old(V()), V()) && V().s == R.ParseBody(E(), old(V().s))
      ensures root == N(if old(Now()) == OpenCurly then Block(false) else Expression(!StartsLoop(old(Now()))))
      ensures Grew(old(V()), V(), root) && (clean ==> IsSettled(tokens, index, notes.events) && IsBody(root))
      decreases Left(E(), V().s), 31
    {
      hide Snoc, Grounded, IsSettled, Production, Depth, ValidEnv, IsReserved, Opened, Closed, Extended, OneMore,
        R.ParseBlock, R.ParseExpression, IsBody, KindsOf, Ordered, IsArmPlace;
      Enter();
      root := N(if Now() == OpenCurly then Block(false) else Expression(!StartsLoop(Now())));
      BodyRoots(!StartsLoop(Now()));
      if Now() == OpenCurly {
        ParseBlock(false);
      } else if AtBoundary() {
        Report();
      } else {
        ParseExpression();
      }
      Leave();
    }

    predicate AtBoundary()
      requires index < |tokens|
      reads this`index
    {
      Now() == Newline || Now() == Semicolon || Now() == CloseCurly || Now() == End ||
      Now() == Comma || Now() == CloseRound || Now() == CloseSquare
    }

    // ---------------------------------------------------------------- control expressions

    method ParseExpression()
      requires Valid(V()) && Room(V(), 1) && (clean ==> NoBlockHere(g.b.roots, Now()))
      modifies this
      ensures Valid(V()) && Called(old(V()), V()) && V().s == R.ParseExpression(E(), old(V().s))
      ensures Grew(old(V()), V(), N(Expression(!StartsLoop(old(Now()))))) &&
        (clean ==> IsSettled(tokens, index, notes.events))
      decreases Left(E(), V().s), 30
    {
      hide Snoc, Grounded, IsSettled, Production, Depth, ValidEnv, IsReserved, Opened, Closed, Extended, OneMore,
        ExpressionBody, KindsOf, Ordered, IsArmPlace, NoBlockHere, OperatorAt, IsStatementBoundary, BehindNewlines;
      if nesting >= maximumNesting {
        Enter();
        Report();
        Leave();
        return;
      }
      BeginLevel();
      ghost var value := !StartsLoop(Now());
      ghost var root := ParseExpressionBody();
      DoneLevel(Expression(value));
    }

    /** A call that goes one nesting level down and grows a node of its own. */
    method BeginLevel()
      requires Valid(V()) && Room(V(), 1) && nesting < maximumNesting
      modifies this`nesting, this`g, this`calls
      ensures Valid(V()) && nesting == old(nesting) + 1 &&
        calls == Calls(old(calls.frames) + 1, Higher(old(calls.peak), old(calls.frames) + 1))
      ensures g.b.roots == [] && g.b.own == [] && g.b.start == index && g.stack == Enclosing(old(g.b), old(g.stack))
    {
      hide Snoc, Grounded, ValidEnv, Opened, KindsOf, Ordered;
      Begin();
      EnterNesting();
    }

    method DoneLevel(ghost sym: Sym)
      requires Valid(V()) && g.stack.Enclosing? && Ordinary(sym) && Silent(sym) &&
        (clean ==> Production(sym, g.b.roots) && g.b.own == [] && MayClose(tokens, index, g.b, g.stack, sym))
      requires calls.frames > 0 && nesting > 0
      modifies this`nesting, this`g, this`calls
      ensures Valid(V()) && g.stack == old(g.stack.below) && calls == Calls(old(calls.frames) - 1, old(calls.peak)) &&
        nesting == old(nesting) - 1
      ensures g.b.roots == Snoc(old(g.stack.top.roots), N(sym)) && g.b.start == old(g.stack.top.start) &&
        g.b.own == old(g.stack.top.own)
    {
      hide Snoc, Grounded, ValidEnv, Production, Silent, Ordinary, OneMore, Closed, MayClose, KindsOf, Ordered;
      Done(sym);
      LeaveNesting();
    }

    method EnterNesting()
      requires Valid(V()) && nesting < maximumNesting
      modifies this`nesting
      ensures Valid(V()) && nesting == old(nesting) + 1 &&
        (old(IsSettled(tokens, index, notes.events)) ==> IsSettled(tokens, index, notes.events))
    {
      hide Snoc, Grounded, ValidEnv, KindsOf, Ordered;
      StillGrounded(tokens, V(), V().(s := PS(index, nesting + 1, clean)));
      nesting := nesting + 1;
    }

    method LeaveNesting()
      requires Valid(V()) && nesting > 0
      modifies this`nesting
      ensures Valid(V()) && nesting == old(nesting) - 1 &&
        (old(IsSettled(tokens, index, notes.events)) ==> IsSettled(tokens, index, notes.events))
    {
      hide Snoc, Grounded, ValidEnv, KindsOf, Ordered;
      StillGrounded(tokens, V(), V().(s := PS(index, nesting - 1, clean)));
      nesting := nesting - 1;
    }

    method ParseExpressionBody() returns (ghost root: Root)
      requires Valid(V()) && Room(V(), 38)
      modifies this
      ensures Valid(V()) && Called(old(V()), V()) && V().s == ExpressionBody(E(), old(V().s))
      ensures Grew(old(V()), V(), root) && (clean ==>
        IsSettled(tokens, index, notes.events) && Production(Expression(!StartsLoop(old(Now()))), One(root)))
      decreases Left(E(), V().s), 29
    {
      hide Snoc, Grounded, IsSettled, Production, Depth, ValidEnv, IsReserved, Opened, Closed, Extended, OneMore,
        R.ParseIf, R.ParseTry, R.ParseFor, R.ParseBlock, R.ParseCondition, R.ParseBinary, KindsOf, Ordered, R.Advance,
        OperatorAt, IsStatementBoundary, BehindNewlines, IsLiteralWord, IsNameKind;
      Enter();
      ExpressionRow();
      if Now() == Identifier("if") {
        root := N(Conditional);
        ParseIf();
      } else if Now() == Identifier("try") {
        root := N(TryExpression);
        ParseTry();
      } else if Now() == Identifier("for") {
        root := N(Loop);
        ParseFor();
      } else if Now() == Identifier("loop") {
        root := N(Loop);
        ParseLoop();
      } else if Now() == Identifier("while") {
        root := N(Loop);
        ParseWhile();
      } else {
        root := N(Binary(0));
        ParseBinary(0);
      }
      Leave();
    }

    method ParseLoop()
      requires Valid(V()) && Now() == Identifier("loop") && Room(V(), 3)
      modifies this
      ensures Valid(V()) && Called(old(V()), V()) && V().s == R.ParseBlock(E(), R.Advance(E(), old(V().s)))
      ensures Grew(old(V()), V(), N(Loop)) && (clean ==> IsSettled(tokens, index, notes.events))
      decreases Left(E(), V().s), 28
    {
      hide Snoc, Grounded, IsSettled, Production, Depth, ValidEnv, IsReserved, Opened, Closed, Extended, OneMore,
        R.ParseBlock, Spoken, YieldAll, Roots, KindsOf, Ordered, OperatorAt, IsStatementBoundary, BehindNewlines,
        IsLiteralWord, IsNameKind, IsArmPlace, NoBlockHere, R.Advance;
      Begin();
      Advance();
      PushSymbolScope();
      ParseBlock(false);
      PopSymbolScope();
      LoopRows();
      if clean {
        Reached();
        LoopSpoken(tokens, index, g.b);
      }
      DoneSpoken(Loop);
    }

    method ParseWhile()
      requires Valid(V()) && Now() == Identifier("while") && Room(V(), 33)
      modifies this
      ensures Valid(V()) && Called(old(V()), V()) &&
        V().s == R.ParseBlock(E(), R.ParseCondition(E(), R.Advance(E(), old(V().s))))
      ensures Grew(old(V()), V(), N(Loop)) && (clean ==> IsSettled(tokens, index, notes.events))
      decreases Left(E(), V().s), 28
    {
      hide Snoc, Grounded, IsSettled, Production, Depth, ValidEnv, IsReserved, Opened, Closed, Extended, OneMore,
        R.ParseBlock, R.ParseCondition, Spoken, YieldAll, Roots, KindsOf, Ordered, R.Advance, OperatorAt,
        IsStatementBoundary, BehindNewlines, IsArmPlace, NoBlockHere;
      Begin();
      Advance();
      PushSymbolScope();
      ParseCondition();
      ParseBlock(false);
      PopSymbolScope();
      LoopRows();
      if clean {
        Reached();
        LoopSpoken(tokens, index, g.b);
      }
      DoneSpoken(Loop);
    }

    /** A condition or an iterable: control expressions and lambdas there need parentheses. */
    method ParseCondition()
      requires Valid(V()) && Room(V(), 32)
      modifies this
      ensures Valid(V()) && Called(old(V()), V()) && V().s == R.ParseCondition(E(), old(V().s))
      ensures Grew(old(V()), V(), N(Binary(0))) &&
        (clean ==> IsSettled(tokens, index, notes.events) && OneMore(old(g.b.kids), g.b.kids))
      decreases Left(E(), V().s), 28
    {
      hide Snoc, Grounded, IsSettled, Production, Depth, ValidEnv, IsReserved, Opened, Closed, Extended, OneMore,
        R.ParseBinary, KindsOf, Ordered;
      Enter();
      if StartsControl(Now()) || StartsLambda(Now()) {
        Report();
      } else {
        ParseBinary(0);
      }
      Leave();
    }

    method ParseConditionOrReport()
      requires Valid(V()) && Room(V(), 33)
      modifies this
      ensures Valid(V()) && Called(old(V()), V()) && V().s == ConditionOrFail(E(), old(V().s))
      ensures Grew(old(V()), V(), N(Binary(0))) &&
        (clean ==> IsSettled(tokens, index, notes.events) && OneMore(old(g.b.kids), g.b.kids))
      decreases Left(E(), V().s), 29
    {
      hide Snoc, Grounded, IsSettled, Production, Depth, ValidEnv, IsReserved, Opened, Closed, Extended, OneMore,
        R.ParseCondition, KindsOf, Ordered;
      Enter();
      if AtBoundary() {
        Report();
      } else {
        ParseCondition();
      }
      Leave();
    }

    method ParseIf()
      requires Valid(V()) && Now() == Identifier("if") && Room(V(), 37)
      modifies this
      ensures Valid(V()) && Called(old(V()), V()) && V().s == R.ParseIf(E(), old(V().s))
      ensures Grew(old(V()), V(), N(Conditional)) && (clean ==> IsSettled(tokens, index, notes.events))
      decreases Left(E(), V().s), 28
    {
      hide Snoc, Grounded, IsSettled, Production, Depth, ValidEnv, IsReserved, Opened, Closed, Extended, OneMore,
        ConditionOrFail, R.ParseBranch, OpenConditional, IsBranch, KindsOf, Ordered, R.Advance, OperatorAt,
        IsStatementBoundary, BehindNewlines;
      Begin();
      ghost var branch := ParseArm();
      if clean {
        OpenConditionalStart(branch);
      }
      ParseElifs();
      if clean {
        ConditionalRow(g.b.roots);
      }
      if Now() == Identifier("else") {
        ParseElse();
      }
      Done(Conditional);
    }

    /** Any number of `elif` parts. */
    method ParseElifs()
      requires Valid(V()) && Room(V(), 36)
      requires clean ==> IsSettled(tokens, index, notes.events) && OpenConditional(g.b.roots)
      modifies this
      ensures Valid(V()) && Called(old(V()), V()) && Elifs(E(), V().s) == Elifs(E(), old(V().s))
      ensures clean ==> IsSettled(tokens, index, notes.events) && OpenConditional(g.b.roots)
      ensures Now() != Identifier("elif")
      decreases Left(E(), V().s), 2
    {
      hide Snoc, Grounded, IsSettled, Production, Depth, ValidEnv, IsReserved, Opened, Closed, Extended, OneMore,
        ConditionOrFail, R.ParseBranch, OpenConditional, IsBranch, KindsOf, Ordered, R.Advance, OperatorAt,
        IsStatementBoundary, BehindNewlines;
      Enter();
      ghost var begun := V();
      while Now() == Identifier("elif")
        invariant Valid(V()) && Kept(begun, V()) && Elifs(E(), V().s) == Elifs(E(), begun.s)
        invariant clean ==> IsSettled(tokens, index, notes.events) && OpenConditional(g.b.roots)
        decreases |tokens| - index
      {
        MoreElif(g.b.roots);
        ParseElif();
      }
      Leave();
    }

    /** The keyword, the condition and the branch of an `if` or `elif`. */
    method ParseArm() returns (ghost branch: Root)
      requires Valid(V()) && (Now() == Identifier("if") || Now() == Identifier("elif")) && Room(V(), 34)
      modifies this
      ensures Valid(V()) && Called(old(V()), V()) &&
        V().s == R.ParseBranch(E(), ConditionOrFail(E(), R.Advance(E(), old(V().s)))) && index > old(index)
      ensures clean ==>
        IsSettled(tokens, index, notes.events) && IsBranch(branch) &&
        g.b.roots == Snoc(Snoc(Snoc(old(g.b.roots), T(old(Now()))), N(Binary(0))), branch)
      decreases Left(E(), V().s), 0
    {
      hide Snoc, Grounded, IsSettled, Production, Depth, ValidEnv, IsReserved, Opened, Closed, Extended, OneMore,
        ConditionOrFail, R.ParseBranch, IsBranch, KindsOf, Ordered, R.Advance;
      Enter();
      Advance();
      ParseConditionOrReport();
      branch := ParseBranch();
      Leave();
    }

    method ParseElif()
      requires Valid(V()) && Now() == Identifier("elif") && Room(V(), 35)
      modifies this
      ensures Valid(V()) && Called(old(V()), V()) &&
        V().s == R.ParseBranch(E(), ConditionOrFail(E(), R.Advance(E(), old(V().s)))) && index > old(index)
      ensures Grew(old(V()), V(), N(ElifPart)) && (clean ==> IsSettled(tokens, index, notes.events))
      decreases Left(E(), V().s), 1
    {
      hide Snoc, Grounded, IsSettled, Production, Depth, ValidEnv, IsReserved, Opened, Closed, Extended, OneMore,
        ConditionOrFail, R.ParseBranch, IsBranch, KindsOf, Ordered, OperatorAt, IsStatementBoundary, BehindNewlines,
        R.Advance;
      Begin();
      ghost var branch := ParseArm();
      if clean {
        ConditionalStart(branch);
      }
      Done(ElifPart);
    }

    method ParseElse()
      requires Valid(V()) && Now() == Identifier("else") && Room(V(), 4)
      modifies this
      ensures Valid(V()) && Called(old(V()), V()) && V().s == R.ParseBranch(E(), R.Advance(E(), old(V().s)))
      ensures Grew(old(V()), V(), N(ElsePart)) && (clean ==> IsSettled(tokens, index, notes.events))
      decreases Left(E(), V().s), 1
    {
      hide Snoc, Grounded, IsSettled, Production, Depth, ValidEnv, IsReserved, Opened, Closed, Extended, OneMore,
        R.ParseBranch, IsBranch, KindsOf, Ordered, R.Advance, OperatorAt, IsStatementBoundary, BehindNewlines,
        IsArmPlace, NoBlockHere;
      Begin();
      Advance();
      ghost var branch := ParseBranch();
      if clean {
        ConditionalStart(branch);
      }
      Done(ElsePart);
    }

    /** The branch of a conditional; a block there produces a value. */
    method ParseBranch() returns (ghost root: Root)
      requires Valid(V()) && Room(V(), 3)
      modifies this
      ensures Valid(V()) && Called(old(V()), V()) && V().s == R.ParseBranch(E(), old(V().s))
      ensures root == N(if old(Now()) == OpenCurly then Block(true) else Expression(!StartsLoop(old(Now()))))
      ensures Grew(old(V()), V(), root) && (clean ==> IsSettled(tokens, index, notes.events) && IsBranch(root))
      decreases Left(E(), V().s), 31
    {
      hide Snoc, Grounded, IsSettled, Production, Depth, ValidEnv, IsReserved, Opened, Closed, Extended, OneMore,
        R.ParseBlock, R.ParseExpression, IsBranch, KindsOf, Ordered, IsArmPlace;
      Enter();
      root := N(if Now() == OpenCurly then Block(true) else Expression(!StartsLoop(Now())));
      BodyRoots(!StartsLoop(Now()));
      if Now() == OpenCurly {
        ParseBlock(true);
      } else if StartsLambda(Now()) || AtBoundary() {
        Report();
      } else {
        ParseExpression();
      }
      Leave();
    }

    method ParseTry()
      requires Valid(V()) && Now() == Identifier("try") && Room(V(), 6)
      modifies this
      ensures Valid(V()) && Called(old(V()), V()) && V().s == R.ParseTry(E(), old(V().s))
      ensures Grew(old(V()), V(), N(TryExpression)) && (clean ==> IsSettled(tokens, index, notes.events))
      decreases Left(E(), V().s), 28
    {
      hide Snoc, Grounded, IsSettled, Production, Depth, ValidEnv, IsReserved, Opened, Closed, Extended, OneMore,
        TryArm, IsTryBranch, KindsOf, Ordered, IsLiteralWord, IsNameKind, IsArmPlace, NoBlockHere;
      Begin();
      var caught, body := ParseProtected();
      if caught {
        ghost var fallback := ParseTryArm(false);
        if clean {
          TryRow(body, fallback);
        }
      } else {
        Report();
      }
      Done(TryExpression);
    }

    /** Up to the `catch`, which is missing when `caught` is false. */
    method ParseProtected() returns (caught: bool, ghost body: Root)
      requires Valid(V()) && Now() == Identifier("try") && Room(V(), 5)
      modifies this
      ensures Valid(V()) && Called(old(V()), V()) && index > old(index)
      ensures var t := TryArm(E(), R.Advance(E(), old(V().s)), true);
              caught == AtWord(E(), t, "catch") && V().s == if caught then R.Advance(E(), t) else t
      ensures clean && caught ==>
        IsTryBranch(body) && g.b.roots == Snoc(Snoc(Snoc(old(g.b.roots), Keyword("try")), body), Keyword("catch"))
      decreases Left(E(), V().s), 0
    {
      hide Snoc, Grounded, IsSettled, Production, Depth, ValidEnv, IsReserved, Opened, Closed, Extended, OneMore,
        TryArm, IsTryBranch, KindsOf, Ordered, R.Advance;
      Enter();
      Advance();
      body := ParseTryArm(true);
      caught := Take(Identifier("catch"));
      Leave();
    }

    method ParseTryArm(first: bool) returns (ghost root: Root)
      requires Valid(V()) && Room(V(), 4)
      modifies this
      ensures Valid(V()) && Called(old(V()), V()) && V().s == TryArm(E(), old(V().s), first)
      ensures Grew(old(V()), V(), root) && (clean ==> IsSettled(tokens, index, notes.events) && IsTryBranch(root))
      decreases Left(E(), V().s), 32
    {
      hide Snoc, Grounded, IsSettled, Production, Depth, ValidEnv, IsReserved, Opened, Closed, Extended, OneMore,
        R.ParseTryBranch, IsTryBranch, KindsOf, Ordered;
      Enter();
      if (first && Now() == Identifier("catch")) || AtBoundary() {
        root := N(ValueBlock);
        Report();
      } else {
        root := ParseTryBranch();
      }
      Leave();
    }

    method ParseTryBranch() returns (ghost root: Root)
      requires Valid(V()) && Room(V(), 3)
      modifies this
      ensures Valid(V()) && Called(old(V()), V()) && V().s == R.ParseTryBranch(E(), old(V().s))
      ensures root == N(if old(Now()) == OpenCurly then ValueBlock else Expression(!StartsLoop(old(Now()))))
      ensures Grew(old(V()), V(), root) && (clean ==> IsSettled(tokens, index, notes.events) && IsTryBranch(root))
      decreases Left(E(), V().s), 31
    {
      hide Snoc, Grounded, IsSettled, Production, Depth, ValidEnv, IsReserved, Opened, Closed, Extended, OneMore,
        R.ParseExpression, R.ParseValueBlock, IsTryBranch, KindsOf, Ordered, IsArmPlace;
      Enter();
      root := N(if Now() == OpenCurly then ValueBlock else Expression(!StartsLoop(Now())));
      BodyRoots(!StartsLoop(Now()));
      if Now() != OpenCurly {
        ParseExpression();
      } else if nesting >= maximumNesting {
        Report();
      } else {
        ParseValueBlock();
      }
      Leave();
    }

    /** The block of a `try`, which must end in a value. */
    method ParseValueBlock()
      requires Valid(V()) && Now() == OpenCurly && nesting < maximumNesting && Room(V(), 2)
      modifies this
      ensures Valid(V()) && Called(old(V()), V()) && V().s == R.ParseValueBlock(E(), old(V().s))
      ensures Grew(old(V()), V(), N(ValueBlock)) && (clean ==> IsSettled(tokens, index, notes.events))
      decreases Left(E(), V().s), 30
    {
      hide Snoc, Grounded, IsSettled, Production, Depth, ValidEnv, IsReserved, Opened, Closed, Extended, OneMore,
        R.CloseValueBlock, Statements, SkipEnds, BlockFront, TailAt, KindsOf, Ordered, R.Advance;
      Enter();
      var value, boundary := OpenBlock();
      CloseValueBlock(value);
      LeaveNesting();
      Leave();
    }

    method CloseValueBlock(value: bool)
      requires Valid(V()) && g.stack.Enclosing?
      requires clean && Now() == CloseCurly ==>
        BlockFront(g.b.roots) && value == (g.b.roots[|g.b.roots| - 1] == N(Line(true)))
      requires clean ==> g.b.own == []
      modifies this`index, this`clean, this`g
      ensures Valid(V()) && g.stack == old(g.stack.below)
      ensures V().s == R.CloseValueBlock(E(), Body(old(V().s), value)) && notes.events == old(notes.events)
      ensures clean ==>
        IsSettled(tokens, index, notes.events) && g.b.roots == Snoc(old(g.stack.top.roots), N(ValueBlock))
      ensures clean ==>
        g.b.start == old(g.stack.top.start) && g.b.own == old(g.stack.top.own) &&
        OneMore(old(g.stack.top.kids), g.b.kids)
    {
      hide Snoc, Grounded, IsSettled, Production, Depth, ValidEnv, IsReserved, Opened, Closed, Extended, OneMore,
        BlockFront, R.Advance, OperatorAt, IsStatementBoundary, BehindNewlines, YieldAll, Yield, Roots, KindsOf,
        Ordered;
      if Now() == CloseCurly {
        if clean {
          BlockRow(g.b.roots, true);
        }
        Advance();
        if !value {
          Report();
        }
      } else {
        Report();
      }
      Close(ValueBlock);
    }
    // ---------------------------------------------------------------- for expressions

    method ParseFor()
      requires Valid(V()) && Now() == Identifier("for") && Room(V(), 36)
      modifies this
      ensures Valid(V()) && Called(old(V()), V()) && V().s == R.ParseFor(E(), old(V().s))
      ensures Grew(old(V()), V(), N(Loop)) && (clean ==> IsSettled(tokens, index, notes.events))
      decreases Left(E(), V().s), 28
    {
      hide Snoc, Grounded, IsSettled, Production, Depth, ValidEnv, IsReserved, Opened, Closed, Extended, OneMore,
        ForBindings, ConditionOrFail, R.ParseBlock, Ascending, Spoken, NamePositions, Yield, YieldAll, NameCount,
        KindsOf, Ordered, R.Advance, IsLiteralWord, IsNameKind, OperatorAt, IsStatementBoundary, BehindNewlines,
        IsArmPlace, NoBlockHere;
      Begin();
      Advance();
      var count, names := ParseForBindings();
      if count == 0 || Now() != Identifier("in") {
        Report();
      } else {
        if clean {
          BindingsPassed(|names|);
        }
        ParseForRest(names);
        LoopRows();
      }
      DoneSpoken(Loop);
    }

    /** Token indices of identifiers, in increasing order. */
    ghost predicate Ascending(names: seq<nat>)
      reads this`index
    {
      && (forall i :: 0 <= i < |names| ==> names[i] < index && names[i] < |tokens| && IsNameKind(tokens[names[i]].kind))
      && (forall i, j :: 0 <= i < j < |names| ==> names[i] < names[j])
    }

    /** The keyword and `count` bindings were passed. */
    lemma {:induction false} BindingsPassed(count: nat)
      requires Valid(V()) && clean && g.b.roots == Two(Keyword("for"), N(Bindings)) &&
        index == g.b.start + 2 * count && count > 0
      ensures |g.b.kids| == 2 && NameCount(|Yield(g.b.kids[1])|) == count
    {
      hide Grounded, Yield, YieldAll, Roots, ValidEnv, KindsOf, Ordered;
      Reached();
      assert g.b.kids == [g.b.kids[0], g.b.kids[1]] && RootOf(g.b.kids[0]) == g.b.roots[0] == Keyword("for");
      TwoYield(g.b.kids[0], g.b.kids[1]);
    }

    /** The `in`, the iterable and the block, with the bindings visible in the block. */
    method ParseForRest(names: seq<nat>)
      requires Valid(V()) && Now() == Identifier("in") && Room(V(), 35) && Ascending(names)
      requires clean ==> |g.b.roots| == |g.b.kids| == 2 && g.b.own == [] && NameCount(|Yield(g.b.kids[1])|) == |names|
      requires clean ==> names == NamePositions(g.b.start + 1, |names|)
      modifies this
      ensures Valid(V()) && Held(old(V()), V()) && calls.peak > old(calls.frames) &&
        V().s == R.ParseBlock(E(), ConditionOrFail(E(), R.Advance(E(), old(V().s))))
      ensures clean ==>
        IsSettled(tokens, index, notes.events) &&
        g.b.roots == Snoc(Snoc(Snoc(old(g.b.roots), Keyword("in")), N(Binary(0))), N(Block(false)))
      ensures clean ==> Spoken(tokens, g.b, Loop)
      decreases Left(E(), V().s), 0, 1
    {
      hide Snoc, Grounded, IsSettled, Production, Depth, ValidEnv, IsReserved, Opened, Closed, Extended, OneMore,
        ConditionOrFail, R.ParseBlock, IsNameKind, YieldAll, Yield, ForOpening, Spoken, KindsOf, Ordered, Roots,
        R.Advance;
      Enter();
      ghost var two := g.b.kids;
      ParseForHead(names);
      ghost var four := g.b.kids;
      ghost var body := index;
      ParseBlock(false);
      PopSymbolScope();
      if clean {
        Reached();
        ForKids(two, four, g.b.kids);
        ForSpoken(tokens, index, g.b, |names|);
      }
      Leave();
    }

    /** The `in` and the iterable; behind it the scope starts and the bindings are visible. */
    method ParseForHead(names: seq<nat>)
      requires Valid(V()) && Now() == Identifier("in") && Room(V(), 34) && Ascending(names)
      requires clean ==>
        |g.b.roots| == |g.b.kids| == 2 && g.b.own == [] && names == NamePositions(g.b.start + 1, |names|)
      modifies this
      ensures Valid(V()) && V().s == ConditionOrFail(E(), R.Advance(E(), old(V().s))) &&
        calls.frames == old(calls.frames)
      ensures calls.peak > old(calls.frames) && calls.peak >= old(calls.peak) && g.stack == old(g.stack) &&
        index > old(index)
      ensures nesting == old(nesting) && (clean ==> old(clean)) && Depth(notes.events) == old(Depth(notes.events)) + 1
      ensures clean ==>
        g.b.start == old(g.b.start) && g.b.roots == Snoc(Snoc(old(g.b.roots), Keyword("in")), N(Binary(0)))
      ensures clean ==> |g.b.kids| == 4 && g.b.kids[1] == old(g.b.kids)[1] && index == g.b.start + |YieldAll(g.b.kids)|
      ensures clean ==> g.b.own == ForOpening(tokens, g.b.start, |names|, index)
      decreases Left(E(), V().s), 0, 0
    {
      hide Snoc, Grounded, IsSettled, Production, Depth, ValidEnv, IsReserved, Opened, Closed, Extended,
        ConditionOrFail, IsNameKind, YieldAll, Roots, KindsOf, Ordered, R.Advance;
      Enter();
      ghost var two := g.b.kids;
      Advance();
      ghost var three := g.b.kids;
      ParseConditionOrReport();
      if clean {
        Reached();
        assert g.b.kids[1] == three[1];
      }
      OpenBindings(names);
      Leave();
    }

    /** The scope of a `for` and its bindings. */
    method OpenBindings(names: seq<nat>)
      requires Valid(V()) && Ascending(names) && (clean ==> IsSettled(tokens, index, notes.events))
      requires clean ==> |g.b.roots| == 4 && g.b.own == [] && names == NamePositions(g.b.start + 1, |names|)
      modifies this`notes, this`g
      ensures Valid(V()) && Depth(notes.events) == old(Depth(notes.events)) + 1
      ensures g.stack == old(g.stack) && g.b.start == old(g.b.start) && g.b.kids == old(g.b.kids) &&
        g.b.roots == old(g.b.roots)
      ensures clean ==> g.b.own == ForOpening(tokens, g.b.start, |names|, index)
    {
      hide Snoc, Grounded, IsSettled, Depth, ValidEnv, IsNameKind, Ascending, BindingEvents, NamePositions, YieldAll,
        Yield, Roots, KindsOf, Ordered;
      PushSymbolScope();
      DefineBindings(names);
      assert [] + [Told(4, PushScope)] == [Told(4, PushScope)];
    }

    method DefineBindings(names: seq<nat>)
      requires Valid(V()) && Ascending(names) && (clean ==> IsSettled(tokens, index, notes.events))
      modifies this`notes, this`g
      ensures Valid(V()) && Depth(notes.events) == old(Depth(notes.events))
      ensures g.stack == old(g.stack) && g.b.start == old(g.b.start) && g.b.kids == old(g.b.kids) &&
        g.b.roots == old(g.b.roots)
      ensures clean && names == NamePositions(g.b.start + 1, |names|) ==>
                g.b.own == old(g.b.own) + ToldAll(|g.b.roots|, BindingEvents(tokens, g.b.start + 1, |names|, index))
    {
      hide Snoc, Grounded, IsSettled, Production, Depth, ValidEnv, IsReserved, Opened, Closed, Extended, OneMore,
        IsNameKind, LastAt, LastStart, Definition, BindingEvents, NamePositions, KindsOf;
      ghost var listed := names == NamePositions(g.b.start + 1, |names|);
      for i := 0 to |names|
        invariant Valid(V()) && Depth(notes.events) == old(Depth(notes.events))
        invariant g.stack == old(g.stack) && g.b.start == old(g.b.start) && g.b.kids == old(g.b.kids) &&
          g.b.roots == old(g.b.roots)
        invariant i == 0 && clean ==> IsSettled(tokens, index, notes.events)
        invariant i > 0 && Ordered(tokens) ==>
          LastAt(notes.events) == tokens[index].start && LastStart(notes.events) == tokens[names[i - 1]].start
        invariant clean && listed ==>
          g.b.own == old(g.b.own) + ToldAll(|g.b.roots|, BindingEvents(tokens, g.b.start + 1, i, index))
      {
        assert i > 0 ==> names[i - 1] < names[i];
        DefineSymbol(names[i], LoopBindingSymbol);
        if listed {
          PositionAt(g.b.start + 1, |names|, i);
          OneMoreBinding(old(g.b.own), tokens, g.b.start + 1, i, index, |g.b.roots|);
        }
      }
    }

    method ParseForBindings() returns (count: nat, names: seq<nat>)
      requires Valid(V())
      modifies this`index, this`clean, this`g
      ensures Valid(V()) && Kept(old(V()), V()) && Bound(V().s, count) == ForBindings(E(), old(V().s), 0)
      ensures count > 0 ==> Grew(old(V()), V(), N(Bindings))
      ensures Ascending(names)
      ensures clean && count > 0 ==>
        names == NamePositions(old(index), |names|) && |names| > 0 && index == old(index) + 2 * |names| - 1
    {
      hide Snoc, Grounded, IsSettled, Production, Depth, ValidEnv, IsReserved, Opened, Closed, Extended, OneMore,
        IsNameKind, NamesSoFar, NameList, KindsOf, Ordered, ExpectName, Expect, R.Advance;
      if Now() == Identifier("in") {
        count, names := 0, [];
      } else {
        Open();
        count, names := ParseForNames();
        NamesShape(g.b.roots);
        Close(Bindings);
      }
    }

    method ParseForNames() returns (count: nat, names: seq<nat>)
      requires Valid(V()) && Now() != Identifier("in") && g.b.roots == []
      modifies this`index, this`clean, this`g
      ensures Valid(V()) && Kept(old(V()), V()) && Bound(V().s, count) == ForBindings(E(), old(V().s), 0) && count > 0
      ensures clean ==> NameList(g.b.roots, T(Comma)) && |g.b.roots| <= 5 && Now() != Comma
      ensures Ascending(names)
      ensures clean ==>
        names == NamePositions(old(index), |names|) && |names| > 0 && index == old(index) + 2 * |names| - 1
    {
      hide Snoc, Grounded, IsSettled, Production, Depth, ValidEnv, IsReserved, Opened, Closed, Extended, OneMore,
        IsNameKind, NamesSoFar, NameList, ForBindings, KindsOf, Ordered;
      count, names := 0, [];
      NoNames(T(Comma));
      var more := true;
      while more
        invariant Valid(V()) && Kept(old(V()), V()) && Ascending(names)
        invariant ForBindings(E(), old(V().s), 0) == if more then ForBindings(E(), V().s, count)
          else Bound(V().s, count)
        invariant if more then Now() != Identifier("in") else count > 0
        invariant clean && more ==> NamesSoFar(g.b.roots, T(Comma)) && |g.b.roots| == 2 * count <= 6
        invariant clean && !more ==> NameList(g.b.roots, T(Comma)) && |g.b.roots| <= 5 && Now() != Comma
        invariant clean ==> |names| == count && names == NamePositions(old(index), count)
        invariant clean ==> index == old(index) + if more then 2 * count else 2 * count - 1
        decreases |tokens| - index, more
      {
        var name;
        more, name := ParseForBinding(count);
        count := count + 1;
        if name.Some? {
          names := names + [name.value];
        }
      }
    }

    /** One binding; a fourth one and a comma before `in` are reported. */
    method ParseForBinding(count: nat) returns (more: bool, name: Option<nat>)
      requires Valid(V()) && Now() != Identifier("in")
      requires clean ==> NamesSoFar(g.b.roots, T(Comma)) && |g.b.roots| == 2 * count <= 6
      modifies this`index, this`clean, this`g
      ensures Valid(V()) && Kept(old(V()), V()) && (more ==> Now() != Identifier("in") && index > old(index))
      ensures name.Some? ==> old(index) == name.value < index && IsNameKind(tokens[name.value].kind)
      ensures clean ==> name.Some? && index == old(index) + if more then 2 else 1
      ensures ForBindings(E(), old(V().s), count) == if more then ForBindings(E(), V().s, count + 1)
        else Bound(V().s, count + 1)
      ensures clean ==> if more then NamesSoFar(g.b.roots, T(Comma)) && |g.b.roots| == 2 * (count + 1) <= 6
                        else NameList(g.b.roots, T(Comma)) && |g.b.roots| <= 5 && Now() != Comma
    {
      hide Snoc, Grounded, IsSettled, Production, Depth, ValidEnv, IsReserved, Opened, Closed, Extended, OneMore,
        NamesSoFar, NameList, IsNameKind, KindsOf, Ordered, R.Advance, ExpectName, Expect;
      ghost var roots := g.b.roots;
      ghost var k := Now();
      name := TakePlainIdentifier();
      if name.Some? {
        OneMoreName(roots, T(Comma), k);
      }
      if count + 1 > 3 {
        Report();
      }
      SeparatorAfterNames(g.b.roots, T(Comma));
      more := Take(Comma);
      if more && Now() == Identifier("in") {
        Report();
        more := false;
      }
    }

    // ---------------------------------------------------------------- statement ends

    method ConsumeStatementEnds()
      requires Valid(V())
      modifies this`index, this`g
      ensures Valid(V()) && Kept(old(V()), V()) && V().s == SkipEnds(E(), old(V().s))
      ensures if AtEnds(E(), old(V().s)) then Grew(old(V()), V(), N(Ends)) && index > old(index) &&
        (clean ==> IsSettled(tokens, index, notes.events)) else g.b == old(g.b) && index == old(index)
      ensures clean && AtEnds(E(), old(V().s)) ==> exists ends ::
                g.b == Extended(old(g.b), ends) && Yield(ends) == KindsOf(tokens)[old(index)..index]
    {
      hide Snoc, Grounded, IsSettled, Production, Depth, ValidEnv, IsReserved, AllDerive, Roots, Opened, OneMore,
        YieldAll, R.Advance, KindsOf, Ordered;
      if Now() != Newline && Now() != Semicolon {
        return;
      }
      Open();
      PassEnds();
      if clean {
        TreeYield();
      }
      ghost var ends := Node(Ends, g.b.kids);
      assert Yield(ends) == YieldAll(g.b.kids);
      Close(Ends);
    }

    method PassEnds()
      requires Valid(V()) && (Now() == Newline || Now() == Semicolon) && g.b.roots == []
      modifies this`index, this`g
      ensures Valid(V()) && Kept(old(V()), V()) && V().s == SkipEnds(E(), old(V().s)) && index > old(index)
      ensures clean ==> IsSettled(tokens, index, notes.events) && Production(Ends, g.b.roots)
    {
      hide Snoc, Grounded, IsSettled, Production, Depth, ValidEnv, IsReserved, Extended, OneMore, AllEnds, OperatorAt,
        IsStatementBoundary, BehindNewlines, YieldAll, Yield, Roots, KindsOf, Ordered, R.Advance;
      NoEnds();
      while Now() == Newline || Now() == Semicolon
        invariant Valid(V()) && Kept(old(V()), V()) && SkipEnds(E(), V().s) == SkipEnds(E(), old(V().s))
        invariant index > old(index) && clean ==> IsSettled(tokens, index, notes.events) && Production(Ends, g.b.roots)
        invariant clean ==> AllEnds(g.b.roots)
        decreases |tokens| - index
      {
        if clean {
          EndsShape(g.b.roots, Now());
        }
        Advance();
      }
    }

    /** Whether the statement ends ahead hold a semicolon. */
    method ScanBoundary() returns (semicolon: bool)
      requires Valid(V())
      ensures semicolon <==> Semicolon in KindsOf(tokens)[index..SkipEnds(E(), V().s).index]
    {
      hide Snoc, Grounded, IsSettled, Depth, ValidEnv, YieldAll, Yield, Roots, KindsOf, Ordered, R.Advance;
      semicolon := false;
      var end := index;
      while tokens[end].kind == Newline || tokens[end].kind == Semicolon
        invariant index <= end < |tokens|
        invariant SkipEnds(E(), PS(end, nesting, clean)) == SkipEnds(E(), V().s)
        invariant semicolon <==> Semicolon in KindsOf(tokens)[index..end]
        decreases |tokens| - end
      {
        assert KindsOf(tokens)[index..end + 1] == KindsOf(tokens)[index..end] + [tokens[end].kind];
        semicolon := semicolon || tokens[end].kind == Semicolon;
        end := end + 1;
      }
    }

    /** Logs the separator of a line that has no semicolon of its own, beside the next real token,
        unless the source ends there. */
    method RecordBoundary(semicolon: bool, ghost value: bool)
      requires Valid(V()) && RealToken(Now()) && g.stack.Enclosing?
      requires clean ==>
        IsLineRow(g.b, value) && Yield(g.b.kids[1]) != [] && (semicolon <==> Semicolon in Yield(g.b.kids[1])) &&
        g.b.own == []
      modifies this`edits, this`g
      ensures Valid(V()) && g.stack == old(g.stack.below)
      ensures g.b == Closed(old(g.stack.top), old(g.b), Line(value))
    {
      hide Snoc, Chain, Telling, Forcing, OnTime, Noted, Depth, ValidEnv, Yield, IsLineRow, Spoken, KindsOf, Ordered,
        OperatorAt, IsStatementBoundary, BehindNewlines;
      var offset := tokens[index].start;
      if clean {
        SilentSpoken(tokens, g.b, Line(value));
        TellingClosed(tokens, index, g.b, g.stack, Line(value), edits.separators, edits.tailEdits, notes.events);
        ForcingClosed(tokens, index, g.b, g.stack, Line(value), edits.separators, edits.tailEdits);
        ChainLine(tokens, index, g.b, g.stack, value, semicolon, edits.separators, edits.tailEdits);
      }
      if !semicolon && (edits.separators == [] || edits.separators[|edits.separators| - 1] != offset) {
        edits := edits.(separators := edits.separators + [offset]);
      }
      g := Growth(Closed(g.stack.top, g.b, Line(value)), g.stack.below);
    }
    /** Skips to the next statement boundary and over the ends there. */
    method SynchronizeStatement()
      requires Valid(V()) && !clean
      modifies this`index, this`g
      ensures Valid(V()) && Kept(old(V()), V()) && V().s == SkipEnds(E(), SkipToBoundary(E(), old(V().s)))
    {
      hide Snoc, Grounded, IsSettled, Production, Depth, ValidEnv, IsReserved, Opened, Closed, Extended, OneMore,
        SkipEnds, KindsOf, Ordered, YieldAll, Yield, Roots;
      while Now() != Newline && Now() != Semicolon && Now() != CloseCurly && Now() != End
        invariant Valid(V()) && Kept(old(V()), V()) && !clean &&
          SkipToBoundary(E(), V().s) == SkipToBoundary(E(), old(V().s))
        decreases |tokens| - index
      {
        Advance();
      }
      ConsumeStatementEnds();
    }

    /** A statement must be followed by a newline, a semicolon or the end of the source. A line that
        is not the last of the source is closed here. */
    method RequireStatementEnd(ghost value: bool, ghost last: bool)
      requires Valid(V()) && last == At(E(), R.RequireStatementEnd(E(), V().s), End)
      requires !last ==> g.stack.Enclosing? && (clean ==> g.b.roots == One(N(Statement(value))) && g.b.own == [])
      modifies this`index, this`clean, this`edits, this`g
      ensures Valid(V()) && V().s == R.RequireStatementEnd(E(), old(V().s))
      ensures g.stack == if last then old(g.stack) else old(g.stack.below)
      ensures clean && last ==> g.b.start == old(g.b.start) && g.b.own == old(g.b.own)
      ensures clean && !last ==> g.b.own == old(g.stack.top.own)
      ensures clean && last ==> g.b.roots == old(g.b.roots) || g.b.roots == Snoc(old(g.b.roots), N(Ends))
      ensures clean && !last ==>
        index > old(index) && IsSettled(tokens, index, notes.events) && g.b.start == old(g.stack.top.start)
      ensures clean && !last ==> g.b.roots == Snoc(old(g.stack.top.roots), N(Line(value)))
      ensures clean && !last && value ==> TailAt(g.b, KindsOf(tokens)[old(index)..index])
    {
      hide Snoc, Grounded, IsSettled, Production, Depth, ValidEnv, IsReserved, SkipEnds, SkipToBoundary, Opened,
        Extended, Closed, Yield, MayClose, KindsOf, Ordered;
      if Now() == Newline || Now() == Semicolon {
        EndLine(value, last);
      } else if Now() != End {
        Report();
        SynchronizeStatement();
        if !last {
          Close(Statement(value));
        }
      }
    }

    method EndLine(ghost value: bool, ghost last: bool)
      requires Valid(V()) && AtEnds(E(), V().s) && last == At(E(), SkipEnds(E(), V().s), End)
      requires !last ==> g.stack.Enclosing? && (clean ==> g.b.roots == One(N(Statement(value))) && g.b.own == [])
      modifies this`index, this`edits, this`g
      ensures Valid(V()) && V().s == SkipEnds(E(), old(V().s))
      ensures g.stack == if last then old(g.stack) else old(g.stack.below)
      ensures clean && last ==> g.b.start == old(g.b.start) && g.b.own == old(g.b.own)
      ensures clean && !last ==> g.b.own == old(g.stack.top.own)
      ensures clean && last ==> g.b.roots == Snoc(old(g.b.roots), N(Ends))
      ensures clean && !last ==>
        index > old(index) && IsSettled(tokens, index, notes.events) && g.b.start == old(g.stack.top.start)
      ensures clean && !last ==> g.b.roots == Snoc(old(g.stack.top.roots), N(Line(value)))
      ensures clean && !last && value ==> TailAt(g.b, KindsOf(tokens)[old(index)..index])
    {
      hide Snoc, Grounded, IsSettled, Production, Depth, ValidEnv, IsReserved, SkipEnds, Yield, Roots, KindsOf,
        Ordered, YieldAll;
      if clean {
        TreeYield();
      }
      var semicolon := ScanBoundary();
      ConsumeStatementEnds();
      if Now() != End {
        RecordBoundary(semicolon, value);
      }
    }

    /** A statement and its ends, with one forced step if nothing was consumed. `boundary` is where
        the ends start. */
    method ParseLine() returns (value: bool, boundary: nat)
      requires Valid(V()) && Now() != End && Room(V(), 7)
      modifies this
      ensures Valid(V()) && Called(old(V()), V()) && V().s == OneStatement(E(), old(V().s)) && index > old(index)
      ensures value == !StartsNonValue(old(Now())) && old(index) <= boundary <= index
      ensures clean && Now() != End ==>
        IsSettled(tokens, index, notes.events) && Grew(old(V()), V(), N(Line(value))) &&
        g.b.start == old(g.b.start) && boundary < index
      ensures clean && Now() != End && value ==> TailAt(g.b, KindsOf(tokens)[boundary..index])
      ensures clean && Now() == End ==>
                g.b.roots == Snoc(old(g.b.roots), N(Statement(value))) ||
                  g.b.roots == Snoc(Snoc(old(g.b.roots), N(Statement(value))), N(Ends))
      decreases Left(E(), V().s), 39
    {
      hide Snoc, Grounded, IsSettled, Production, Depth, ValidEnv, IsReserved, R.ParseStatement,
        R.RequireStatementEnd, Opened, Closed, Extended, OneMore, TailAt, KindsOf, Ordered, R.Advance;
      Enter();
      var start := index;
      ghost var last := IsLast(E(), V().s);
      value := !StartsNonValue(Now());
      if !last {
        Open();
      }
      ParseStatement();
      boundary := index;
      FinishLine(start, value, last);
      Leave();
    }

    /** The end of a statement; one step is forced if nothing was consumed since `start`. */
    method FinishLine(start: nat, ghost value: bool, ghost last: bool)
      requires Valid(V()) && start <= index && last == At(E(), R.RequireStatementEnd(E(), V().s), End)
      requires !last ==> g.stack.Enclosing? && (clean ==> g.b.roots == One(N(Statement(value))) && g.b.own == [])
      requires index == start ==> Now() != End
      modifies this`index, this`clean, this`edits, this`g
      ensures Valid(V()) && index > start && g.stack == if last then old(g.stack) else old(g.stack.below)
      ensures var r := R.RequireStatementEnd(E(), old(V().s)); V().s == if r.index == start then R.Advance(E(), r)
        else r
      ensures clean ==> (last <==> Now() == End)
      ensures clean && last ==> g.b.start == old(g.b.start) && g.b.own == old(g.b.own)
      ensures clean && last ==> g.b.roots == old(g.b.roots) || g.b.roots == Snoc(old(g.b.roots), N(Ends))
      ensures clean && !last ==> g.b.start == old(g.stack.top.start) && g.b.own == old(g.stack.top.own)
      ensures clean && !last ==> index > old(index) && IsSettled(tokens, index, notes.events)
      ensures clean && !last ==> g.b.roots == Snoc(old(g.stack.top.roots), N(Line(value)))
      ensures clean && !last && value ==> TailAt(g.b, KindsOf(tokens)[old(index)..index])
    {
      hide Snoc, Grounded, IsSettled, Production, Depth, ValidEnv, IsReserved, SkipEnds, SkipToBoundary, Opened,
        Closed, Extended, OneMore, TailAt, KindsOf, Ordered;
      EndsOrEnd(E(), V().s);
      RequireStatementEnd(value, last);
      if index == start {
        Advance();
      }
    }

    /** The statements of a block after its opening brace. */
    method ParseStatements() returns (value: bool, boundary: nat)
      requires Valid(V()) && Room(V(), 8)
      requires clean ==> IsSettled(tokens, index, notes.events) && g.b.roots == One(T(OpenCurly))
      modifies this
      ensures Valid(V()) && Called(old(V()), V()) &&
        Body(V().s, value) == Statements(E(), SkipEnds(E(), old(V().s)), false)
      ensures boundary <= index && (Now() == End || Now() == CloseCurly)
      ensures InBlock(tokens, V().s, g.b, notes.events, value, boundary)
      decreases Left(E(), V().s), 41
    {
      hide Snoc, Grounded, IsSettled, Production, Depth, ValidEnv, IsReserved, SkipEnds, OneStatement, Opened, Closed,
        Extended, OneMore, TailAt, BlockFront, StartsNonValue, AtEnds, KindsOf, Ordered, InBlock, IsArmPlace,
        NoBlockHere;
      Enter();
      ghost var begun := V();
      ghost var entry := SkipEnds(E(), V().s);
      ConsumeStatementEnds();
      value, boundary := false, index;
      InBlockStart(tokens, V().s, g.b, notes.events, boundary);
      while Now() != End && Now() != CloseCurly
        invariant Valid(V()) && Kept(begun, V()) && boundary <= index
        invariant InBlock(tokens, V().s, g.b, notes.events, value, boundary)
        invariant Statements(E(), V().s, value) == Statements(E(), entry, false)
        decreases |tokens| - index
      {
        ghost var roots := g.b.roots;
        StartsBefore();
        InBlockFront(tokens, V().s, g.b, notes.events, value, boundary);
        value, boundary := ParseLine();
        InBlockNext(tokens, roots, V().s, g.b, notes.events, value, boundary);
      }
      Leave();
    }

    method ParseBlock(producesValue: bool)
      requires Valid(V()) && Room(V(), 2)
      modifies this
      ensures Valid(V()) && Called(old(V()), V()) && V().s == R.ParseBlock(E(), old(V().s))
      ensures Grew(old(V()), V(), N(Block(producesValue))) &&
        (clean ==> IsSettled(tokens, index, notes.events) && OneMore(old(g.b.kids), g.b.kids))
      decreases Left(E(), V().s), 10
    {
      hide Snoc, Grounded, IsSettled, Production, Depth, ValidEnv, IsReserved, SkipEnds, Statements, Opened, Closed,
        Extended, OneMore, TailAt, BlockFront, KindsOf, Ordered, ExpectName, Expect, InBlock, R.Advance;
      Enter();
      if nesting >= maximumNesting || Now() != OpenCurly {
        Report();
        Leave();
        return;
      }
      var value, boundary := OpenBlock();
      CloseBlock(producesValue, value, boundary);
      LeaveNesting();
      Leave();
    }

    /** The opening brace, one nesting level down, and the statements. */
    method OpenBlock() returns (value: bool, boundary: nat)
      requires Valid(V()) && Now() == OpenCurly && nesting < maximumNesting && Room(V(), 1)
      modifies this
      ensures Valid(V()) && g.stack == Enclosing(old(g.b), old(g.stack)) &&
        Depth(notes.events) == old(Depth(notes.events))
      ensures nesting == old(nesting) + 1 && index > old(index) && (clean ==> old(clean))
      ensures calls.frames == old(calls.frames) && calls.peak > old(calls.frames) && calls.peak >= old(calls.peak) &&
        (clean ==> g.b.own == [])
      ensures Body(V().s, value) == Statements(E(),
        SkipEnds(E(), R.Advance(E(), old(V().s).(nesting := old(nesting) + 1))), false)
      ensures boundary <= index && InBlock(tokens, V().s, g.b, notes.events, value, boundary)
      decreases Left(E(), V().s), 5
    {
      hide Snoc, Grounded, IsSettled, Production, Depth, ValidEnv, IsReserved, SkipEnds, Statements, Opened, Closed,
        Extended, OneMore, TailAt, BlockFront, KindsOf, Ordered, R.Advance, InBlock;
      Enter();
      EnterBlock();
      value, boundary := ParseStatements();
      Leave();
    }

    /** One nesting level down, behind the opening brace of a new node. */
    method EnterBlock()
      requires Valid(V()) && Now() == OpenCurly && nesting < maximumNesting
      modifies this`nesting, this`index, this`g
      ensures Valid(V()) && V().s == R.Advance(E(), old(V().s).(nesting := old(nesting) + 1)) && index == old(index) + 1
      ensures g.stack == Enclosing(old(g.b), old(g.stack)) &&
        (clean ==> g.b.own == [] && g.b.roots == One(T(OpenCurly)) && g.b.start == old(index))
      ensures clean ==> IsSettled(tokens, index, notes.events)
    {
      hide Snoc, Grounded, IsSettled, Depth, ValidEnv, Opened, Extended, OneMore, R.Advance, KindsOf, Ordered;
      EnterNesting();
      Open();
      Advance();
    }

    method CloseBlock(producesValue: bool, value: bool, boundary: nat)
      requires Valid(V()) && g.stack.Enclosing? && boundary <= index
      requires InBlock(tokens, V().s, g.b, notes.events, value, boundary)
      requires clean ==> g.b.own == []
      modifies this`index, this`clean, this`edits, this`g
      ensures Valid(V()) && g.stack == old(g.stack.below)
      ensures V().s == Expect(E(), old(V().s), CloseCurly)
      ensures clean ==>
        IsSettled(tokens, index, notes.events) && g.b.roots == Snoc(old(g.stack.top.roots), N(Block(producesValue)))
      ensures clean ==>
        g.b.start == old(g.stack.top.start) && g.b.own == old(g.stack.top.own) &&
        OneMore(old(g.stack.top.kids), g.b.kids)
    {
      hide Snoc, Grounded, IsSettled, Production, Depth, ValidEnv, IsReserved, Opened, Closed, Extended, OneMore,
        TailAt, BlockFront, OperatorAt, IsStatementBoundary, BehindNewlines, YieldAll, Yield, Roots, KindsOf, Ordered,
        Telling, Noted, OnTime, Chain;
      if clean && Now() == CloseCurly {
        BlockRow(g.b.roots, producesValue);
      }
      if Now() != CloseCurly {
        Report();
        DropNode();
      } else if producesValue {
        CloseBranch(value, boundary);
      } else {
        Advance();
        Close(Block(false));
      }
    }

    /** Leaves a node that was not completed. */
    ghost method DropNode()
      requires Valid(V()) && !clean && g.stack.Enclosing?
      modifies this`g
      ensures Valid(V()) && g.stack == old(g.stack.below)
    {
      g := Growth(g.stack.top, g.stack.below);
    }

    /** The closing brace of a conditional block: a value before it loses its separator and its
        semicolons, anything else is followed by `nil`. */
    method CloseBranch(value: bool, boundary: nat)
      requires Valid(V()) && Now() == CloseCurly && g.stack.Enclosing? && boundary <= index
      requires clean ==> BlockFront(g.b.roots) && value == (g.b.roots[|g.b.roots| - 1] == N(Line(true)))
      requires clean && value ==> g.b.start <= boundary < index && TailAt(g.b, KindsOf(tokens)[boundary..index])
      requires clean ==> g.b.own == []
      modifies this`index, this`edits, this`g
      ensures Valid(V()) && g.stack == old(g.stack.below)
      ensures V().s == R.Advance(E(), old(V().s))
      ensures clean ==>
        IsSettled(tokens, index, notes.events) && g.b.roots == Snoc(old(g.stack.top.roots), N(Block(true)))
      ensures clean ==>
        g.b.start == old(g.stack.top.start) && g.b.own == old(g.stack.top.own) &&
        OneMore(old(g.stack.top.kids), g.b.kids)
    {
      hide Snoc, Chain, Telling, Forcing, OnTime, Noted, IsSettled, Production, Depth, IsReserved, TailAt, TailPlan,
        TailEdits, OperatorAt, IsStatementBoundary, BehindNewlines, IsLiteralWord, IsNameKind, YieldAll, Yield, Roots,
        KindsOf, Ordered;
      if clean {
        TellingBranch(tokens, index, g.b, g.stack, edits.separators, edits.tailEdits, notes.events);
        ForcingBranch(tokens, index, g.b, g.stack, edits.separators, edits.tailEdits);
        BlockRow(g.b.roots, true);
        FrontEnds(g.b, value);
        ChainBranch(tokens, index, g.b, g.stack, value, boundary, edits.separators, edits.tailEdits);
      }
      hide Snoc, BlockFront;
      LaterIsSettled(tokens, index, notes.events, clean);
      EditTail(value, boundary);
      index := index + 1;
      g := Growth(Closed(g.stack.top, Extended(g.b, Leaf(CloseCurly)), Block(true)), g.stack.below);
    }

    method EditTail(value: bool, boundary: nat)
      requires boundary <= index < |tokens|
      modifies this`edits
      ensures edits.separators == BranchSeparators(tokens, index, value, old(edits.separators))
      ensures edits.tailEdits == BranchEdits(tokens, index, value, boundary, old(edits.tailEdits))
    {
      var close := tokens[index].start;
      if value {
        if edits.separators != [] && edits.separators[|edits.separators| - 1] == close {
          edits := edits.(separators := edits.separators[..|edits.separators| - 1]);
        }
        BlankSemicolons(boundary);
      } else {
        edits := edits.(tailEdits := edits.tailEdits + [Edit(close, close, " nil ")]);
      }
    }

    method BlankSemicolons(boundary: nat)
      requires boundary <= index < |tokens|
      modifies this`edits
      ensures edits.tailEdits == old(edits.tailEdits) + TailEdits(tokens, boundary,
        TailPlan(KindsOf(tokens)[boundary..index]))
      ensures edits.separators == old(edits.separators)
    {
      hide Snoc, TailPlan, TailEdits, KindsOf, Ordered;
      ghost var before := edits.tailEdits;
      ghost var ks := KindsOf(tokens)[boundary..index];
      NoEdits(tokens, boundary);
      assert KindsOf(tokens)[boundary..boundary] == [];
      assert before + [] == before;
      for k := boundary to index
        invariant edits.separators == old(edits.separators)
        invariant edits.tailEdits == before + TailEdits(tokens, boundary, TailPlan(KindsOf(tokens)[boundary..k]))
      {
        ghost var next := KindsOf(tokens)[boundary..k + 1];
        assert next[..|next| - 1] == KindsOf(tokens)[boundary..k];
        TailPlanEdits(tokens, boundary, next);
        if tokens[k].kind == Semicolon {
          edits := edits.(tailEdits := edits.tailEdits + [Edit(tokens[k].start, tokens[k].end, " ")]);
        }
      }
    }
    // ---------------------------------------------------------------- statements

    method ParseStatement()
      requires Valid(V()) && Now() != End && Room(V(), 6)
      modifies this
      ensures Valid(V()) && Called(old(V()), V()) && V().s == R.ParseStatement(E(), old(V().s))
      ensures Grew(old(V()), V(), N(Statement(!StartsNonValue(old(Now())))))
      decreases Left(E(), V().s), 38
    {
      hide Snoc, Grounded, IsSettled, Production, Depth, ValidEnv, IsReserved, Opened, Closed, Extended, OneMore,
        R.ParseStatement, KindsOf, Ordered;
      Enter();
      if Now() == Identifier("use") || Now() == Identifier("let") || Now() == Identifier("fn") {
        ParseDefinition();
      } else if Now() == Identifier("return") {
        ParseReturn();
      } else {
        ParseSimpleStatement();
      }
      Leave();
    }

    /** An expression, or a keyword that is a statement of its own. */
    method ParseSimpleStatement()
      requires Valid(V()) && Now() != End && Room(V(), 2)
      requires Now() != Identifier("use") && Now() != Identifier("let") && Now() != Identifier("fn") &&
        Now() != Identifier("return")
      modifies this
      ensures Valid(V()) && Called(old(V()), V()) && V().s == R.ParseStatement(E(), old(V().s))
      ensures Grew(old(V()), V(), N(Statement(!StartsNonValue(old(Now())))))
      decreases Left(E(), V().s), 37
    {
      hide Snoc, Grounded, IsSettled, Production, Depth, ValidEnv, IsReserved, Opened, Closed, Extended, OneMore,
        R.ParseExpression, KindsOf, Ordered, R.Advance, OperatorAt, IsStatementBoundary, BehindNewlines, Fail, Expect,
        ExpectName;
      Begin();
      ghost var k := Now();
      if Now() == Identifier("break") || Now() == Identifier("continue") {
        WordStatement(k, true);
        Advance();
      } else {
        StatementNode(!StartsLoop(k));
        ParseExpression();
      }
      Done(Statement(!StartsNonValue(k)));
    }

    method ParseReturn()
      requires Valid(V()) && Now() == Identifier("return") && Room(V(), 2)
      modifies this
      ensures Valid(V()) && Called(old(V()), V()) && V().s == R.ParseStatement(E(), old(V().s))
      ensures Grew(old(V()), V(), N(Statement(false)))
      decreases Left(E(), V().s), 37
    {
      hide Snoc, Grounded, IsSettled, Production, Depth, ValidEnv, IsReserved, Opened, Closed, Extended, OneMore,
        R.ParseExpression, R.ParseImport, R.ParseDeclaration, R.ParseFunctionDeclaration, KindsOf, Ordered, R.Advance,
        IsLiteralWord, IsNameKind;
      Begin();
      Advance();
      ghost var value := !StartsLoop(Now());
      WordStatement(Identifier("return"), value);
      if Now() == Newline || Now() == Semicolon || Now() == CloseCurly || Now() == End {
      } else {
        ParseExpression();
      }
      Done(Statement(false));
    }

    /** An import, a declaration or a function. */
    method ParseDefinition()
      requires Valid(V()) && (Now() == Identifier("use") || Now() == Identifier("let") ||
        Now() == Identifier("fn")) && Room(V(), 5)
      modifies this
      ensures Valid(V()) && Called(old(V()), V()) && V().s == R.ParseStatement(E(), old(V().s))
      ensures Grew(old(V()), V(), N(Statement(false)))
      decreases Left(E(), V().s), 37
    {
      hide Snoc, Grounded, IsSettled, Production, Depth, ValidEnv, IsReserved, Opened, Closed, Extended, OneMore,
        R.ParseExpression, R.ParseImport, R.ParseDeclaration, R.ParseFunctionDeclaration, KindsOf, Ordered,
        OperatorAt, IsStatementBoundary, BehindNewlines, IsArmPlace, R.Advance, NoBlockHere;
      Begin();
      StatementNode(false);
      if Now() == Identifier("use") {
        ParseImport();
      } else if Now() == Identifier("let") {
        ParseDeclaration();
      } else {
        ParseFunctionDeclaration();
      }
      Done(Statement(false));
    }

    method ParseImport()
      requires Valid(V()) && Now() == Identifier("use")
      modifies this`index, this`clean, this`notes, this`g
      ensures Valid(V()) && Kept(old(V()), V()) && V().s == R.ParseImport(E(), R.Advance(E(), old(V().s)))
      ensures Grew(old(V()), V(), N(Import))
    {
      hide Snoc, Grounded, IsSettled, Production, Depth, ValidEnv, IsReserved, Opened, Closed, Extended, OneMore,
        ImportPath, R.ParseImport, ExpectName, Spoken, YieldAll, Roots, KindsOf, Ordered, IsArmPlace, OperatorAt,
        IsStatementBoundary, BehindNewlines, R.Advance;
      Open();
      var dot := ParseImportHead();
      if dot {
        ParseImportPath();
        ImportRow();
        if clean {
          Reached();
          ImportSpoken(tokens, index, g.b);
        }
      } else {
        Report();
      }
      CloseSpoken(Import);
    }

    /** `use mod .`, as far as it is there. */
    method ParseImportHead() returns (dot: bool)
      requires Valid(V()) && Now() == Identifier("use")
      modifies this`index, this`g
      ensures Valid(V()) && Kept(old(V()), V())
      ensures dot ==> g.b.roots == Snoc(Snoc(Snoc(old(g.b.roots), Keyword("use")), Keyword("mod")), Op(".")) || !clean
      ensures R.ParseImport(E(), R.Advance(E(), old(V().s))) == if dot then ImportPath(E(), ExpectName(E(), V().s))
        else Fail(V().s)
    {
      hide Snoc, Grounded, IsSettled, Depth, ValidEnv, IsReserved, Extended, OneMore, ImportPath, ExpectName, KindsOf,
        Ordered, R.Advance;
      Advance();
      dot := Take(Identifier("mod"));
      if dot {
        dot := Take(Operator("."));
      }
    }

    /** The path; its last name becomes visible after it. */
    method ParseImportPath()
      requires Valid(V())
      modifies this`index, this`clean, this`notes, this`g
      ensures Valid(V()) && Held(old(V()), V()) && V().s == ImportPath(E(), ExpectName(E(), old(V().s)))
      ensures Grew(old(V()), V(), N(Path)) && (clean ==> index > 0)
      ensures clean ==>
        g.b.own == Snoc(old(g.b.own), Told(|g.b.roots|, Definition(tokens, index - 1, ImportSymbol, index)))
    {
      hide Snoc, Grounded, IsSettled, Production, Depth, ValidEnv, IsReserved, Opened, Closed, Extended, OneMore,
        ImportPath, IsNameKind, Ordered, LastAt, LastStart, KindsOf, ExpectName, Expect;
      var binding := ParsePath();
      if binding.Some? {
        DefineImport(binding.value);
      }
    }

    /** The dotted names of an import; the last one is the binding. */
    method ParsePath() returns (binding: Option<nat>)
      requires Valid(V())
      modifies this`index, this`clean, this`g
      ensures Valid(V()) && Kept(old(V()), V()) && V().s == ImportPath(E(), ExpectName(E(), old(V().s)))
      ensures Grew(old(V()), V(), N(Path)) &&
        (clean ==> IsSettled(tokens, index, notes.events) && binding.Some? && binding.value == index - 1)
      ensures binding.Some? ==> binding.value < index && IsNameKind(tokens[binding.value].kind)
    {
      hide Snoc, Grounded, IsSettled, Production, Depth, ValidEnv, IsReserved, Opened, Closed, Extended, OneMore,
        IsNameKind, NamesSoFar, NameList, KindsOf, Ordered, OperatorAt, IsStatementBoundary, BehindNewlines,
        IsArmPlace, ExpectName, Expect, R.Advance;
      Open();
      binding := ParsePathNames();
      NamesShape(g.b.roots);
      Close(Path);
    }

    method ParsePathNames() returns (binding: Option<nat>)
      requires Valid(V()) && g.b.roots == []
      modifies this`index, this`clean, this`g
      ensures Valid(V()) && Kept(old(V()), V()) && V().s == ImportPath(E(), ExpectName(E(), old(V().s)))
      ensures clean ==>
        IsSettled(tokens, index, notes.events) && NameList(g.b.roots, Op(".")) && binding.Some? &&
        binding.value == index - 1 && Now() != Operator(".")
      ensures binding.Some? ==> binding.value < index && IsNameKind(tokens[binding.value].kind)
    {
      hide Snoc, Grounded, IsSettled, Depth, ValidEnv, IsReserved, Extended, OneMore, IsNameKind, NamesSoFar,
        NameList, KindsOf, Ordered, R.Advance, Fail, Expect, ExpectName;
      NoNames(Op("."));
      binding := ParsePathName();
      ghost var first := V().s;
      while Now() == Operator(".")
        invariant Valid(V()) && Kept(old(V()), V()) && index >= first.index &&
          ImportPath(E(), V().s) == ImportPath(E(), first)
        invariant clean ==> IsSettled(tokens, index, notes.events) && NameList(g.b.roots, Op("."))
        invariant binding.Some? ==> binding.value < index && IsNameKind(tokens[binding.value].kind)
        invariant clean ==> binding.Some? && binding.value == index - 1
        decreases |tokens| - index
      {
        SeparatorAfterNames(g.b.roots, Op("."));
        Advance();
        binding := ParsePathName();
      }
    }

    method ParsePathName() returns (binding: Option<nat>)
      requires Valid(V()) && (clean ==> NamesSoFar(g.b.roots, Op(".")))
      modifies this`index, this`clean, this`g
      ensures Valid(V()) && Kept(old(V()), V()) && V().s == ExpectName(E(), old(V().s))
      ensures clean ==>
        IsSettled(tokens, index, notes.events) && NameList(g.b.roots, Op(".")) && binding.Some? &&
        binding.value == index - 1
      ensures binding.Some? ==> binding.value < index && IsNameKind(tokens[binding.value].kind)
    {
      hide Snoc, Grounded, IsSettled, Production, Depth, ValidEnv, IsReserved, Extended, IsNameKind, NamesSoFar,
        NameList, KindsOf, Ordered, R.Advance;
      ghost var k := Now();
      ghost var roots := g.b.roots;
      binding := TakePlainIdentifier();
      if binding.Some? {
        OneMoreName(roots, Op("."), k);
      }
    }

    /** `let` with an optional initial value; the name is visible after the whole declaration. */
    method ParseDeclaration()
      requires Valid(V()) && Now() == Identifier("let") && Room(V(), 4)
      modifies this
      ensures Valid(V()) && Called(old(V()), V()) && V().s == R.ParseDeclaration(E(), R.Advance(E(), old(V().s)))
      ensures Grew(old(V()), V(), N(Declaration))
      decreases Left(E(), V().s), 0, 1
    {
      hide Snoc, Grounded, IsSettled, Production, Depth, ValidEnv, IsReserved, Opened, Closed, Extended, OneMore,
        R.ParseDeclaration, Spoken, Definable, Initializer, KindsOf, Ordered, R.Advance, OperatorAt,
        IsStatementBoundary, BehindNewlines;
      Begin();
      var binding, target := ParseLet();
      DefineDeclared(binding, target);
      DoneSpoken(Declaration);
    }

    /** The name and the initializer of a declaration. */
    method ParseLet() returns (binding: Option<nat>, target: Option<Target>)
      requires Valid(V()) && Now() == Identifier("let") && Room(V(), 3) && g.b.roots == []
      modifies this
      ensures Valid(V()) && Called(old(V()), V()) && V().s == R.ParseDeclaration(E(), R.Advance(E(), old(V().s)))
      ensures clean ==> binding.Some? && binding.value == old(index) + 1 && Production(Declaration, g.b.roots)
      ensures clean && |g.b.roots| == 2 ==> Now() != Operator("=")
      ensures binding.Some? ==>
        target == Initializer(tokens, binding.value + 1) && Definable(tokens, index, notes.events, clean, binding.value)
      decreases Left(E(), V().s), 0, 0
    {
      hide Snoc, Grounded, Production, Depth, ValidEnv, IsReserved, IsSettled, OneMore, IsNameKind, R.ParseExpression,
        Ordered, LastAt, LastStart, Initializer, KindsOf, R.Advance, ExpectName, Expect, Fail;
      Enter();
      ghost var k;
      binding, k := ParseLetName();
      ghost var initializer;
      target, initializer := ParseInitializer();
      if binding.Some? {
        DeclarationRow(k, initializer);
      }
      Leave();
    }

    /** The name of a declaration becomes visible behind it. */
    method DefineDeclared(binding: Option<nat>, target: Option<Target>)
      requires Valid(V()) && (clean ==> binding.Some? && g.b.own == [] && binding.value == g.b.start + 1)
      requires binding.Some? ==>
        target == Initializer(tokens, binding.value + 1) && Definable(tokens, index, notes.events, clean, binding.value)
      modifies this`notes, this`g
      ensures Valid(V()) && Depth(notes.events) == old(Depth(notes.events)) && g.stack == old(g.stack)
      ensures clean ==> g.b.roots == old(g.b.roots) && g.b.start == old(g.b.start) && Spoken(tokens, g.b, Declaration)
    {
      hide Snoc, Grounded, Depth, ValidEnv, IsReserved, Definable, Initializer, Spoken, YieldAll, Roots, Definition,
        KindsOf, Ordered;
      if binding.Some? {
        DefineLet(binding.value, target);
        if clean {
          Reached();
          DeclarationSpoken(tokens, index, g.b);
        }
      }
    }

    method ParseLetName() returns (binding: Option<nat>, ghost k: Kind)
      requires Valid(V()) && Now() == Identifier("let")
      modifies this`index, this`clean, this`g
      ensures Valid(V()) && Kept(old(V()), V()) && V().s == ExpectName(E(), R.Advance(E(), old(V().s))) &&
        index > old(index)
      ensures binding.Some? ==> binding.value + 1 == index && IsNameKind(tokens[binding.value].kind) && IsNameKind(k)
      ensures binding.Some? ==> binding.value == old(index) + 1
      ensures clean ==>
        binding.Some? && IsSettled(tokens, index, notes.events) &&
        g.b.roots == Snoc(Snoc(old(g.b.roots), Keyword("let")), T(k))
    {
      hide Snoc, Grounded, IsSettled, Depth, ValidEnv, IsReserved, Extended, OneMore, IsNameKind, KindsOf, Ordered,
        R.Advance;
      Advance();
      k := Now();
      binding := TakePlainIdentifier();
    }

    method ParseInitializer() returns (target: Option<Target>, ghost initializer: Option<bool>)
      requires Valid(V()) && (clean ==> IsSettled(tokens, index, notes.events)) && Room(V(), 2)
      modifies this
      ensures Valid(V()) && Called(old(V()), V()) &&
        (clean ==> IsSettled(tokens, index, notes.events) && g.b.roots == Initialized(old(g.b.roots), initializer))
      ensures target == Initializer(tokens, old(index)) && (initializer.None? && clean ==> Now() != Operator("="))
      ensures V().s == if AtOp(E(), old(V().s), "=") then R.ParseExpression(E(), R.Advance(E(), old(V().s)))
                     else if AtStatementBoundary(E(), old(V().s)) then old(V().s) else Fail(old(V().s))
      decreases Left(E(), V().s), 30, 1
    {
      hide Snoc, Grounded, IsSettled, Production, Depth, ValidEnv, IsReserved, Opened, Closed, Extended, OneMore,
        R.ParseExpression, KindsOf, Ordered, R.Advance, IsLiteralWord, IsNameKind, Fail, Expect, ExpectName;
      Enter();
      target, initializer := None, None;
      var initialized := Take(Operator("="));
      if initialized {
        target := FindTarget(tokens, index);
        initializer := Some(!StartsLoop(Now()));
        ParseExpression();
      } else if !(Now() == Newline || Now() == Semicolon || Now() == CloseCurly || Now() == End) {
        Report();
      }
      Leave();
    }

    /** The name is visible in the body; the parameters in a scope of their own. */
    method ParseFunctionDeclaration()
      requires Valid(V()) && Now() == Identifier("fn") && Room(V(), 3)
      modifies this
      ensures Valid(V()) && Called(old(V()), V()) &&
        V().s == R.ParseFunctionDeclaration(E(), R.Advance(E(), old(V().s)))
      ensures Grew(old(V()), V(), N(FunctionDeclaration))
      decreases Left(E(), V().s), 0
    {
      hide Snoc, Grounded, IsSettled, Production, Depth, ValidEnv, IsReserved, Opened, Closed, Extended, OneMore,
        IsNameKind, R.ParseBlock, R.ParseParameterList, Ordered, LastAt, LastStart, Spoken, YieldAll, Roots, KindsOf,
        R.Advance, OperatorAt, IsStatementBoundary, BehindNewlines, Fail, Expect, ExpectName;
      Begin();
      ghost var k := ParseFunctionName();
      PushSymbolScope();
      ParseParameterList();
      ParseBlock(false);
      PopSymbolScope();
      if clean {
        FunctionRow(k);
        Reached();
        FunctionSpoken(tokens, index, g.b, k);
      }
      DoneSpoken(FunctionDeclaration);
    }

    method ParseFunctionName() returns (ghost k: Kind)
      requires Valid(V()) && Now() == Identifier("fn")
      modifies this`index, this`clean, this`notes, this`g
      ensures Valid(V()) && Held(old(V()), V()) && V().s == ExpectName(E(), R.Advance(E(), old(V().s)))
      ensures clean ==> IsNameKind(k) && g.b.roots == Snoc(Snoc(old(g.b.roots), Keyword("fn")), T(k))
      ensures clean ==>
        g.b.own == Snoc(old(g.b.own), Told(|g.b.roots|,
        Definition(tokens, old(index) + 1, FunctionSymbol, old(index) + 2)))
      ensures index > old(index)
    {
      hide Snoc, Grounded, IsSettled, Production, Depth, ValidEnv, IsReserved, Opened, Closed, Extended, OneMore,
        IsNameKind, Ordered, LastAt, LastStart, KindsOf, R.Advance;
      Advance();
      k := Now();
      var binding := TakePlainIdentifier();
      if binding.Some? {
        DefineSymbol(binding.value, FunctionSymbol);
      }
    }

    method ParseParameterList()
      requires Valid(V())
      modifies this`index, this`clean, this`notes, this`g
      ensures Valid(V()) && Kept(old(V()), V()) && V().s == R.ParseParameterList(E(), old(V().s))
      ensures Grew(old(V()), V(), N(ParameterList))
    {
      hide Snoc, Grounded, IsSettled, Production, Depth, ValidEnv, IsReserved, Opened, Closed, Extended, OneMore,
        Parameters, KindsOf, Ordered, OperatorAt, IsStatementBoundary, BehindNewlines, IsArmPlace, NoBlockHere;
      Open();
      ParametersShape();
      var open := Take(OpenRound);
      if open {
        var none := Take(CloseRound);
        if !none {
          ParseParameters();
        }
      } else {
        Report();
      }
      Close(ParameterList);
    }

    method ParseParameters()
      requires Valid(V())
      modifies this`index, this`clean, this`notes, this`g
      ensures Valid(V()) && Kept(old(V()), V()) && V().s == Parameters(E(), old(V().s))
      ensures clean ==> g.b.roots == Snoc(Snoc(old(g.b.roots), N(Names(false))), T(CloseRound))
    {
      hide Snoc, Grounded, IsSettled, Production, Depth, ValidEnv, IsReserved, Opened, Closed, Extended, OneMore,
        Parameters, NamesSoFar, NameList, Spoken, YieldAll, Roots, ToldNames, KindsOf, Ordered, OperatorAt,
        IsStatementBoundary, BehindNewlines, IsArmPlace, ExpectName, Expect, NoBlockHere;
      Open();
      ParseParameterNames();
      NamesShape(g.b.roots);
      if clean {
        Reached();
        NamesSpoken(tokens, g.b, false);
      }
      CloseSpoken(Names(false));
      Require(CloseRound);
    }

    method ParseParameterNames()
      requires Valid(V()) && g.b.roots == [] && g.b.own == [] && g.b.start == index
      modifies this`index, this`clean, this`notes, this`g
      ensures Valid(V()) && Held(old(V()), V()) && Parameters(E(), old(V().s)) == Expect(E(), V().s, CloseRound)
      ensures clean ==> NameList(g.b.roots, T(Comma)) && NamesTold(tokens, V(), ParameterSymbol) && Now() != Comma
    {
      hide Snoc, Grounded, IsSettled, Depth, ValidEnv, IsReserved, Extended, OneMore, Parameters, NamesSoFar,
        NameList, ToldNames, KindsOf, Ordered, R.Advance;
      NoNames(T(Comma));
      var more := true;
      while more
        invariant Valid(V()) && Held(old(V()), V())
        invariant Parameters(E(), old(V().s)) == if more then Parameters(E(), V().s) else Expect(E(), V().s, CloseRound)
        invariant clean ==>
          NamesTold(tokens, V(), ParameterSymbol) && if more then NamesSoFar(g.b.roots, T(Comma))
          else NameList(g.b.roots, T(Comma)) && Now() != Comma
        decreases |tokens| - index, more
      {
        more := ParseParameter();
      }
    }

    method ParseParameter() returns (more: bool)
      requires Valid(V()) && (clean ==> NamesSoFar(g.b.roots, T(Comma)) && NamesTold(tokens, V(), ParameterSymbol))
      modifies this`index, this`clean, this`notes, this`g
      ensures Valid(V()) && Held(old(V()), V()) && (more ==> index > old(index))
      ensures Parameters(E(), old(V().s)) == if more then Parameters(E(), V().s) else Expect(E(), V().s, CloseRound)
      ensures clean ==>
        NamesTold(tokens, V(), ParameterSymbol) && if more then NamesSoFar(g.b.roots, T(Comma))
        else NameList(g.b.roots, T(Comma)) && Now() != Comma
    {
      hide Snoc, Grounded, IsSettled, Production, Depth, ValidEnv, IsReserved, Opened, Closed, Extended, OneMore,
        NamesSoFar, NameList, IsNameKind, ToldNames, KindsOf, Ordered, R.Advance;
      ParseParameterName(ParameterSymbol);
      SeparatorAfterNames(g.b.roots, T(Comma));
      CountAfterComma(g.b.roots);
      more := Take(Comma);
      if more && Now() == CloseRound {
        Report();
        more := false;
      }
    }

    // ---------------------------------------------------------------- programs

    /** The whole source. Without a report the trees collected are the children of a program node
        that derives every token before the end. */
    method ParseProgram()
      requires Valid(V()) && Room(V(), 9) && nesting == 0 && g.b.roots == []
      modifies this
      ensures Valid(V()) && Called(old(V()), V()) && V().s == R.ParseProgram(E(), old(V().s)) && Now() == End
      ensures clean ==> Production(Program, g.b.roots)
    {
      hide Snoc, Grounded, IsSettled, Production, Depth, ValidEnv, IsReserved, Closed, Extended, SkipEnds,
        OneStatement, ProgramFront, TailAt, OneMore, Opened, KindsOf, Ordered, R.Advance, YieldAll, Yield, Roots;
      Enter();
      ProgramStart();
      ghost var begun := V();
      ghost var entry := SkipEnds(E(), V().s);
      ConsumeStatementEnds();
      if clean {
        ProgramRow(g.b.roots, true);
      }
      while Now() != End
        invariant Valid(V()) && Kept(begun, V()) && TopLevel(E(), V().s) == TopLevel(E(), entry)
        invariant clean && Now() != End ==> ProgramFront(g.b.roots)
        invariant clean && Now() == End ==> Production(Program, g.b.roots)
        decreases |tokens| - index
      {
        ParseTopLevel();
      }
      Leave();
    }

    /** One top-level statement, or a stray closing brace. */
    method ParseTopLevel()
      requires Valid(V()) && Room(V(), 8) && Now() != End && nesting == 0 && (clean ==> ProgramFront(g.b.roots))
      modifies this
      ensures Valid(V()) && Called(old(V()), V()) && index > old(index) &&
        TopLevel(E(), V().s) == TopLevel(E(), old(V().s))
      ensures clean && Now() != End ==> ProgramFront(g.b.roots)
      ensures clean && Now() == End ==> Production(Program, g.b.roots)
    {
      hide Snoc, Grounded, IsSettled, Production, Depth, ValidEnv, IsReserved, Opened, Closed, Extended, OneMore,
        OneStatement, ProgramFront, TailAt, KindsOf, Ordered, R.Advance, OperatorAt, IsStatementBoundary,
        BehindNewlines;
      Enter();
      if Now() == CloseCurly {
        Report();
        Advance();
      } else {
        ghost var roots := g.b.roots;
        var value, boundary := ParseLine();
        if clean {
          ProgramLine(roots, value);
          ProgramRow(roots, value);
          ProgramLastRow(roots, value);
        }
      }
      Leave();
    }

    constructor (tokens: seq<Token>, maximumNesting: nat)
      requires tokens != [] && tokens[|tokens| - 1].kind == End
      ensures this.tokens == tokens && this.maximumNesting == maximumNesting
      ensures Valid(V()) && clean && index == 0 && nesting == 0 && notes.events == [] && edits.separators == [] &&
        edits.tailEdits == []
      ensures calls.frames == 0 && notes.aliases == [] && notes.imports == []
      ensures g.b == Opened(0, [], [], []) && g.stack == Bottom
    {
      this.tokens := tokens;
      this.maximumNesting := maximumNesting;
      index, nesting, clean := 0, 0, true;
      edits := Edits([], []);
      notes := Notes([], [], []);
      g := Growth(Opened(0, [], [], []), Bottom);
      calls := Calls(0, 0);
      new;
      hide Snoc, Ordered, Separators, TailEdits, PlanAll, YieldAll, AllDerive, Timed, KeysIncrease, Clock, LastAt,
        EventsOf;
      NothingYet(tokens, 0);
      NoEvents();
      assert Weave(tokens, 0, [], []) == [];
    }

    /** Parses everything before the end. The verdict is the recogniser's; a clean parse derives the
        source as a program, logs exactly that tree's edits and tells exactly that tree's events. The calls
        in progress never exceed a constant times the nesting limit. */
    method Parse() returns (ghost tree: Tree)
      requires Valid(V()) && clean && index == 0 && nesting == 0 && notes.events == [] && calls.frames == 0
      requires g.b == Opened(0, [], [], []) && g.stack == Bottom
      modifies this
      ensures index < |tokens| && Now() == End && nesting == 0 && Depth(notes.events) == 0
      ensures ValidEnv(E()) && clean == Accepts(E())
      ensures clean ==> tree.Node? && tree.sym == Program && Derives(tree) && Yield(tree) == KindsOf(tokens)[..index]
      ensures clean ==> Aimed(tokens, 0, PlanOf(tree))
      ensures clean ==> Forced(KindsOf(tokens), 0, tree)
      ensures clean ==> notes.events == EventsOf(tokens, 0, tree)
      ensures Ordered(tokens) ==>
        notes.aliases == AliasLog(tokens, notes.events) && notes.imports == ImportLog(tokens, notes.events)
      ensures calls.peak <= FRAMES * (maximumNesting + 1)
      ensures clean && Ordered(tokens) ==>
                && edits.separators == Separators(tokens, 0, PlanOf(tree)) &&
                  edits.tailEdits == TailEdits(tokens, 0, PlanOf(tree))
      ensures Ordered(tokens) ==> Timed(notes.events) && Clock(notes.events) <= tokens[index].start
      ensures Ordered(tokens) && clean ==> KeysIncrease(notes.events)
    {
      hide Snoc, Depth, Fits, Production, Timed, Clock, KeysIncrease, LastAt, R.ParseProgram, AliasLog, ImportLog,
        Weave, EventsOf, Halts, KindsOf, Ordered;
      assert Depth(notes.events) == 0 by { NoEvents(); }
      ParseProgram();
      tree := Node(Program, g.b.kids);
      if clean {
        ProgramFits(tokens, index, g.b, edits.separators, edits.tailEdits);
        ProgramTells(tokens, g.b, notes.events);
        ProgramForced(tokens, index, g.b, edits.separators, edits.tailEdits);
      }
    }
  }

  lemma {:induction false} NoEvents()
    ensures Depth([]) == 0 && Timed([]) && Clock([]) == 0 && KeysIncrease([]) && LastAt([]) == -1
  {
  }

  lemma {:induction false} ProgramForced(tokens: seq<Token>, index: nat, b: Builder, seps: seq<nat>, tails: seq<Edit>)
    requires Chain(tokens, index, b, Bottom, seps, tails) && Forcing(tokens, b, Bottom) && tokens[index].kind == End
    ensures Forced(KindsOf(tokens), 0, Node(Program, b.kids))
  {
    hide ForcedAll, AllDerive, Aimed, Logged;
    assert |YieldAll(b.kids)| == |KindsOf(tokens)[0..index]|;
  }

  lemma {:induction false} ProgramTells(tokens: seq<Token>, b: Builder, events: seq<Event>)
    requires Telling(tokens, b, Bottom, events) && b.own == [] && b.start == 0
    ensures events == EventsOf(tokens, 0, Node(Program, b.kids))
  {
    hide Weave, EventsOf;
    SilentNode(tokens, 0, Program, b.kids);
    assert [] + events == events;
  }

  lemma {:induction false} ProgramFits(tokens: seq<Token>, index: nat, b: Builder, seps: seq<nat>, tails: seq<Edit>)
    requires Chain(tokens, index, b, Bottom, seps, tails) && Production(Program, b.roots)
    ensures var tree := Node(Program, b.kids);
            && Derives(tree) && Yield(tree) == KindsOf(tokens)[..index] && Aimed(tokens, 0, PlanOf(tree))
            && (Ordered(tokens) ==>
              seps == Separators(tokens, 0, PlanOf(tree)) && tails == TailEdits(tokens, 0, PlanOf(tree)))
  {
    hide Production, PlanAll, Separators, TailEdits, YieldAll, AllDerive, Aimed;
    NodeDerives(Program, b.kids);
    assert KindsOf(tokens)[0..index] == KindsOf(tokens)[..index];
    assert [] + seps == seps;
  }
}
