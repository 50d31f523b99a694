/** Calls of imported modules, from a source to its hints. */
module ModuleHints {
  import opened Tokens
  import opened Lexing
  import opened LexFacts
  import opened Grammar
  import opened LexicalEvents
  import opened LoweringPlan
  import opened Symbols
  import opened SymbolIndex
  import SymbolCollector
  import SymbolEvents
  import opened AliasNotes
  import opened AliasEvents
  import ParseBuilder
  import opened CanonicalSource
  import opened SourceSymbols
  import opened ModuleAliases

  // ------------------------------------------------------------------ spellings

  lemma {:induction false} SourceSpelled(inRange: string -> bool, source: string, maxTokens: nat)
    ensures Spelled(source, SourceTokens(inRange, source, maxTokens))
  {
    hide Lex, IsSpelled;
    AllSpelled(inRange, source);
    var full, tokens := Lex(inRange, source, Code, 0).tokens, SourceTokens(inRange, source, maxTokens);
    forall k | 0 <= k < |tokens| ensures IsSpelled(source, tokens[k]) {
      if k < |tokens| - 1 {
        assert tokens[k] == full[k];
      } else {
        EndSpelled(source);
      }
    }
  }

  lemma {:induction false} EndSpelled(source: string)
    ensures IsSpelled(source, Token(End, |source|, |source|))
  {
  }

  // ------------------------------------------------------------------ the aliases of a run

  const LIMITS := Limits(SymbolCollector.MAX_OCCURRENCES, SymbolCollector.MAX_SITES)

  /** The events of a derivation over the tokens of a source, all of them recorded. */
  ghost predicate GoodRun(source: string, tokens: seq<Token>, events: seq<Event>) {
    && Ordered(tokens) && Spelled(source, tokens) && Sound(tokens, events, 0, |tokens|)
    && Timed(events) && KeysIncrease(events) && AllInRange(events) && Clock(events) <= |source| < OPEN
    && !Collected(LIMITS, events).truncated
  }

  ghost function SymbolsOf(source: string, events: seq<Event>): (symbols: seq<Symbol>) {
    Finished(Collected(LIMITS, events), |source|)
  }

  /** The index built from the reports of a run. */
  ghost function RunIndex(source: string, tokens: seq<Token>, events: seq<Event>): (x: Index) {
    IndexOf(source, tokens, SymbolsOf(source, events), ImportLog(tokens, events), AliasLog(tokens, events))
  }

  lemma {:induction false} AliasHasEvent(tokens: seq<Token>, events: seq<Event>, a: Alias) returns (p: nat)
    requires a in AliasLog(tokens, events)
    ensures p < |events| && NoteOf(tokens, events[p]) == [a]
    decreases |events|
  {
    hide NoteOf;
    var n := |events| - 1;
    if a in AliasLog(tokens, events[..n]) {
      p := AliasHasEvent(tokens, events[..n], a);
    } else {
      p := n;
      OneNote(tokens, events[n]);
    }
  }

  lemma {:induction false} OneNote(tokens: seq<Token>, e: Event)
    ensures |NoteOf(tokens, e)| <= 1
  {
  }

  /** A plain alias: the tokens of its declaration, its definition `p` and the use `r` of its target. */
  ghost predicate AliasAt(tokens: seq<Token>, events: seq<Event>, a: Alias, k: nat, p: nat, r: nat) {
    && r < p < |events| && events[p].Define? && events[p].start == a.binding.start &&
      events[r] == SymbolEvents.Reference(tokens, k + 2)
    && k + 3 < |tokens| && a.binding == SpanAt(tokens, k) && a.target == SpanAt(tokens, k + 2)
    && tokens[k + 1].kind == Operator("=") && IsNameToken(tokens, k + 2) && EndsStatement(tokens[k + 3].kind)
  }

  lemma {:induction false} PlainAliasAt(tokens: seq<Token>, events: seq<Event>, a: Alias)
      returns (k: nat, p: nat, r: nat)
    requires Sound(tokens, events, 0, |tokens|) && a in AliasLog(tokens, events) && !a.throughField
    ensures AliasAt(tokens, events, a, k, p, r)
  {
    hide AliasLog, TokenFrom, DefinedOnce, Initializer, SymbolEvents.Reference, IsNameToken;
    p := AliasHasEvent(tokens, events, a);
    var e := events[p];
    k := TokenFrom(tokens, e.start);
    assert DefinesIn(tokens, e, 0, |tokens|);
    assert IsPlainAlias(tokens, e);
    PlainTarget(tokens, k + 1);
    assert TargetUse(tokens, e) in events[..p];
    r :| 0 <= r < p && events[..p][r] == TargetUse(tokens, e);
  }

  /** Where a plain alias names its target, the lookup is that of the use. */
  lemma {:induction false} TargetName(source: string, tokens: seq<Token>, k: nat)
    requires Spelled(source, tokens) && IsNameToken(tokens, k)
    ensures var t := SpanAt(tokens, k);
            t.start <= t.end <= |source| && SymbolEvents.Reference(tokens, k) ==
              Refer(source[t.start..t.end], t.start, t.end)
  {
    assert IsSpelled(source, tokens[k]);
  }

  /** The symbol an alias stands for. */
  lemma {:induction false} TargetSymbol(source: string, symbols: seq<Symbol>, a: Alias) returns (s: Symbol)
    requires TargetOf(source, symbols, a).Some?
    ensures !a.throughField && a.target.start <= a.target.end <= |source|
    ensures Lookup(symbols, source[a.target.start..a.target.end], a.target.start) == Some(s)
    ensures s in symbols && s.from <= a.target.start && TargetOf(source, symbols, a) == Some(s.definition.start)
  {
    hide Lookup;
    s := Lookup(symbols, source[a.target.start..a.target.end], a.target.start).value;
    LookupIsMember(symbols, source[a.target.start..a.target.end], a.target.start);
  }

  /** The target of an alias is a binding defined earlier in the source. */
  lemma {:induction false} EdgeDescends(source: string, tokens: seq<Token>, events: seq<Event>, a: Alias)
    requires GoodRun(source, tokens, events) && a in AliasLog(tokens, events)
    requires TargetOf(source, SymbolsOf(source, events), a).Some?
    ensures TargetOf(source, SymbolsOf(source, events), a).value < a.binding.start
  {
    hide AliasLog, Ordered, Spelled, Timed, KeysIncrease, AllInRange, Clock, Collected, Finished, TargetOf, Sound,
      SymbolEvents.Reference, IsNameToken;
    var s := TargetSymbol(source, SymbolsOf(source, events), a);
    var k, p, r := PlainAliasAt(tokens, events, a);
    var q := FinishedHasEvent(LIMITS, events, |source|, s);
    DefinedBefore(tokens, events, a, k, p, r, q);
  }

  lemma {:induction false} DefinedBefore(tokens: seq<Token>, events: seq<Event>, a: Alias, k: nat, p: nat, r: nat,
      q: nat)
    requires Ordered(tokens) && Sound(tokens, events, 0, |tokens|) && Timed(events) &&
      AliasAt(tokens, events, a, k, p, r)
    requires q < |events| && events[q].Define? && events[q].at <= a.target.start
    ensures events[q].start < a.binding.start
  {
    hide TokenFrom, Timed, TargetsFirst, Clock, IsReserved;
    assert DefinesIn(tokens, events[q], 0, |tokens|);
    var j := TokenFrom(tokens, events[q].start);
    VisibleBehind(events, p, r);
    DefinedBehind(events, q);
    assert p != q;
    assert j != k;
    assert tokens[j].start < tokens[j].end <= tokens[k + 2].start;
    assert j < k + 2;
    assert j != k + 1;
  }

  /** A definition is visible only behind every earlier use. */
  lemma {:induction false} VisibleBehind(events: seq<Event>, p: nat, r: nat)
    requires Timed(events) && r < p < |events| && events[p].Define? && events[r].Refer?
    ensures events[p].at > events[r].start
  {
    hide Timed;
    TimedFront(events, p + 1);
    var front := events[..p + 1];
    assert front[p] == events[p] && front[..p] == events[..p];
    DefinedBehind(events, p);
    TimedFront(events, p);
    assert events[..p][r] == events[r];
    UseBehind(events[..p], r);
  }

  lemma {:induction false} DefinedBehind(events: seq<Event>, p: nat)
    requires Timed(events) && p < |events| && events[p].Define?
    ensures events[p].start < events[p].end <= events[p].at && Clock(events[..p]) <= events[p].at
  {
    TimedFront(events, p + 1);
    var front := events[..p + 1];
    assert front[p] == events[p] && front[..p] == events[..p];
  }

  /** The use an alias makes of its target is recorded with the symbol it stands for, and is no call. */
  lemma {:induction false} EdgeIsUse(source: string, tokens: seq<Token>, events: seq<Event>, a: Alias)
    requires GoodRun(source, tokens, events) && a in AliasLog(tokens, events)
    requires TargetOf(source, SymbolsOf(source, events), a).Some?
    ensures var symbols := SymbolsOf(source, events);
            var b := TargetOf(source, symbols, a).value;
            && b in SymbolsByBinding(symbols) && a.target in SymbolsByBinding(symbols)[b].references
            && a.target !in Receivers(tokens)
  {
    hide AliasLog, Ordered, Spelled, Timed, KeysIncrease, AllInRange, Clock, Collected, Finished, TargetOf, Sound,
      SymbolEvents.Reference, IsNameToken,
      SymbolsByBinding, Receivers, Lookup, SpanAt;
    var symbols := SymbolsOf(source, events);
    var s := TargetSymbol(source, symbols, a);
    var k, p, r := PlainAliasAt(tokens, events, a);
    TargetName(source, tokens, k + 2);
    UseInside(events, r, |source|);
    UseIsRecorded(LIMITS, events, r, |source|);
    NoReceiver(tokens, k + 2);
    forall t | t in symbols && t.definition.start == s.definition.start ensures t == s {
      assert DefinedOnce(events) by { OnlyOnce(tokens, events); }
      KnownByStart(LIMITS, events, |source|, t, s);
    }
    BoundByStart(symbols, s);
  }

  lemma {:induction false} OnlyOnce(tokens: seq<Token>, events: seq<Event>)
    requires Sound(tokens, events, 0, |tokens|)
    ensures DefinedOnce(events)
  {
  }

  lemma {:induction false} UseInside(events: seq<Event>, r: nat, end: nat)
    requires Timed(events) && Clock(events) <= end && r < |events| && events[r].Refer?
    ensures events[r].start < end
  {
    hide Timed, Clock;
    UseBehind(events, r);
  }

  lemma {:induction false} NoReceiver(tokens: seq<Token>, k: nat)
    requires Ordered(tokens) && k + 1 < |tokens| && EndsStatement(tokens[k + 1].kind)
    ensures SpanAt(tokens, k) !in Receivers(tokens)
  {
    forall m: nat | m < |tokens| && IsReceiver(tokens, m) ensures SpanAt(tokens, m) != SpanAt(tokens, k) {
      assert m != k;
      assert tokens[m].start != tokens[k].start;
    }
  }

  /** Two aliases of one use are one alias. */
  lemma {:induction false} TargetIsOwn(tokens: seq<Token>, events: seq<Event>, a: Alias, o: Alias)
    requires Ordered(tokens) && Sound(tokens, events, 0, |tokens|)
    requires a in AliasLog(tokens, events) && o in AliasLog(tokens, events) && !a.throughField && !o.throughField &&
      a.target == o.target
    ensures a.binding == o.binding
  {
    hide AliasLog, Sound, SymbolEvents.Reference, IsNameToken;
    var k, p, r := PlainAliasAt(tokens, events, a);
    var j, q, u := PlainAliasAt(tokens, events, o);
    assert tokens[k + 2].start == tokens[j + 2].start;
  }

  // ------------------------------------------------------------------ the index of a run

  /** In the index of a run every alias leads to an earlier binding. */
  lemma {:induction false} TargetsDescend(source: string, tokens: seq<Token>, events: seq<Event>)
    requires GoodRun(source, tokens, events)
    ensures Descending(RunIndex(source, tokens, events).targets)
  {
    hide GoodRun, AliasLog, ImportLog, Targets, ByTarget, SymbolsByBinding, Receivers, TargetOf, SymbolsOf;
    var symbols, aliases := SymbolsOf(source, events), AliasLog(tokens, events);
    var targets := Targets(source, symbols, aliases);
    forall b | b in targets ensures targets[b] < b {
      var a := TargetHasAlias(source, symbols, aliases, b);
      EdgeDescends(source, tokens, events, a);
    }
  }

  /** In the index of a run every alias is a recorded use of its target. */
  lemma {:induction false} RunEdgesAreUses(source: string, tokens: seq<Token>, events: seq<Event>)
    requires GoodRun(source, tokens, events)
    ensures EdgesAreUses(RunIndex(source, tokens, events))
  {
    hide GoodRun, AliasLog, ImportLog, Targets, ByTarget, SymbolsByBinding, Receivers, TargetOf, SymbolsOf;
    var x := RunIndex(source, tokens, events);
    var symbols, aliases := SymbolsOf(source, events), AliasLog(tokens, events);
    forall b | b in x.targets
      ensures exists use :: use in x.byTarget && x.byTarget[use] == b && use !in x.receivers &&
                x.targets[b] in x.byBinding && use in x.byBinding[x.targets[b]].references
    {
      var a := TargetHasAlias(source, symbols, aliases, b);
      EdgeIsUse(source, tokens, events, a);
      EdgeIsFound(source, tokens, events, a);
      assert a.target in x.byTarget;
    }
  }

  lemma {:induction false} EdgeIsFound(source: string, tokens: seq<Token>, events: seq<Event>, a: Alias)
    requires GoodRun(source, tokens, events) && a in AliasLog(tokens, events)
    requires TargetOf(source, SymbolsOf(source, events), a).Some?
    ensures var found := ByTarget(source, SymbolsOf(source, events), AliasLog(tokens, events));
            a.target in found && found[a.target] == a.binding.start
  {
    hide AliasLog, ByTarget, SymbolsOf, Sound, Ordered, Spelled, Timed, KeysIncrease, AllInRange, Collected;
    var symbols, aliases := SymbolsOf(source, events), AliasLog(tokens, events);
    forall o | o in aliases && TargetOf(source, symbols, o).Some? && o.target == a.target
      ensures o.binding.start == a.binding.start {
      TargetIsOwn(tokens, events, a, o);
    }
    hide TargetOf;
    FoundByTarget(source, symbols, aliases, a);
  }

  /** An alias too deep for the limit disables its group, in the index of every run. */
  lemma {:induction false} OverDeepAliasDisablesGroup(source: string, tokens: seq<Token>, events: seq<Event>, b: nat,
      m: nat, i: nat)
    requires GoodRun(source, tokens, events)
    requires var x := RunIndex(source, tokens, events); Reaches(x, b, m, i) && m > MAX_ALIAS_DEPTH
    ensures var x := RunIndex(source, tokens, events); !Stable(x, Group(x, i))
  {
    hide GoodRun, RunIndex, Reaches, Stable;
    RunEdgesAreUses(source, tokens, events);
    DeepAliasDisables(RunIndex(source, tokens, events), b, m, i);
  }

  // ------------------------------------------------------------------ hints

  const MAX_CALL_HINTS: nat := 1024
  const MAX_IMPORTS: nat := 1024
  const MAX_ALIASES: nat := 1024

  /** A call `receiver.name(` of the module imported at `binding`. */
  datatype CallHint = CallHint(binding: nat, name: string, start: nat, end: nat)

  /** The hint at token `k`, if it is called through and stands for an import there. */
  ghost function HintAt(source: string, tokens: seq<Token>, x: Index, k: nat): (r: Option<CallHint>)
    requires k < |tokens|
  {
    if !IsReceiver(tokens, k) || !(tokens[k].start <= tokens[k].end <= |source|) then None
    else
      var i := Hint(x, source[tokens[k].start..tokens[k].end], tokens[k].start);
      if i.None? then None else Some(CallHint(i.value, tokens[k + 2].kind.name, tokens[k].start, tokens[k + 2].end))
  }

  /** All hints of the first `n` tokens, without a limit. */
  ghost function HintsBelow(source: string, tokens: seq<Token>, x: Index, n: nat): (r: seq<CallHint>)
    requires n <= |tokens|
  {
    if n == 0 then []
    else
      var h := HintAt(source, tokens, x, n - 1);
      HintsBelow(source, tokens, x, n - 1) + if h.None? then [] else [h.value]
  }

  lemma {:induction false} HintsGrow(source: string, tokens: seq<Token>, x: Index, n: nat, m: nat)
    requires n <= m <= |tokens|
    ensures HintsBelow(source, tokens, x, n) <= HintsBelow(source, tokens, x, m)
    decreases m - n
  {
    hide HintAt;
    if n < m {
      HintsGrow(source, tokens, x, n, m - 1);
    }
  }

  lemma {:induction false} HintHasToken(source: string, tokens: seq<Token>, x: Index, n: nat, h: CallHint)
      returns (k: nat)
    requires n <= |tokens| && h in HintsBelow(source, tokens, x, n)
    ensures k < n && HintAt(source, tokens, x, k) == Some(h)
    decreases n
  {
    hide HintAt;
    k := n - 1;
    if HintAt(source, tokens, x, k) != Some(h) {
      k := HintHasToken(source, tokens, x, n - 1, h);
    }
  }

  /** All hints, cut at the limit. */
  ghost predicate IsCut(all: seq<CallHint>, hints: seq<CallHint>, truncated: bool) {
    truncated == (|all| > MAX_CALL_HINTS) && hints == if truncated then all[..MAX_CALL_HINTS] else all
  }

  method CallHints(source: string, tokens: seq<Token>, x: Index) returns (hints: seq<CallHint>, truncated: bool)
    ensures IsCut(HintsBelow(source, tokens, x, |tokens|), hints, truncated)
  {
    hide Hint;
    hints, truncated := [], false;
    for k := 0 to |tokens|
      invariant hints == HintsBelow(source, tokens, x, k) && |hints| <= MAX_CALL_HINTS && !truncated
    {
      if IsReceiver(tokens, k) && tokens[k].start <= tokens[k].end <= |source| {
        var i := HintFor(x, source[tokens[k].start..tokens[k].end], tokens[k].start);
        if i.Some? {
          var h := CallHint(i.value, tokens[k + 2].kind.name, tokens[k].start, tokens[k + 2].end);
          HintsGrow(source, tokens, x, k + 1, |tokens|);
          if |hints| == MAX_CALL_HINTS {
            truncated := true;
            return;
          }
          hints := hints + [h];
        }
      }
    }
  }

  /** One of the reports that hints rest on is incomplete. */
  ghost predicate Incomplete(tokens: seq<Token>, events: seq<Event>) {
    Collected(LIMITS, events).truncated || |ImportLog(tokens, events)| > MAX_IMPORTS ||
      |AliasLog(tokens, events)| > MAX_ALIASES
  }

  /** Aliases lead to earlier bindings and are recorded uses, and an import that some alias reaches only beyond
      the depth limit has no stable group. */
  ghost predicate Settled(x: Index) {
    && Descending(x.targets) && EdgesAreUses(x)
    && forall b, m: nat, i :: Reaches(x, b, m, i) && m > MAX_ALIAS_DEPTH ==> !Stable(x, Group(x, i))
  }

  /** No hint is for an import that some alias reaches only beyond the depth limit. */
  ghost predicate NoDeepHints(x: Index, hints: seq<CallHint>) {
    forall h, b, m :: h in hints && m > MAX_ALIAS_DEPTH ==> !Reaches(x, b, m, h.binding)
  }

  /** The call hints of a source; `compatible` is the verdict of the vendored parser. An accepted source is hinted
      at from the index of its derivation, which is settled, and not at all if a report is incomplete. */
  method CollectCallHints(inRange: string -> bool, source: string, maxTokens: nat, maxNesting: nat, compatible: bool)
    returns (hints: seq<CallHint>, truncated: bool, ghost tree: Tree)
    requires |source| < OPEN
    ensures !(Accepted(inRange, source, maxTokens, maxNesting) && compatible) ==> hints == [] && !truncated
    ensures Accepted(inRange, source, maxTokens, maxNesting) && compatible ==>
              var tokens := SourceTokens(inRange, source, maxTokens);
              var events := SymbolEvents.EventsOf(tokens, 0, tree);
              var x := RunIndex(source, tokens, events);
              && IsDerivation(tokens, tree)
              && (if Incomplete(tokens, events) then hints == [] && truncated
                  else
                    && IsCut(HintsBelow(source, tokens, x, |tokens|), hints, truncated)
                    && Settled(x) && NoDeepHints(x, hints))
  {
    hide Collected, Finished, Timed, Clock, KeysIncrease, AllInRange, Depth, SymbolEvents.EventsOf, Accepted,
      SourceTokens, AliasLog, ImportLog, Ordered, IndexOf, HintsBelow, Spelled, Sound, IsDerivation, Settled,
        NoDeepHints;
    var reading;
    ghost var events;
    reading, events, tree := ReadSource(inRange, source, maxTokens, maxNesting);
    if !reading.clean || !compatible {
      return [], false, tree;
    }
    if reading.symbols.truncated || |reading.imports| > MAX_IMPORTS || |reading.aliases| > MAX_ALIASES {
      return [], true, tree;
    }
    var index := BuildIndex(source, reading.tokens, reading.symbols.symbols, reading.imports, reading.aliases);
    hints, truncated := CallHints(source, reading.tokens, index);
    DerivedRun(source, reading.tokens, tree);
    SourceSpelled(inRange, source, maxTokens);
    RunSettles(source, reading.tokens, events);
    HintsAreShallow(source, reading.tokens, events, hints);
  }

  lemma {:induction false} RunSettles(source: string, tokens: seq<Token>, events: seq<Event>)
    requires GoodRun(source, tokens, events)
    ensures Settled(RunIndex(source, tokens, events))
  {
    hide GoodRun, RunIndex, Reaches, Stable, EdgesAreUses, Descending;
    var x := RunIndex(source, tokens, events);
    TargetsDescend(source, tokens, events);
    RunEdgesAreUses(source, tokens, events);
    forall b, m: nat, i | Reaches(x, b, m, i) && m > MAX_ALIAS_DEPTH ensures !Stable(x, Group(x, i)) {
      OverDeepAliasDisablesGroup(source, tokens, events, b, m, i);
    }
  }

  /** The events of a derivation of all tokens are sound. */
  lemma {:induction false} DerivedRun(source: string, tokens: seq<Token>, tree: Tree)
    requires Ordered(tokens) && IsDerivation(tokens, tree)
    ensures Sound(tokens, SymbolEvents.EventsOf(tokens, 0, tree), 0, |tokens|)
  {
    hide Ordered, Sound, SymbolEvents.EventsOf, Derives, Yield;
    var ks := Yield(tree);
    assert |ks| + 1 == |tokens|;
    forall i | 0 <= i < |ks| ensures tokens[0 + i].kind == ks[i] {
      assert (ks + [End])[i] == ParseBuilder.KindsOf(tokens)[i];
    }
    assert (ks + [End])[|ks|] == ParseBuilder.KindsOf(tokens)[|ks|];
    TreeSound(tokens, 0, tree);
    SoundWider(tokens, SymbolEvents.EventsOf(tokens, 0, tree), 0, |ks|, 0, |tokens|);
  }

  lemma {:induction false} HintsAreShallow(source: string, tokens: seq<Token>, events: seq<Event>, hints: seq<CallHint>)
    requires GoodRun(source, tokens, events) &&
      hints <= HintsBelow(source, tokens, RunIndex(source, tokens, events), |tokens|)
    ensures NoDeepHints(RunIndex(source, tokens, events), hints)
  {
    hide GoodRun, RunIndex, HintsBelow, Reaches, Stable;
    var x := RunIndex(source, tokens, events);
    forall h, b, m | h in hints && m > MAX_ALIAS_DEPTH ensures !Reaches(x, b, m, h.binding) {
      if Reaches(x, b, m, h.binding) {
        OverDeepAliasDisablesGroup(source, tokens, events, b, m, h.binding);
        var k := HintHasToken(source, tokens, x, |tokens|, h);
        assert false;
      }
    }
  }
}
