/** The interval index answers as the scope stack does.

    The reference is a stack of name tables without any intervals. A lookup at an offset finds the
    very definition that the stack has once all events at or before the offset are done. */
module SymbolIndex {
  import opened Tokens
  import opened LexicalEvents
  import opened Symbols

  // ------------------------------------------------------------------ the scope stack

  /** A definition as a scope table holds it. */
  datatype Def = Def(name: string, span: Span, kind: SymbolKind, at: nat)

  function DefOf(s: Symbol): (d: Def) {
    Def(s.name, s.definition, s.kind, s.from)
  }

  function StackStep(stack: seq<map<string, Def>>, e: Event): (r: seq<map<string, Def>>)
    requires stack != []
    ensures r != []
  {
    var n := |stack| - 1;
    match e
    case PushScope => stack + [map[]]
    case PopScope(_) => if n > 0 then stack[..n] else stack
    case Define(name, start, end, kind, at) => stack[..n] + [stack[n][name := Def(name, Span(start, end), kind, at)]]
    case Refer(_, _, _) => stack
  }

  /** The tables in force after a run of events, outermost first. */
  function Stack(events: seq<Event>): (r: seq<map<string, Def>>)
    ensures r != []
  {
    if events == [] then [map[]] else StackStep(Stack(events[..|events| - 1]), events[|events| - 1])
  }

  function ResolveDef(stack: seq<map<string, Def>>, name: string): (r: Option<Def>) {
    if stack == [] then None
    else
      var top := stack[|stack| - 1];
      if name in top then Some(top[name]) else ResolveDef(stack[..|stack| - 1], name)
  }

  /** The events that are done at offset `b`. */
  function DoneAt(events: seq<Event>, b: nat): (r: seq<Event>)
    ensures |r| <= |events| && r == events[..|r|]
  {
    if events == [] || Clock(events) <= b then events else DoneAt(events[..|events| - 1], b)
  }

  // ------------------------------------------------------------------ the collector's scopes mirror the stack

  ghost predicate MirrorsAt(c: Collector, stack: seq<map<string, Def>>, d: nat)
    requires d < |c.scopes| == |stack|
  {
    && (forall name :: name in c.scopes[d].bindings <==> name in stack[d])
    && (forall name :: name in stack[d] ==>
          c.scopes[d].bindings[name] < |c.symbols| && DefOf(c.symbols[c.scopes[d].bindings[name]]) == stack[d][name])
  }

  ghost predicate Mirrors(c: Collector, stack: seq<map<string, Def>>) {
    |c.scopes| == |stack| && forall d :: 0 <= d < |stack| ==> MirrorsAt(c, stack, d)
  }

  /** Same definitions, whatever their ends and references. */
  ghost predicate SameDefs(a: seq<Symbol>, b: seq<Symbol>) {
    |a| <= |b| && forall i :: 0 <= i < |a| ==> DefOf(b[i]) == DefOf(a[i])
  }

  lemma {:induction false} StepDefs(limits: Limits, c: Collector, e: Event)
    requires c.scopes != []
    ensures SameDefs(c.symbols, Step(limits, c, e).symbols)
    ensures !Step(limits, c, e).truncated ==> !c.truncated
  {
    hide Resolve;
  }

  lemma {:induction false} MirrorStep(limits: Limits, c: Collector, stack: seq<map<string, Def>>, e: Event)
    requires c.scopes != [] && stack != [] && Mirrors(c, stack) && !Step(limits, c, e).truncated
    ensures Mirrors(Step(limits, c, e), StackStep(stack, e))
  {
    hide Resolve, Mirrors;
    StepDefs(limits, c, e);
    if e.Define? {
      MirrorDefine(limits, c, stack, e);
    } else {
      MirrorOther(limits, c, stack, e);
    }
  }

  /** Tables and scopes are the old ones, or fresh and empty. */
  ghost predicate SameTables(c: Collector, r: Collector, stack: seq<map<string, Def>>, t: seq<map<string, Def>>)
    requires |c.scopes| == |stack|
  {
    && |r.scopes| == |t|
    && forall d :: 0 <= d < |t| ==>
         if d < |stack| then r.scopes[d] == c.scopes[d] && t[d] == stack[d]
           else r.scopes[d] == NO_BINDINGS && t[d] == map[]
  }

  lemma {:induction false} MirrorOther(limits: Limits, c: Collector, stack: seq<map<string, Def>>, e: Event)
    requires c.scopes != [] && stack != [] && Mirrors(c, stack) && !e.Define? &&
      SameDefs(c.symbols, Step(limits, c, e).symbols)
    ensures Mirrors(Step(limits, c, e), StackStep(stack, e))
  {
    var r, t := Step(limits, c, e), StackStep(stack, e);
    assert SameTables(c, r, stack, t) by { StepTables(limits, c, stack, e); }
    hide Step, StackStep, SameTables;
    forall d | 0 <= d < |t| ensures |r.scopes| == |t| && MirrorsAt(r, t, d) {
      if d < |stack| {
        assert MirrorsAt(c, stack, d);
      }
      TableMirrors(c, r, stack, t, d);
    }
    assert |r.scopes| == |t| by { StepTables(limits, c, stack, e); }
  }

  lemma {:induction false} StepTables(limits: Limits, c: Collector, stack: seq<map<string, Def>>, e: Event)
    requires c.scopes != [] && stack != [] && |c.scopes| == |stack| && !e.Define?
    ensures SameTables(c, Step(limits, c, e), stack, StackStep(stack, e))
    ensures |Step(limits, c, e).scopes| == |StackStep(stack, e)|
  {
    hide Resolve;
  }

  lemma {:induction false} TableMirrors(c: Collector, r: Collector, stack: seq<map<string, Def>>, t: seq<map<string,
      Def>>, d: nat)
    requires |c.scopes| == |stack| && SameTables(c, r, stack, t) && SameDefs(c.symbols, r.symbols) && d < |t|
    requires d < |stack| ==> MirrorsAt(c, stack, d)
    ensures |r.scopes| == |t| && MirrorsAt(r, t, d)
  {
  }

  lemma {:induction false} MirrorDefine(limits: Limits, c: Collector, stack: seq<map<string, Def>>, e: Event)
    requires c.scopes != [] && stack != [] && Mirrors(c, stack) && e.Define? && HasRoom(limits, c)
    requires SameDefs(c.symbols, Step(limits, c, e).symbols)
    ensures Mirrors(Step(limits, c, e), StackStep(stack, e))
  {
    var r, t := Step(limits, c, e), StackStep(stack, e);
    var n := |stack| - 1;
    assert DefOf(r.symbols[|c.symbols|]) == Def(e.name, Span(e.start, e.end), e.kind, e.at);
    forall d | 0 <= d < |t| ensures |r.scopes| == |t| && MirrorsAt(r, t, d) {
      assert MirrorsAt(c, stack, d);
      assert d < n ==> r.scopes[d] == c.scopes[d] && t[d] == stack[d];
    }
  }

  lemma {:induction false} RunMirrors(limits: Limits, events: seq<Event>)
    requires !Collected(limits, events).truncated
    ensures Mirrors(Collected(limits, events), Stack(events))
  {
    hide Step, StackStep, Mirrors;
    if events == [] {
      FreshMirrors();
    } else {
      var front, e := events[..|events| - 1], events[|events| - 1];
      StepDefs(limits, Collected(limits, front), e);
      RunMirrors(limits, front);
      MirrorStep(limits, Collected(limits, front), Stack(front), e);
    }
  }

  lemma {:induction false} FreshMirrors()
    ensures Mirrors(Fresh(), [map[]])
  {
    assert MirrorsAt(Fresh(), [map[]], 0);
  }

  /** Resolution agrees between the collector and the stack. */
  lemma {:induction false} MirrorResolves(c: Collector, stack: seq<map<string, Def>>, name: string, n: nat)
    requires Mirrors(c, stack) && n <= |stack|
    ensures var r := Resolve(c.scopes[..n], name);
            && r.Some? == ResolveDef(stack[..n], name).Some?
            && (r.Some? ==> r.value < |c.symbols| && DefOf(c.symbols[r.value]) == ResolveDef(stack[..n], name).value)
    decreases n
  {
    if n > 0 {
      MirrorResolves(c, stack, name, n - 1);
      assert c.scopes[..n][..n - 1] == c.scopes[..n - 1] && stack[..n][..n - 1] == stack[..n - 1];
      assert MirrorsAt(c, stack, n - 1);
    }
  }

  // ------------------------------------------------------------------ what time leaves of an interval

  /** From `a` to `z`: ended symbols stay as they are, open ones end only after `b`, new ones start only after `b`. */
  ghost predicate After(a: seq<Symbol>, z: seq<Symbol>, b: nat) {
    && SameDefs(a, z)
    && (forall i :: 0 <= i < |a| ==> if a[i].until == OPEN then z[i].until > b else z[i].until == a[i].until)
    && (forall i :: |a| <= i < |z| ==> z[i].from > b)
  }

  lemma {:induction false} AfterTrans(a: seq<Symbol>, m: seq<Symbol>, z: seq<Symbol>, b: nat)
    requires After(a, m, b) && After(m, z, b)
    ensures After(a, z, b)
  {
    forall i | |a| <= i < |z| ensures z[i].from > b {
      if i < |m| {
        assert DefOf(z[i]) == DefOf(m[i]);
      }
    }
  }

  /** The event closes or defines only after `b`. */
  predicate Later(e: Event, b: nat) {
    InRange(e) && ((e.PopScope? || e.Define?) ==> e.at > b)
  }

  lemma {:induction false} StepAfter(limits: Limits, c: Collector, e: Event, b: nat)
    requires Inv(c) && Later(e, b) && b < OPEN
    ensures After(c.symbols, Step(limits, c, e).symbols, b)
  {
    hide Resolve, OpenBound, Layered;
    StepDefs(limits, c, e);
    var r := Step(limits, c, e).symbols;
    if e.Define? {
      DefineAfter(limits, c, e, b);
    } else if e.Refer? {
      ReferView(limits, c, e.name, Span(e.start, e.end));
      assert |r| == |c.symbols|;
    }
  }

  lemma {:induction false} DefineAfter(limits: Limits, c: Collector, e: Event, b: nat)
    requires Inv(c) && e.Define? && Later(e, b) && b < OPEN
    ensures After(c.symbols, Step(limits, c, e).symbols, b)
  {
    hide OpenBound, Layered;
    var k := |c.scopes| - 1;
    if e.name in Top(c).bindings {
      assert e.name in c.scopes[k].bindings;
    }
  }

  lemma {:induction false} RunAfter(limits: Limits, events: seq<Event>, n: nat, b: nat)
    requires n <= |events| && AllInRange(events) && b < OPEN
    requires forall k :: n <= k < |events| ==> Later(events[k], b)
    ensures After(Collected(limits, events[..n]).symbols, Collected(limits, events).symbols, b)
    decreases |events| - n
  {
    hide Step, After;
    if n == |events| {
      assert events[..n] == events;
      AfterSelf(Collected(limits, events).symbols, b);
    } else {
      var front, e := events[..|events| - 1], events[|events| - 1];
      RunAfter(limits, front, n, b);
      assert front[..n] == events[..n];
      RunKeeps(limits, front);
      StepAfter(limits, Collected(limits, front), e, b);
      AfterTrans(Collected(limits, events[..n]).symbols, Collected(limits, front).symbols,
        Collected(limits, events).symbols, b);
    }
  }

  lemma {:induction false} AfterSelf(a: seq<Symbol>, b: nat)
    requires b < OPEN
    ensures After(a, a, b)
  {
  }

  lemma {:induction false} ClosedAfter(symbols: seq<Symbol>, scopes: seq<Scope>, end: nat, b: nat)
    requires b < end <= OPEN
    ensures After(symbols, AllClosed(symbols, scopes, end), b)
    decreases |scopes|
  {
    hide After, Closed;
    if scopes == [] {
      AfterSelf(symbols, b);
    } else {
      var n := |scopes| - 1;
      var closed := Closed(symbols, scopes[n].defined, end);
      assert After(symbols, closed, b) by { OneClosedAfter(symbols, scopes[n].defined, end, b); }
      ClosedAfter(closed, scopes[..n], end, b);
      AfterTrans(symbols, closed, AllClosed(symbols, scopes, end), b);
    }
  }

  lemma {:induction false} OneClosedAfter(symbols: seq<Symbol>, indices: seq<nat>, end: nat, b: nat)
    requires b < end <= OPEN
    ensures After(symbols, Closed(symbols, indices, end), b)
  {
  }

  // ------------------------------------------------------------------ clocks and keys

  /** What a run has recorded lies at or before its clock. */
  ghost predicate By(symbols: seq<Symbol>, clock: nat) {
    forall i :: 0 <= i < |symbols| ==>
      symbols[i].from <= clock && (symbols[i].until != OPEN ==> symbols[i].until <= clock)
  }

  lemma {:induction false} StepBy(limits: Limits, c: Collector, e: Event, before: nat, now: nat)
    requires c.scopes != [] && By(c.symbols, before) && before <= now
    requires e.PopScope? || e.Define? ==> e.at <= now
    ensures By(Step(limits, c, e).symbols, now)
  {
    hide Resolve;
  }

  lemma {:induction false} RunBy(limits: Limits, events: seq<Event>)
    requires Timed(events)
    ensures By(Collected(limits, events).symbols, Clock(events))
  {
    hide Step, By;
    if events == [] {
      NoneBy();
    } else {
      var front, e := events[..|events| - 1], events[|events| - 1];
      RunBy(limits, front);
      StepBy(limits, Collected(limits, front), e, Clock(front), Clock(events));
    }
  }

  lemma {:induction false} NoneBy()
    ensures By([], 0)
  {
  }

  predicate KeyBelow(s: Symbol, t: Symbol) {
    s.from < t.from || (s.from == t.from && s.definition.start < t.definition.start)
  }

  ghost predicate KeysOrdered(symbols: seq<Symbol>) {
    forall i, j :: 0 <= i < j < |symbols| ==> KeyBelow(symbols[i], symbols[j])
  }

  ghost predicate KeysUpTo(symbols: seq<Symbol>, at: int, start: int) {
    forall i :: 0 <= i < |symbols| ==>
      symbols[i].from < at || (symbols[i].from == at && symbols[i].definition.start <= start)
  }

  lemma {:induction false} DefsKeepKeys(a: seq<Symbol>, z: seq<Symbol>, at: int, start: int)
    requires SameDefs(a, z) && |a| == |z|
    ensures KeysOrdered(a) ==> KeysOrdered(z)
    ensures KeysUpTo(a, at, start) ==> KeysUpTo(z, at, start)
  {
    assert forall i :: 0 <= i < |a| ==> DefOf(z[i]) == DefOf(a[i]);
  }

  lemma {:induction false} RunKeys(limits: Limits, events: seq<Event>)
    requires KeysIncrease(events)
    ensures KeysOrdered(Collected(limits, events).symbols)
    ensures KeysUpTo(Collected(limits, events).symbols, LastAt(events), LastStart(events))
  {
    hide Step;
    if events != [] {
      var front, e := events[..|events| - 1], events[|events| - 1];
      RunKeys(limits, front);
      var c := Collected(limits, front);
      var r := Step(limits, c, e);
      StepDefs(limits, c, e);
      hide KeysOrdered, KeysUpTo;
      NewestKey(limits, c, e, LastAt(front), LastStart(front));
    }
  }

  lemma {:induction false} NewestKey(limits: Limits, c: Collector, e: Event, at: int, start: int)
    requires c.scopes != [] && KeysOrdered(c.symbols) && KeysUpTo(c.symbols, at, start)
    requires e.Define? ==> at < e.at || (at == e.at && start < e.start)
    ensures KeysOrdered(Step(limits, c, e).symbols)
    ensures KeysUpTo(Step(limits, c, e).symbols, if e.Define? then e.at else at, if e.Define? then e.start else start)
  {
    var r := Step(limits, c, e).symbols;
    StepDefs(limits, c, e);
    StepGrows(limits, c, e);
    hide Step;
    var n := |c.symbols|;
    DefsKeepKeys(c.symbols, r[..n], at, start);
    assert forall i :: 0 <= i < n ==> r[..n][i] == r[i];
  }

  lemma {:induction false} StepGrows(limits: Limits, c: Collector, e: Event)
    requires c.scopes != []
    ensures var r := Step(limits, c, e).symbols;
            var n := |c.symbols|;
            |r| == n || (|r| == n + 1 && e.Define? && r[n].from == e.at && r[n].definition.start == e.start)
  {
    hide Resolve;
    if e.Define? && e.name in Top(c).bindings && HasRoom(limits, c) {
      assert Top(c).bindings[e.name] < |c.symbols| || Top(c).bindings[e.name] >= |c.symbols|;
    }
  }

  // ------------------------------------------------------------------ lookups

  lemma {:induction false} DoneIsDone(events: seq<Event>, b: nat)
    requires Timed(events) && AllInRange(events)
    ensures var n := |DoneAt(events, b)|;
            && (n > 0 ==> Clock(events[..n]) <= b) && Timed(events[..n]) && AllInRange(events[..n])
            && forall k :: n <= k < |events| ==> Later(events[k], b)
  {
    if events == [] || Clock(events) <= b {
      assert events[..|events|] == events;
    } else {
      var front := events[..|events| - 1];
      DoneIsDone(front, b);
      var n := |DoneAt(front, b)|;
      assert front[..n] == events[..n];
      forall k | n <= k < |events| ensures Later(events[k], b) {
        if k < |front| {
          assert events[k] == front[k];
        }
      }
    }
  }

  /** The last symbol visible at an offset. */
  function LastVisible(symbols: seq<Symbol>, name: string, b: nat): (r: Option<nat>)
    ensures r.Some? ==> r.value < |symbols| && Visible(symbols[r.value], name, b)
    ensures r.Some? ==> forall i :: r.value < i < |symbols| ==> !Visible(symbols[i], name, b)
    ensures r.None? ==> forall i :: 0 <= i < |symbols| ==> !Visible(symbols[i], name, b)
  {
    if symbols == [] then None
    else
      var n := |symbols| - 1;
      if Visible(symbols[n], name, b) then Some(n) else LastVisible(symbols[..n], name, b)
  }

  /** A best visible symbol of a collection, in any order. */
  ghost predicate IsBest(symbols: seq<Symbol>, name: string, b: nat, r: Option<Symbol>) {
    if r.None? then forall s :: s in symbols ==> !Visible(s, name, b)
    else
      && r.value in symbols && Visible(r.value, name, b)
      && forall s :: s in symbols && Visible(s, name, b) ==> KeyAtLeast(r.value, s)
  }

  lemma {:induction false} LookupIsBest(symbols: seq<Symbol>, name: string, b: nat)
    ensures IsBest(symbols, name, b, Lookup(symbols, name, b))
  {
    if symbols != [] {
      var n := |symbols| - 1;
      LookupIsBest(symbols[..n], name, b);
      assert symbols == symbols[..n] + [symbols[n]];
    }
  }

  /** With distinct keys the best symbol does not depend on the order of the list. */
  lemma {:induction false} BestIsUnique(symbols: seq<Symbol>, sorted: seq<Symbol>, name: string, b: nat,
      r: Option<Symbol>, t: Option<Symbol>)
    requires KeysOrdered(symbols) && forall s :: s in sorted <==> s in symbols
    requires IsBest(symbols, name, b, r) && IsBest(sorted, name, b, t)
    ensures r == t
  {
    if r.Some? && t.Some? {
      assert r.value in sorted && t.value in symbols;
      assert KeyAtLeast(r.value, t.value) && KeyAtLeast(t.value, r.value);
      var i :| 0 <= i < |symbols| && symbols[i] == r.value;
      var j :| 0 <= j < |symbols| && symbols[j] == t.value;
      KeysDistinct(symbols, i, j);
    }
  }

  lemma {:induction false} KeysDistinct(symbols: seq<Symbol>, i: nat, j: nat)
    requires KeysOrdered(symbols) && i < |symbols| && j < |symbols|
    requires KeyAtLeast(symbols[i], symbols[j]) && KeyAtLeast(symbols[j], symbols[i])
    ensures i == j
  {
  }

  lemma {:induction false} LastIsBest(symbols: seq<Symbol>, name: string, b: nat)
    requires KeysOrdered(symbols)
    ensures var v := LastVisible(symbols, name, b);
            IsBest(symbols, name, b, if v.Some? then Some(symbols[v.value]) else None)
  {
    var v := LastVisible(symbols, name, b);
    if v.Some? {
      forall s | s in symbols && Visible(s, name, b) ensures KeyAtLeast(symbols[v.value], s) {
        var i :| 0 <= i < |symbols| && symbols[i] == s;
        assert i < v.value ==> KeyBelow(symbols[i], symbols[v.value]);
      }
    }
  }

  lemma {:induction false} PlaceHolds(sorted: seq<Symbol>, s: Symbol, x: Symbol)
    ensures x in Place(sorted, s) <==> x in sorted || x == s
  {
    if sorted != [] {
      var n := |sorted| - 1;
      PlaceHolds(sorted[..n], s, x);
      assert sorted == sorted[..n] + [sorted[n]];
    }
  }

  lemma {:induction false} SortHolds(symbols: seq<Symbol>, x: Symbol)
    ensures x in SortedByDefinition(symbols) <==> x in symbols
  {
    if symbols != [] {
      var n := |symbols| - 1;
      SortHolds(symbols[..n], x);
      PlaceHolds(SortedByDefinition(symbols[..n]), symbols[n], x);
      assert symbols == symbols[..n] + [symbols[n]];
    }
  }

  /** A lookup in the sorted list finds the last symbol, in order of definition, visible there. */
  lemma {:induction false} SortedLookup(symbols: seq<Symbol>, name: string, b: nat)
    requires KeysOrdered(symbols)
    ensures var v := LastVisible(symbols, name, b);
            Lookup(SortedByDefinition(symbols), name, b) == if v.Some? then Some(symbols[v.value]) else None
  {
    hide IsBest, KeysOrdered, LastVisible, Lookup;
    var sorted := SortedByDefinition(symbols);
    LastIsBest(symbols, name, b);
    LookupIsBest(sorted, name, b);
    forall s ensures s in sorted <==> s in symbols {
      SortHolds(symbols, s);
    }
    var v := LastVisible(symbols, name, b);
    BestIsUnique(symbols, sorted, name, b, if v.Some? then Some(symbols[v.value]) else None, Lookup(sorted, name, b));
  }

  /** What is visible at `b` in the end is what was open when the events up to `b` were done. */
  lemma {:induction false} VisibleIsOpen(a: seq<Symbol>, z: seq<Symbol>, name: string, b: nat)
    requires By(a, b) && After(a, z, b) && b < OPEN
    ensures LastVisible(z, name, b) == LastOpen(a, name)
  {
    forall i | 0 <= i < |z| ensures Visible(z[i], name, b) <==> i < |a| && a[i].name == name && a[i].until == OPEN {
      if i < |a| {
        assert DefOf(z[i]) == DefOf(a[i]);
      }
    }
    hide LastVisible, LastOpen;
    var v, o := LastVisible(z, name, b), LastOpen(a, name);
  }

  /** A lookup at `b` finds, as it is in the end, the symbol that the scopes bound once the events up to `b` were
      done. */
  lemma {:induction false} LookupIsBound(limits: Limits, events: seq<Event>, end: nat, name: string, b: nat)
    requires Timed(events) && KeysIncrease(events) && AllInRange(events) && !Collected(limits, events).truncated
    requires b < end < OPEN
    ensures var c, z := Collected(limits, DoneAt(events, b)), Collected(limits, events);
            var final := AllClosed(z.symbols, z.scopes, end);
            var bound := Resolve(c.scopes, name);
            && Lookup(Finished(z, end), name, b).Some? == bound.Some?
            && (bound.Some? ==>
                  && bound.value < |c.symbols| && bound.value < |final| &&
                    DefOf(final[bound.value]) == DefOf(c.symbols[bound.value])
                  && Lookup(Finished(z, end), name, b).value == final[bound.value])
  {
    hide Step, After, By, KeysOrdered, Timed, KeysIncrease, AllInRange, Inv, Lookup, SortedByDefinition, AllClosed,
      Collected;
    DoneIsDone(events, b);
    var done := DoneAt(events, b);
    var c, z := Collected(limits, done), Collected(limits, events);
    var final := AllClosed(z.symbols, z.scopes, end);
    RunAfter(limits, events, |done|, b);
    ClosedAfter(z.symbols, z.scopes, end, b);
    AfterTrans(c.symbols, z.symbols, final, b);
    DoneBy(limits, done, b);
    VisibleIsOpen(c.symbols, final, name, b);
    RunKeys(limits, events);
    FinalKeys(z, end);
    SortedLookup(final, name, b);
    RunKeeps(limits, done);
    ResolveIsLastOpen(c, name);
    var v := LastVisible(final, name, b);
    if v.Some? {
      AfterDefs(c.symbols, final, b, v.value);
    }
  }

  /** The index agrees with the scope stack: at every offset before the end of the source, looking a
      name up among the finished intervals gives the definition that the stack resolves once all
      events at or before the offset are done. */
  lemma {:induction false} IndexAgreesWithStack(limits: Limits, events: seq<Event>, end: nat, name: string, b: nat)
    requires Timed(events) && KeysIncrease(events) && AllInRange(events) && !Collected(limits, events).truncated
    requires b < end < OPEN
    ensures var found := Lookup(Finished(Collected(limits, events), end), name, b);
            var resolved := ResolveDef(Stack(DoneAt(events, b)), name);
            found.Some? == resolved.Some? && (found.Some? ==> DefOf(found.value) == resolved.value)
  {
    hide Lookup, Finished, AllClosed, Mirrors, Collected, Stack, Timed, KeysIncrease, AllInRange, Resolve, ResolveDef;
    LookupIsBound(limits, events, end, name, b);
    var done := DoneAt(events, b);
    Untruncated(limits, events, |done|);
    RunMirrors(limits, done);
    StackResolves(Collected(limits, done), Stack(done), name);
  }

  // ------------------------------------------------------------------ uses stay recorded

  /** Later symbols keep what was recorded for them. */
  ghost predicate UsesKept(a: seq<Symbol>, z: seq<Symbol>) {
    |a| <= |z| && forall i :: 0 <= i < |a| ==> a[i].references <= z[i].references
  }

  lemma {:induction false} StepKeepsUses(limits: Limits, c: Collector, e: Event)
    requires c.scopes != []
    ensures UsesKept(c.symbols, Step(limits, c, e).symbols)
  {
    hide Resolve;
  }

  lemma {:induction false} RunKeepsUses(limits: Limits, events: seq<Event>, n: nat)
    requires n <= |events|
    ensures UsesKept(Collected(limits, events[..n]).symbols, Collected(limits, events).symbols)
    decreases |events| - n
  {
    hide Step;
    if n == |events| {
      assert events[..n] == events;
    } else {
      var front := events[..|events| - 1];
      RunKeepsUses(limits, front, n);
      assert front[..n] == events[..n];
      StepKeepsUses(limits, Collected(limits, front), events[|events| - 1]);
    }
  }

  lemma {:induction false} ClosedKeepsUses(symbols: seq<Symbol>, scopes: seq<Scope>, end: nat)
    ensures UsesKept(symbols, AllClosed(symbols, scopes, end))
    decreases |scopes|
  {
    if scopes != [] {
      var n := |scopes| - 1;
      ClosedKeepsUses(Closed(symbols, scopes[n].defined, end), scopes[..n], end);
    }
  }

  lemma {:induction false} ClockGrows(events: seq<Event>, n: nat)
    requires Timed(events) && n <= |events|
    ensures Clock(events[..n]) <= Clock(events)
    decreases |events| - n
  {
    if n == |events| {
      assert events[..n] == events;
    } else {
      var front := events[..|events| - 1];
      ClockGrows(front, n);
      assert front[..n] == events[..n];
    }
  }

  /** When a name is used, exactly the events before the use are done. */
  lemma {:induction false} DoneAtUse(events: seq<Event>, r: nat)
    requires Timed(events) && r < |events| && events[r].Refer?
    ensures DoneAt(events, events[r].start) == events[..r]
    decreases |events|
  {
    var n, b := |events| - 1, events[r].start;
    var front := events[..n];
    if r == n {
      assert Timed(events) && Clock(events) == events[r].end > b;
      assert front == [] || Clock(front) <= b;
      assert DoneAt(front, b) == front;
    } else {
      UseBehind(events, r);
      DoneAtUse(front, r);
      assert front[..r] == events[..r];
    }
  }

  lemma {:induction false} UseBehind(events: seq<Event>, r: nat)
    requires Timed(events) && r < |events| && events[r].Refer?
    ensures Clock(events) >= events[r].end > events[r].start
  {
    var done := events[..r + 1];
    assert done[r] == events[r] && done[..r] == events[..r];
    TimedFront(events, r + 1);
    ClockGrows(events, r + 1);
  }

  lemma {:induction false} TimedFront(events: seq<Event>, n: nat)
    requires Timed(events) && n <= |events|
    ensures Timed(events[..n])
    decreases |events| - n
  {
    if n == |events| {
      assert events[..n] == events;
    } else {
      var front := events[..|events| - 1];
      TimedFront(front, n);
      assert front[..n] == events[..n];
    }
  }

  /** A use belongs to the references of the symbol that a lookup at the use finds. */
  lemma {:induction false} UseIsRecorded(limits: Limits, events: seq<Event>, r: nat, end: nat)
    requires Timed(events) && KeysIncrease(events) && AllInRange(events) && !Collected(limits, events).truncated
    requires r < |events| && events[r].Refer? && events[r].start < end < OPEN
    ensures var e := events[r];
            var found := Lookup(Finished(Collected(limits, events), end), e.name, e.start);
            found.Some? ==> Span(e.start, e.end) in found.value.references
  {
    hide Lookup, Finished, AllClosed, Collected, Step, Timed, KeysIncrease, AllInRange, Resolve, UsesKept;
    var e := events[r];
    DoneAtUse(events, r);
    LookupIsBound(limits, events, end, e.name, e.start);
    var c, z := Collected(limits, events[..r]), Collected(limits, events);
    var v := Resolve(c.scopes, e.name);
    if v.Some? {
      var next := Collected(limits, events[..r + 1]);
      Untruncated(limits, events, r + 1);
      assert next == Step(limits, c, e) by { NextCollected(limits, events, r); }
      UseAdded(limits, c, e);
      RunKeepsUses(limits, events, r + 1);
      ClosedKeepsUses(z.symbols, z.scopes, end);
      UseKept(next.symbols, z.symbols, v.value, Span(e.start, e.end));
      UseKept(z.symbols, AllClosed(z.symbols, z.scopes, end), v.value, Span(e.start, e.end));
    }
  }

  lemma {:induction false} NextCollected(limits: Limits, events: seq<Event>, r: nat)
    requires r < |events|
    ensures Collected(limits, events[..r + 1]) == Step(limits, Collected(limits, events[..r]), events[r])
  {
    assert events[..r + 1][..r] == events[..r];
  }

  lemma {:induction false} UseAdded(limits: Limits, c: Collector, e: Event)
    requires c.scopes != [] && e.Refer? && !Step(limits, c, e).truncated
    requires Resolve(c.scopes, e.name).Some? && Resolve(c.scopes, e.name).value < |c.symbols|
    ensures var i := Resolve(c.scopes, e.name).value;
            var r := Step(limits, c, e).symbols;
            i < |r| && Span(e.start, e.end) in r[i].references
  {
    hide Resolve;
    var i := Resolve(c.scopes, e.name).value;
    var uses := c.symbols[i].references;
    assert (uses + [Span(e.start, e.end)])[|uses|] == Span(e.start, e.end);
  }

  lemma {:induction false} UseKept(a: seq<Symbol>, z: seq<Symbol>, i: nat, use: Span)
    requires UsesKept(a, z) && i < |a| && use in a[i].references
    ensures i < |z| && use in z[i].references
  {
    var k :| 0 <= k < |a[i].references| && a[i].references[k] == use;
    assert z[i].references[k] == use;
  }

  // ------------------------------------------------------------------ symbols and their definitions

  /** The definition an event makes. */
  function DefinedBy(e: Event): (d: Def)
    requires e.Define?
  {
    Def(e.name, Span(e.start, e.end), e.kind, e.at)
  }

  /** Every recorded symbol was defined by an event. */
  lemma {:induction false} SymbolHasEvent(limits: Limits, events: seq<Event>, i: nat) returns (p: nat)
    requires i < |Collected(limits, events).symbols|
    ensures p < |events| && events[p].Define? && DefOf(Collected(limits, events).symbols[i]) == DefinedBy(events[p])
    decreases |events|
  {
    hide Step;
    var n := |events| - 1;
    var front, e := events[..n], events[n];
    var c := Collected(limits, front);
    StepDefs(limits, c, e);
    if i < |c.symbols| {
      p := SymbolHasEvent(limits, front, i);
      assert events[p] == front[p];
    } else {
      p := n;
      NewSymbol(limits, c, e);
    }
  }

  /** One event adds at most the symbol it defines. */
  lemma {:induction false} NewSymbol(limits: Limits, c: Collector, e: Event)
    requires c.scopes != []
    ensures var r := Step(limits, c, e).symbols;
            var n := |c.symbols|;
            |r| <= n + 1 && (|r| == n + 1 ==> e.Define? && DefOf(r[n]) == DefinedBy(e))
  {
    hide Resolve;
    if e.Define? && e.name in Top(c).bindings && HasRoom(limits, c) {
      assert Top(c).bindings[e.name] < |c.symbols| || Top(c).bindings[e.name] >= |c.symbols|;
    }
  }

  /** No two events define a name at the same place. */
  ghost predicate DefinedOnce(events: seq<Event>) {
    forall i, j :: 0 <= i < j < |events| && events[i].Define? && events[j].Define? ==>
      events[i].start != events[j].start
  }

  /** A finished symbol is known by where it is defined. */
  lemma {:induction false} KnownByStart(limits: Limits, events: seq<Event>, end: nat, s: Symbol, t: Symbol)
    requires KeysIncrease(events) && DefinedOnce(events)
    requires s in Finished(Collected(limits, events), end) && t in Finished(Collected(limits, events), end)
    requires s.definition.start == t.definition.start
    ensures s == t
  {
    hide Collected, AllClosed, SortedByDefinition, KeysIncrease, KeysOrdered;
    var c := Collected(limits, events);
    var final := AllClosed(c.symbols, c.scopes, end);
    SortHolds(final, s);
    SortHolds(final, t);
    AllClosedDefs(c.symbols, c.scopes, end);
    RunKeys(limits, events);
    var i :| 0 <= i < |final| && final[i] == s;
    var j :| 0 <= j < |final| && final[j] == t;
    var p := SymbolHasEvent(limits, events, i);
    var q := SymbolHasEvent(limits, events, j);
    assert DefOf(s) == DefinedBy(events[p]) && DefOf(t) == DefinedBy(events[q]);
    assert p == q;
    KeysDistinct(c.symbols, i, j);
  }

  lemma {:induction false} FinishedHasEvent(limits: Limits, events: seq<Event>, end: nat, s: Symbol) returns (p: nat)
    requires s in Finished(Collected(limits, events), end)
    ensures p < |events| && events[p].Define? && DefOf(s) == DefinedBy(events[p])
  {
    hide Collected, AllClosed, SortedByDefinition;
    var c := Collected(limits, events);
    var final := AllClosed(c.symbols, c.scopes, end);
    SortHolds(final, s);
    AllClosedDefs(c.symbols, c.scopes, end);
    var i :| 0 <= i < |final| && final[i] == s;
    p := SymbolHasEvent(limits, events, i);
  }

  lemma {:induction false} AfterDefs(a: seq<Symbol>, z: seq<Symbol>, b: nat, i: nat)
    requires After(a, z, b) && i < |a|
    ensures i < |z| && DefOf(z[i]) == DefOf(a[i])
  {
  }

  lemma {:induction false} StackResolves(c: Collector, stack: seq<map<string, Def>>, name: string)
    requires Mirrors(c, stack)
    ensures var r := Resolve(c.scopes, name);
            && r.Some? == ResolveDef(stack, name).Some?
            && (r.Some? ==> r.value < |c.symbols| && DefOf(c.symbols[r.value]) == ResolveDef(stack, name).value)
  {
    hide Resolve, ResolveDef;
    MirrorResolves(c, stack, name, |stack|);
    assert c.scopes[..|stack|] == c.scopes && stack[..|stack|] == stack;
  }

  lemma {:induction false} DoneBy(limits: Limits, done: seq<Event>, b: nat)
    requires Timed(done) && (done != [] ==> Clock(done) <= b)
    ensures By(Collected(limits, done).symbols, b)
  {
    hide Collected;
    RunBy(limits, done);
    if done == [] {
      assert Collected(limits, done).symbols == [] by { NothingCollected(limits); }
    }
  }

  lemma {:induction false} NothingCollected(limits: Limits)
    ensures Collected(limits, []) == Fresh()
  {
  }

  lemma {:induction false} FinalKeys(c: Collector, end: nat)
    requires KeysOrdered(c.symbols)
    ensures KeysOrdered(AllClosed(c.symbols, c.scopes, end))
  {
    hide KeysOrdered;
    AllClosedDefs(c.symbols, c.scopes, end);
    DefsKeepKeys(c.symbols, AllClosed(c.symbols, c.scopes, end), 0, 0);
  }

  lemma {:induction false} AllClosedDefs(symbols: seq<Symbol>, scopes: seq<Scope>, end: nat)
    ensures SameDefs(symbols, AllClosed(symbols, scopes, end))
    decreases |scopes|
  {
    if scopes != [] {
      var n := |scopes| - 1;
      AllClosedDefs(Closed(symbols, scopes[n].defined, end), scopes[..n], end);
    }
  }

  lemma {:induction false} Untruncated(limits: Limits, events: seq<Event>, n: nat)
    requires n <= |events| && !Collected(limits, events).truncated
    ensures !Collected(limits, events[..n]).truncated
    decreases |events| - n
  {
    hide Step;
    if n == |events| {
      assert events[..n] == events;
    } else {
      var front := events[..|events| - 1];
      StepDefs(limits, Collected(limits, front), events[|events| - 1]);
      Untruncated(limits, front, n);
      assert front[..n] == events[..n];
    }
  }

  // ------------------------------------------------------------------ references lie inside

  /** Every reference starts where its symbol is visible and ends before it is not. */
  ghost predicate Inside(s: Symbol, clock: nat) {
    forall k :: 0 <= k < |s.references| ==>
      s.from <= s.references[k].start < s.references[k].end <= clock && s.references[k].end <= s.until
  }

  ghost predicate AllInside(symbols: seq<Symbol>, clock: nat) {
    forall i :: 0 <= i < |symbols| ==> Inside(symbols[i], clock)
  }

  lemma {:induction false} StepInside(limits: Limits, c: Collector, e: Event, before: nat, now: nat)
    requires Inv(c) && AllInside(c.symbols, before) && By(c.symbols, before) && before <= now < OPEN
    requires e.PopScope? || e.Define? ==> before <= e.at
    requires e.Refer? ==> before <= e.start < e.end <= now
    ensures AllInside(Step(limits, c, e).symbols, now)
  {
    hide Resolve, OpenBound, Layered, BindingsOpen;
    if e.Refer? {
      ReferInside(limits, c, e, before, now);
    }
  }

  lemma {:induction false} ReferInside(limits: Limits, c: Collector, e: Event, before: nat, now: nat)
    requires Inv(c) && AllInside(c.symbols, before) && By(c.symbols, before)
    requires e.Refer? && before <= e.start < e.end <= now < OPEN
    ensures AllInside(Step(limits, c, e).symbols, now)
  {
    ResolveIsLastOpen(c, e.name);
    hide Resolve, Inv, Step, LastOpen, Inside;
    var span := Span(e.start, e.end);
    var r := Step(limits, c, e).symbols;
    ReferSize(limits, c, e);
    forall i | 0 <= i < |r| ensures Inside(r[i], now) {
      ReferShape(limits, c, e, i);
      AddReference(c.symbols[i], span, before, now);
    }
  }

  lemma {:induction false} ReferSize(limits: Limits, c: Collector, e: Event)
    requires e.Refer? && c.scopes != []
    ensures |Step(limits, c, e).symbols| == |c.symbols|
  {
    hide Resolve;
  }

  lemma {:induction false} ReferShape(limits: Limits, c: Collector, e: Event, i: nat)
    requires e.Refer? && c.scopes != [] && i < |c.symbols| == |Step(limits, c, e).symbols|
    ensures var r, s := Step(limits, c, e).symbols[i], c.symbols[i];
            r == s || (Resolve(c.scopes, e.name) == Some(i) &&
              r == s.(references := s.references + [Span(e.start, e.end)]))
  {
    hide Resolve;
  }

  lemma {:induction false} AddReference(s: Symbol, span: Span, before: nat, now: nat)
    requires Inside(s, before) && before <= span.start < span.end <= now < OPEN && s.from <= before
    ensures Inside(s, now)
    ensures s.until == OPEN ==> Inside(s.(references := s.references + [span]), now)
  {
  }

  lemma {:induction false} RunInside(limits: Limits, events: seq<Event>)
    requires Timed(events) && AllInRange(events) && Clock(events) < OPEN
    ensures AllInside(Collected(limits, events).symbols, Clock(events))
  {
    hide Step, AllInside, Inv, By;
    if events == [] {
      NoneInside();
    } else {
      var front, e := events[..|events| - 1], events[|events| - 1];
      RunInside(limits, front);
      RunBy(limits, front);
      RunKeeps(limits, front);
      StepInside(limits, Collected(limits, front), e, Clock(front), Clock(events));
    }
  }

  lemma {:induction false} NoneInside()
    ensures AllInside([], 0)
  {
  }

  /** In the finished index every recorded reference lies inside its symbol's interval. */
  lemma {:induction false} ReferencesLieInside(limits: Limits, events: seq<Event>, end: nat, s: Symbol, k: nat)
    requires Timed(events) && AllInRange(events) && Clock(events) <= end < OPEN
    requires s in Finished(Collected(limits, events), end) && k < |s.references|
    ensures s.from <= s.references[k].start < s.references[k].end <= s.until
  {
    hide Collected, AllInside, AllClosed, SortedByDefinition;
    RunInside(limits, events);
    var c := Collected(limits, events);
    ClosedInside(c.symbols, c.scopes, end, Clock(events));
    var final := AllClosed(c.symbols, c.scopes, end);
    SortHolds(final, s);
    var i :| 0 <= i < |final| && final[i] == s;
    InsideAt(final, Clock(events), i);
  }

  lemma {:induction false} InsideAt(symbols: seq<Symbol>, clock: nat, i: nat)
    requires AllInside(symbols, clock) && i < |symbols|
    ensures Inside(symbols[i], clock)
  {
  }

  lemma {:induction false} ClosedInside(symbols: seq<Symbol>, scopes: seq<Scope>, end: nat, clock: nat)
    requires AllInside(symbols, clock) && clock <= end
    ensures AllInside(AllClosed(symbols, scopes, end), clock)
    decreases |scopes|
  {
    if scopes != [] {
      var n := |scopes| - 1;
      ClosedInside(Closed(symbols, scopes[n].defined, end), scopes[..n], end, clock);
    }
  }
}
