/** Under the occurrence cap the collector records exactly the first occurrences of the uncapped run. */
module SymbolTruncation {
  import opened Tokens
  import opened LexicalEvents
  import opened Symbols

  // ------------------------------------------------------------------ the log and the symbols

  function Definitions(log: seq<Occurrence>): (r: seq<Occurrence>) {
    if log == [] then []
    else Definitions(log[..|log| - 1]) + if log[|log| - 1].Definition? then [log[|log| - 1]] else []
  }

  function ReferencesTo(log: seq<Occurrence>, i: nat): (r: seq<Span>) {
    if log == [] then []
    else
      var last := log[|log| - 1];
      ReferencesTo(log[..|log| - 1], i) + if last.Reference? && last.symbol == i then [last.span] else []
  }

  lemma {:induction false} LogAppend(log: seq<Occurrence>, o: Occurrence, i: nat)
    ensures Definitions(log + [o]) == Definitions(log) + if o.Definition? then [o] else []
    ensures ReferencesTo(log + [o], i) == ReferencesTo(log, i) + if o.Reference? && o.symbol == i then [o.span] else []
  {
    assert (log + [o])[..|log|] == log;
  }

  /** The log lists just the recorded definitions and references: symbol `i` is the `i`-th definition
      and holds exactly the references resolved to it, in order. */
  ghost predicate Recorded(c: Collector) {
    && |Definitions(c.log)| == |c.symbols|
    && (forall i :: 0 <= i < |c.symbols| ==>
      Definitions(c.log)[i] == Definition(c.symbols[i].name, c.symbols[i].definition))
    && (forall i :: 0 <= i < |c.symbols| ==> ReferencesTo(c.log, i) == c.symbols[i].references)
    && (forall i :: |c.symbols| <= i ==> ReferencesTo(c.log, i) == [])
    && c.occurrences == |c.log|
  }

  /** Only ends differ. */
  ghost predicate SameButEnds(a: Collector, z: Collector) {
    && |a.symbols| == |z.symbols| && a.log == z.log && a.occurrences == z.occurrences
    && forall i :: 0 <= i < |a.symbols| ==>
         z.symbols[i].name == a.symbols[i].name && z.symbols[i].definition == a.symbols[i].definition &&
         z.symbols[i].references == a.symbols[i].references
  }

  lemma {:induction false} SameRecorded(a: Collector, z: Collector)
    requires Recorded(a) && SameButEnds(a, z)
    ensures Recorded(z)
  {
  }

  lemma {:induction false} DefineRecorded(limits: Limits, c: Collector, e: Event)
    requires Recorded(c) && c.scopes != [] && e.Define? && HasRoom(limits, c)
    ensures Recorded(Step(limits, c, e))
  {
    var r := Step(limits, c, e);
    var o := Definition(e.name, Span(e.start, e.end));
    var n := |c.symbols|;
    LogAppend(c.log, o, 0);
    forall i ensures ReferencesTo(r.log, i) == ReferencesTo(c.log, i) {
      LogAppend(c.log, o, i);
    }
    DefineShape(limits, c, e);
    hide Step, Definitions, ReferencesTo;
    forall i | 0 <= i < |r.symbols|
      ensures Definitions(r.log)[i] == Definition(r.symbols[i].name, r.symbols[i].definition) &&
        ReferencesTo(r.log, i) == r.symbols[i].references
    {
    }
  }

  lemma {:induction false} DefineShape(limits: Limits, c: Collector, e: Event)
    requires c.scopes != [] && e.Define? && HasRoom(limits, c)
    ensures var r := Step(limits, c, e);
            var n := |c.symbols|;
            && |r.symbols| == n + 1 && r.log == c.log + [Definition(e.name, Span(e.start, e.end))] &&
              r.occurrences == c.occurrences + 1
            && r.symbols[n].name == e.name && r.symbols[n].definition == Span(e.start, e.end) &&
              r.symbols[n].references == []
            && forall i :: 0 <= i < n ==>
                 r.symbols[i].name == c.symbols[i].name && r.symbols[i].definition == c.symbols[i].definition &&
                 r.symbols[i].references == c.symbols[i].references
  {
  }

  lemma {:induction false} ReferRecorded(limits: Limits, c: Collector, e: Event)
    requires Recorded(c) && c.scopes != [] && e.Refer?
    ensures Recorded(Step(limits, c, e))
  {
    hide Resolve, Recorded;
    var r := Step(limits, c, e);
    if r.log == c.log {
      assert SameButEnds(c, r);
      SameRecorded(c, r);
    } else {
      var i := Resolve(c.scopes, e.name).value;
      AddRecorded(c, r, i, Span(e.start, e.end));
    }
  }

  lemma {:induction false} AddRecorded(c: Collector, r: Collector, i: nat, span: Span)
    requires Recorded(c) && i < |c.symbols| && r.log == c.log + [Reference(i, span)] &&
      r.occurrences == c.occurrences + 1
    requires r.symbols == c.symbols[i := c.symbols[i].(references := c.symbols[i].references + [span])]
    ensures Recorded(r)
  {
    hide Definitions, ReferencesTo;
    LogAppend(c.log, Reference(i, span), 0);
    forall k ensures ReferencesTo(r.log, k) == ReferencesTo(c.log, k) + if k == i then [span] else [] {
      LogAppend(c.log, Reference(i, span), k);
    }
    assert Definitions(c.log) + [] == Definitions(c.log);
    forall k | k != i ensures ReferencesTo(r.log, k) == ReferencesTo(c.log, k) {
    }
  }

  lemma {:induction false} StepRecorded(limits: Limits, c: Collector, e: Event)
    requires Recorded(c) && c.scopes != []
    ensures Recorded(Step(limits, c, e))
  {
    hide Recorded, Resolve;
    if e.Refer? {
      ReferRecorded(limits, c, e);
    } else if e.Define? && HasRoom(limits, c) {
      DefineRecorded(limits, c, e);
    } else {
      assert SameButEnds(c, Step(limits, c, e));
      SameRecorded(c, Step(limits, c, e));
    }
  }

  /** The counter is the number of recorded occurrences: one per symbol and one per reference. */
  lemma {:induction false} RunRecorded(limits: Limits, events: seq<Event>)
    ensures Recorded(Collected(limits, events))
  {
    hide Recorded, Step;
    if events == [] {
      FreshRecorded();
    } else {
      RunRecorded(limits, events[..|events| - 1]);
      StepRecorded(limits, Collected(limits, events[..|events| - 1]), events[|events| - 1]);
    }
  }

  lemma {:induction false} FreshRecorded()
    ensures Recorded(Fresh())
  {
  }

  function CountReferences(symbols: seq<Symbol>): (n: nat) {
    if symbols == [] then 0 else CountReferences(symbols[..|symbols| - 1]) + |symbols[|symbols| - 1].references|
  }

  lemma {:induction false} CountUpdate(symbols: seq<Symbol>, z: seq<Symbol>, i: nat)
    requires |z| == |symbols| && i < |symbols| && |z[i].references| == |symbols[i].references| + 1
    requires forall k :: 0 <= k < |symbols| && k != i ==> |z[k].references| == |symbols[k].references|
    ensures CountReferences(z) == CountReferences(symbols) + 1
  {
    var n := |symbols| - 1;
    if i == n {
      CountSame(symbols[..n], z[..n]);
    } else {
      CountUpdate(symbols[..n], z[..n], i);
    }
  }

  lemma {:induction false} CountSame(symbols: seq<Symbol>, z: seq<Symbol>)
    requires |z| == |symbols| && forall k :: 0 <= k < |symbols| ==> |z[k].references| == |symbols[k].references|
    ensures CountReferences(z) == CountReferences(symbols)
  {
    if symbols != [] {
      CountSame(symbols[..|symbols| - 1], z[..|symbols| - 1]);
    }
  }

  lemma {:induction false} StepCounted(limits: Limits, c: Collector, e: Event)
    requires c.scopes != [] && c.occurrences == |c.symbols| + CountReferences(c.symbols)
    ensures var r := Step(limits, c, e); r.occurrences == |r.symbols| + CountReferences(r.symbols)
  {
    hide Resolve, CountReferences;
    var r := Step(limits, c, e);
    if r.log == c.log {
      CountSame(c.symbols, r.symbols);
    } else if e.Refer? {
      CountUpdate(c.symbols, r.symbols, Resolve(c.scopes, e.name).value);
    } else {
      DefineShape(limits, c, e);
      CountNew(c.symbols, r.symbols);
    }
  }

  lemma {:induction false} CountNew(symbols: seq<Symbol>, z: seq<Symbol>)
    requires |z| == |symbols| + 1 && z[|symbols|].references == []
    requires forall k :: 0 <= k < |symbols| ==> z[k].references == symbols[k].references
    ensures CountReferences(z) == CountReferences(symbols)
  {
    CountSame(symbols, z[..|symbols|]);
  }

  lemma {:induction false} RunCounted(limits: Limits, events: seq<Event>)
    ensures var c := Collected(limits, events); c.occurrences == |c.symbols| + CountReferences(c.symbols)
  {
    hide Step;
    if events != [] {
      RunCounted(limits, events[..|events| - 1]);
      StepCounted(limits, Collected(limits, events[..|events| - 1]), events[|events| - 1]);
    }
  }

  // ------------------------------------------------------------------ completion sites

  /** Where names are referred to, resolved or not, in order. */
  function ReferSpans(events: seq<Event>): (spans: seq<Span>) {
    if events == [] then []
    else
      var e := events[|events| - 1];
      ReferSpans(events[..|events| - 1]) + if e.Refer? then [Span(e.start, e.end)] else []
  }

  /** The completion sites are the first references of the run, whatever they resolve to and whatever the cap on
      occurrences does, and the flag says that there were more. */
  lemma {:induction false} SitesAreReferences(limits: Limits, events: seq<Event>)
    ensures var c, all := Collected(limits, events), ReferSpans(events);
      && c.sites == all[..if |all| <= limits.sites then |all| else limits.sites]
      && (c.sitesTruncated <==> |all| > limits.sites)
    decreases |events|
  {
    if events != [] {
      var front, e := events[..|events| - 1], events[|events| - 1];
      SitesAreReferences(limits, front);
      OtherStepsKeepSites(limits, Collected(limits, front), e);
      hide Step;
    }
  }

  lemma {:induction false} OtherStepsKeepSites(limits: Limits, c: Collector, e: Event)
    requires c.scopes != []
    ensures var r := Step(limits, c, e);
      if e.Refer? then
        var s := SiteAdded(limits, c, Span(e.start, e.end)); r.sites == s.sites && r.sitesTruncated == s.sitesTruncated
      else r.sites == c.sites && r.sitesTruncated == c.sitesTruncated
  {
    hide Resolve;
  }

  // ------------------------------------------------------------------ capped and uncapped runs

  /** A run under a cap as long as the event list never truncates. */
  lemma {:induction false} NeverTruncated(limits: Limits, events: seq<Event>)
    requires |events| <= limits.occurrences
    ensures !Collected(limits, events).truncated && Collected(limits, events).occurrences <= |events|
  {
    hide Resolve;
    if events != [] {
      NeverTruncated(limits, events[..|events| - 1]);
    }
  }

  /** The capped run is the uncapped one until the cap, and keeps its first occurrences from then on. */
  ghost predicate Capped(cap: nat, c: Collector, u: Collector) {
    if |u.log| <= cap then c == u && !c.truncated
    else c.truncated && c.log == u.log[..cap] && c.occurrences == cap
  }

  lemma {:induction false} CappedStep(cap: nat, full: nat, sites: nat, c: Collector, u: Collector, e: Event)
    requires cap <= full && c.scopes != [] && u.scopes != [] && Capped(cap, c, u) && u.occurrences == |u.log| &&
      !u.truncated
    requires !Step(Limits(full, sites), u, e).truncated
    ensures Capped(cap, Step(Limits(cap, sites), c, e), Step(Limits(full, sites), u, e))
  {
    hide Resolve;
    var v := Step(Limits(full, sites), u, e);
    LogGrows(Limits(full, sites), u, e);
    if |u.log| > cap {
      assert v.log[..cap] == u.log[..cap];
    }
  }

  lemma {:induction false} LogGrows(limits: Limits, u: Collector, e: Event)
    requires u.scopes != []
    ensures |u.log| <= |Step(limits, u, e).log| && u.log == Step(limits, u, e).log[..|u.log|]
  {
    hide Resolve;
  }

  /** Truncation is a prefix: the definitions and resolved references recorded under the cap are the
      first ones of the uncapped run in time order, and the flag is set exactly when there are more. */
  lemma {:induction false} TruncationIsPrefix(cap: nat, full: nat, sites: nat, events: seq<Event>)
    requires cap <= full && |events| <= full
    ensures var c, u := Collected(Limits(cap, sites), events), Collected(Limits(full, sites), events);
            && !u.truncated
            && c.log == (if |u.log| <= cap then u.log else u.log[..cap])
            && (c.truncated <==> |u.log| > cap)
            && c.occurrences == |c.log| && (c.truncated ==> c.occurrences == cap)
    ensures Capped(cap, Collected(Limits(cap, sites), events), Collected(Limits(full, sites), events))
  {
    hide Step, Recorded;
    NeverTruncated(Limits(full, sites), events);
    RunRecorded(Limits(full, sites), events);
    OccurrencesLogged(Collected(Limits(full, sites), events));
    if events != [] {
      var front, e := events[..|events| - 1], events[|events| - 1];
      TruncationIsPrefix(cap, full, sites, front);
      var c, u := Collected(Limits(cap, sites), front), Collected(Limits(full, sites), front);
      RunRecorded(Limits(full, sites), front);
      OccurrencesLogged(u);
      CappedStep(cap, full, sites, c, u, e);
    }
  }

  lemma {:induction false} OccurrencesLogged(c: Collector)
    requires Recorded(c)
    ensures c.occurrences == |c.log|
  {
  }
}
