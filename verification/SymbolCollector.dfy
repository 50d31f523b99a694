/** The symbol collector object. */
module SymbolCollector {
  import opened Tokens
  import opened LexicalEvents
  import opened Symbols
  import opened SymbolIndex

  const MAX_OCCURRENCES: nat := 4096
  const MAX_SITES: nat := 4096

  class SymbolCollector {
    const limits: Limits
    var symbols: seq<Symbol>
    var scopes: seq<Scope>
    var completionSites: seq<Span>
    var occurrences: nat
    var truncated: bool
    var completionSitesTruncated: bool
    ghost var log: seq<Occurrence>

    ghost function State(): (c: Collector)
      reads this
    {
      Collector(symbols, scopes, completionSites, occurrences, truncated, completionSitesTruncated, log)
    }

    constructor (limits: Limits)
      ensures this.limits == limits && State() == Fresh()
    {
      this.limits := limits;
      symbols, scopes, completionSites := [], [NO_BINDINGS], [];
      occurrences, truncated, completionSitesTruncated, log := 0, false, false, [];
    }

    method PushScope()
      modifies this`scopes
      ensures State() == old(State()).(scopes := old(scopes) + [NO_BINDINGS])
    {
      scopes := scopes + [NO_BINDINGS];
    }

    method PopScope(at: nat)
      requires scopes != [] && Layered(State())
      modifies this`scopes, this`symbols
      ensures State() == Popped(old(State()), at)
    {
      if |scopes| > 1 {
        var scope := scopes[|scopes| - 1];
        scopes := scopes[..|scopes| - 1];
        CloseScope(scope, at);
      }
    }

    /** Ends every symbol of the scope that is still open. */
    method CloseScope(scope: Scope, at: nat)
      requires forall i :: i in scope.defined ==> i < |symbols|
      modifies this`symbols
      ensures symbols == Closed(old(symbols), scope.defined, at)
    {
      for k := 0 to |scope.defined|
        invariant symbols == Closed(old(symbols), scope.defined[..k], at)
      {
        hide Closed;
        var i := scope.defined[k];
        assert i in scope.defined;
        assert scope.defined[..k + 1] == scope.defined[..k] + [i];
        ClosedStep(old(symbols), scope.defined[..k], i, at);
        if symbols[i].until == OPEN {
          symbols := symbols[i := symbols[i].(until := at)];
        }
      }
      assert scope.defined[..|scope.defined|] == scope.defined;
    }

    method ReserveOccurrence() returns (reserved: bool)
      modifies this`truncated, this`occurrences
      ensures reserved == old(HasRoom(limits, State()))
      ensures if reserved then occurrences == old(occurrences) + 1 && truncated == old(truncated)
              else occurrences == old(occurrences) && truncated
    {
      if truncated {
        return false;
      }
      if occurrences == limits.occurrences {
        truncated := true;
        return false;
      }
      occurrences := occurrences + 1;
      return true;
    }

    method Define(name: string, definition: Span, kind: SymbolKind, at: nat)
      requires scopes != [] && BindingsOpen(State())
      modifies this
      ensures State() == Defined(limits, old(State()), name, definition, kind, at)
    {
      var reserved := ReserveOccurrence();
      if !reserved {
        return;
      }
      var n := |symbols|;
      symbols := symbols + [Symbol(kind, name, definition, [], at, OPEN)];
      var top := scopes[|scopes| - 1];
      if name in top.bindings {
        var shadowed := top.bindings[name];
        assert name in old(State()).scopes[|scopes| - 1].bindings;
        symbols := symbols[shadowed := symbols[shadowed].(until := at)];
      }
      scopes := scopes[..|scopes| - 1] + [Scope(top.bindings[name := n], top.defined + [n])];
      log := log + [Definition(name, definition)];
    }

    /** Searches the scopes from the innermost outwards. */
    method FindBinding(name: string) returns (found: Option<nat>)
      ensures found == Resolve(scopes, name)
    {
      var d := |scopes|;
      assert scopes[..d] == scopes;
      while d > 0
        invariant 0 <= d <= |scopes| && Resolve(scopes[..d], name) == Resolve(scopes, name)
      {
        d := d - 1;
        assert scopes[..d + 1][..d] == scopes[..d];
        if name in scopes[d].bindings {
          return Some(scopes[d].bindings[name]);
        }
      }
      return None;
    }

    method RecordCompletionSite(site: Span)
      modifies this`completionSites, this`completionSitesTruncated
      ensures State() == SiteAdded(limits, old(State()), site)
    {
      if completionSitesTruncated {
        return;
      }
      if |completionSites| == limits.sites {
        completionSitesTruncated := true;
        return;
      }
      completionSites := completionSites + [site];
    }

    method Refer(name: string, span: Span)
      requires Inv(State())
      modifies this
      ensures State() == Referred(limits, old(State()), name, span)
    {
      hide Resolve, LastOpen, Inv;
      ResolveIsLastOpen(State(), name);
      RecordCompletionSite(span);
      if truncated {
        return;
      }
      var found := FindBinding(name);
      if found.None? {
        return;
      }
      var reserved := ReserveOccurrence();
      if !reserved {
        return;
      }
      var i := found.value;
      symbols := symbols[i := symbols[i].(references := symbols[i].references + [span])];
      log := log + [Reference(i, span)];
    }

    method Handle(e: Event)
      requires Inv(State()) && InRange(e)
      modifies this
      ensures State() == Step(limits, old(State()), e) && Inv(State())
    {
      StepKeeps(limits, State(), e);
      hide OpenBound, Resolve;
      match e
      case PushScope => PushScope();
      case PopScope(at) => PopScope(at);
      case Define(name, start, end, kind, at) => Define(name, Span(start, end), kind, at);
      case Refer(name, start, end) => Refer(name, Span(start, end));
    }

    /** Closes all scopes at the end of the source and sorts by definition. */
    method Finish(end: nat) returns (result: seq<Symbol>)
      requires Layered(State())
      modifies this`symbols, this`scopes
      ensures result == Finished(old(State()), end)
    {
      ghost var before := State();
      while scopes != []
        invariant |symbols| == |before.symbols| && scopes <= before.scopes
        invariant AllClosed(symbols, scopes, end) == AllClosed(before.symbols, before.scopes, end)
        decreases |scopes|
      {
        var scope := scopes[|scopes| - 1];
        assert scope == before.scopes[|scopes| - 1];
        scopes := scopes[..|scopes| - 1];
        CloseScope(scope, end);
      }
      result := SortedByDefinition(symbols);
    }
  }

  /** Scans all symbols for the visible one with the largest key. */
  method VisibleSymbolIn(symbols: seq<Symbol>, name: string, b: nat) returns (best: Option<Symbol>)
    ensures best == Lookup(symbols, name, b)
  {
    best := None;
    for i := 0 to |symbols|
      invariant best == Lookup(symbols[..i], name, b)
    {
      assert symbols[..i + 1][..i] == symbols[..i];
      var s := symbols[i];
      if Visible(s, name, b) && (best.None? || KeyAtLeast(s, best.value)) {
        best := Some(s);
      }
    }
    assert symbols[..|symbols|] == symbols;
  }

  datatype SymbolReport = SymbolReport(symbols: seq<Symbol>, sites: seq<Span>, truncated: bool, sitesTruncated: bool)

  /** Feeds a run of events to a fresh collector. */
  method CollectEvents(events: seq<Event>, end: nat) returns (r: SymbolReport)
    requires AllInRange(events)
    ensures var c := Collected(Limits(MAX_OCCURRENCES, MAX_SITES), events);
            r == SymbolReport(Finished(c, end), c.sites, c.truncated, c.sitesTruncated)
  {
    hide Step, Inv;
    var limits := Limits(MAX_OCCURRENCES, MAX_SITES);
    var collector := new SymbolCollector(limits);
    FreshInv();
    for k := 0 to |events|
      invariant collector.limits == limits && fresh(collector)
      invariant collector.State() == Collected(limits, events[..k]) && Inv(collector.State())
    {
      assert events[..k + 1][..k] == events[..k];
      collector.Handle(events[k]);
    }
    assert events[..|events|] == events;
    InvLayered(collector.State());
    var symbols := collector.Finish(end);
    r := SymbolReport(symbols, collector.completionSites, collector.truncated, collector.completionSitesTruncated);
  }

  lemma {:induction false} InvLayered(c: Collector)
    requires Inv(c)
    ensures Layered(c)
  {
  }
}
