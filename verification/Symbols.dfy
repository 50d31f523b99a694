/** The lexical index: what the symbol collector records for a run of parser events, and how a
    lookup by position uses it. */
module Symbols {
  import opened Tokens
  import opened LexicalEvents

  /** `until` is `OPEN` while the symbol is still visible. */
  datatype Symbol = Symbol(kind: SymbolKind, name: string, definition: Span, references: seq<Span>, from: nat,
      until: nat)

  datatype Scope = Scope(bindings: map<string, nat>, defined: seq<nat>)

  /** A definition, or a reference resolved to the symbol with the given index. */
  datatype Occurrence = Definition(name: string, span: Span) | Reference(symbol: nat, span: Span)

  /** The collector's fields; `log` lists the recorded occurrences in time order. */
  datatype Collector = Collector(
    symbols: seq<Symbol>, scopes: seq<Scope>, sites: seq<Span>, occurrences: nat, truncated: bool, sitesTruncated: bool,
    log: seq<Occurrence>)

  /** The largest 64-bit machine word marks an interval without an end. */
  const OPEN: nat := 0xFFFF_FFFF_FFFF_FFFF

  const NO_BINDINGS := Scope(map[], [])

  datatype Limits = Limits(occurrences: nat, sites: nat)

  function Fresh(): (c: Collector) {
    Collector([], [NO_BINDINGS], [], 0, false, false, [])
  }

  // ------------------------------------------------------------------ one event

  function Closed(symbols: seq<Symbol>, indices: seq<nat>, at: nat): (r: seq<Symbol>)
    ensures |r| == |symbols|
    ensures forall i :: 0 <= i < |symbols| ==>
              r[i] == if i in indices && symbols[i].until == OPEN then symbols[i].(until := at) else symbols[i]
  {
    seq(|symbols|, i requires 0 <= i < |symbols| =>
      if i in indices && symbols[i].until == OPEN then symbols[i].(until := at) else symbols[i])
  }

  /** Closing one symbol more. */
  lemma {:induction false} ClosedStep(symbols: seq<Symbol>, indices: seq<nat>, i: nat, at: nat)
    requires i < |symbols|
    ensures var c := Closed(symbols, indices, at);
            Closed(symbols, indices + [i], at) == if c[i].until == OPEN then c[i := c[i].(until := at)] else c
  {
    var c, r := Closed(symbols, indices, at), Closed(symbols, indices + [i], at);
    forall j | 0 <= j < |symbols| ensures r[j] == if j == i && c[i].until == OPEN then c[i].(until := at) else c[j] {
      assert j in indices + [i] <==> j in indices || j == i;
    }
  }

  function Top(c: Collector): (s: Scope)
    requires c.scopes != []
  {
    c.scopes[|c.scopes| - 1]
  }

  function Popped(c: Collector, at: nat): (r: Collector)
    requires c.scopes != []
  {
    if |c.scopes| > 1 then c.(scopes := c.scopes[..|c.scopes| - 1], symbols := Closed(c.symbols, Top(c).defined, at))
      else c
  }

  /** Room for one more occurrence; running out sets the flag for good. */
  predicate HasRoom(limits: Limits, c: Collector) {
    !c.truncated && c.occurrences != limits.occurrences
  }

  function Full(limits: Limits, c: Collector): (r: Collector) {
    if c.truncated then c else c.(truncated := true)
  }

  function Defined(limits: Limits, c: Collector, name: string, span: Span, kind: SymbolKind, at: nat): (r: Collector)
    requires c.scopes != []
  {
    if !HasRoom(limits, c) then Full(limits, c)
    else
      var n := |c.symbols|;
      var top := Top(c);
      var added := c.symbols + [Symbol(kind, name, span, [], at, OPEN)];
      var shadowed := if name in top.bindings &&
        top.bindings[name] < n then added[top.bindings[name] := added[top.bindings[name]].(until := at)] else added;
      c.(symbols := shadowed,
         scopes := c.scopes[..|c.scopes| - 1] + [Scope(top.bindings[name := n], top.defined + [n])],
         occurrences := c.occurrences + 1,
         log := c.log + [Definition(name, span)])
  }

  /** The binding of a name in the innermost scope that has one. */
  function Resolve(scopes: seq<Scope>, name: string): (r: Option<nat>) {
    if scopes == [] then None
    else
      var top := scopes[|scopes| - 1];
      if name in top.bindings then Some(top.bindings[name]) else Resolve(scopes[..|scopes| - 1], name)
  }

  function SiteAdded(limits: Limits, c: Collector, site: Span): (r: Collector) {
    if c.sitesTruncated then c
    else if |c.sites| == limits.sites then c.(sitesTruncated := true)
    else c.(sites := c.sites + [site])
  }

  function Referred(limits: Limits, c: Collector, name: string, span: Span): (r: Collector) {
    var s := SiteAdded(limits, c, span);
    var found := Resolve(s.scopes, name);
    if s.truncated || found.None? || found.value >= |s.symbols| then s
    else if !HasRoom(limits, s) then Full(limits, s)
    else
      var i := found.value;
      s.(symbols := s.symbols[i := s.symbols[i].(references := s.symbols[i].references + [span])],
         occurrences := s.occurrences + 1,
         log := s.log + [Reference(i, span)])
  }

  function Step(limits: Limits, c: Collector, e: Event): (r: Collector)
    requires c.scopes != []
    ensures r.scopes != []
  {
    match e
    case PushScope => c.(scopes := c.scopes + [NO_BINDINGS])
    case PopScope(at) => Popped(c, at)
    case Define(name, start, end, kind, at) => Defined(limits, c, name, Span(start, end), kind, at)
    case Refer(name, start, end) => Referred(limits, c, name, Span(start, end))
  }

  /** The collector after a run of events. */
  function Collected(limits: Limits, events: seq<Event>): (c: Collector)
    ensures c.scopes != []
  {
    if events == [] then Fresh() else Step(limits, Collected(limits, events[..|events| - 1]), events[|events| - 1])
  }

  // ------------------------------------------------------------------ finishing and looking up

  /** All scopes closed at the end of the source, innermost first. */
  function AllClosed(symbols: seq<Symbol>, scopes: seq<Scope>, end: nat): (r: seq<Symbol>)
    ensures |r| == |symbols|
    decreases |scopes|
  {
    if scopes == [] then symbols
    else AllClosed(Closed(symbols, scopes[|scopes| - 1].defined, end), scopes[..|scopes| - 1], end)
  }

  function Place(sorted: seq<Symbol>, s: Symbol): (r: seq<Symbol>) {
    if sorted == [] || sorted[|sorted| - 1].definition.start <= s.definition.start then sorted + [s]
    else Place(sorted[..|sorted| - 1], s) + [sorted[|sorted| - 1]]
  }

  /** A stable sort by the start of the definition. */
  function SortedByDefinition(symbols: seq<Symbol>): (r: seq<Symbol>) {
    if symbols == [] then [] else Place(SortedByDefinition(symbols[..|symbols| - 1]), symbols[|symbols| - 1])
  }

  function Finished(c: Collector, end: nat): (r: seq<Symbol>) {
    SortedByDefinition(AllClosed(c.symbols, c.scopes, end))
  }

  predicate Visible(s: Symbol, name: string, b: nat) {
    s.name == name && s.from <= b < s.until
  }

  /** `s` is not before `t` in the order (visibility start, definition start). */
  predicate KeyAtLeast(s: Symbol, t: Symbol) {
    s.from > t.from || (s.from == t.from && s.definition.start >= t.definition.start)
  }

  /** The visible symbol with the largest key, the last one among equals. */
  function Lookup(symbols: seq<Symbol>, name: string, b: nat): (r: Option<Symbol>) {
    if symbols == [] then None
    else
      var best := Lookup(symbols[..|symbols| - 1], name, b);
      var last := symbols[|symbols| - 1];
      if Visible(last, name, b) && (best.None? || KeyAtLeast(last, best.value)) then Some(last) else best
  }

  // ------------------------------------------------------------------ invariant

  /** Bindings point at open symbols of their name, listed in their scope. */
  ghost predicate BindingsOpen(c: Collector) {
    forall d, name :: 0 <= d < |c.scopes| && name in c.scopes[d].bindings ==>
      var i := c.scopes[d].bindings[name];
      i < |c.symbols| && c.symbols[i].name == name && c.symbols[i].until == OPEN && i in c.scopes[d].defined
  }

  ghost predicate BoundIn(c: Collector, i: nat, d: nat)
    requires i < |c.symbols| && d < |c.scopes|
  {
    c.symbols[i].name in c.scopes[d].bindings && c.scopes[d].bindings[c.symbols[i].name] == i
  }

  /** Every open symbol is a binding. */
  ghost predicate OpenBound(c: Collector) {
    forall i :: 0 <= i < |c.symbols| && c.symbols[i].until == OPEN ==>
      exists d :: 0 <= d < |c.scopes| && BoundIn(c, i, d)
  }

  /** Inner scopes hold later symbols. */
  ghost predicate Layered(c: Collector) {
    && (forall d, i :: 0 <= d < |c.scopes| && i in c.scopes[d].defined ==> i < |c.symbols|)
    && (forall d, e, i, j :: 0 <= d < e < |c.scopes| && i in c.scopes[d].defined && j in c.scopes[e].defined ==> i < j)
  }

  ghost predicate Inv(c: Collector) {
    c.scopes != [] && BindingsOpen(c) && OpenBound(c) && Layered(c)
  }

  lemma {:induction false} OpenHasScope(c: Collector, i: nat) returns (d: nat)
    requires OpenBound(c) && i < |c.symbols| && c.symbols[i].until == OPEN
    ensures d < |c.scopes| && BoundIn(c, i, d)
  {
    d :| 0 <= d < |c.scopes| && BoundIn(c, i, d);
  }

  /** The same names open and the same bindings, possibly under more scopes. */
  ghost predicate SameView(c: Collector, r: Collector) {
    && |r.symbols| == |c.symbols| && |c.scopes| <= |r.scopes|
    && (forall i :: 0 <= i < |c.symbols| ==>
      r.symbols[i].name == c.symbols[i].name && r.symbols[i].until == c.symbols[i].until)
    && (forall d :: 0 <= d < |c.scopes| ==> r.scopes[d] == c.scopes[d])
    && (forall d :: |c.scopes| <= d < |r.scopes| ==> r.scopes[d] == NO_BINDINGS)
  }

  lemma {:induction false} SameViewKeeps(c: Collector, r: Collector)
    requires Inv(c) && SameView(c, r)
    ensures Inv(r)
  {
    assert BindingsOpen(r) && Layered(r);
    hide BindingsOpen, Layered;
    forall i | 0 <= i < |r.symbols| && r.symbols[i].until == OPEN
      ensures exists d :: 0 <= d < |r.scopes| && BoundIn(r, i, d) {
      hide OpenBound;
      var d := OpenHasScope(c, i);
      assert BoundIn(r, i, d);
    }
  }

  lemma {:induction false} PopKeeps(c: Collector, at: nat)
    requires Inv(c) && at < OPEN
    ensures Inv(Popped(c, at))
  {
    if |c.scopes| > 1 {
      var r := Popped(c, at);
      var n := |c.scopes| - 1;
      forall d, name | 0 <= d < n && name in r.scopes[d].bindings
        ensures var i := r.scopes[d].bindings[name];
                i < |r.symbols| && r.symbols[i].name == name && r.symbols[i].until == OPEN && i in r.scopes[d].defined
      {
        assert r.scopes[d] == c.scopes[d];
        var i := c.scopes[d].bindings[name];
        assert i !in Top(c).defined;
      }
      forall i | 0 <= i < |r.symbols| && r.symbols[i].until == OPEN ensures exists d :: 0 <= d < n && BoundIn(r, i, d) {
        var d :| 0 <= d < |c.scopes| && BoundIn(c, i, d);
        assert d != n;
        assert BoundIn(r, i, d);
      }
    }
  }

  lemma {:induction false} DefineKeeps(limits: Limits, c: Collector, name: string, span: Span, kind: SymbolKind,
      at: nat)
    requires Inv(c) && at < OPEN && HasRoom(limits, c)
    ensures Inv(Defined(limits, c, name, span, kind, at))
  {
    hide BindingsOpen, Layered, OpenBound, Defined;
    DefineBindings(limits, c, name, span, kind, at);
    DefineLayers(limits, c, name, span, kind, at);
    DefineOpen(limits, c, name, span, kind, at);
  }

  lemma {:induction false} DefineOpen(limits: Limits, c: Collector, name: string, span: Span, kind: SymbolKind, at: nat)
    requires c.scopes != [] && BindingsOpen(c) && OpenBound(c) && at < OPEN && HasRoom(limits, c)
    ensures OpenBound(Defined(limits, c, name, span, kind, at)) && Defined(limits, c, name, span, kind, at).scopes != []
  {
    hide Defined, BindingsOpen;
    var r := Defined(limits, c, name, span, kind, at);
    forall i | 0 <= i < |r.symbols| && r.symbols[i].until == OPEN
      ensures exists d :: 0 <= d < |r.scopes| && BoundIn(r, i, d) {
      hide OpenBound;
      var d := StillBound(limits, c, name, span, kind, at, i);
    }
    assert r.scopes != [] by { DefinedScopes(limits, c, name, span, kind, at); }
  }

  lemma {:induction false} DefinedScopes(limits: Limits, c: Collector, name: string, span: Span, kind: SymbolKind,
      at: nat)
    requires c.scopes != []
    ensures |Defined(limits, c, name, span, kind, at).scopes| == |c.scopes|
  {
  }

  lemma {:induction false} StillBound(limits: Limits, c: Collector, name: string, span: Span, kind: SymbolKind,
      at: nat, i: nat) returns (d: nat)
    requires c.scopes != [] && BindingsOpen(c) && OpenBound(c) && at < OPEN && HasRoom(limits, c)
    requires var r := Defined(limits, c, name, span, kind, at); i < |r.symbols| && r.symbols[i].until == OPEN
    ensures var r := Defined(limits, c, name, span, kind, at); d < |r.scopes| && BoundIn(r, i, d)
  {
    hide OpenBound;
    var r := Defined(limits, c, name, span, kind, at);
    var n, k := |c.symbols|, |c.scopes| - 1;
    if i == n {
      d := k;
      if name in Top(c).bindings {
        assert name in c.scopes[k].bindings && c.scopes[k].bindings[name] < n;
      }
    } else {
      d := OpenHasScope(c, i);
    }
  }

  lemma {:induction false} DefineBindings(limits: Limits, c: Collector, name: string, span: Span, kind: SymbolKind,
      at: nat)
    requires c.scopes != [] && BindingsOpen(c) && Layered(c) && at < OPEN && HasRoom(limits, c)
    ensures BindingsOpen(Defined(limits, c, name, span, kind, at))
  {
    var r := Defined(limits, c, name, span, kind, at);
    var k := |c.scopes| - 1;
    forall d, x | 0 <= d < |r.scopes| && x in r.scopes[d].bindings
      ensures var i := r.scopes[d].bindings[x];
              i < |r.symbols| && r.symbols[i].name == x && r.symbols[i].until == OPEN && i in r.scopes[d].defined
    {
      if d < k {
        var i := c.scopes[d].bindings[x];
        assert r.scopes[d] == c.scopes[d] && i in c.scopes[d].defined;
        if name in Top(c).bindings {
          var old_ := Top(c).bindings[name];
          assert name in c.scopes[k].bindings && old_ in c.scopes[k].defined;
        }
      } else if x != name {
        assert x in c.scopes[k].bindings;
      }
    }
  }

  lemma {:induction false} DefineLayers(limits: Limits, c: Collector, name: string, span: Span, kind: SymbolKind,
      at: nat)
    requires c.scopes != [] && Layered(c) && HasRoom(limits, c)
    ensures Layered(Defined(limits, c, name, span, kind, at))
  {
    var r := Defined(limits, c, name, span, kind, at);
    var n, k := |c.symbols|, |c.scopes| - 1;
    forall d, i | 0 <= d < |r.scopes| && i in r.scopes[d].defined ensures i < |r.symbols| {
      if d < k {
        assert i in c.scopes[d].defined;
      } else if i != n {
        assert i in c.scopes[k].defined;
      }
    }
    forall d, e, i, j | 0 <= d < e < |r.scopes| && i in r.scopes[d].defined && j in r.scopes[e].defined ensures i < j {
      assert r.scopes[d] == c.scopes[d];
      if e == k && j == n {
      } else {
        assert j in c.scopes[e].defined;
      }
    }
  }

  /** Positions of closing and defining events lie below the open mark. */
  predicate InRange(e: Event) {
    (e.PopScope? || e.Define?) ==> e.at < OPEN
  }

  lemma {:induction false} StepKeeps(limits: Limits, c: Collector, e: Event)
    requires Inv(c) && InRange(e)
    ensures Inv(Step(limits, c, e))
  {
    assert c.scopes != [];
    hide Inv;
    match e
    case PushScope => SameViewKeeps(c, Step(limits, c, e));
    case PopScope(at) => PopKeeps(c, at);
    case Define(name, start, end, kind, at) =>
      if HasRoom(limits, c) {
        DefineKeeps(limits, c, name, Span(start, end), kind, at);
      } else {
        SameViewKeeps(c, Step(limits, c, e));
      }
    case Refer(name, start, end) =>
      ReferView(limits, c, name, Span(start, end));
      SameViewKeeps(c, Step(limits, c, e));
  }

  lemma {:induction false} ReferView(limits: Limits, c: Collector, name: string, span: Span)
    ensures SameView(c, Referred(limits, c, name, span))
  {
    hide Resolve;
  }

  predicate AllInRange(events: seq<Event>) {
    forall k :: 0 <= k < |events| ==> InRange(events[k])
  }

  lemma {:induction false} RunKeeps(limits: Limits, events: seq<Event>)
    requires AllInRange(events)
    ensures Inv(Collected(limits, events))
  {
    hide Inv, Step;
    if events == [] {
      FreshInv();
    } else {
      RunKeeps(limits, events[..|events| - 1]);
      StepKeeps(limits, Collected(limits, events[..|events| - 1]), events[|events| - 1]);
    }
  }

  lemma {:induction false} FreshInv()
    ensures Inv(Fresh())
  {
  }

  // ------------------------------------------------------------------ the scope stack and the open symbols

  /** The last open symbol of a name. */
  function LastOpen(symbols: seq<Symbol>, name: string): (r: Option<nat>)
    ensures r.Some? ==> r.value < |symbols| && symbols[r.value].name == name && symbols[r.value].until == OPEN
    ensures r.Some? ==> forall i :: r.value < i < |symbols| ==> !(symbols[i].name == name && symbols[i].until == OPEN)
    ensures r.None? ==> forall i :: 0 <= i < |symbols| ==> !(symbols[i].name == name && symbols[i].until == OPEN)
  {
    if symbols == [] then None
    else
      var n := |symbols| - 1;
      if symbols[n].name == name && symbols[n].until == OPEN then Some(n) else LastOpen(symbols[..n], name)
  }

  /** The innermost scope that binds a name. */
  lemma {:induction false} ResolveFinds(scopes: seq<Scope>, name: string) returns (d: nat)
    requires Resolve(scopes, name).Some?
    ensures d < |scopes| && name in scopes[d].bindings && scopes[d].bindings[name] == Resolve(scopes, name).value
    ensures forall e :: d < e < |scopes| ==> name !in scopes[e].bindings
  {
    var n := |scopes| - 1;
    if name in scopes[n].bindings {
      d := n;
    } else {
      d := ResolveFinds(scopes[..n], name);
      assert scopes[..n][d] == scopes[d];
    }
  }

  lemma {:induction false} ResolveMisses(scopes: seq<Scope>, name: string, d: nat)
    requires Resolve(scopes, name).None? && d < |scopes|
    ensures name !in scopes[d].bindings
  {
    if d < |scopes| - 1 {
      ResolveMisses(scopes[..|scopes| - 1], name, d);
    }
  }

  /** What the scope stack resolves is the last open symbol of that name. */
  lemma {:induction false} ResolveIsLastOpen(c: Collector, name: string)
    requires Inv(c)
    ensures Resolve(c.scopes, name) == LastOpen(c.symbols, name)
  {
    hide Resolve, LastOpen, OpenBound;
    var open := LastOpen(c.symbols, name);
    if Resolve(c.scopes, name).Some? {
      var d := ResolveFinds(c.scopes, name);
      var i := c.scopes[d].bindings[name];
      assert i in c.scopes[d].defined && c.symbols[i].until == OPEN;
      var j := open.value;
      var e := OpenHasScope(c, j);
      assert c.scopes[e].bindings[name] == j && j in c.scopes[e].defined;
      assert e <= d;
      assert e < d ==> j < i;
    } else if open.Some? {
      var e := OpenHasScope(c, open.value);
      ResolveMisses(c.scopes, name, e);
    }
  }
}
