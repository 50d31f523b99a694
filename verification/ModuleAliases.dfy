/** Calls through `let` aliases of imported modules.

    A name stands for an import if a chain of plain `let` aliases leads to it within the depth limit.
    The bounded loop with its visited set computes exactly that chain, and a hint for an import is
    given only when nothing else is done with any name that stands for it. */
module ModuleAliases {
  import opened Tokens
  import opened LexicalEvents
  import opened Symbols
  import opened AliasNotes

  const MAX_ALIAS_DEPTH: nat := 16

  /** Bindings are known by the start of their definition. */
  datatype Index = Index(
    imports: set<nat>, symbols: seq<Symbol>, byBinding: map<nat, Symbol>,
    targets: map<nat, nat>, byTarget: map<Span, nat>, receivers: set<Span>)

  // ------------------------------------------------------------------ building the index

  function SymbolsByBinding(symbols: seq<Symbol>): (m: map<nat, Symbol>) {
    if symbols == [] then map[]
    else
      var last := symbols[|symbols| - 1];
      SymbolsByBinding(symbols[..|symbols| - 1])[last.definition.start := last]
  }

  /** The binding an alias stands for: the symbol visible where the target is named. */
  function TargetOf(source: string, symbols: seq<Symbol>, a: Alias): (r: Option<nat>) {
    if a.throughField || !(a.target.start <= a.target.end <= |source|) then None
    else
      var found := Lookup(symbols, source[a.target.start..a.target.end], a.target.start);
      if found.None? then None else Some(found.value.definition.start)
  }

  function Targets(source: string, symbols: seq<Symbol>, aliases: seq<Alias>): (m: map<nat, nat>) {
    if aliases == [] then map[]
    else
      var last := aliases[|aliases| - 1];
      var before := Targets(source, symbols, aliases[..|aliases| - 1]);
      var target := TargetOf(source, symbols, last);
      if target.None? then before else before[last.binding.start := target.value]
  }

  function ByTarget(source: string, symbols: seq<Symbol>, aliases: seq<Alias>): (m: map<Span, nat>) {
    if aliases == [] then map[]
    else
      var last := aliases[|aliases| - 1];
      var before := ByTarget(source, symbols, aliases[..|aliases| - 1]);
      if TargetOf(source, symbols, last).None? then before else before[last.target := last.binding.start]
  }

  method BuildTargets(source: string, symbols: seq<Symbol>, aliases: seq<Alias>)
      returns (targets: map<nat, nat>, byTarget: map<Span, nat>)
    ensures targets == Targets(source, symbols, aliases) && byTarget == ByTarget(source, symbols, aliases)
  {
    targets, byTarget := map[], map[];
    for i := 0 to |aliases|
      invariant targets == Targets(source, symbols, aliases[..i]) && byTarget == ByTarget(source, symbols, aliases[..i])
    {
      var a := aliases[i];
      assert aliases[..i + 1][..i] == aliases[..i];
      var target := TargetOf(source, symbols, a);
      if target.Some? {
        targets := targets[a.binding.start := target.value];
        byTarget := byTarget[a.target := a.binding.start];
      }
    }
    assert aliases[..|aliases|] == aliases;
  }

  /** The name at `k` is called through: `name.method(`, and is itself no field. */
  predicate IsReceiver(tokens: seq<Token>, k: nat) {
    && k + 3 < |tokens| && tokens[k].kind.Identifier? && tokens[k + 1].kind == Operator(".")
    && tokens[k + 2].kind.Identifier? && tokens[k + 3].kind == OpenRound
    && !(k > 0 && tokens[k - 1].kind == Operator("."))
  }

  function Receivers(tokens: seq<Token>): (r: set<Span>) {
    set k | 0 <= k < |tokens| && IsReceiver(tokens, k) :: SpanAt(tokens, k)
  }

  /** The index of a source, its tokens and the reports on it. */
  function IndexOf(source: string, tokens: seq<Token>, symbols: seq<Symbol>, imports: seq<Span>,
      aliases: seq<Alias>): (x: Index) {
    Index(set s | s in imports :: s.start, symbols, SymbolsByBinding(symbols), Targets(source, symbols, aliases),
          ByTarget(source, symbols, aliases), Receivers(tokens))
  }

  method BuildIndex(source: string, tokens: seq<Token>, symbols: seq<Symbol>, imports: seq<Span>, aliases: seq<Alias>)
      returns (x: Index)
    ensures x == IndexOf(source, tokens, symbols, imports, aliases)
  {
    hide Targets, ByTarget, SymbolsByBinding, Receivers;
    var targets, byTarget := BuildTargets(source, symbols, aliases);
    x := Index(set s | s in imports :: s.start, symbols, SymbolsByBinding(symbols), targets, byTarget,
      Receivers(tokens));
  }

  /** A symbol is found under the start of its definition if no other one is defined there. */
  lemma {:induction false} BoundByStart(symbols: seq<Symbol>, s: Symbol)
    requires s in symbols && forall t :: t in symbols && t.definition.start == s.definition.start ==> t == s
    ensures s.definition.start in SymbolsByBinding(symbols) && SymbolsByBinding(symbols)[s.definition.start] == s
    decreases |symbols|
  {
    var n := |symbols| - 1;
    assert symbols == symbols[..n] + [symbols[n]];
    if symbols[n] != s {
      BoundByStart(symbols[..n], s);
    }
  }

  /** Where an entry of the alias table comes from. */
  lemma {:induction false} TargetHasAlias(source: string, symbols: seq<Symbol>, aliases: seq<Alias>, b: nat)
      returns (a: Alias)
    requires b in Targets(source, symbols, aliases)
    ensures a in aliases && a.binding.start == b &&
      TargetOf(source, symbols, a) == Some(Targets(source, symbols, aliases)[b])
    decreases |aliases|
  {
    hide TargetOf;
    var n := |aliases| - 1;
    a := aliases[n];
    if !(a.binding.start == b && TargetOf(source, symbols, a).Some?) {
      a := TargetHasAlias(source, symbols, aliases[..n], b);
    }
  }

  /** An alias is found under its target if no other alias has that target. */
  lemma {:induction false} FoundByTarget(source: string, symbols: seq<Symbol>, aliases: seq<Alias>, a: Alias)
    requires a in aliases && TargetOf(source, symbols, a).Some?
    requires forall o :: o in aliases && TargetOf(source, symbols, o).Some? && o.target == a.target ==>
      o.binding.start == a.binding.start
    ensures a.target in ByTarget(source, symbols, aliases) &&
      ByTarget(source, symbols, aliases)[a.target] == a.binding.start
    decreases |aliases|
  {
    hide TargetOf;
    var n := |aliases| - 1;
    assert aliases == aliases[..n] + [aliases[n]];
    if aliases[n] != a {
      FoundByTarget(source, symbols, aliases[..n], a);
    }
  }

  // ------------------------------------------------------------------ chains

  /** The next binding of a chain: only a `let` that is a plain alias leads on. */
  function Next(x: Index, b: nat): (r: Option<nat>) {
    if b in x.byBinding && x.byBinding[b].kind == LetSymbol && b in x.targets then Some(x.targets[b]) else None
  }

  /** The import reached from a binding in at most `n` steps. */
  function Chain(x: Index, b: nat, n: nat): (r: Option<nat>)
    decreases n
  {
    if b in x.imports then Some(b)
    else if n == 0 || Next(x, b).None? then None
    else Chain(x, Next(x, b).value, n - 1)
  }

  /** The binding `k` steps along, while there is one. */
  function Walk(x: Index, b: nat, k: nat): (r: Option<nat>) {
    if k == 0 then Some(b)
    else
      var before := Walk(x, b, k - 1);
      if before.None? then None else Next(x, before.value)
  }

  /** No import among the first `k` bindings of the walk. */
  ghost predicate NoImportBefore(x: Index, b: nat, k: nat) {
    forall i :: 0 <= i < k ==> Walk(x, b, i).Some? && Walk(x, b, i).value !in x.imports
  }

  lemma {:induction false} WalkOn(x: Index, b: nat, i: nat, j: nat)
    requires Walk(x, b, i).Some?
    ensures Walk(x, b, i + j) == Walk(x, Walk(x, b, i).value, j)
    decreases j
  {
    if j > 0 {
      WalkOn(x, b, i, j - 1);
    }
  }

  /** A chain splits at any point of its walk before the first import. */
  lemma {:induction false} ChainFrom(x: Index, b: nat, k: nat, n: nat)
    requires k <= n && NoImportBefore(x, b, k) && Walk(x, b, k).Some?
    ensures Chain(x, b, n) == Chain(x, Walk(x, b, k).value, n - k)
    decreases k
  {
    if k > 0 {
      ChainFrom(x, b, k - 1, n);
      assert Walk(x, b, k - 1).value !in x.imports;
    }
  }

  /** A walk that comes back without having met an import never meets one. */
  lemma {:induction false} CycleHasNoImport(x: Index, b: nat, k: nat, n: nat)
    requires k > 0 && NoImportBefore(x, b, k) && Walk(x, b, k) == Some(b)
    ensures Chain(x, b, n) == None
    decreases n
  {
    if n < k {
      NoImportSoFar(x, b, n, k);
    } else {
      ChainFrom(x, b, k, n);
      CycleHasNoImport(x, b, k, n - k);
    }
  }

  lemma {:induction false} NoImportSoFar(x: Index, b: nat, n: nat, k: nat)
    requires n < k && NoImportBefore(x, b, k)
    ensures Chain(x, b, n) == None
  {
    assert Walk(x, b, n).Some? && Walk(x, b, n).value !in x.imports;
    ChainFrom(x, b, n, n);
  }

  /** The bindings met in the first `k` steps. */
  function Met(x: Index, b: nat, k: nat): (r: set<nat>) {
    if k == 0 then {}
    else Met(x, b, k - 1) + if Walk(x, b, k - 1).Some? then {Walk(x, b, k - 1).value} else {}
  }

  lemma {:induction false} MetBefore(x: Index, b: nat, k: nat, v: nat) returns (i: nat)
    requires v in Met(x, b, k)
    ensures i < k && Walk(x, b, i) == Some(v)
  {
    if v in Met(x, b, k - 1) {
      i := MetBefore(x, b, k - 1, v);
    } else {
      i := k - 1;
    }
  }

  /** The bounded loop. A binding met twice ends it, which loses nothing. */
  method ImportedBinding(x: Index, initial: nat) returns (r: Option<nat>)
    ensures r == Chain(x, initial, MAX_ALIAS_DEPTH)
  {
    hide Chain, Walk;
    var current := initial;
    var visited: set<nat> := {};
    var depth: nat := 0;
    StartOfWalk(x, initial);
    while depth <= MAX_ALIAS_DEPTH
      invariant depth <= MAX_ALIAS_DEPTH && Walk(x, initial, depth) == Some(current)
      invariant NoImportBefore(x, initial, depth) && visited == Met(x, initial, depth)
      decreases MAX_ALIAS_DEPTH - depth
    {
      ChainFrom(x, initial, depth, MAX_ALIAS_DEPTH);
      ChainStep(x, current, MAX_ALIAS_DEPTH - depth);
      if current in visited {
        var i := MetBefore(x, initial, depth, current);
        Revisited(x, initial, current, i, depth);
        return None;
      }
      visited := visited + {current};
      if current in x.imports {
        return Some(current);
      }
      if depth == MAX_ALIAS_DEPTH || !(current in x.byBinding && x.byBinding[current].kind == LetSymbol) ||
        current !in x.targets {
        return None;
      }
      WalkStep(x, initial, depth);
      current := x.targets[current];
      depth := depth + 1;
    }
    assert false;
  }

  lemma {:induction false} StartOfWalk(x: Index, b: nat)
    ensures Walk(x, b, 0) == Some(b)
  {
  }

  lemma {:induction false} WalkStep(x: Index, b: nat, k: nat)
    requires Walk(x, b, k).Some?
    ensures Walk(x, b, k + 1) == Next(x, Walk(x, b, k).value)
  {
  }

  lemma {:induction false} ChainStep(x: Index, b: nat, n: nat)
    ensures b in x.imports ==> Chain(x, b, n) == Some(b)
    ensures b !in x.imports && (n == 0 || Next(x, b).None?) ==> Chain(x, b, n) == None
    ensures b !in x.imports && n > 0 && Next(x, b).Some? ==> Chain(x, b, n) == Chain(x, Next(x, b).value, n - 1)
  {
  }

  lemma {:induction false} Revisited(x: Index, initial: nat, current: nat, i: nat, depth: nat)
    requires depth <= MAX_ALIAS_DEPTH && Walk(x, initial, depth) == Some(current) && NoImportBefore(x, initial, depth)
    requires i < depth && Walk(x, initial, i) == Some(current)
    ensures Chain(x, initial, MAX_ALIAS_DEPTH) == None
  {
    hide Chain, Walk;
    ChainFrom(x, initial, i, MAX_ALIAS_DEPTH);
    WalkOn(x, initial, i, depth - i);
    forall j | 0 <= j < depth - i ensures Walk(x, current, j).Some? && Walk(x, current, j).value !in x.imports {
      WalkOn(x, initial, i, j);
      assert Walk(x, initial, i + j).value !in x.imports;
    }
    CycleHasNoImport(x, current, depth - i, MAX_ALIAS_DEPTH - i);
  }

  // ------------------------------------------------------------------ unbounded chains

  /** The name is `m` alias steps away from the import, the first it meets. */
  ghost predicate Reaches(x: Index, b: nat, m: nat, i: nat) {
    NoImportBefore(x, b, m) && Walk(x, b, m) == Some(i) && i in x.imports
  }

  /** The bounded chain finds exactly the imports at most that many steps away. */
  lemma {:induction false} ChainIsReach(x: Index, b: nat, n: nat, i: nat)
    ensures Chain(x, b, n) == Some(i) <==> exists m :: 0 <= m <= n && Reaches(x, b, m, i)
  {
    hide Chain, Walk;
    if Chain(x, b, n) == Some(i) {
      var m := ChainReaches(x, b, n, i);
    }
    if m :| 0 <= m <= n && Reaches(x, b, m, i) {
      ChainFrom(x, b, m, n);
      ChainStep(x, i, n - m);
    }
  }

  lemma {:induction false} ChainReaches(x: Index, b: nat, n: nat, i: nat) returns (m: nat)
    requires Chain(x, b, n) == Some(i)
    ensures m <= n && Reaches(x, b, m, i)
    decreases n
  {
    hide Chain, Walk;
    StartOfWalk(x, b);
    ChainStep(x, b, n);
    if b in x.imports {
      m := 0;
    } else {
      var next := Next(x, b).value;
      var rest := ChainReaches(x, next, n - 1, i);
      m := rest + 1;
      WalkStep(x, b, 0);
      WalkOn(x, b, 1, rest);
      forall k | 0 <= k < m ensures Walk(x, b, k).Some? && Walk(x, b, k).value !in x.imports {
        if k > 0 {
          WalkOn(x, b, 1, k - 1);
          assert Walk(x, next, k - 1).Some?;
        }
      }
    }
  }

  /** No chain turns back when every alias leads to an earlier binding. */
  ghost predicate Descending(targets: map<nat, nat>) {
    forall b :: b in targets ==> targets[b] < b
  }

  lemma {:induction false} WalkDescends(x: Index, b: nat, k: nat)
    requires Descending(x.targets) && Walk(x, b, k).Some?
    ensures Walk(x, b, k).value + k <= b
    decreases k
  {
    if k > 0 {
      WalkDescends(x, b, k - 1);
    }
  }

  lemma {:induction false} LookupIsMember(symbols: seq<Symbol>, name: string, b: nat)
    requires Lookup(symbols, name, b).Some?
    ensures exists k :: 0 <= k < |symbols| && symbols[k] == Lookup(symbols, name, b).value && symbols[k].from <= b
  {
    var n := |symbols| - 1;
    var found := Lookup(symbols, name, b).value;
    if found == symbols[n] && symbols[n].from <= b {
      assert symbols[n] == found;
    } else {
      LookupIsMember(symbols[..n], name, b);
      var k :| 0 <= k < n && symbols[..n][k] == Lookup(symbols[..n], name, b).value && symbols[..n][k].from <= b;
      assert symbols[k] == found;
    }
  }

  // ------------------------------------------------------------------ groups and hints

  /** All bindings that stand for an import: itself and every alias whose chain reaches it. */
  ghost predicate InGroup(x: Index, i: nat, b: nat) {
    b == i || (b in x.targets && Chain(x, b, MAX_ALIAS_DEPTH) == Some(i))
  }

  function Group(x: Index, i: nat): (g: set<nat>)
    ensures forall b :: b in g <==> InGroup(x, i, b)
  {
    {i} + set b | b in x.targets && Chain(x, b, MAX_ALIAS_DEPTH) == Some(i)
  }

  /** A use that keeps a group stable: another alias of the group, or the receiver of a direct call. */
  predicate HarmlessUse(x: Index, group: set<nat>, use: Span) {
    (use in x.byTarget && x.byTarget[use] in group) || use in x.receivers
  }

  ghost predicate Stable(x: Index, group: set<nat>) {
    forall b :: b in group ==>
      b in x.byBinding && forall k :: 0 <= k < |x.byBinding[b].references| ==>
        HarmlessUse(x, group, x.byBinding[b].references[k])
  }

  method IsStable(x: Index, group: set<nat>) returns (stable: bool)
    ensures stable <==> Stable(x, group)
  {
    var left := group;
    while left != {}
      invariant left <= group
      invariant forall b :: b in group - left ==>
        b in x.byBinding && forall k :: 0 <= k < |x.byBinding[b].references| ==>
          HarmlessUse(x, group, x.byBinding[b].references[k])
      decreases |left|
    {
      var b :| b in left;
      left := left - {b};
      if b !in x.byBinding {
        return false;
      }
      var uses := x.byBinding[b].references;
      for k := 0 to |uses|
        invariant forall j :: 0 <= j < k ==> HarmlessUse(x, group, uses[j])
      {
        if !HarmlessUse(x, group, uses[k]) {
          return false;
        }
      }
    }
    return true;
  }

  /** The import a symbol stands for. */
  function ImportFor(x: Index, s: Symbol): (r: Option<nat>) {
    var b := s.definition.start;
    if s.kind == ImportSymbol then (if b in x.imports then Some(b) else None)
    else if s.kind == LetSymbol && b in x.targets then Chain(x, b, MAX_ALIAS_DEPTH)
    else None
  }

  /** The hint for a call receiver: the import its name stands for there, provided the group is stable. */
  ghost function Hint(x: Index, name: string, at: nat): (r: Option<nat>) {
    var s := Lookup(x.symbols, name, at);
    if s.None? || ImportFor(x, s.value).None? then None
    else
      var i := ImportFor(x, s.value).value;
      if Stable(x, Group(x, i)) then Some(i) else None
  }

  method HintFor(x: Index, name: string, at: nat) returns (r: Option<nat>)
    ensures r == Hint(x, name, at)
  {
    var s := Lookup(x.symbols, name, at);
    if s.None? {
      return None;
    }
    var i := ImportFor(x, s.value);
    if i.None? {
      return None;
    }
    var stable := IsStable(x, Group(x, i.value));
    return if stable then i else None;
  }

  /** The binding stands for the import: it is the import, or an alias that reaches it within the limit. */
  ghost predicate StandsFor(x: Index, b: nat, i: nat) {
    b == i || (b in x.targets && exists m :: 0 <= m <= MAX_ALIAS_DEPTH && Reaches(x, b, m, i))
  }

  /** Every use of every name that stands for the import is an alias that does too, or a direct call. */
  ghost predicate OnlyCalled(x: Index, i: nat) {
    forall b :: StandsFor(x, b, i) ==>
      b in x.byBinding && forall k :: 0 <= k < |x.byBinding[b].references| ==>
        var use := x.byBinding[b].references[k];
        use in x.receivers || (use in x.byTarget && StandsFor(x, x.byTarget[use], i))
  }

  /** The symbol is the import itself, or a `let` that is an alias of it. */
  ghost predicate NamesImport(x: Index, s: Symbol, i: nat) {
    var b := s.definition.start;
    || (s.kind == ImportSymbol && b == i && i in x.imports)
    || (s.kind == LetSymbol && b in x.targets && exists m :: 0 <= m <= MAX_ALIAS_DEPTH && Reaches(x, b, m, i))
  }

  lemma {:induction false} GroupStandsFor(x: Index, i: nat, b: nat)
    ensures b in Group(x, i) <==> StandsFor(x, b, i)
  {
    hide Chain, Reaches;
    ChainIsReach(x, b, MAX_ALIAS_DEPTH, i);
  }

  lemma {:induction false} StableMeans(x: Index, i: nat)
    ensures Stable(x, Group(x, i)) <==> OnlyCalled(x, i)
  {
    hide StandsFor, Group;
    forall b: nat ensures b in Group(x, i) <==> StandsFor(x, b, i) {
      GroupStandsFor(x, i, b);
    }
  }

  /** There is a hint exactly if the visible name is the import or an alias that reaches it within the limit, and every
      use of every name that stands for the import is such an alias or a direct call. */
  lemma {:induction false} HintMeaning(x: Index, name: string, at: nat, i: nat)
    ensures Hint(x, name, at) == Some(i) <==>
      && Lookup(x.symbols, name, at).Some?
      && NamesImport(x, Lookup(x.symbols, name, at).value, i)
      && OnlyCalled(x, i)
  {
    hide Chain, Reaches, OnlyCalled, Stable, Group, Lookup;
    StableMeans(x, i);
    if Lookup(x.symbols, name, at).Some? {
      ChainIsReach(x, Lookup(x.symbols, name, at).value.definition.start, MAX_ALIAS_DEPTH, i);
    }
  }

  /** Every alias edge is a recorded use of its target, known by its span, and not a call. */
  ghost predicate EdgesAreUses(x: Index) {
    forall b :: b in x.targets ==>
      exists use :: use in x.byTarget && x.byTarget[use] == b && use !in x.receivers &&
        x.targets[b] in x.byBinding && use in x.byBinding[x.targets[b]].references
  }

  /** An alias too deep for the limit disables its whole group: no call through any name that stands
      for the import gets a hint. */
  lemma {:induction false} DeepAliasDisables(x: Index, b: nat, m: nat, i: nat)
    requires EdgesAreUses(x) && Reaches(x, b, m, i) && m > MAX_ALIAS_DEPTH
    ensures !Stable(x, Group(x, i))
  {
    hide Chain, Walk, Stable;
    var outer, inner := DeepEdge(x, b, m, i);
    assert inner in Group(x, i) && outer !in Group(x, i);
    var use :| use in x.byTarget && x.byTarget[use] == outer && use !in x.receivers &&
      x.targets[outer] in x.byBinding && use in x.byBinding[x.targets[outer]].references;
    OutsideUse(x, Group(x, i), inner, use);
  }

  lemma {:induction false} OutsideUse(x: Index, group: set<nat>, b: nat, use: Span)
    requires b in group && b in x.byBinding && use in x.byBinding[b].references && !HarmlessUse(x, group, use)
    ensures !Stable(x, group)
  {
    var k :| 0 <= k < |x.byBinding[b].references| && x.byBinding[b].references[k] == use;
    assert !HarmlessUse(x, group, x.byBinding[b].references[k]);
  }

  /** The step of a deep chain that crosses the limit. */
  lemma {:induction false} DeepEdge(x: Index, b: nat, m: nat, i: nat) returns (outer: nat, inner: nat)
    requires Reaches(x, b, m, i) && m > MAX_ALIAS_DEPTH
    ensures outer in x.targets && x.targets[outer] == inner && InGroup(x, i, inner) && !InGroup(x, i, outer)
  {
    hide Chain, Walk;
    var k := m - MAX_ALIAS_DEPTH - 1;
    outer := Walk(x, b, k).value;
    WalkStep(x, b, k);
    inner := Walk(x, b, k + 1).value;
    ReachFrom(x, b, m, i, k);
    ReachFrom(x, b, m, i, k + 1);
    ChainIsReach(x, inner, MAX_ALIAS_DEPTH, i);
    NoImportSoFar(x, outer, MAX_ALIAS_DEPTH, MAX_ALIAS_DEPTH + 1);
    WalkStep(x, b, k + 1);
  }

  lemma {:induction false} ReachFrom(x: Index, b: nat, m: nat, i: nat, k: nat)
    requires Reaches(x, b, m, i) && k <= m && Walk(x, b, k).Some?
    ensures Reaches(x, Walk(x, b, k).value, m - k, i)
  {
    hide Walk;
    WalkOn(x, b, k, m - k);
    var from := Walk(x, b, k).value;
    forall j | 0 <= j < m - k ensures Walk(x, from, j).Some? && Walk(x, from, j).value !in x.imports {
      WalkOn(x, b, k, j);
      assert Walk(x, b, k + j).Some?;
    }
  }
}
