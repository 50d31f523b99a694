/** Accepted sources never need two operators to touch: in the tokens of a derivation tree the
    formatter spaces every pair of neighbouring operators. */
module OperatorSpacing {
  import opened Tokens
  import opened Grammar
  import opened Formatting

  /** An odd number of single bars: lambda parameters are open after these tokens. */
  predicate OddBars(ks: seq<Kind>) {
    ks != [] && (if ks[|ks| - 1] == Operator("|") then !OddBars(ks[..|ks| - 1]) else OddBars(ks[..|ks| - 1]))
  }

  /** `open`: lambda parameters are open between the two. */
  predicate MayMeet(p: Kind, c: Kind, open: bool) {
    p.Operator? && c.Operator? ==>
      && p != Operator(".") && c != Operator(".") && c != Operator(":")
      && (p == Operator("|") || c == Operator("|") ==> !open)
  }

  ghost predicate Tidy(ks: seq<Kind>) {
    forall n :: 0 < n < |ks| ==> MayMeet(ks[n - 1], ks[n], OddBars(ks[..n]))
  }

  lemma {:induction false} OddBarsConcat(a: seq<Kind>, b: seq<Kind>)
    ensures OddBars(a + b) == (OddBars(a) != OddBars(b))
    decreases |b|
  {
    if b == [] {
      assert a + b == a;
    } else {
      assert (a + b)[..|a + b| - 1] == a + b[..|b| - 1];
      OddBarsConcat(a, b[..|b| - 1]);
    }
  }

  lemma {:induction false} TidyConcat(a: seq<Kind>, b: seq<Kind>)
    requires Tidy(a) && Tidy(b) && !OddBars(a)
    requires a != [] && b != [] ==> MayMeet(a[|a| - 1], b[0], false)
    ensures Tidy(a + b)
  {
    hide MayMeet, OddBars;
    var ks := a + b;
    forall n | 0 < n < |ks| ensures MayMeet(ks[n - 1], ks[n], OddBars(ks[..n])) {
      if n < |a| {
        assert ks[..n] == a[..n];
      } else if n == |a| {
        assert ks[..n] == a;
      } else {
        assert ks[..n] == a + b[..n - |a|];
        OddBarsConcat(a, b[..n - |a|]);
      }
    }
  }

  // ------------------------------------------------------------------ rows of children

  /** What may follow the operator `text` in a row. */
  predicate Follows(text: string, x: Root) {
    if x.T? then !x.kind.Operator?
    else x.sym == Path || (text != "." && x.sym != Suffix)
  }

  /** Every operator terminal of a row is followed by a child it may meet; no bars stand in it. */
  ghost predicate RowTidy(r: seq<Root>) {
    && (forall i :: 0 <= i < |r| && r[i].T? && r[i].kind.Operator? ==>
          r[i].kind != Operator("|") && i + 1 < |r| && Follows(r[i].kind.text, r[i + 1]))
    && (forall i :: 0 <= i < |r| ==> r[i] != N(Program))
  }

  /** Only a suffix starts with a dot, and a list of names starts with a name. */
  predicate Begins(sym: Sym, r: seq<Root>) {
    && r != [] && r[0] != N(Suffix)
    && (sym != Suffix ==> r[0] != Op(".") && r[0] != Op(":"))
    && (sym == Path || sym.Names? ==> r[0].T? && !r[0].kind.Operator?)
  }

  predicate HasBars(sym: Sym, r: seq<Root>) {
    sym == Lambda && |r| == 4
  }

  lemma {:induction false} ProductionTidy(sym: Sym, r: seq<Root>)
    requires Production(sym, r) && !HasBars(sym, r)
    ensures RowTidy(r) && (sym != Program ==> Begins(sym, r))
  {
    hide IsReserved;
    match sym {
      case Program => ProgramTidy(r);
      case Path => PathTidy(r);
      case Names(_) => NamesTidy(r);
      case Bindings => NamesTidy(r);
      case Block(_) => BlockTidy(r);
      case ValueBlock => BlockTidy(r);
      case Declaration => StatementTidy(sym, r);
      case FunctionDeclaration => StatementTidy(sym, r);
      case Statement(_) => StatementTidy(sym, r);
      case Import => StatementTidy(sym, r);
      case Conditional => StatementTidy(sym, r);
      case Loop => StatementTidy(sym, r);
      case Binary(_) => OperatorTidy(sym, r);
      case BinaryTail(_) => OperatorTidy(sym, r);
      case Unary => OperatorTidy(sym, r);
      case Postfix => OperatorTidy(sym, r);
      case Suffix => OperatorTidy(sym, r);
      case Primary => OperatorTidy(sym, r);
      case Lambda => OperatorTidy(sym, r);
      case _ => OtherTidy(sym, r);
    }
  }

  lemma {:induction false} ProgramTidy(r: seq<Root>)
    requires ProgramShape(r)
    ensures RowTidy(r)
  {
    forall i | 0 <= i < |r| ensures r[i].N? && r[i] != N(Program) {
      if i >= LeadingEnds(r, 0) && i < |r| - 2 {
        assert IsLine(r[i]);
      }
    }
  }

  lemma {:induction false} BlockTidy(r: seq<Root>)
    requires BlockShape(r)
    ensures RowTidy(r)
  {
    forall i | 0 <= i < |r| ensures !(r[i].T? && r[i].kind.Operator?) && r[i] != N(Program) {
      if LeadingEnds(r, 1) <= i < |r| - 1 {
        assert IsLine(r[i]);
      }
    }
  }

  lemma {:induction false} PathTidy(r: seq<Root>)
    requires NameList(r, Op("."))
    ensures RowTidy(r)
  {
    hide IsReserved;
    forall i | 0 <= i < |r| && r[i].T? && r[i].kind.Operator?
      ensures r[i].kind != Operator("|") && i + 1 < |r| && Follows(r[i].kind.text, r[i + 1])
    {
      assert i % 2 == 1 && r[i] == Op(".");
      assert (i + 1) % 2 == 0 && i + 1 < |r| && IsName(r[i + 1]);
    }
  }

  lemma {:induction false} NamesTidy(r: seq<Root>)
    requires NameList(r, T(Comma))
    ensures RowTidy(r)
  {
    hide IsReserved;
  }

  lemma {:induction false} StatementTidy(sym: Sym, r: seq<Root>)
    requires Production(sym, r)
    requires sym.Declaration? || sym.FunctionDeclaration? || sym.Statement? || sym.Import? || sym.Conditional? ||
      sym.Loop?
    ensures RowTidy(r) && Begins(sym, r)
  {
    hide IsReserved;
  }

  lemma {:induction false} OperatorTidy(sym: Sym, r: seq<Root>)
    requires Production(sym, r) && !HasBars(sym, r)
    requires sym.Binary? || sym.BinaryTail? || sym.Unary? || sym.Postfix? || sym.Suffix? || sym.Primary? || sym.Lambda?
    ensures RowTidy(r) && Begins(sym, r)
  {
    hide IsReserved;
  }

  lemma {:induction false} OtherTidy(sym: Sym, r: seq<Root>)
    requires Production(sym, r)
    requires !sym.Program? && !sym.Path? && !sym.Names? && !sym.Bindings? && !sym.Block? && !sym.ValueBlock?
    requires !sym.Declaration? && !sym.FunctionDeclaration? && !sym.Statement? && !sym.Import? && !sym.Conditional? &&
      !sym.Loop?
    requires !sym.Binary? && !sym.BinaryTail? && !sym.Unary? && !sym.Postfix? && !sym.Suffix? && !sym.Primary? &&
      !sym.Lambda?
    ensures RowTidy(r) && Begins(sym, r)
  {
    hide IsReserved;
  }

  // ------------------------------------------------------------------ trees

  /** What a node's tokens start and end with. */
  predicate Ends(sym: Sym, ks: seq<Kind>) {
    && ks != [] && !ks[|ks| - 1].Operator?
    && (sym != Suffix ==> ks[0] != Operator(".") && ks[0] != Operator(":"))
    && (sym == Path || sym.Names? ==> !ks[0].Operator?)
  }

  /** A node's tokens are tidy and leave no lambda parameters open. */
  ghost predicate NodeTidy(sym: Sym, ks: seq<Kind>) {
    Tidy(ks) && !OddBars(ks) && (sym != Program ==> Ends(sym, ks))
  }

  /** The last token of a row so far, as the next child sees it. */
  predicate LastIs(x: Root, ks: seq<Kind>) {
    ks != [] && (if x.T? then ks[|ks| - 1] == x.kind else !ks[|ks| - 1].Operator?)
  }

  lemma {:induction false} TreeTidy(t: Tree)
    requires t.Node? && Derives(t)
    ensures NodeTidy(t.sym, Yield(t))
    decreases t, 1
  {
    hide Production, NodeTidy, RowTidy, AllDerive;
    var r := Roots(t.kids);
    if HasBars(t.sym, r) {
      LambdaTidy(t);
    } else {
      ProductionTidy(t.sym, r);
      if t.kids == [] {
        EmptyTidy();
      } else {
        RowsTidy(t.kids, |t.kids|);
        assert t.kids[..|t.kids|] == t.kids;
        FirstTidy(t);
        RowEnds(t);
      }
    }
  }

  lemma {:induction false} EmptyTidy()
    ensures NodeTidy(Program, []) && Tidy([]) && !OddBars([])
  {
  }

  /** The tokens of the first children of a tidy row. */
  lemma {:induction false} RowsTidy(kids: seq<Tree>, n: nat)
    requires n <= |kids| && AllDerive(kids) && RowTidy(Roots(kids))
    ensures Tidy(YieldAll(kids[..n])) && !OddBars(YieldAll(kids[..n]))
    ensures n > 0 ==> LastIs(RootOf(kids[n - 1]), YieldAll(kids[..n]))
    decreases kids, n
  {
    hide Tidy, OddBars, RowTidy, Derives, Yield, MayMeet, NodeTidy, AllDerive;
    if n == 0 {
      EmptyTidy();
      assert YieldAll(kids[..0]) == [];
    } else {
      RowsTidy(kids, n - 1);
      var t := kids[n - 1];
      KidDerives(kids, n - 1);
      if t.Node? {
        TreeTidy(t);
      }
      ChildTidy(kids, n);
      var a, b := YieldAll(kids[..n - 1]), Yield(t);
      assert kids[..n] == kids[..n - 1] + [t];
      YieldAppend(kids[..n - 1], t);
      TidyConcat(a, b);
      OddBarsConcat(a, b);
    }
  }

  lemma {:induction false} KidDerives(kids: seq<Tree>, i: nat)
    requires i < |kids| && AllDerive(kids)
    ensures Derives(kids[i])
  {
  }

  /** A child is tidy and may meet what is in front of it. */
  lemma {:induction false} ChildTidy(kids: seq<Tree>, n: nat)
    requires 0 < n <= |kids| && RowTidy(Roots(kids))
    requires kids[n - 1].Node? ==> NodeTidy(kids[n - 1].sym, Yield(kids[n - 1]))
    requires n > 1 ==> LastIs(RootOf(kids[n - 2]), YieldAll(kids[..n - 1]))
    ensures var a, b := YieldAll(kids[..n - 1]), Yield(kids[n - 1]);
            && Tidy(b) && !OddBars(b) && LastIs(RootOf(kids[n - 1]), b)
            && (a != [] && b != [] ==> MayMeet(a[|a| - 1], b[0], false))
  {
    hide YieldAll, Tidy, OddBars;
    var r := Roots(kids);
    var t := kids[n - 1];
    assert r[n - 1] == RootOf(t);
    if t.Leaf? {
      LeafTidy(t.kind);
    }
    if n > 1 {
      assert r[n - 2] == RootOf(kids[n - 2]);
    } else {
      assert kids[..0] == [];
      assert YieldAll([]) == [] by { NoYield(); }
    }
  }

  lemma {:induction false} NoYield()
    ensures YieldAll([]) == []
  {
  }

  lemma {:induction false} LeafTidy(k: Kind)
    ensures Tidy([k]) && OddBars([k]) == (k == Operator("|"))
  {
    assert [k][..0] == [];
  }

  lemma {:induction false} FirstTidy(t: Tree)
    requires t.Node? && Derives(t) && (t.sym != Program ==> Begins(t.sym, Roots(t.kids)))
    requires t.kids != [] && RowTidy(Roots(t.kids))
    ensures t.sym != Program ==>
              var ks := Yield(t);
              && ks != [] && (t.sym != Suffix ==> ks[0] != Operator(".") && ks[0] != Operator(":"))
              && (t.sym == Path || t.sym.Names? ==> !ks[0].Operator?)
    decreases t, 0
  {
    hide Tidy, OddBars, Production, YieldAll;
    var first := t.kids[0];
    assert Roots(t.kids)[0] == RootOf(first) && Derives(first);
    if first.Node? {
      TreeTidy(first);
    }
    assert t.kids == [first] + t.kids[1..];
    YieldConcat([first], t.kids[1..]);
    assert YieldAll([first]) == Yield(first) by { OneYield(first); }
    assert Yield(t) == YieldAll(t.kids);
  }

  lemma {:induction false} OneYield(t: Tree)
    ensures YieldAll([t]) == Yield(t)
  {
    YieldAppend([], t);
    assert [] + [t] == [t];
  }

  lemma {:induction false} RowEnds(t: Tree)
    requires t.Node? && t.kids != [] && RowTidy(Roots(t.kids)) && Tidy(Yield(t)) && !OddBars(Yield(t))
    requires LastIs(RootOf(t.kids[|t.kids| - 1]), Yield(t))
    requires t.sym != Program ==>
              var ks := Yield(t);
              && ks != [] && (t.sym != Suffix ==> ks[0] != Operator(".") && ks[0] != Operator(":"))
              && (t.sym == Path || t.sym.Names? ==> !ks[0].Operator?)
    ensures NodeTidy(t.sym, Yield(t))
  {
    hide Tidy, OddBars, Yield;
    var n := |t.kids|;
    assert Roots(t.kids)[n - 1] == RootOf(t.kids[n - 1]);
  }

  /** The bars of a lambda close before its body. */
  lemma {:induction false} LambdaTidy(t: Tree)
    requires t.Node? && Derives(t) && HasBars(t.sym, Roots(t.kids))
    ensures NodeTidy(t.sym, Yield(t))
    decreases t, 0
  {
    hide Tidy, OddBars, Production, YieldAll, NodeTidy, RowTidy, AllDerive;
    LambdaRow(t);
    var names, body := t.kids[1], t.kids[3];
    TreeTidy(body);
    NamesOnly(names);
    var ns := Yield(names);
    var head := [Operator("|")] + ns + [Operator("|")];
    HeadTidy(ns);
    LambdaYield(t);
    LambdaJoin(head, body.sym, Yield(body));
  }

  lemma {:induction false} LambdaRow(t: Tree)
    requires t.Node? && Derives(t) && HasBars(t.sym, Roots(t.kids))
    ensures |t.kids| == 4 && t.kids[0] == Leaf(Operator("|")) && t.kids[2] == Leaf(Operator("|"))
    ensures t.kids[1].Node? && t.kids[1].sym.Names? && Derives(t.kids[1])
    ensures t.kids[3].Node? && Derives(t.kids[3]) && (t.kids[3].sym.Block? || t.kids[3].sym.Expression?)
  {
    var r := Roots(t.kids);
    assert LambdaShape(r);
    assert r[0] == RootOf(t.kids[0]) && r[1] == RootOf(t.kids[1]) && r[2] == RootOf(t.kids[2]) &&
      r[3] == RootOf(t.kids[3]);
  }

  lemma {:induction false} LambdaYield(t: Tree)
    requires t.Node? && |t.kids| == 4 && t.kids[0] == Leaf(Operator("|")) && t.kids[2] == Leaf(Operator("|"))
    ensures Yield(t) == [Operator("|")] + Yield(t.kids[1]) + [Operator("|")] + Yield(t.kids[3])
  {
    var k := t.kids;
    assert k == ([k[0]] + [k[1]] + [k[2]]) + [k[3]];
    YieldAppend([k[0]] + [k[1]] + [k[2]], k[3]);
    YieldAppend([k[0]] + [k[1]], k[2]);
    YieldAppend([k[0]], k[1]);
    OneYield(k[0]);
  }

  predicate NoOperators(ks: seq<Kind>) {
    forall i :: 0 <= i < |ks| ==> !ks[i].Operator?
  }

  lemma {:induction false} NamesOnly(t: Tree)
    requires t.Node? && t.sym.Names? && Derives(t)
    ensures NoOperators(Yield(t)) && Yield(t) != []
  {
    hide IsReserved;
    var r := Roots(t.kids);
    assert NameList(r, T(Comma));
    forall i | 0 <= i < |t.kids| ensures t.kids[i].Leaf? && !t.kids[i].kind.Operator? {
      assert r[i] == RootOf(t.kids[i]);
    }
    LeavesOnly(t.kids);
  }

  lemma {:induction false} LeavesOnly(ts: seq<Tree>)
    requires forall i :: 0 <= i < |ts| ==> ts[i].Leaf? && !ts[i].kind.Operator?
    ensures NoOperators(YieldAll(ts)) && |YieldAll(ts)| == |ts|
  {
    if ts != [] {
      LeavesOnly(ts[..|ts| - 1]);
    }
  }

  lemma {:induction false} NoBars(ks: seq<Kind>)
    requires NoOperators(ks)
    ensures !OddBars(ks)
  {
    if ks != [] {
      NoBars(ks[..|ks| - 1]);
    }
  }

  lemma {:induction false} HeadTidy(ns: seq<Kind>)
    requires NoOperators(ns) && ns != []
    ensures var head := [Operator("|")] + ns + [Operator("|")]; Tidy(head) && !OddBars(head)
  {
    var bar := [Operator("|")];
    LeafTidy(Operator("|"));
    NoBars(ns);
    OddBarsConcat(bar, ns);
    OddBarsConcat(bar + ns, bar);
    var head := bar + ns + bar;
    hide OddBars;
    forall n | 0 < n < |head| ensures MayMeet(head[n - 1], head[n], OddBars(head[..n])) {
      assert n == 1 ==> head[n] == ns[0];
      assert n > 1 ==> head[n - 1] == ns[n - 2];
    }
  }

  lemma {:induction false} LambdaJoin(head: seq<Kind>, sym: Sym, body: seq<Kind>)
    requires Tidy(head) && !OddBars(head) && head != [] && head[0] == Operator("|") && head[|head| - 1] == Operator("|")
    requires NodeTidy(sym, body) && (sym.Block? || sym.Expression?)
    ensures NodeTidy(Lambda, head + body)
  {
    TidyConcat(head, body);
    OddBarsConcat(head, body);
    hide Tidy, OddBars;
  }

  // ------------------------------------------------------------------ the formatter's condition

  lemma {:induction false} OpenIsOdd(ks: seq<Kind>, n: nat)
    requires n <= |ks|
    ensures LambdaOpen(ks, n) == OddBars(ks[..n])
    decreases n
  {
    if n > 0 {
      OpenIsOdd(ks, n - 1);
      assert ks[..n][..n - 1] == ks[..n - 1];
    }
  }

  /** In an accepted source the formatter keeps all neighbouring operators apart. */
  lemma {:induction false} AcceptedOperatorsApart(t: Tree)
    requires t.Node? && Derives(t)
    ensures OperatorsApart(Yield(t))
  {
    hide Derives, Yield, OddBars, LambdaOpen;
    TreeTidy(t);
    var ks := Yield(t);
    forall n | 0 < n < |ks| && ks[n - 1].Operator? && ks[n].Operator? ensures Spaced(ks, n) {
      OpenIsOdd(ks, n);
      OpenIsOdd(ks, n - 1);
      BarFlips(ks, n);
      assert MayMeet(ks[n - 1], ks[n], OddBars(ks[..n]));
    }
  }

  lemma {:induction false} BarFlips(ks: seq<Kind>, n: nat)
    requires 0 < n <= |ks|
    ensures ks[n - 1] == Operator("|") ==> OddBars(ks[..n]) == !OddBars(ks[..n - 1])
  {
    assert ks[..n][..n - 1] == ks[..n - 1];
  }
}
