/** What the three-counter scan finds in the record literals of a derivation.

    The scan takes a comma outside all brackets for the end of a member. In an expression only the parameters of
    a lambda and the bindings of a loop have such commas, so a record is found unless one of its values has one. */
module RecordNodes {
  import opened Tokens
  import opened Grammar
  import opened RecordShapes
  import opened OneDerivation

  /** The tokens from `at` on are those of the tree. */
  predicate Stands(ks: seq<Kind>, at: nat, t: Tree) {
    at + |Yield(t)| <= |ks| && ks[at..at + |Yield(t)|] == Yield(t)
  }

  // ------------------------------------------------------------------ brackets of a row

  /** A child that is no bracket itself. */
  predicate Quiet(x: Root) {
    x.T? ==> !IsOpen(x.kind) && !IsClose(x.kind) && x.kind != End
  }

  predicate QuietRow(r: seq<Root>, lo: nat, hi: nat) {
    forall i :: lo <= i < hi && i < |r| ==> Quiet(r[i])
  }

  /** Children between a bracket and its closer. */
  predicate BracketRow(r: seq<Root>) {
    |r| >= 2 && r[0].T? && IsOpen(r[0].kind) && r[|r| - 1] == T(CloserOf(r[0].kind)) && QuietRow(r, 1, |r| - 1)
  }

  predicate HasBrackets(sym: Sym) {
    sym == ParameterList || sym.Block? || sym == ValueBlock || sym == Call || sym == Array || sym == Record
  }

  lemma {:induction false} RowBrackets(sym: Sym, r: seq<Root>)
    requires Production(sym, r)
    ensures HasBrackets(sym) ==> BracketRow(r)
    ensures BracketRow(r) || QuietRow(r, 0, |r|)
  {
    hide Production, BracketRow, QuietRow;
    if HasBrackets(sym) {
      BracketSyms(sym, r);
    } else if sym == Suffix || sym == Primary {
      PostfixSyms(sym, r);
    } else if sym.Binary? || sym.BinaryTail? || sym == Unary || sym == Postfix || sym == Exprs || sym == Members ||
              sym == Member || sym == MemberSeparator || sym == Newlines || sym == Lambda {
      OperatorSyms(sym, r);
    } else {
      StatementSyms(sym, r);
    }
  }

  lemma {:induction false} BracketSyms(sym: Sym, r: seq<Root>)
    requires Production(sym, r) && HasBrackets(sym)
    ensures BracketRow(r)
  {
  }

  lemma {:induction false} PostfixSyms(sym: Sym, r: seq<Root>)
    requires Production(sym, r) && (sym == Suffix || sym == Primary)
    ensures BracketRow(r) || QuietRow(r, 0, |r|)
  {
    hide IsReserved;
  }

  lemma {:induction false} OperatorSyms(sym: Sym, r: seq<Root>)
    requires Production(sym, r)
    requires sym.Binary? || sym.BinaryTail? || sym == Unary || sym == Postfix || sym == Exprs || sym == Members ||
      sym == Member || sym == MemberSeparator || sym == Newlines || sym == Lambda
    ensures QuietRow(r, 0, |r|)
  {
    hide IsReserved;
  }

  lemma {:induction false} StatementSyms(sym: Sym, r: seq<Root>)
    requires Production(sym, r) && !HasBrackets(sym) && sym != Suffix && sym != Primary
    requires !sym.Binary? && !sym.BinaryTail? && sym != Unary && sym != Postfix && sym != Exprs && sym != Members &&
      sym != Member && sym != MemberSeparator && sym != Newlines && sym != Lambda
    ensures QuietRow(r, 0, |r|)
  {
    hide Production, QuietRow;
    if IsControlSym(sym) {
      ControlSyms(sym, r);
    } else if sym == Program || sym == Ends || sym == Path || sym.Names? || sym == Bindings {
      ListSyms(sym, r);
    } else {
      LineSyms(sym, r);
    }
  }

  lemma {:induction false} ControlSyms(sym: Sym, r: seq<Root>)
    requires Production(sym, r) && IsControlSym(sym) && sym != Lambda
    ensures QuietRow(r, 0, |r|)
  {
    hide IsReserved;
  }

  lemma {:induction false} ListSyms(sym: Sym, r: seq<Root>)
    requires Production(sym, r) && (sym == Program || sym == Ends || sym == Path || sym.Names? || sym == Bindings)
    ensures QuietRow(r, 0, |r|)
  {
    hide IsReserved;
  }

  lemma {:induction false} LineSyms(sym: Sym, r: seq<Root>)
    requires Production(sym, r)
    requires sym.Line? || sym.Statement? || sym == Import || sym == Declaration || sym == FunctionDeclaration
    ensures QuietRow(r, 0, |r|)
  {
    hide IsReserved;
  }

  // ------------------------------------------------------------------ inside brackets

  /** The counters of the scan. */
  datatype Depths = Depths(round: nat, square: nat, curly: nat)

  const FLAT := Depths(0, 0, 0)

  function Scanned(ks: seq<Kind>, at: nat, d: Depths): (r: Scan) {
    ScanValue(ks, at, d.round, d.square, d.curly)
  }

  function Up(d: Depths, k: Kind): (r: Depths) {
    if k == OpenRound then d.(round := d.round + 1) else if k == OpenSquare then d.(square := d.square + 1)
    else d.(curly := d.curly + 1)
  }

  lemma {:induction false} ScanOpens(ks: seq<Kind>, at: nat, d: Depths)
    requires at < |ks| && IsOpen(ks[at])
    ensures Scanned(ks, at, d) == Scanned(ks, at + 1, Up(d, ks[at])) && Up(d, ks[at]) != FLAT
  {
    hide ScanValue;
    ScanUnfolds(ks, at, d.round, d.square, d.curly);
  }

  lemma {:induction false} ScanCloses(ks: seq<Kind>, at: nat, d: Depths, k: Kind)
    requires at < |ks| && IsOpen(k) && ks[at] == CloserOf(k)
    ensures Scanned(ks, at, Up(d, k)) == Scanned(ks, at + 1, d)
  {
    hide ScanValue;
    var u := Up(d, k);
    ScanUnfolds(ks, at, u.round, u.square, u.curly);
  }

  lemma {:induction false} ScanPasses(ks: seq<Kind>, at: nat, d: Depths)
    requires at < |ks| && !IsOpen(ks[at]) && !IsClose(ks[at]) && ks[at] != End
    requires d != FLAT || (ks[at] != Comma && ks[at] != Newline)
    ensures Scanned(ks, at, d) == Scanned(ks, at + 1, d)
  {
    hide ScanValue;
    ScanUnfolds(ks, at, d.round, d.square, d.curly);
  }

  lemma {:induction false} KidStands(ks: seq<Kind>, at: nat, t: Tree, i: nat)
    requires t.Node? && Derives(t) && Stands(ks, at, t) && i < |t.kids|
    ensures Stands(ks, From(at, t, i), t.kids[i]) && From(at, t, i) + |Yield(t.kids[i])| == From(at, t, i + 1)
    ensures From(at, t, i + 1) <= at + |Yield(t)| && Derives(t.kids[i]) && Roots(t.kids)[i] == RootOf(t.kids[i])
    ensures t.kids[i].Leaf? ==>
              From(at, t, i) < |ks| && ks[From(at, t, i)] == t.kids[i].kind && From(at, t, i + 1) == From(at, t, i) + 1
  {
    hide Yield, From, Production;
    KidDerives(t, i);
    KidYield(ks, at, t, i);
    NextFrom(at, t, i);
    if t.kids[i].Leaf? {
      assert Yield(t.kids[i]) == [t.kids[i].kind] by { LeafYield(t.kids[i]); }
      var p := From(at, t, i);
      assert ks[p..p + 1][0] == ks[p];
    }
  }

  lemma {:induction false} LeafYield(t: Tree)
    requires t.Leaf?
    ensures Yield(t) == [t.kind]
  {
  }

  /** Inside brackets the scan passes a whole tree. */
  lemma {:induction false} ScanDeep(ks: seq<Kind>, at: nat, t: Tree, d: Depths)
    requires t.Node? && Derives(t) && Stands(ks, at, t) && d != FLAT
    ensures Scanned(ks, at, d) == Scanned(ks, at + |Yield(t)|, d)
    decreases t, 2, 0
  {
    hide Production, Yield, From, Scanned, Up, BracketRow, QuietRow;
    var r, n := Roots(t.kids), |t.kids|;
    assert Production(t.sym, r);
    RowBrackets(t.sym, r);
    hide Derives;
    WholeTree(at, t);
    if BracketRow(r) {
      ScanBracket(ks, at, t, d);
    } else {
      ScanKids(ks, at, t, 0, n, d);
    }
  }

  lemma {:induction false} WholeTree(at: nat, t: Tree)
    requires t.Node?
    ensures From(at, t, 0) == at && From(at, t, |t.kids|) == at + |Yield(t)|
  {
    assert t.kids[..0] == [] && t.kids[..|t.kids|] == t.kids;
    NothingYields();
  }

  /** A row in brackets is passed at any depth. */
  lemma {:induction false} ScanBracket(ks: seq<Kind>, at: nat, t: Tree, d: Depths)
    requires t.Node? && Derives(t) && Stands(ks, at, t) && BracketRow(Roots(t.kids))
    ensures Scanned(ks, at, d) == Scanned(ks, at + |Yield(t)|, d)
    decreases t, 1, 0
  {
    hide Production, Yield, From, Scanned, Up, Derives, Stands;
    var r, n := Roots(t.kids), |t.kids|;
    var k := r[0].kind;
    WholeTree(at, t);
    KidStands(ks, at, t, 0);
    KidStands(ks, at, t, n - 1);
    ScanOpens(ks, at, d);
    ScanKids(ks, at, t, 1, n - 1, Up(d, k));
    ScanCloses(ks, From(at, t, n - 1), d, k);
  }

  lemma {:induction false} ScanKids(ks: seq<Kind>, at: nat, t: Tree, lo: nat, hi: nat, d: Depths)
    requires t.Node? && Derives(t) && Stands(ks, at, t) && d != FLAT
    requires lo <= hi <= |t.kids| && QuietRow(Roots(t.kids), lo, hi)
    ensures Scanned(ks, From(at, t, lo), d) == Scanned(ks, From(at, t, hi), d)
    decreases t, 0, hi
  {
    hide Production, Yield, From, Scanned, Derives, Stands;
    if lo < hi {
      var i := hi - 1;
      ScanKids(ks, at, t, lo, i, d);
      KidStands(ks, at, t, i);
      assert Quiet(Roots(t.kids)[i]);
      if t.kids[i].Leaf? {
        ScanPasses(ks, From(at, t, i), d);
      } else {
        ScanDeep(ks, From(at, t, i), t.kids[i], d);
      }
    }
  }

  // ------------------------------------------------------------------ outside brackets

  /** Parts of an expression outside further brackets, and brackets themselves. */
  predicate Inline(sym: Sym) {
    sym.Expression? || sym == Conditional || sym == ElifPart || sym == ElsePart || sym == TryExpression ||
      sym == Loop ||
    sym.Binary? || sym.BinaryTail? || sym == Unary || sym == Postfix || sym == Suffix || sym == Primary ||
      sym == Lambda ||
    sym == Call || sym == Array || sym == Record || sym.Block? || sym == ValueBlock
  }

  /** The list of names in a lambda or a `for`. */
  predicate IsNameList(sym: Sym, i: nat, x: Root) {
    i == 1 && ((sym == Lambda && x == N(Names(true))) || (sym == Loop && x == N(Bindings)))
  }

  predicate InlineChild(sym: Sym, i: nat, x: Root) {
    if x.T? then Quiet(x) && x.kind != Comma && x.kind != Newline else Inline(x.sym) || IsNameList(sym, i, x)
  }

  lemma {:induction false} InlineRow(sym: Sym, r: seq<Root>, i: nat)
    requires Production(sym, r) && Inline(sym) && !BracketRow(r) && i < |r|
    ensures InlineChild(sym, i, r[i])
    ensures IsNameList(sym, i, r[i]) ==> 2 < |r| && r[2].T? && r[2].kind != Operator(":")
  {
    hide Production, BracketRow, InlineChild;
    if HasBrackets(sym) {
      BracketSyms(sym, r);
      assert false;
    } else if sym.Binary? || sym.BinaryTail? || sym == Unary || sym == Postfix || sym == Suffix || sym == Primary {
      OperatorChild(sym, r, i);
    } else {
      ControlChild(sym, r, i);
    }
  }

  lemma {:induction false} OperatorChild(sym: Sym, r: seq<Root>, i: nat)
    requires Production(sym, r) && !BracketRow(r) && i < |r|
    requires sym.Binary? || sym.BinaryTail? || sym == Unary || sym == Postfix || sym == Suffix || sym == Primary
    ensures InlineChild(sym, i, r[i])
  {
    hide IsReserved;
  }

  lemma {:induction false} ControlChild(sym: Sym, r: seq<Root>, i: nat)
    requires Production(sym, r) && i < |r| && IsControlSym(sym)
    ensures InlineChild(sym, i, r[i])
    ensures IsNameList(sym, i, r[i]) ==> 2 < |r| && r[2].T? && r[2].kind != Operator(":")
  {
    hide Production, InlineChild;
    if sym == Loop || sym == Lambda {
      NamingChild(sym, r, i);
    } else {
      ArmChild(sym, r, i);
    }
  }

  lemma {:induction false} NamingChild(sym: Sym, r: seq<Root>, i: nat)
    requires Production(sym, r) && i < |r| && (sym == Loop || sym == Lambda)
    ensures InlineChild(sym, i, r[i])
    ensures IsNameList(sym, i, r[i]) ==> 2 < |r| && r[2].T? && r[2].kind != Operator(":")
  {
  }

  lemma {:induction false} ArmChild(sym: Sym, r: seq<Root>, i: nat)
    requires Production(sym, r) && i < |r| && IsControlSym(sym) && sym != Loop && sym != Lambda
    ensures InlineChild(sym, i, r[i])
  {
  }

  /** The lambda or loop of these children names several things. */
  predicate SeveralNames(sym: Sym, kids: seq<Tree>) {
    |kids| > 1 && kids[1].Node? && IsNameList(sym, 1, RootOf(kids[1])) && |kids[1].kids| > 1
  }

  /** Outside all brackets there is a lambda with several parameters or a loop with several bindings. */
  predicate BareComma(t: Tree) {
    t.Node? && !BracketRow(Roots(t.kids)) &&
    (SeveralNames(t.sym, t.kids) || exists i :: 0 <= i < |t.kids| && BareComma(t.kids[i]))
  }

  /** The scan stops in front of a name that starts no member. */
  predicate Strays(ks: seq<Kind>, r: Scan) {
    r.Item? && r.next + 1 < |ks| && IsNameKind(ks[r.next]) && ks[r.next + 1] != Operator(":")
  }

  lemma {:induction false} FirstNames(r: seq<Root>)
    requires NameList(r, T(Comma))
    ensures |r| > 0 && IsName(r[0])
    ensures |r| > 1 ==> |r| > 2 && r[1] == T(Comma) && IsName(r[2]) && (|r| > 3 ==> r[3] == T(Comma))
  {
    hide IsName;
  }

  /** Behind a comma outside all brackets the scan stops. */
  lemma {:induction false} CommaStrays(ks: seq<Kind>, at: nat)
    requires at + 3 < |ks| && ks[at + 1] == Comma && IsNameKind(ks[at + 2]) && ks[at + 3] != Operator(":")
    requires Scanned(ks, at, FLAT) == Scanned(ks, at + 1, FLAT)
    ensures Strays(ks, Scanned(ks, at, FLAT))
  {
    hide ScanValue, IsReserved;
    ScanUnfolds(ks, at + 1, 0, 0, 0);
  }

  /** A list of names: one is passed, and the scan stops behind the first comma. */
  lemma {:induction false} ScanNames(ks: seq<Kind>, at: nat, t: Tree)
    requires t.Node? && Derives(t) && Stands(ks, at, t) && (t.sym == Names(true) || t.sym == Bindings)
    requires at + |Yield(t)| < |ks| && ks[at + |Yield(t)|] != Operator(":")
    ensures |t.kids| == 1 ==> Scanned(ks, at, FLAT) == Scanned(ks, at + |Yield(t)|, FLAT)
    ensures |t.kids| > 1 ==> Strays(ks, Scanned(ks, at, FLAT))
    ensures |t.kids| > 0
  {
    hide Yield, From, ScanValue, IsReserved, Stands, Scanned, Strays, NameList, Roots;
    FirstNames(Roots(t.kids));
    hide Derives, Production;
    WholeTree(at, t);
    KidStands(ks, at, t, 0);
    ScanPasses(ks, at, FLAT);
    if |t.kids| > 1 {
      KidStands(ks, at, t, 1);
      KidStands(ks, at, t, 2);
      if |t.kids| > 3 {
        KidStands(ks, at, t, 3);
      }
      CommaStrays(ks, at);
    }
  }

  /** Child `i` has a bare comma, or is a list of several names. */
  predicate BareAt(t: Tree, i: nat)
    requires t.Node? && i < |t.kids|
  {
    BareComma(t.kids[i]) || (i == 1 && SeveralNames(t.sym, t.kids))
  }

  /** Outside brackets the scan passes a part of an expression, or stops inside it. */
  lemma {:induction false} ScanFlat(ks: seq<Kind>, at: nat, t: Tree)
    requires t.Node? && Derives(t) && Stands(ks, at, t) && Inline(t.sym) && at + |Yield(t)| < |ks|
    ensures !BareComma(t) ==> Scanned(ks, at, FLAT) == Scanned(ks, at + |Yield(t)|, FLAT)
    ensures BareComma(t) ==> Strays(ks, Scanned(ks, at, FLAT))
    decreases t, 2
  {
    hide Production, Yield, From, Scanned, BracketRow, Strays, Derives, Stands;
    WholeTree(at, t);
    if BracketRow(Roots(t.kids)) {
      ScanBracket(ks, at, t, FLAT);
    } else {
      ScanFlatKids(ks, at, t, 0);
      if BareComma(t) {
        BareSomewhere(t);
      }
    }
  }

  lemma {:induction false} BareSomewhere(t: Tree)
    requires BareComma(t)
    ensures exists i :: 0 <= i < |t.kids| && BareAt(t, i)
  {
    if SeveralNames(t.sym, t.kids) {
      assert BareAt(t, 1);
    } else {
      var i :| 0 <= i < |t.kids| && BareComma(t.kids[i]);
      assert BareAt(t, i);
    }
  }

  /** The children from `i` on. */
  lemma {:induction false} ScanFlatKids(ks: seq<Kind>, at: nat, t: Tree, i: nat)
    requires t.Node? && Derives(t) && Stands(ks, at, t) && Inline(t.sym) && !BracketRow(Roots(t.kids))
    requires i <= |t.kids| && at + |Yield(t)| < |ks|
    ensures (forall j :: i <= j < |t.kids| ==> !BareAt(t, j)) ==>
              Scanned(ks, From(at, t, i), FLAT) == Scanned(ks, at + |Yield(t)|, FLAT)
    ensures (exists j :: i <= j < |t.kids| && BareAt(t, j)) ==> Strays(ks, Scanned(ks, From(at, t, i), FLAT))
    decreases t, 1, |t.kids| - i
  {
    hide Production, Yield, From, Scanned, BracketRow, Strays, Derives, Stands, BareAt;
    WholeTree(at, t);
    if i < |t.kids| {
      ScanFlatKids(ks, at, t, i + 1);
      ScanFlatKid(ks, at, t, i);
      assert (exists j :: i <= j < |t.kids| && BareAt(t, j)) <==>
        BareAt(t, i) || exists j :: i + 1 <= j < |t.kids| && BareAt(t, j);
    }
  }

  lemma {:induction false} ScanFlatKid(ks: seq<Kind>, at: nat, t: Tree, i: nat)
    requires t.Node? && Derives(t) && Stands(ks, at, t) && Inline(t.sym) && !BracketRow(Roots(t.kids))
    requires i < |t.kids| && at + |Yield(t)| < |ks|
    ensures !BareAt(t, i) ==> Scanned(ks, From(at, t, i), FLAT) == Scanned(ks, From(at, t, i + 1), FLAT)
    ensures BareAt(t, i) ==> Strays(ks, Scanned(ks, From(at, t, i), FLAT))
    decreases t, 0
  {
    hide Production, Yield, From, Scanned, BracketRow, Strays, Stands, Inline;
    var r, kid, p := Roots(t.kids), t.kids[i], From(at, t, i);
    assert Production(t.sym, r);
    InlineRow(t.sym, r, i);
    hide Derives;
    KidStands(ks, at, t, i);
    if kid.Leaf? {
      ScanPasses(ks, p, FLAT);
    } else if IsNameList(t.sym, i, r[i]) {
      KidStands(ks, at, t, 2);
      ScanNames(ks, p, kid);
      NamesAreFlat(kid);
    } else {
      ScanFlat(ks, p, kid);
    }
  }

  lemma {:induction false} NamesAreFlat(t: Tree)
    requires t.Node? && Derives(t) && (t.sym == Names(true) || t.sym == Bindings)
    ensures !BareComma(t)
  {
    hide IsReserved, BracketRow;
    var r := Roots(t.kids);
    forall i | 0 <= i < |t.kids| ensures !BareComma(t.kids[i]) {
      assert r[i] == RootOf(t.kids[i]);
    }
  }

  // ------------------------------------------------------------------ members

  lemma {:induction false} LinesSkipped(ks: seq<Kind>, at: nat, n: nat)
    requires at + n < |ks| && ks[at + n] != Newline && forall i :: at <= i < at + n ==> ks[i] == Newline
    ensures SkipLines(ks, at) == at + n
    decreases n
  {
    if n > 0 {
      LinesSkipped(ks, at + 1, n - 1);
    }
  }

  /** The same members are read from behind newlines. */
  lemma {:induction false} FromBehindLines(ks: seq<Kind>, at: nat, j: nat, depth: nat, p: Partial)
    requires SkipLines(ks, at) == j && at <= j < |ks| && ks[j] != Newline
    ensures RecordShapes.Members(ks, at, depth, p) == RecordShapes.Members(ks, j, depth, p)
    ensures Starts(ks, at) == Starts(ks, j)
  {
    hide RecordAt, ScanValue, StartsMember;
    assert SkipLines(ks, j) == j;
  }

  /** The value of a member. */
  function ValueOf(member: Tree): (value: Tree)
    requires member.Node? && |member.kids| == 3
  {
    member.kids[2]
  }

  /** A member: its name, its colon and a value. */
  lemma {:induction false} MemberTokens(ks: seq<Kind>, at: nat, t: Tree)
    requires t.Node? && t.sym == Member && Derives(t) && Stands(ks, at, t) && at + |Yield(t)| < |ks|
    ensures |t.kids| == 3 && StartsMember(ks, at) && ks[at] != Newline && ks[at] != CloseCurly
    ensures var v := ValueOf(t);
            && v.Node? && v.sym.Expression? && Derives(v) && Stands(ks, at + 2, v) &&
              at + 2 + |Yield(v)| == at + |Yield(t)|
  {
    hide Yield, From, IsReserved, ExpressionList;
    var r := Roots(t.kids);
    assert |r| == 3 && IsName(r[0]) && r[1] == Op(":") && IsExpression(r[2]);
    hide Derives;
    WholeTree(at, t);
    KidStands(ks, at, t, 0);
    KidStands(ks, at, t, 1);
    KidStands(ks, at, t, 2);
    ValueStarts(ks, at + 2, t.kids[2]);
  }

  lemma {:induction false} ValueStarts(ks: seq<Kind>, at: nat, t: Tree)
    requires t.Node? && t.sym.Expression? && Derives(t) && Stands(ks, at, t)
    ensures at < |ks| && !EndsValue(ks[at]) && Yield(t) != []
  {
    hide Derives, Yield, StartsValue, IsLoopWord;
    TreeFirst(t);
    assert ks[at..at + |Yield(t)|][0] == ks[at];
    ExpressionRoot(N(t.sym), ks[at]);
  }

  /** A source ends with a token that is no brace, so a record has a token behind it. */
  lemma {:induction false} AddedToRecord(ks: seq<Kind>, j: nat, depth: nat, p: Partial)
    requires ks != [] && ks[|ks| - 1] == End && StartsMember(ks, j)
    ensures var child := if !HasName(p.fields, ks[j].name) && depth > 0 then RecordAt(ks, j + 2, depth - 1) else None;
            Added(ks, j, child, p).Some?
  {
    hide RecordAt, IsReserved, HasName;
    if depth > 0 && RecordAt(ks, j + 2, depth - 1).Some? {
      RecordFacts(ks, j + 2, depth - 1);
    }
  }

  /** What a member with this value adds, and where reading goes on. */
  lemma {:induction false} MemberRead(ks: seq<Kind>, at: nat, t: Tree, depth: nat, p: Partial)
    requires ks != [] && ks[|ks| - 1] == End
    requires t.Node? && t.sym == Member && Derives(t) && Stands(ks, at, t) && at + |Yield(t)| < |ks|
    ensures |t.kids| == 3 && at < |ks|
    ensures BareComma(ValueOf(t)) ==> RecordShapes.Members(ks, at, depth, p).None?
    ensures !BareComma(ValueOf(t)) ==>
              var scan := Scanned(ks, at + |Yield(t)|, FLAT);
              var step := MemberAt(ks, at, depth, p);
              && SkipLines(ks, at) == at && StartsMember(ks, at) && ScanValue(ks, at + 2, 0, 0, 0) == scan
              && (scan.Closed? ==> step.Done? && step.closing == scan.at)
              && (scan.Item? ==> step.More? && step.next == scan.next)
  {
    hide Yield, RecordAt, ScanValue, IsReserved, Derives, StartsMember, Added, BareComma;
    MemberTokens(ks, at, t);
    hide Stands;
    var v := ValueOf(t);
    ScanFlat(ks, at + 2, v);
    AddedToRecord(ks, at, depth, p);
    if BareComma(v) {
      StrayEnds(ks, at, depth, p);
    }
  }

  lemma {:induction false} StrayEnds(ks: seq<Kind>, at: nat, depth: nat, p: Partial)
    requires at < |ks| && ks[at] != Newline && Strays(ks, ScanValue(ks, at + 2, 0, 0, 0))
    ensures ks[at] != CloseCurly ==> RecordShapes.Members(ks, at, depth, p).None?
  {
    hide RecordAt, ScanValue, IsReserved, Added;
    assert SkipLines(ks, at) == at;
    var step := MemberAt(ks, at, depth, p);
    if step.More? {
      NoMember(ks, step.next, depth, step.p);
      assert RecordShapes.Members(ks, at, depth, p) == RecordShapes.Members(ks, step.next, depth, step.p);
    }
  }

  lemma {:induction false} NoMember(ks: seq<Kind>, at: nat, depth: nat, p: Partial)
    requires at + 1 < |ks| && IsNameKind(ks[at]) && ks[at + 1] != Operator(":")
    ensures RecordShapes.Members(ks, at, depth, p).None?
  {
    hide RecordAt, ScanValue, IsReserved, Added;
    assert SkipLines(ks, at) == at;
  }

  /** A separator: a comma or a newline, and newlines behind it. */
  lemma {:induction false} SeparatorTokens(ks: seq<Kind>, at: nat, t: Tree)
    requires t.Node? && t.sym == MemberSeparator && Derives(t) && Stands(ks, at, t)
    ensures Yield(t) != [] && at < |ks| && (ks[at] == Comma || ks[at] == Newline)
    ensures forall i :: at < i < at + |Yield(t)| ==> ks[i] == Newline
  {
    hide Yield, From;
    var r := Roots(t.kids);
    assert r == [T(Comma)] || r == [T(Comma), N(Newlines)] || r == [N(Newlines)];
    hide Derives;
    WholeTree(at, t);
    KidStands(ks, at, t, 0);
    if t.kids[0].Leaf? {
      if |t.kids| == 2 {
        KidStands(ks, at, t, 1);
        NewlineTokens(ks, at + 1, t.kids[1]);
      }
    } else {
      NewlineTokens(ks, at, t.kids[0]);
    }
  }

  lemma {:induction false} NewlineTokens(ks: seq<Kind>, at: nat, t: Tree)
    requires t.Node? && t.sym == Newlines && Derives(t) && Stands(ks, at, t)
    ensures Yield(t) != [] && forall i :: at <= i < at + |Yield(t)| ==> ks[i] == Newline
  {
    hide Yield, Derives;
    TreeFirst(t);
    NewlinesOnly(t);
    forall i | at <= i < at + |Yield(t)| ensures ks[i] == Newline {
      assert ks[at..at + |Yield(t)|][i - at] == ks[i];
    }
  }

  /** A member whose value has a bare comma. */
  predicate BareMember(t: Tree) {
    t.Node? && |t.kids| == 3 && BareComma(t.kids[2])
  }

  /** Where the members from child `i` on start. */
  function Places(at: nat, t: Tree, i: nat): (r: seq<nat>)
    requires t.Node?
    decreases |t.kids| - i
  {
    if i >= |t.kids| then [] else [From(at, t, i)] + Places(at, t, i + 2)
  }

  /** Newlines from `at` on, and then the closing brace. */
  predicate ClosesAt(ks: seq<Kind>, at: nat, close: nat) {
    at <= close < |ks| && ks[close] == CloseCurly && forall i :: at <= i < close ==> ks[i] == Newline
  }

  /** Reading the members from child `i` on. */
  ghost predicate ReadFrom(ks: seq<Kind>, at: nat, t: Tree, i: nat, close: nat, depth: nat, p: Partial)
    requires t.Node? && i < |t.kids|
  {
    var r := RecordShapes.Members(ks, From(at, t, i), depth, p);
    && (r.Some? <==> forall j :: i <= j < |t.kids| ==> !BareMember(t.kids[j]))
    && (r.Some? ==> r.value.closing == close && Starts(ks, From(at, t, i)) == Places(at, t, i))
  }

  lemma {:induction false} MemberRow(ks: seq<Kind>, at: nat, t: Tree, i: nat)
    requires t.Node? && t.sym == Grammar.Members && Derives(t) && Stands(ks, at, t) && i < |t.kids|
    ensures RootOf(t.kids[i]) == N(if i % 2 == 0 then Member else MemberSeparator) && |t.kids| % 2 == 1
    ensures i % 2 == 1 ==> !BareMember(t.kids[i])
  {
    hide Yield, IsReserved;
    var r := Roots(t.kids);
    assert MemberList(r) && r[i] == RootOf(t.kids[i]);
    if i % 2 == 1 {
      SeparatorIsShort(t, i);
    }
  }

  lemma {:induction false} SeparatorIsShort(t: Tree, i: nat)
    requires t.Node? && Derives(t) && i < |t.kids| && RootOf(t.kids[i]) == N(MemberSeparator)
    ensures |t.kids[i].kids| <= 2
  {
    KidDerives(t, i);
  }

  /** One member read. */
  lemma {:induction false} OneMember(ks: seq<Kind>, at: nat, depth: nat, p: Partial)
    requires at < |ks| && SkipLines(ks, at) == at && StartsMember(ks, at)
    ensures var step, scan := MemberAt(ks, at, depth, p), ScanValue(ks, at + 2, 0, 0, 0);
            var r := RecordShapes.Members(ks, at, depth, p);
            && (step.Done? && scan.Closed? ==> r.Some? && r.value.closing == step.closing && Starts(ks, at) == [at])
            && (step.More? && scan.Item? && scan.next == step.next ==>
                  r == RecordShapes.Members(ks, step.next, depth, step.p) &&
                    Starts(ks, at) == [at] + Starts(ks, step.next))
  {
    hide RecordAt, ScanValue, IsReserved, Added;
  }

  /** The last member. */
  lemma {:induction false} LastMember(ks: seq<Kind>, at: nat, t: Tree, i: nat, close: nat, depth: nat, p: Partial)
    requires ks != [] && ks[|ks| - 1] == End
    requires t.Node? && t.sym == Grammar.Members && Derives(t) && Stands(ks, at, t) && i == |t.kids| - 1
    requires ClosesAt(ks, at + |Yield(t)|, close)
    ensures ReadFrom(ks, at, t, i, close, depth, p)
  {
    hide Yield, From, Derives, Stands, BareComma, RecordAt, ScanValue, MemberAt, StartsMember, RecordShapes.Members,
      Starts,
      SkipLines, Places;
    MemberRow(ks, at, t, i);
    KidStands(ks, at, t, i);
    WholeTree(at, t);
    var q, e := From(at, t, i), at + |Yield(t)|;
    MemberRead(ks, q, t.kids[i], depth, p);
    LastPlace(at, t, i);
    if !BareMember(t.kids[i]) {
      EndOfMembers(ks, q, e, close, depth, p);
    }
  }

  lemma {:induction false} LastPlace(at: nat, t: Tree, i: nat)
    requires t.Node? && i == |t.kids| - 1
    ensures Places(at, t, i) == [From(at, t, i)]
  {
  }

  /** Behind the last member, which starts at `q`. */
  lemma {:induction false} EndOfMembers(ks: seq<Kind>, q: nat, e: nat, close: nat, depth: nat, p: Partial)
    requires q < |ks| && SkipLines(ks, q) == q && StartsMember(ks, q) && ClosesAt(ks, e, close)
    requires ScanValue(ks, q + 2, 0, 0, 0) == Scanned(ks, e, FLAT)
    requires var scan, step := Scanned(ks, e, FLAT), MemberAt(ks, q, depth, p);
             && (scan.Closed? ==> step.Done? && step.closing == scan.at)
             && (scan.Item? ==> step.More? && step.next == scan.next)
    ensures var r := RecordShapes.Members(ks, q, depth, p);
            r.Some? && r.value.closing == close && Starts(ks, q) == [q]
  {
    hide RecordAt, ScanValue, MemberAt, StartsMember, RecordShapes.Members, Starts;
    ScanUnfolds(ks, e, 0, 0, 0);
    OneMember(ks, q, depth, p);
    if ks[e] == Newline {
      LinesSkipped(ks, e + 1, close - e - 1);
      ClosesHere(ks, e + 1, close, depth, MemberAt(ks, q, depth, p).p);
      assert [q] + [] == [q];
    }
  }

  lemma {:induction false} ClosesHere(ks: seq<Kind>, at: nat, close: nat, depth: nat, p: Partial)
    requires SkipLines(ks, at) == close < |ks| && ks[close] == CloseCurly
    ensures var r := RecordShapes.Members(ks, at, depth, p); r.Some? && r.value.closing == close && Starts(ks, at) == []
  {
  }

  lemma {:induction false} AllMembers(ks: seq<Kind>, at: nat, t: Tree, i: nat, close: nat, depth: nat, p: Partial)
    requires ks != [] && ks[|ks| - 1] == End
    requires t.Node? && t.sym == Grammar.Members && Derives(t) && Stands(ks, at, t) && i < |t.kids| && i % 2 == 0
    requires ClosesAt(ks, at + |Yield(t)|, close)
    ensures ReadFrom(ks, at, t, i, close, depth, p)
    decreases |t.kids| - i
  {
    hide Yield, From, Derives, Stands, BareComma, RecordAt, ScanValue, MemberAt, StartsMember, RecordShapes.Members,
      Starts,
      Places, BareMember;
    MemberRow(ks, at, t, i);
    if i == |t.kids| - 1 {
      LastMember(ks, at, t, i, close, depth, p);
    } else {
      NextMember(ks, at, t, i, depth, p);
      var q, next := From(at, t, i), From(at, t, i + 2);
      assert Places(at, t, i) == [q] + Places(at, t, i + 2) by { PlacesUnfold(at, t, i); }
      if !BareMember(t.kids[i]) {
        var rest := MemberAt(ks, q, depth, p).p;
        AllMembers(ks, at, t, i + 2, close, depth, rest);
      }
      assert (forall j :: i <= j < |t.kids| ==> !BareMember(t.kids[j])) <==>
        !BareMember(t.kids[i]) && forall j :: i + 2 <= j < |t.kids| ==> !BareMember(t.kids[j]);
    }
  }

  lemma {:induction false} PlacesUnfold(at: nat, t: Tree, i: nat)
    requires t.Node? && i < |t.kids|
    ensures Places(at, t, i) == [From(at, t, i)] + Places(at, t, i + 2)
  {
  }

  /** From one member to the next. */
  lemma {:induction false} NextMember(ks: seq<Kind>, at: nat, t: Tree, i: nat, depth: nat, p: Partial)
    requires ks != [] && ks[|ks| - 1] == End
    requires t.Node? && t.sym == Grammar.Members && Derives(t) && Stands(ks, at, t) && i + 2 < |t.kids| && i % 2 == 0
    requires at + |Yield(t)| < |ks|
    ensures !BareMember(t.kids[i + 1]) && From(at, t, i) < |ks|
    ensures var r := RecordShapes.Members(ks, From(at, t, i), depth, p);
            if BareMember(t.kids[i]) then r.None?
            else
              && MemberAt(ks, From(at, t, i), depth, p).More?
              && r == RecordShapes.Members(ks, From(at, t, i + 2), depth, MemberAt(ks, From(at, t, i), depth, p).p)
              && Starts(ks, From(at, t, i)) == [From(at, t, i)] + Starts(ks, From(at, t, i + 2))
  {
    hide Yield, From, Derives, Stands, BareComma, RecordAt, ScanValue, MemberAt, StartsMember, RecordShapes.Members,
      Starts,
      SkipLines;
    MemberRow(ks, at, t, i);
    MemberRow(ks, at, t, i + 1);
    MemberRow(ks, at, t, i + 2);
    KidStands(ks, at, t, i);
    KidStands(ks, at, t, i + 1);
    KidStands(ks, at, t, i + 2);
    var q, e, next := From(at, t, i), From(at, t, i + 1), From(at, t, i + 2);
    MemberRead(ks, q, t.kids[i], depth, p);
    SeparatorTokens(ks, e, t.kids[i + 1]);
    MemberTokens(ks, next, t.kids[i + 2]);
    if !BareMember(t.kids[i]) {
      BetweenMembers(ks, q, e, next, depth, p);
    }
  }

  /** Behind a member that starts at `q`, from its separator at `e` to the next one. */
  lemma {:induction false} BetweenMembers(ks: seq<Kind>, q: nat, e: nat, next: nat, depth: nat, p: Partial)
    requires q < |ks| && SkipLines(ks, q) == q && StartsMember(ks, q) && e < next < |ks| && ks[next] != Newline
    requires (ks[e] == Comma || ks[e] == Newline) && forall i :: e < i < next ==> ks[i] == Newline
    requires ScanValue(ks, q + 2, 0, 0, 0) == Scanned(ks, e, FLAT)
    requires var scan, step := Scanned(ks, e, FLAT), MemberAt(ks, q, depth, p);
             scan.Item? ==> step.More? && step.next == scan.next
    ensures MemberAt(ks, q, depth, p).More?
    ensures RecordShapes.Members(ks, q, depth, p) ==
      RecordShapes.Members(ks, next, depth, MemberAt(ks, q, depth, p).p)
    ensures Starts(ks, q) == [q] + Starts(ks, next)
  {
    hide RecordAt, ScanValue, MemberAt, StartsMember, RecordShapes.Members, Starts;
    ScanUnfolds(ks, e, 0, 0, 0);
    OneMember(ks, q, depth, p);
    LinesSkipped(ks, e + 1, next - e - 1);
    FromBehindLines(ks, e + 1, next, depth, MemberAt(ks, q, depth, p).p);
  }

  // ------------------------------------------------------------------ records

  /** The members of a record, if it has any. */
  function MembersOf(t: Tree): (m: Option<nat>)
    requires t.Node?
  {
    if |t.kids| > 1 && RootOf(t.kids[1]) == N(Grammar.Members) then Some(1)
    else if |t.kids| > 2 && RootOf(t.kids[2]) == N(Grammar.Members) then Some(2)
    else None
  }

  /** A member of the record has a bare comma in its value. */
  predicate HasBareMember(t: Tree)
    requires t.Node?
  {
    var m := MembersOf(t);
    m.Some? && m.value < |t.kids| && t.kids[m.value].Node? &&
    exists j :: 0 <= j < |t.kids[m.value].kids| && BareMember(t.kids[m.value].kids[j])
  }

  /** Where the members of a record start. */
  function MemberPlaces(at: nat, t: Tree): (r: seq<nat>)
    requires t.Node?
  {
    var m := MembersOf(t);
    if m.None? || m.value >= |t.kids| || t.kids[m.value].Leaf? then []
    else Places(From(at, t, m.value), t.kids[m.value], 0)
  }

  /** The rows of a record: where its members are and what surrounds them. */
  lemma {:induction false} RecordRows(t: Tree)
    requires t.Node? && t.sym == Record && Derives(t)
    ensures var r, n, m := Roots(t.kids), |t.kids|, MembersOf(t);
            && n >= 2 && r[0] == T(OpenCurly) && r[n - 1] == T(CloseCurly)
            && (m.None? ==> n == 2 || (n == 3 && r[1] == N(Newlines)))
            && (m.Some? ==>
                  && 1 <= m.value < n - 1 && r[m.value] == N(Grammar.Members)
                  && (m.value == 2 ==> r[1] == N(Newlines))
                  && (n - 1 == m.value + 1 || (n - 1 == m.value + 2 && r[m.value + 1] == N(Newlines))))
  {
    var r := Roots(t.kids);
    assert RecordShape(r);
    forall i | 0 <= i < |t.kids| ensures r[i] == RootOf(t.kids[i]) {
    }
  }

  /** In front of the members, or of the closing brace: the newlines of a record's second child. */
  lemma {:induction false} LeadingLines(ks: seq<Kind>, at: nat, t: Tree, i: nat)
    requires t.Node? && Derives(t) && Stands(ks, at, t) && (i == 1 || i == 2) && i < |t.kids| && t.kids[0].Leaf?
    requires i == 2 ==> RootOf(t.kids[1]) == N(Newlines)
    requires From(at, t, i) < |ks| && ks[From(at, t, i)] != Newline
    ensures SkipLines(ks, at + 1) == From(at, t, i) && at < |ks|
  {
    hide Yield, From, Derives, Stands;
    WholeTree(at, t);
    KidStands(ks, at, t, 0);
    if i == 2 {
      KidStands(ks, at, t, 1);
      NewlineTokens(ks, at + 1, t.kids[1]);
    }
    LinesSkipped(ks, at + 1, From(at, t, i) - at - 1);
  }

  /** Behind the members: newlines and the closing brace. */
  lemma {:induction false} TrailingLines(ks: seq<Kind>, at: nat, t: Tree, m: nat, close: nat)
    requires t.Node? && Derives(t) && Stands(ks, at, t) && m + 1 < |t.kids| <= m + 3
    requires t.kids[|t.kids| - 1] == Leaf(CloseCurly) && (|t.kids| == m + 3 ==> RootOf(t.kids[m + 1]) == N(Newlines))
    requires close + 1 == at + |Yield(t)|
    ensures ClosesAt(ks, From(at, t, m + 1), close)
  {
    hide Yield, From, Derives, Stands;
    var n := |t.kids|;
    WholeTree(at, t);
    KidStands(ks, at, t, n - 1);
    if n == m + 3 {
      KidStands(ks, at, t, m + 1);
      NewlineTokens(ks, From(at, t, m + 1), t.kids[m + 1]);
    }
  }

  /** In a derivation the scan of a record literal succeeds if and only if no value of it has a comma outside all
      brackets. It then ends at the literal's own brace and has found exactly its members. */
  lemma {:induction false} RecordIsFound(ks: seq<Kind>, at: nat, t: Tree, depth: nat)
    requires ks != [] && ks[|ks| - 1] == End
    requires t.Node? && t.sym == Record && Derives(t) && Stands(ks, at, t)
    ensures RecordAt(ks, at, depth).Some? <==> !HasBareMember(t)
    ensures RecordAt(ks, at, depth).Some? ==>
              && RecordAt(ks, at, depth).value.closing == at + |Yield(t)| - 1
              && Starts(ks, at + 1) == MemberPlaces(at, t)
  {
    hide Yield, From, Stands, RecordShapes.Members, Starts, BareMember, SkipLines, Places;
    RecordRows(t);
    hide Derives;
    var n, m := |t.kids|, MembersOf(t);
    var close := at + |Yield(t)| - 1;
    var nothing := Partial([], [], false);
    WholeTree(at, t);
    KidStands(ks, at, t, 0);
    KidStands(ks, at, t, n - 1);
    if m.None? {
      LeadingLines(ks, at, t, n - 1);
      ClosesHere(ks, at + 1, close, depth, nothing);
    } else {
      MembersFound(ks, at, t, m.value, close, depth, nothing);
    }
  }

  lemma {:induction false} MembersFound(ks: seq<Kind>, at: nat, t: Tree, m: nat, close: nat, depth: nat, p: Partial)
    requires ks != [] && ks[|ks| - 1] == End && t.Node? && Derives(t) && Stands(ks, at, t)
    requires (m == 1 || m == 2) && m + 1 < |t.kids| <= m + 3 && t.kids[0].Leaf? &&
      t.kids[|t.kids| - 1] == Leaf(CloseCurly)
    requires RootOf(t.kids[m]) == N(Grammar.Members) && (m == 2 ==> RootOf(t.kids[1]) == N(Newlines))
    requires |t.kids| == m + 3 ==> RootOf(t.kids[m + 1]) == N(Newlines)
    requires close + 1 == at + |Yield(t)|
    ensures var r, members := RecordShapes.Members(ks, at + 1, depth, p), t.kids[m];
            && (r.Some? <==> forall j :: 0 <= j < |members.kids| ==> !BareMember(members.kids[j]))
            && (r.Some? ==> r.value.closing == close && Starts(ks, at + 1) == Places(From(at, t, m), members, 0))
  {
    hide Yield, From, Derives, Stands, RecordShapes.Members, Starts, BareMember, Places, First;
    var members, q := t.kids[m], From(at, t, m);
    KidStands(ks, at, t, m);
    TrailingLines(ks, at, t, m, close);
    FirstMember(ks, q, members);
    LeadingLines(ks, at, t, m);
    FromBehindLines(ks, at + 1, q, depth, p);
    AllMembers(ks, q, members, 0, close, depth, p);
    WholeTree(q, members);
  }

  lemma {:induction false} FirstMember(ks: seq<Kind>, at: nat, t: Tree)
    requires t.Node? && t.sym == Grammar.Members && Derives(t) && Stands(ks, at, t)
    ensures at < |ks| && ks[at] != Newline && t.kids != []
  {
    hide Yield;
    TreeFirst(t);
    assert ks[at..at + |Yield(t)|][0] == ks[at];
  }

  const X := Identifier("x")
  const Y := Identifier("y")
  const TWO_PARAMETERS := [OpenCurly, X, Operator(":"), Operator("|"), X, Comma, Y, Operator("|"), X, CloseCurly, End]

  lemma {:induction false} PlainNames()
    ensures IsNameKind(X) && IsNameKind(Y)
  {
  }

  /** `{x: |x, y| x}`: the scan gives up behind the comma. */
  lemma {:induction false} SeveralParametersHideRecord(depth: nat)
    ensures RecordAt(TWO_PARAMETERS, 0, depth) == None
  {
    hide ScanValue, IsReserved, RecordShapes.Members;
    var ks := TWO_PARAMETERS;
    PlainNames();
    ScanUnfolds(ks, 3, 0, 0, 0);
    ScanUnfolds(ks, 4, 0, 0, 0);
    ScanUnfolds(ks, 5, 0, 0, 0);
    StrayEnds(ks, 1, depth, Partial([], [], false));
  }
}
