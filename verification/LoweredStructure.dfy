/** What lowering keeps: a reader that splits statements at `;` alone finds, in the lowered tokens
    without newlines, the statement lists that the source has with newline-or-`;` separators. */
module LoweredStructure {
  import opened Tokens
  import opened Grammar
  import opened LoweringPlan
  import opened ParseBuilder

  const NIL := Identifier("nil")

  function Semis(ks: seq<Kind>): (ws: seq<Kind>) {
    if ks == [] then [] else Semis(ks[..|ks| - 1]) + if ks[|ks| - 1] == Semicolon then [Semicolon] else []
  }

  /** The ends of a line: their semicolons, or the one that lowering adds. */
  function LineEnd(ks: seq<Kind>): (ws: seq<Kind>) {
    if Semicolon in ks then Semis(ks) else [Semicolon]
  }

  predicate IsBlockSym(sym: Sym) {
    sym.Block? || sym == ValueBlock
  }

  /** The lowered tokens of a tree, newlines left out. */
  function Words(t: Tree): (ws: seq<Kind>)
    decreases t
  {
    if t.Leaf? then (if t.kind == Newline then [] else [t.kind])
    else if t.sym.Line? && |t.kids| == 2 then Words(t.kids[0]) + LineEnd(Yield(t.kids[1]))
    else if IsBlockSym(t.sym) && |t.kids| >= 2 then
      [OpenCurly] + BlockWords(t.sym == Block(true), t.kids[1..|t.kids| - 1]) + [CloseCurly]
    else WordsAll(t.kids)
  }

  function WordsAll(ts: seq<Tree>): (ws: seq<Kind>)
    decreases ts, 0
  {
    if ts == [] then [] else WordsAll(ts[..|ts| - 1]) + Words(ts[|ts| - 1])
  }

  function BlockWords(conditional: bool, inner: seq<Tree>): (ws: seq<Kind>)
    decreases inner, 1
  {
    if !conditional then WordsAll(inner)
    else if ValueTail(inner) then WordsAll(inner[..|inner| - 1]) + Words(inner[|inner| - 1].kids[0])
    else WordsAll(inner) + [NIL]
  }

  // ------------------------------------------------------------------ plan and words agree

  /** What a plan leaves of one token, newlines left out. */
  function OutAt(k: Kind, m: Mark): (r: seq<Kind>) {
    (if m.drop || k == Newline then [] else [k]) + (if m.semi then [Semicolon] else []) + (if m.nil then [NIL] else [])
  }

  function Out(ks: seq<Kind>, plan: seq<Mark>): (r: seq<Kind>)
    requires |ks| == |plan|
  {
    if ks == [] then []
    else Out(ks[..|ks| - 1], plan[..|plan| - 1]) + OutAt(ks[|ks| - 1], plan[|plan| - 1])
  }

  lemma {:induction false} OutAppend(a: seq<Kind>, p: seq<Mark>, k: Kind, m: Mark)
    requires |a| == |p|
    ensures Out(a + [k], p + [m]) == Out(a, p) + OutAt(k, m)
  {
    hide OutAt;
    assert (a + [k])[..|a|] == a && (p + [m])[..|p|] == p;
  }

  lemma {:induction false} OutConcat(a: seq<Kind>, b: seq<Kind>, p: seq<Mark>, q: seq<Mark>)
    requires |a| == |p| && |b| == |q|
    ensures Out(a + b, p + q) == Out(a, p) + Out(b, q)
    decreases |b|
  {
    hide OutAt, Out;
    if b == [] {
      assert a + b == a && p + q == p;
      assert Out([], []) == [] by { NothingOut(); }
      assert Out(a, p) + [] == Out(a, p);
    } else {
      var n := |b| - 1;
      OutConcat(a, b[..n], p, q[..n]);
      assert a + b == (a + b[..n]) + [b[n]] && p + q == (p + q[..n]) + [q[n]];
      OutAppend(a + b[..n], p + q[..n], b[n], q[n]);
      OutAppend(b[..n], q[..n], b[n], q[n]);
      assert b[..n] + [b[n]] == b && q[..n] + [q[n]] == q;
    }
  }

  lemma {:induction false} OutOne(k: Kind, m: Mark)
    ensures Out([k], [m]) == OutAt(k, m)
  {
    assert [k][..0] == [] && [m][..0] == [];
  }

  predicate AllEnds(ks: seq<Kind>) {
    forall i :: 0 <= i < |ks| ==> ks[i] == Newline || ks[i] == Semicolon
  }

  /** Plain ends keep their semicolons only. */
  lemma {:induction false} OutPlain(ks: seq<Kind>)
    requires AllEnds(ks)
    ensures Out(ks, Plains(|ks|)) == Semis(ks)
    decreases |ks|
  {
    if ks != [] {
      var n := |ks| - 1;
      OutPlain(ks[..n]);
      assert Plains(|ks|)[..n] == Plains(n);
    }
  }

  lemma {:induction false} OutTail(ks: seq<Kind>)
    requires AllEnds(ks)
    ensures Out(ks, TailPlan(ks)) == []
    decreases |ks|
  {
    if ks != [] {
      var n := |ks| - 1;
      OutTail(ks[..n]);
      assert TailPlan(ks)[..n] == TailPlan(ks[..n]);
    }
  }

  lemma {:induction false} NoSemis(ks: seq<Kind>)
    requires Semicolon !in ks
    ensures Semis(ks) == []
  {
    if ks != [] {
      NoSemis(ks[..|ks| - 1]);
    }
  }

  lemma {:induction false} OutEnds(ks: seq<Kind>)
    requires AllEnds(ks) && ks != []
    ensures Out(ks, EndsPlan(ks)) == LineEnd(ks)
  {
    var n := |ks| - 1;
    var m := PLAIN.(semi := Semicolon !in ks);
    assert EndsPlan(ks) == Plains(n) + [m] && ks == ks[..n] + [ks[n]];
    OutConcat(ks[..n], [ks[n]], Plains(n), [m]);
    OutOne(ks[n], m);
    OutPlain(ks[..n]);
    if Semicolon in ks {
    } else {
      NoSemis(ks[..n]);
    }
  }

  lemma {:induction false} EndsAre(t: Tree)
    requires t.Node? && t.sym == Ends && Derives(t)
    ensures AllEnds(Yield(t)) && Yield(t) != [] && PlanOf(t) == Plains(|Yield(t)|) && Words(t) == Semis(Yield(t))
  {
    var r := Roots(t.kids);
    forall i | 0 <= i < |t.kids| ensures t.kids[i].Leaf? && (t.kids[i].kind == Newline || t.kids[i].kind == Semicolon) {
      assert IsEnd(r[i]);
    }
    EndLeaves(t.kids);
  }

  lemma {:induction false} EndLeaves(ts: seq<Tree>)
    requires forall i :: 0 <= i < |ts| ==> ts[i].Leaf? && (ts[i].kind == Newline || ts[i].kind == Semicolon)
    ensures AllEnds(YieldAll(ts)) && |YieldAll(ts)| == |ts| && PlanAll(ts) == Plains(|ts|) &&
      WordsAll(ts) == Semis(YieldAll(ts))
  {
    hide Yield, PlanOf, Words;
    if ts == [] {
    } else {
      var n := |ts| - 1;
      EndLeaves(ts[..n]);
      LeafFacts(ts[n]);
      var ks := YieldAll(ts);
      assert ks == YieldAll(ts[..n]) + [ts[n].kind];
      assert ks[..n] == YieldAll(ts[..n]);
      assert Plains(|ts|) == Plains(n) + [PLAIN];
    }
  }

  lemma {:induction false} LeafFacts(t: Tree)
    requires t.Leaf?
    ensures Yield(t) == [t.kind] && PlanOf(t) == [PLAIN] && Words(t) == if t.kind == Newline then [] else [t.kind]
  {
  }

  /** The plan edits the tokens of a tree into its words. */
  lemma {:induction false} PlanGivesWords(t: Tree)
    requires Derives(t)
    ensures |PlanOf(t)| == |Yield(t)| && Out(Yield(t), PlanOf(t)) == Words(t)
    decreases t, 3
  {
    hide Production, Derives, AllDerive, Out;
    PlanLength(t);
    if t.Leaf? {
      LeafWords(t.kind);
    } else {
      if t.sym.Line? {
        LineWords(t);
      } else if IsBlockSym(t.sym) {
        BlockGivesWords(t);
      } else {
        NodeKids(t);
        PlanAllGivesWords(t.kids);
      }
    }
  }

  lemma {:induction false} NodeKids(t: Tree)
    requires t.Node? && Derives(t)
    ensures AllDerive(t.kids) && Production(t.sym, Roots(t.kids))
  {
  }

  lemma {:induction false} LeafWords(k: Kind)
    ensures Out([k], [PLAIN]) == Words(Leaf(k))
  {
    OutOne(k, PLAIN);
  }

  lemma {:induction false} PlanAllGivesWords(ts: seq<Tree>)
    requires AllDerive(ts)
    ensures |PlanAll(ts)| == |YieldAll(ts)| && Out(YieldAll(ts), PlanAll(ts)) == WordsAll(ts)
    decreases ts, 2
  {
    hide Production, Derives, Out;
    PlanAllLength(ts);
    if ts == [] {
      NothingOut();
    } else {
      var n := |ts| - 1;
      PlanAllGivesWords(ts[..n]);
      PlanGivesWords(ts[n]);
      OutConcat(YieldAll(ts[..n]), Yield(ts[n]), PlanAll(ts[..n]), PlanOf(ts[n]));
    }
  }

  lemma {:induction false} NothingOut()
    ensures Out([], []) == []
  {
  }

  lemma {:induction false} LineParts(t: Tree)
    requires t.Node? && t.sym.Line? && Derives(t)
    ensures |t.kids| == 2 && Derives(t.kids[0]) && Derives(t.kids[1])
    ensures t.kids[0].Node? && t.kids[0].sym == Statement(t.sym.value) && t.kids[1].Node? && t.kids[1].sym == Ends
    ensures Yield(t) == Yield(t.kids[0]) + Yield(t.kids[1])
  {
    var r := Roots(t.kids);
    assert r[0] == RootOf(t.kids[0]) && r[1] == RootOf(t.kids[1]);
    LineYield(t);
  }

  lemma {:induction false} LineWords(t: Tree)
    requires t.Node? && t.sym.Line? && Derives(t)
    ensures |PlanOf(t)| == |Yield(t)| && Out(Yield(t), PlanOf(t)) == Words(t)
    decreases t, 2
  {
    hide Production, Derives, AllDerive, Out;
    LineParts(t);
    var stmt, ends := t.kids[0], t.kids[1];
    PlanLength(t);
    PlanGivesWords(stmt);
    EndsAre(ends);
    OutEnds(Yield(ends));
    OutConcat(Yield(stmt), Yield(ends), PlanOf(stmt), EndsPlan(Yield(ends)));
  }

  // ------------------------------------------------------------------ blocks

  lemma {:induction false} WordsAppend(ts: seq<Tree>, t: Tree)
    ensures WordsAll(ts + [t]) == WordsAll(ts) + Words(t)
  {
    hide Words;
    assert (ts + [t])[..|ts|] == ts;
  }

  lemma {:induction false} ConcatAll(a: seq<Tree>, b: seq<Tree>)
    ensures PlanAll(a + b) == PlanAll(a) + PlanAll(b) && WordsAll(a + b) == WordsAll(a) + WordsAll(b)
    decreases |b|
  {
    hide PlanOf, Words, PlanAll, WordsAll;
    if b == [] {
      assert a + b == a;
      NothingOf();
    } else {
      var n := |b| - 1;
      ConcatAll(a, b[..n]);
      assert a + b == (a + b[..n]) + [b[n]] && b == b[..n] + [b[n]];
      WordsAppend(a + b[..n], b[n]);
      WordsAppend(b[..n], b[n]);
      PlanAppend(a + b[..n], b[n]);
      PlanAppend(b[..n], b[n]);
    }
  }

  lemma {:induction false} OneOf(t: Tree)
    ensures PlanAll([t]) == PlanOf(t) && WordsAll([t]) == Words(t) && YieldAll([t]) == Yield(t)
  {
    hide PlanOf, Words, Yield;
    assert [t][..0] == [];
    NothingOf();
  }

  lemma {:induction false} NothingOf()
    ensures PlanAll([]) == [] && WordsAll([]) == [] && YieldAll([]) == []
  {
  }

  /** A block is its braces around lines, possibly after some ends. */
  lemma {:induction false} BlockParts(t: Tree)
    requires t.Node? && IsBlockSym(t.sym) && Derives(t)
    ensures |t.kids| >= 2 && t.kids[0] == Leaf(OpenCurly) && t.kids[|t.kids| - 1] == Leaf(CloseCurly)
    ensures var inner := t.kids[1..|t.kids| - 1];
            && t.kids == [Leaf(OpenCurly)] + inner + [Leaf(CloseCurly)]
            && forall i :: 0 <= i < |inner| ==>
              inner[i].Node? && Derives(inner[i]) && (inner[i].sym.Line? || inner[i].sym == Ends)
  {
    hide Derives;
    var r := Roots(t.kids);
    assert BlockShape(r) by { BlockIs(t); }
    assert r[0] == RootOf(t.kids[0]) && r[|r| - 1] == RootOf(t.kids[|r| - 1]);
    assert AllDerive(t.kids) by { BlockIs(t); }
    var inner := t.kids[1..|t.kids| - 1];
    forall i | 0 <= i < |inner| ensures inner[i].Node? && Derives(inner[i]) &&
      (inner[i].sym.Line? || inner[i].sym == Ends) {
      assert inner[i] == t.kids[i + 1] && r[i + 1] == RootOf(inner[i]);
      if i + 1 >= LeadingEnds(r, 1) {
        assert IsLine(r[i + 1]);
      }
    }
  }

  lemma {:induction false} BlockIs(t: Tree)
    requires t.Node? && IsBlockSym(t.sym) && Derives(t)
    ensures BlockShape(Roots(t.kids)) && AllDerive(t.kids)
  {
  }

  lemma {:induction false} BlockGivesWords(t: Tree)
    requires t.Node? && IsBlockSym(t.sym) && Derives(t)
    ensures |PlanOf(t)| == |Yield(t)| && Out(Yield(t), PlanOf(t)) == Words(t)
    decreases t, 2
  {
    hide Production, Derives, Out, PlanAll, YieldAll, WordsAll, BranchPlan, PlanOf;
    BlockParts(t);
    PlanLength(t);
    var n := |t.kids|;
    var inner := t.kids[1..n - 1];
    var conditional := t.sym == Block(true);
    if conditional && ValueTail(inner) {
      var line := inner[|inner| - 1];
      LineParts(line);
      PlanAllGivesWords(inner[..|inner| - 1]);
      PlanGivesWords(line.kids[0]);
      ValueFront(inner);
    } else {
      PlanAllGivesWords(inner);
      PlainFront(inner);
      if conditional {
        NilFront(inner);
      }
    }
    CloseFront(t, conditional, inner);
  }

  /** Adding the closing brace. */
  lemma {:induction false} CloseFront(t: Tree, conditional: bool, inner: seq<Tree>)
    requires t.Node? && IsBlockSym(t.sym) && conditional == (t.sym == Block(true))
    requires t.kids == [Leaf(OpenCurly)] + inner + [Leaf(CloseCurly)] && inner == t.kids[1..|t.kids| - 1]
    requires var front := [Leaf(OpenCurly)] + inner;
             && |FrontPlan(conditional, front)| == |YieldAll(front)|
             && Out(YieldAll(front), FrontPlan(conditional, front)) == [OpenCurly] + BlockWords(conditional, inner)
    ensures |PlanOf(t)| == |Yield(t)| && Out(Yield(t), PlanOf(t)) == Words(t)
  {
    hide Out, PlanAll, YieldAll, WordsAll, BranchPlan, BlockWords, FrontPlan, PlanOf;
    var front := [Leaf(OpenCurly)] + inner;
    BlockPlan(t, front);
    YieldAppend(front, Leaf(CloseCurly));
    OutConcat(YieldAll(front), [CloseCurly], FrontPlan(conditional, front), [PLAIN]);
    CloseWord();
  }

  lemma {:induction false} CloseWord()
    ensures Out([CloseCurly], [PLAIN]) == [CloseCurly] && Out([OpenCurly], [PLAIN]) == [OpenCurly]
    ensures Out([], []) == []
  {
    OutOne(CloseCurly, PLAIN);
    OutOne(OpenCurly, PLAIN);
  }

  /** The plan of a block up to its closing brace. */
  function FrontPlan(conditional: bool, front: seq<Tree>): (p: seq<Mark>) {
    if conditional then BranchPlan(front) else PlanAll(front)
  }

  lemma {:induction false} BlockPlan(t: Tree, front: seq<Tree>)
    requires t.Node? && IsBlockSym(t.sym) && t.kids == front + [Leaf(CloseCurly)]
    ensures PlanOf(t) == FrontPlan(t.sym == Block(true), front) + [PLAIN]
    ensures Yield(t) == YieldAll(t.kids)
  {
    assert t.kids[..|t.kids| - 1] == front;
    if t.sym != Block(true) {
      PlanAppend(front, Leaf(CloseCurly));
    }
  }

  /** The opening brace in front of children. */
  lemma {:induction false} OpenFront(ts: seq<Tree>)
    requires |PlanAll(ts)| == |YieldAll(ts)| && Out(YieldAll(ts), PlanAll(ts)) == WordsAll(ts)
    ensures var front := [Leaf(OpenCurly)] + ts;
            && PlanAll(front) == [PLAIN] + PlanAll(ts) && YieldAll(front) == [OpenCurly] + YieldAll(ts)
            && Out(YieldAll(front), PlanAll(front)) == [OpenCurly] + WordsAll(ts)
  {
    hide Out, PlanAll, YieldAll, WordsAll;
    var open := Leaf(OpenCurly);
    ConcatAll([open], ts);
    OneOf(open);
    YieldConcat([open], ts);
    CloseWord();
    OutConcat([OpenCurly], YieldAll(ts), [PLAIN], PlanAll(ts));
  }

  lemma {:induction false} PlainFront(inner: seq<Tree>)
    requires |PlanAll(inner)| == |YieldAll(inner)| && Out(YieldAll(inner), PlanAll(inner)) == WordsAll(inner)
    ensures var front := [Leaf(OpenCurly)] + inner;
            |PlanAll(front)| == |YieldAll(front)| &&
              Out(YieldAll(front), PlanAll(front)) == [OpenCurly] + WordsAll(inner)
  {
    hide Out, PlanAll, YieldAll, WordsAll;
    OpenFront(inner);
  }

  /** The value tail of a conditional block: the statement stays, its ends go. */
  lemma {:induction false} ValueFront(inner: seq<Tree>)
    requires ValueTail(inner) && Derives(inner[|inner| - 1])
    requires var ts := inner[..|inner| - 1];
             |PlanAll(ts)| == |YieldAll(ts)| && Out(YieldAll(ts), PlanAll(ts)) == WordsAll(ts)
    requires var stmt := inner[|inner| - 1].kids[0];
             |PlanOf(stmt)| == |Yield(stmt)| && Out(Yield(stmt), PlanOf(stmt)) == Words(stmt)
    ensures var front := [Leaf(OpenCurly)] + inner;
            && |BranchPlan(front)| == |YieldAll(front)|
            && Out(YieldAll(front), BranchPlan(front)) == [OpenCurly] + BlockWords(true, inner)
  {
    hide Out, PlanAll, YieldAll, WordsAll, PlanOf, Yield, Words, Derives, TailPlan;
    var ts, line := inner[..|inner| - 1], inner[|inner| - 1];
    var front, head := [Leaf(OpenCurly)] + inner, [Leaf(OpenCurly)] + ts;
    var stmt, ends := line.kids[0], line.kids[1];
    LineParts(line);
    EndsAre(ends);
    OpenFront(ts);
    assert front[..|front| - 1] == head && front == head + [line] && front[|front| - 1] == line;
    YieldAppend(head, line);
    var ks := Yield(ends);
    OutTail(ks);
    ThreeParts(YieldAll(head), Yield(stmt), ks, PlanAll(head), PlanOf(stmt), TailPlan(ks));
    assert [OpenCurly] + WordsAll(ts) + Words(stmt) == [OpenCurly] + (WordsAll(ts) + Words(stmt));
  }

  lemma {:induction false} ThreeParts(a: seq<Kind>, b: seq<Kind>, c: seq<Kind>, p: seq<Mark>, q: seq<Mark>,
      r: seq<Mark>)
    requires |a| == |p| && |b| == |q| && |c| == |r| && Out(c, r) == []
    ensures |a + (b + c)| == |p + q + r| && Out(a + (b + c), p + q + r) == Out(a, p) + Out(b, q)
  {
    hide Out;
    assert a + (b + c) == (a + b) + c;
    OutConcat(a + b, c, p + q, r);
    OutConcat(a, b, p, q);
  }

  /** A conditional block without a value tail gets `nil`. */
  lemma {:induction false} NilFront(inner: seq<Tree>)
    requires forall i :: 0 <= i < |inner| ==>
      inner[i].Node? && Derives(inner[i]) && (inner[i].sym.Line? || inner[i].sym == Ends)
    requires !ValueTail(inner)
    requires var front := [Leaf(OpenCurly)] + inner;
             |PlanAll(front)| == |YieldAll(front)| &&
               Out(YieldAll(front), PlanAll(front)) == [OpenCurly] + WordsAll(inner)
    ensures var front := [Leaf(OpenCurly)] + inner;
            && |BranchPlan(front)| == |YieldAll(front)|
            && Out(YieldAll(front), BranchPlan(front)) == [OpenCurly] + BlockWords(true, inner)
  {
    hide Out, PlanAll, YieldAll, WordsAll, PlanOf, Derives, BranchPlan, SetNil;
    var front := [Leaf(OpenCurly)] + inner;
    FrontEnding(inner);
    NilBranchPlan(Builder(0, front, Roots(front), [], [], [], []));
    OutNil(YieldAll(front), PlanAll(front));
    CloseWord();
    assert [OpenCurly] + WordsAll(inner) + [NIL] == [OpenCurly] + (WordsAll(inner) + [NIL]);
  }

  lemma {:induction false} FrontEnding(inner: seq<Tree>)
    requires forall i :: 0 <= i < |inner| ==>
      inner[i].Node? && Derives(inner[i]) && (inner[i].sym.Line? || inner[i].sym == Ends)
    requires !ValueTail(inner)
    ensures var front := [Leaf(OpenCurly)] + inner;
            AllDerive(front) && EndsPlainly(Builder(0, front, Roots(front), [], [], [], []))
  {
    hide Derives;
    var front := [Leaf(OpenCurly)] + inner;
    forall i | 0 <= i < |front| ensures Derives(front[i]) {
      if i == 0 {
        LeafDerives(OpenCurly);
      } else {
        assert front[i] == inner[i - 1];
      }
    }
    if inner != [] {
      var last := inner[|inner| - 1];
      assert front[|front| - 1] == last;
      if last.sym.Line? {
        LineParts(last);
      }
    }
  }

  lemma {:induction false} LeafDerives(k: Kind)
    ensures Derives(Leaf(k))
  {
  }

  lemma {:induction false} OutNil(ks: seq<Kind>, plan: seq<Mark>)
    requires |ks| == |plan| && plan != [] && !plan[|plan| - 1].nil
    ensures Out(ks, SetNil(plan)) == Out(ks, plan) + [NIL]
  {
    var n := |ks| - 1;
    assert SetNil(plan)[..n] == plan[..n];
  }
}
