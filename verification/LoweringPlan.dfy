/** Which edits the lowering pass makes, read off the derivation tree.

    The plan has one mark per token: whether a `;` goes after it, whether a `nil` goes after it, and
    whether the token itself, a semicolon, is blanked out. Edits that go after a token are written
    at the start of the next one. */
module LoweringPlan {
  import opened Tokens
  import opened Grammar

  datatype Mark = Mark(drop: bool, semi: bool, nil: bool)

  const PLAIN := Mark(false, false, false)

  /** Statement ends get one `;` unless they already hold one. */
  function EndsPlan(ks: seq<Kind>): (p: seq<Mark>)
    ensures |p| == |ks|
  {
    seq(|ks|, i => PLAIN.(semi := i == |ks| - 1 && Semicolon !in ks))
  }

  /** The ends after the value of a conditional block lose their semicolons. */
  function TailPlan(ks: seq<Kind>): (p: seq<Mark>)
    ensures |p| == |ks|
  {
    seq(|ks|, i requires 0 <= i < |ks| => PLAIN.(drop := ks[i] == Semicolon))
  }

  function Plains(n: nat): (p: seq<Mark>)
    ensures |p| == n
  {
    seq(n, _ => PLAIN)
  }

  function SetNil(p: seq<Mark>): (r: seq<Mark>)
    ensures |r| == |p|
  {
    if p == [] then [] else p[..|p| - 1] + [p[|p| - 1].(nil := true)]
  }

  predicate IsLineOf(t: Tree, value: bool) {
    t.Node? && t.sym == Line(value) && |t.kids| == 2
  }

  /** The last child before a closing brace is a line that produces a value. */
  predicate ValueTail(front: seq<Tree>) {
    front != [] && IsLineOf(front[|front| - 1], true)
  }

  function PlanOf(t: Tree): (p: seq<Mark>)
    decreases t
  {
    if t.Leaf? then [PLAIN]
    else if t.sym.Line? && |t.kids| == 2 then PlanOf(t.kids[0]) + EndsPlan(Yield(t.kids[1]))
    else if t.sym == Block(true) && t.kids != [] then
      BranchPlan(t.kids[..|t.kids| - 1]) + PlanOf(t.kids[|t.kids| - 1])
    else PlanAll(t.kids)
  }

  function PlanAll(ts: seq<Tree>): (p: seq<Mark>)
    decreases ts, 0
  {
    if ts == [] then [] else PlanAll(ts[..|ts| - 1]) + PlanOf(ts[|ts| - 1])
  }

  /** A conditional block up to its closing brace: a value tail stays unterminated, anything else gets `nil`. */
  function BranchPlan(front: seq<Tree>): (p: seq<Mark>)
    decreases front, 1
  {
    if ValueTail(front) then
      var line := front[|front| - 1];
      PlanAll(front[..|front| - 1]) + PlanOf(line.kids[0]) + TailPlan(Yield(line.kids[1]))
    else SetNil(PlanAll(front))
  }

  lemma {:induction false} PlanAppend(ts: seq<Tree>, t: Tree)
    ensures PlanAll(ts + [t]) == PlanAll(ts) + PlanOf(t)
  {
    assert (ts + [t])[..|ts|] == ts;
  }

  /** One mark for every token. */
  lemma {:induction false} PlanLength(t: Tree)
    ensures |PlanOf(t)| == |Yield(t)|
    decreases t, 0
  {
    if t.Node? {
      if t.sym.Line? && |t.kids| == 2 {
        PlanLength(t.kids[0]);
        assert t.kids[..1] == [t.kids[0]] && t.kids == [t.kids[0]] + [t.kids[1]];
        YieldAppend([t.kids[0]], t.kids[1]);
        YieldAppend([], t.kids[0]);
      } else if t.sym == Block(true) && t.kids != [] {
        BranchLength(t.kids[..|t.kids| - 1]);
        PlanLength(t.kids[|t.kids| - 1]);
      } else {
        PlanAllLength(t.kids);
      }
    }
  }

  lemma {:induction false} PlanAllLength(ts: seq<Tree>)
    ensures |PlanAll(ts)| == |YieldAll(ts)|
    decreases ts, 1
  {
    if ts != [] {
      PlanAllLength(ts[..|ts| - 1]);
      PlanLength(ts[|ts| - 1]);
    }
  }

  lemma {:induction false} LineYield(line: Tree)
    requires IsLineOf(line, true) || IsLineOf(line, false)
    ensures Yield(line) == Yield(line.kids[0]) + Yield(line.kids[1])
  {
    assert line.kids == [line.kids[0]] + [line.kids[1]];
    YieldAppend([line.kids[0]], line.kids[1]);
    YieldAppend([], line.kids[0]);
  }

  lemma {:induction false} BranchLength(front: seq<Tree>)
    ensures |BranchPlan(front)| == |YieldAll(front)|
    decreases front, 2
  {
    if ValueTail(front) {
      var line := front[|front| - 1];
      PlanAllLength(front[..|front| - 1]);
      PlanLength(line.kids[0]);
      LineYield(line);
    } else {
      PlanAllLength(front);
    }
  }

  // ------------------------------------------------------------------ edits

  /** Replace `[start, end)` of the source. */
  datatype Edit = Edit(start: nat, end: nat, text: string)

  function Start(tokens: seq<Token>, k: nat): (n: nat) {
    if k < |tokens| then tokens[k].start else 0
  }

  function Finish(tokens: seq<Token>, k: nat): (n: nat) {
    if k < |tokens| then tokens[k].end else 0
  }

  /** Where the `;` insertions of a plan for the tokens from `from` on are written. */
  function Separators(tokens: seq<Token>, from: nat, plan: seq<Mark>): (r: seq<nat>) {
    if plan == [] then []
    else
      var n := |plan| - 1;
      Separators(tokens, from, plan[..n]) + if plan[n].semi then [Start(tokens, from + n + 1)] else []
  }

  /** The other edits of a plan: blanked semicolons and inserted `nil`s, in source order. */
  function TailEdits(tokens: seq<Token>, from: nat, plan: seq<Mark>): (r: seq<Edit>) {
    if plan == [] then []
    else TailEdits(tokens, from, plan[..|plan| - 1]) + TailEditsAt(tokens, from + |plan| - 1, plan[|plan| - 1])
  }

  function TailEditsAt(tokens: seq<Token>, k: nat, m: Mark): (r: seq<Edit>) {
    (if m.drop then [Edit(Start(tokens, k), Finish(tokens, k), " ")] else []) +
    (if m.nil then [Edit(Start(tokens, k + 1), Start(tokens, k + 1), " nil ")] else [])
  }

  lemma {:induction false} SeparatorsAppend(tokens: seq<Token>, from: nat, plan: seq<Mark>, m: Mark)
    ensures Separators(tokens, from, plan + [m]) ==
            Separators(tokens, from, plan) + if m.semi then [Start(tokens, from + |plan| + 1)] else []
    ensures TailEdits(tokens, from, plan + [m]) == TailEdits(tokens, from, plan) + TailEditsAt(tokens, from + |plan|, m)
  {
    assert (plan + [m])[..|plan|] == plan;
  }

  lemma {:induction false} NoPlan(tokens: seq<Token>, from: nat)
    ensures Separators(tokens, from, []) == [] && TailEdits(tokens, from, []) == []
  {
  }

  lemma {:induction false} SeparatorsConcat(tokens: seq<Token>, from: nat, a: seq<Mark>, b: seq<Mark>)
    ensures Separators(tokens, from, a + b) == Separators(tokens, from, a) + Separators(tokens, from + |a|, b)
    decreases |b|
  {
    hide Separators, TailEdits, Start, TailEditsAt;
    if b == [] {
      NoPlan(tokens, from + |a|);
      assert a + b == a;
    } else {
      var n := |b| - 1;
      SeparatorsConcat(tokens, from, a, b[..n]);
      assert a + b == (a + b[..n]) + [b[n]] && b == b[..n] + [b[n]];
      SeparatorsAppend(tokens, from, a + b[..n], b[n]);
      SeparatorsAppend(tokens, from + |a|, b[..n], b[n]);
    }
  }

  lemma {:induction false} TailEditsConcat(tokens: seq<Token>, from: nat, a: seq<Mark>, b: seq<Mark>)
    ensures TailEdits(tokens, from, a + b) == TailEdits(tokens, from, a) + TailEdits(tokens, from + |a|, b)
    decreases |b|
  {
    hide Separators, TailEdits, Start, TailEditsAt;
    if b == [] {
      NoPlan(tokens, from + |a|);
      assert a + b == a;
    } else {
      var n := |b| - 1;
      TailEditsConcat(tokens, from, a, b[..n]);
      assert a + b == (a + b[..n]) + [b[n]] && b == b[..n] + [b[n]];
      SeparatorsAppend(tokens, from, a + b[..n], b[n]);
      SeparatorsAppend(tokens, from + |a|, b[..n], b[n]);
    }
  }

  /** Token starts strictly increase, and every token ends no later than the next one starts. */
  ghost predicate Ordered(tokens: seq<Token>) {
    && (forall i, j :: 0 <= i < j < |tokens| ==> tokens[i].start < tokens[j].start)
    && (forall i, j :: 0 <= i < j < |tokens| ==> tokens[i].end <= tokens[j].start)
    && (forall i :: 0 <= i < |tokens| - 1 ==> tokens[i].start < tokens[i].end)
  }

  predicate NoneAbove(seps: seq<nat>, bound: nat) {
    forall i :: 0 <= i < |seps| ==> seps[i] <= bound
  }

  predicate AllBelow(seps: seq<nat>, bound: nat) {
    forall i :: 0 <= i < |seps| ==> seps[i] < bound
  }

  lemma {:induction false} SeparatorsBound(tokens: seq<Token>, from: nat, plan: seq<Mark>)
    requires Ordered(tokens) && from + |plan| < |tokens|
    ensures NoneAbove(Separators(tokens, from, plan), tokens[from + |plan|].start)
    ensures plan != [] && !plan[|plan| - 1].semi ==>
      AllBelow(Separators(tokens, from, plan), tokens[from + |plan|].start)
    decreases |plan|
  {
    if plan != [] {
      var n := |plan| - 1;
      SeparatorsBound(tokens, from, plan[..n]);
      assert tokens[from + n].start < tokens[from + n + 1].start;
    }
  }

  /** The ends of a value tail are blanked and get nothing inserted. */
  lemma {:induction false} TailPlanEdits(tokens: seq<Token>, from: nat, ks: seq<Kind>)
    ensures Separators(tokens, from, TailPlan(ks)) == []
    ensures ks != [] ==>
              var n := |ks| - 1;
              TailEdits(tokens, from, TailPlan(ks)) ==
              TailEdits(tokens, from, TailPlan(ks[..n])) +
              if ks[n] == Semicolon then [Edit(Start(tokens, from + n), Finish(tokens, from + n), " ")] else []
    decreases |ks|
  {
    if ks != [] {
      var n := |ks| - 1;
      TailPlanEdits(tokens, from, ks[..n]);
      assert TailPlan(ks)[..n] == TailPlan(ks[..n]);
    }
  }

  lemma {:induction false} PlainEdits(tokens: seq<Token>, from: nat, n: nat)
    ensures Separators(tokens, from, Plains(n)) == [] && TailEdits(tokens, from, Plains(n)) == []
    decreases n
  {
    if n > 0 {
      PlainEdits(tokens, from, n - 1);
      assert Plains(n)[..n - 1] == Plains(n - 1);
    }
  }

  lemma {:induction false} EndsPlanEdits(tokens: seq<Token>, from: nat, ks: seq<Kind>)
    requires ks != []
    ensures Separators(tokens, from, EndsPlan(ks)) == if Semicolon in ks then [] else [Start(tokens, from + |ks|)]
    ensures TailEdits(tokens, from, EndsPlan(ks)) == []
  {
    var n := |ks| - 1;
    assert EndsPlan(ks) == Plains(n) + [PLAIN.(semi := Semicolon !in ks)];
    PlainEdits(tokens, from, n);
    SeparatorsAppend(tokens, from, Plains(n), PLAIN.(semi := Semicolon !in ks));
  }

  // ------------------------------------------------------------------ where edits land

  /** A mark blanks a semicolon only, and inserts only beside a real token: never in front of a
      newline, which may sit inside a block comment, and never at the end of the source. */
  predicate AimedAt(tokens: seq<Token>, k: nat, m: Mark) {
    && (m.drop ==> k < |tokens| && tokens[k].kind == Semicolon)
    && (m.semi || m.nil ==> k + 1 < |tokens| && tokens[k + 1].kind != Newline && tokens[k + 1].kind != End)
  }

  ghost predicate Aimed(tokens: seq<Token>, from: nat, plan: seq<Mark>) {
    forall k :: 0 <= k < |plan| ==> AimedAt(tokens, from + k, plan[k])
  }

  lemma {:induction false} AimedConcat(tokens: seq<Token>, from: nat, a: seq<Mark>, b: seq<Mark>)
    requires Aimed(tokens, from, a) && Aimed(tokens, from + |a|, b)
    ensures Aimed(tokens, from, a + b)
  {
    hide AimedAt;
    forall k | 0 <= k < |a + b| ensures AimedAt(tokens, from + k, (a + b)[k]) {
      if k >= |a| {
        assert (a + b)[k] == b[k - |a|];
        assert AimedAt(tokens, from + |a| + (k - |a|), b[k - |a|]);
      }
    }
  }

  lemma {:induction false} AimedPrefix(tokens: seq<Token>, from: nat, a: seq<Mark>, b: seq<Mark>)
    requires Aimed(tokens, from, a + b)
    ensures Aimed(tokens, from, a)
  {
    hide AimedAt;
    forall k | 0 <= k < |a| ensures AimedAt(tokens, from + k, a[k]) {
      assert (a + b)[k] == a[k];
    }
  }
}
