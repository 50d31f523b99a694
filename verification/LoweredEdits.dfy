/** The edit list: separators and tail edits, sorted by position, applied from left to right. */
module LoweredEdits {
  import opened Tokens
  import opened Tiling
  import opened LoweringPlan
  import opened LoweredStructure
  import opened LoweredText

  // ------------------------------------------------------------------ sorting

  /** Stable insertion: behind everything that does not start later. */
  function Insert(sorted: seq<Edit>, e: Edit): (r: seq<Edit>) {
    if sorted == [] || sorted[|sorted| - 1].start <= e.start then sorted + [e]
    else Insert(sorted[..|sorted| - 1], e) + [sorted[|sorted| - 1]]
  }

  /** A stable sort by start position. */
  function StableSort(edits: seq<Edit>): (r: seq<Edit>) {
    if edits == [] then [] else Insert(StableSort(edits[..|edits| - 1]), edits[|edits| - 1])
  }

  function InsertionsAt(seps: seq<nat>): (r: seq<Edit>)
    ensures |r| == |seps|
  {
    seq(|seps|, i requires 0 <= i < |seps| => Edit(seps[i], seps[i], ";"))
  }

  predicate UpTo(edits: seq<Edit>, bound: nat) {
    forall i :: 0 <= i < |edits| ==> edits[i].start <= bound
  }

  predicate Before(edits: seq<Edit>, bound: nat) {
    forall i :: 0 <= i < |edits| ==> edits[i].start < bound
  }

  lemma {:induction false} InsertLast(sorted: seq<Edit>, e: Edit)
    requires UpTo(sorted, e.start)
    ensures Insert(sorted, e) == sorted + [e]
  {
  }

  lemma {:induction false} InsertUnder(sorted: seq<Edit>, e: Edit, last: Edit)
    requires e.start < last.start
    ensures Insert(sorted + [last], e) == Insert(sorted, e) + [last]
  {
    assert (sorted + [last])[..|sorted|] == sorted;
  }

  lemma {:induction false} SortAppend(edits: seq<Edit>, e: Edit)
    ensures StableSort(edits + [e]) == Insert(StableSort(edits), e)
  {
    assert (edits + [e])[..|edits|] == edits;
  }

  /** An edit that starts after everything behind it, and not before anything in front of it, goes last. */
  lemma {:induction false} SortMoves(a: seq<Edit>, e: Edit, b: seq<Edit>)
    requires UpTo(StableSort(a), e.start) && Before(b, e.start)
    ensures StableSort(a + [e] + b) == StableSort(a + b) + [e]
    decreases |b|
  {
    hide StableSort, Insert;
    if b == [] {
      assert a + [e] + b == a + [e] && a + b == a;
      SortAppend(a, e);
      InsertLast(StableSort(a), e);
    } else {
      var n := |b| - 1;
      SortMoves(a, e, b[..n]);
      assert a + [e] + b == (a + [e] + b[..n]) + [b[n]];
      assert a + b == (a + b[..n]) + [b[n]];
      SortAppend(a + [e] + b[..n], b[n]);
      SortAppend(a + b[..n], b[n]);
      InsertUnder(StableSort(a + b[..n]), b[n], e);
    }
  }

  // ------------------------------------------------------------------ the sorted list

  /** The edits of one mark, in source order. */
  function MarkEdits(tokens: seq<Token>, k: nat, m: Mark): (r: seq<Edit>) {
    var next := Start(tokens, k + 1);
    (if m.drop then [Edit(Start(tokens, k), Finish(tokens, k), " ")] else []) +
    (if m.semi then [Edit(next, next, ";")] else []) +
    (if m.nil then [Edit(next, next, " nil ")] else [])
  }

  function PlanEdits(tokens: seq<Token>, plan: seq<Mark>): (r: seq<Edit>) {
    if plan == [] then []
    else PlanEdits(tokens, plan[..|plan| - 1]) + MarkEdits(tokens, |plan| - 1, plan[|plan| - 1])
  }

  lemma {:induction false} PlanEditsBound(tokens: seq<Token>, plan: seq<Mark>)
    requires Ordered(tokens) && |plan| < |tokens|
    ensures UpTo(PlanEdits(tokens, plan), tokens[|plan|].start)
  {
    if plan != [] {
      var n := |plan| - 1;
      PlanEditsBound(tokens, plan[..n]);
      assert tokens[n].start < tokens[n + 1].start;
    }
  }

  lemma {:induction false} TailBound(tokens: seq<Token>, plan: seq<Mark>)
    requires Ordered(tokens) && |plan| < |tokens|
    ensures UpTo(TailEdits(tokens, 0, plan), tokens[|plan|].start)
    decreases |plan|
  {
    if plan != [] {
      var n := |plan| - 1;
      TailBound(tokens, plan[..n]);
      assert tokens[n].start < tokens[n + 1].start;
    }
  }

  lemma {:induction false} SortedInsertions(seps: seq<nat>, bound: nat)
    requires NoneAbove(seps, bound)
    ensures UpTo(StableSort(InsertionsAt(seps)), bound)
  {
    if seps != [] {
      var n := |seps| - 1;
      SortedInsertions(seps[..n], bound);
      assert InsertionsAt(seps)[..n] == InsertionsAt(seps[..n]);
      InsertBound(StableSort(InsertionsAt(seps[..n])), InsertionsAt(seps)[n], bound);
    }
  }

  lemma {:induction false} InsertBound(sorted: seq<Edit>, e: Edit, bound: nat)
    requires UpTo(sorted, bound) && e.start <= bound
    ensures UpTo(Insert(sorted, e), bound)
  {
    if sorted != [] {
      InsertBound(sorted[..|sorted| - 1], e, bound);
    }
  }

  /** Sorting separators and tail edits gives the edits of the plan, mark by mark. */
  lemma {:induction false} SortGivesPlan(tokens: seq<Token>, plan: seq<Mark>)
    requires Ordered(tokens) && |plan| < |tokens|
    ensures StableSort(InsertionsAt(Separators(tokens, 0, plan)) + TailEdits(tokens, 0, plan)) ==
      PlanEdits(tokens, plan)
    decreases |plan|
  {
    hide StableSort, Insert, TailEditsAt, MarkEdits, Ordered;
    if plan == [] {
      NothingSorted(tokens);
    } else {
      var n := |plan| - 1;
      var front, m := plan[..n], plan[n];
      SortGivesPlan(tokens, front);
      var seps, tails := Separators(tokens, 0, front), TailEdits(tokens, 0, front);
      assert plan == front + [m];
      SeparatorsAppend(tokens, 0, front, m);
      hide Separators, TailEdits;
      var a := InsertionsAt(seps);
      var all := InsertionsAt(Separators(tokens, 0, plan));
      assert all == a + if m.semi then [Edit(Start(tokens, n + 1), Start(tokens, n + 1), ";")] else [];
      SortMark(tokens, front, m, seps, tails);
    }
  }

  lemma {:induction false} NothingSorted(tokens: seq<Token>)
    ensures Separators(tokens, 0, []) == [] && TailEdits(tokens, 0, []) == [] && PlanEdits(tokens, []) == []
    ensures StableSort(InsertionsAt([]) + []) == []
  {
  }

  /** A separator moves behind the earlier tail edits; a blanked token in front of it stays in front. */
  lemma {:induction false} SortSeparator(a: seq<Edit>, tails: seq<Edit>, x: seq<Edit>, s: seq<Edit>, lo: nat, hi: nat)
    requires lo < hi && StableSort(a + tails) == x && UpTo(StableSort(a), lo) && UpTo(tails, lo)
    requires |s| <= 1 && (s != [] ==> s[0].start == hi)
    ensures StableSort(a + s + tails) == x + s
  {
    hide StableSort;
    if s == [] {
      assert a + s + tails == a + tails && x + s == x;
    } else {
      assert s == [s[0]];
      SortMoves(a, s[0], tails);
    }
  }

  lemma {:induction false} SortDrop(edits: seq<Edit>, x: seq<Edit>, s: seq<Edit>, y: seq<Edit>, lo: nat, hi: nat)
    requires lo < hi && StableSort(edits) == x + s && UpTo(x, lo)
    requires |s| <= 1 && (s != [] ==> s[0].start == hi) && |y| <= 1 && (y != [] ==> y[0].start == lo)
    ensures StableSort(edits + y) == x + y + s
  {
    hide StableSort, Insert;
    if y == [] {
      assert edits + y == edits && x + y == x;
    } else {
      assert y == [y[0]];
      SortAppend(edits, y[0]);
      InsertLast(x, y[0]);
      if s == [] {
        assert x + s == x && x + y + s == x + y;
      } else {
        assert s == [s[0]];
        InsertUnder(x, y[0], s[0]);
      }
    }
  }

  /** One more mark: its separator moves behind the earlier tail edits, its own tail edits follow. */
  lemma {:induction false} SortMark(tokens: seq<Token>, front: seq<Mark>, m: Mark, seps: seq<nat>, tails: seq<Edit>)
    requires Ordered(tokens) && |front| + 1 < |tokens|
    requires seps == Separators(tokens, 0, front) && tails == TailEdits(tokens, 0, front)
    requires StableSort(InsertionsAt(seps) + tails) == PlanEdits(tokens, front)
    ensures var next := Start(tokens, |front| + 1);
            StableSort(InsertionsAt(seps) + (if m.semi then [Edit(next, next, ";")]
              else []) + (tails + TailEditsAt(tokens, |front|, m)))
            == PlanEdits(tokens, front) + MarkEdits(tokens, |front|, m)
  {
    hide StableSort, Insert, Separators, TailEdits, PlanEdits;
    var n := |front|;
    var next := Start(tokens, n + 1);
    assert tokens[n].start < tokens[n + 1].start;
    SeparatorsBound(tokens, 0, front);
    TailBound(tokens, front);
    PlanEditsBound(tokens, front);
    hide Ordered;
    var a, x := InsertionsAt(seps), PlanEdits(tokens, front);
    SortedInsertions(seps, tokens[n].start);
    var s := if m.semi then [Edit(next, next, ";")] else [];
    var y := if m.drop then [Edit(Start(tokens, n), Finish(tokens, n), " ")] else [];
    var nil := Edit(next, next, " nil ");
    SortSeparator(a, tails, x, s, tokens[n].start, next);
    SortDrop(a + s + tails, x, s, y, tokens[n].start, next);
    AddNil(a + s + tails + y, x + y + s, nil, m.nil);
    var z := if m.nil then [nil] else [];
    assert TailEditsAt(tokens, n, m) == y + z && MarkEdits(tokens, n, m) == y + s + z;
    hide TailEditsAt, MarkEdits, InsertionsAt;
    Regroup(a, s, tails, y, z);
    Regroup(x, [], y, s, z);
    assert x + [] == x;
  }

  lemma {:induction false} Regroup(a: seq<Edit>, b: seq<Edit>, c: seq<Edit>, d: seq<Edit>, e: seq<Edit>)
    ensures a + b + (c + (d + e)) == a + b + c + d + e && a + b + (c + d + e) == a + b + c + d + e
  {
  }

  lemma {:induction false} AddNil(edits: seq<Edit>, sorted: seq<Edit>, nil: Edit, present: bool)
    requires StableSort(edits) == sorted && UpTo(sorted, nil.start)
    ensures StableSort(edits + if present then [nil] else []) == sorted + if present then [nil] else []
  {
    hide StableSort;
    if present {
      SortAppend(edits, nil);
      InsertLast(sorted, nil);
    } else {
      assert edits + [] == edits && sorted + [] == sorted;
    }
  }

  // ------------------------------------------------------------------ applying

  function Inserts(at: nat, ins: seq<Kind>): (r: seq<Edit>) {
    if ins == [] then [] else [Edit(at, at, if ins[0] == Semicolon then ";" else " nil ")] + Inserts(at, ins[1..])
  }

  /** The edits in the order the lowered text has them: insertions before a token, then its blanking. */
  function TextEdits(tokens: seq<Token>, ins: seq<Kind>, plan: seq<Mark>): (r: seq<Edit>)
    requires |plan| == |tokens|
  {
    if tokens == [] then []
    else
      Inserts(tokens[0].start, ins) + (if plan[0].drop then [Edit(tokens[0].start, tokens[0].end, " ")] else []) +
      TextEdits(tokens[1..], InsOf(plan[0]), plan[1..])
  }

  /** Edits that can be applied to a source from position `at` on. */
  ghost predicate Applicable(size: nat, at: nat, edits: seq<Edit>)
    decreases |edits|
  {
    at <= size &&
    (edits == [] || (at <= edits[0].start <= edits[0].end <= size && Applicable(size, edits[0].end, edits[1..])))
  }

  /** The source from `at` on with the edits applied. */
  function Applied(source: string, at: nat, edits: seq<Edit>): (r: string)
    requires Applicable(|source|, at, edits)
    decreases |edits|
  {
    if edits == [] then source[at..]
    else source[at..edits[0].start] + edits[0].text + Applied(source, edits[0].end, edits[1..])
  }

  /** Applying the text edits gives the lowered text. */
  lemma {:induction false} AppliedIsLow(source: string, at: nat, tokens: seq<Token>, ins: seq<Kind>, plan: seq<Mark>)
    requires at <= |source| && |plan| == |tokens| && InOrder(source[at..], at, tokens) && IsIns(ins) &&
      Lands(tokens, ins, plan)
    ensures Applicable(|source|, at, TextEdits(tokens, ins, plan))
    ensures Applied(source, at, TextEdits(tokens, ins, plan)) == Low(source[at..], at, tokens, ins, plan)
    decreases |tokens|
  {
    hide InOrder, Low, Applied, Applicable, InsText, Inserts, InsOf;
    if tokens == [] {
      NoLow(source[at..], at, ins, plan);
      NothingApplied(source, at);
    } else {
      LowUnfolds(source[at..], at, tokens, ins, plan);
      var start, end := tokens[0].start, tokens[0].end;
      Slices(source, at, start, end);
      LandsRest(tokens, ins, plan);
      InsIs(plan[0]);
      AppliedIsLow(source, end, tokens[1..], InsOf(plan[0]), plan[1..]);
      var rest := TextEdits(tokens[1..], InsOf(plan[0]), plan[1..]);
      hide TextEdits;
      AppliedToken(source, at, start, end, ins, plan[0].drop, rest);
      assert TextEdits(tokens, ins, plan) == Inserts(start, ins) + (if plan[0].drop then [Edit(start, end, " ")]
        else []) + rest
        by { EditsUnfold(tokens, ins, plan); }
    }
  }

  lemma {:induction false} EditsUnfold(tokens: seq<Token>, ins: seq<Kind>, plan: seq<Mark>)
    requires |plan| == |tokens| && tokens != []
    ensures TextEdits(tokens, ins, plan) ==
            Inserts(tokens[0].start, ins) + (if plan[0].drop then [Edit(tokens[0].start, tokens[0].end, " ")] else []) +
            TextEdits(tokens[1..], InsOf(plan[0]), plan[1..])
  {
  }

  /** The edits around one token. */
  lemma {:induction false} AppliedToken(source: string, at: nat, start: nat, end: nat, ins: seq<Kind>, drop: bool,
      rest: seq<Edit>)
    requires at <= start <= end <= |source| && Applicable(|source|, end, rest)
    ensures var edits := Inserts(start, ins) + (if drop then [Edit(start, end, " ")] else []) + rest;
            && Applicable(|source|, at, edits)
            && Applied(source, at, edits) ==
               source[at..start] + InsText(ins) + (if drop then " "
                 else source[start..end]) + Applied(source, end, rest)
  {
    hide Applied, Applicable, InsText, Inserts;
    var blank := if drop then [Edit(start, end, " ")] else [];
    AppliedDrop(source, start, end, drop, rest);
    AppliedInserts(source, at, start, ins, blank + rest);
    assert Inserts(start, ins) + blank + rest == Inserts(start, ins) + (blank + rest);
    Associate(source[at..start], InsText(ins), if drop then " " else source[start..end], Applied(source, end, rest));
  }

  lemma {:induction false} Associate(a: string, b: string, c: string, d: string)
    ensures a + b + (c + d) == a + b + c + d && a + (b + (c + d)) == a + b + c + d && a + b + (c + d) == a + (b + c) + d
  {
  }

  lemma {:induction false} InsIs(m: Mark)
    ensures IsIns(InsOf(m))
  {
  }

  lemma {:induction false} NothingApplied(source: string, at: nat)
    requires at <= |source|
    ensures Applicable(|source|, at, []) && Applied(source, at, []) == source[at..]
  {
  }

  /** Copying up to `end`, or blanking the span. */
  lemma {:induction false} AppliedDrop(source: string, start: nat, end: nat, drop: bool, rest: seq<Edit>)
    requires start <= end <= |source| && Applicable(|source|, end, rest)
    ensures var edits := (if drop then [Edit(start, end, " ")] else []) + rest;
            && Applicable(|source|, start, edits)
            && Applied(source, start, edits) == (if drop then " " else source[start..end]) + Applied(source, end, rest)
  {
    if drop {
      var edits := [Edit(start, end, " ")] + rest;
      assert edits[1..] == rest && source[start..start] == "";
    } else {
      assert [] + rest == rest;
      if rest == [] {
        assert source[start..] == source[start..end] + source[end..];
      } else {
        assert source[start..rest[0].start] == source[start..end] + source[end..rest[0].start];
      }
    }
  }

  lemma {:induction false} AppliedOne(source: string, at: nat, e: Edit, rest: seq<Edit>)
    requires at <= e.start <= e.end <= |source| && Applicable(|source|, e.end, rest)
    ensures Applicable(|source|, at, [e] + rest)
    ensures Applied(source, at, [e] + rest) == source[at..e.start] + e.text + Applied(source, e.end, rest)
  {
    assert ([e] + rest)[1..] == rest;
  }

  lemma {:induction false} AppliedInserts(source: string, at: nat, start: nat, ins: seq<Kind>, rest: seq<Edit>)
    requires at <= start <= |source| && Applicable(|source|, start, rest)
    ensures var edits := Inserts(start, ins) + rest;
            && Applicable(|source|, at, edits)
            && Applied(source, at, edits) == source[at..start] + InsText(ins) + Applied(source, start, rest)
    decreases |ins|
  {
    hide Applied, Applicable;
    var edits := Inserts(start, ins) + rest;
    if ins == [] {
      assert edits == rest && [] + rest == rest;
      AppliedDrop(source, at, start, false, rest);
      assert source[at..start] + "" == source[at..start];
    } else {
      var text := if ins[0] == Semicolon then ";" else " nil ";
      var more := Inserts(start, ins[1..]) + rest;
      AppliedInserts(source, start, start, ins[1..], rest);
      AppliedOne(source, at, Edit(start, start, text), more);
      assert edits == [Edit(start, start, text)] + more;
      hide Inserts;
      assert source[start..start] == "" && "" + InsText(ins[1..]) == InsText(ins[1..]);
      Associate(source[at..start], text, InsText(ins[1..]), Applied(source, start, rest));
    }
  }

  // ------------------------------------------------------------------ the two orders agree

  /** The plan's edits from token `k` on, front to back. */
  function EditsFrom(tokens: seq<Token>, k: nat, plan: seq<Mark>): (r: seq<Edit>)
    requires k <= |plan|
    decreases |plan| - k
  {
    if k == |plan| then [] else MarkEdits(tokens, k, plan[k]) + EditsFrom(tokens, k + 1, plan)
  }

  lemma {:induction false} FrontAndBack(tokens: seq<Token>, k: nat, plan: seq<Mark>)
    requires k <= |plan|
    ensures PlanEdits(tokens, plan[..k]) + EditsFrom(tokens, k, plan) == PlanEdits(tokens, plan)
    decreases |plan| - k
  {
    hide MarkEdits, PlanEdits;
    if k == |plan| {
      assert plan[..k] == plan;
    } else {
      FrontAndBack(tokens, k + 1, plan);
      PlanEditsStep(tokens, k, plan);
      var a, b, c := PlanEdits(tokens, plan[..k]), MarkEdits(tokens, k, plan[k]), EditsFrom(tokens, k + 1, plan);
      assert a + b + c == a + (b + c);
    }
  }

  lemma {:induction false} PlanEditsStep(tokens: seq<Token>, k: nat, plan: seq<Mark>)
    requires k < |plan|
    ensures PlanEdits(tokens, plan[..k + 1]) == PlanEdits(tokens, plan[..k]) + MarkEdits(tokens, k, plan[k])
  {
    hide MarkEdits;
    assert plan[..k + 1][..k] == plan[..k];
  }

  /** Insertions pending before token `k`, then the edits from there, are the text edits. */
  lemma {:induction false} EditsFromIsText(tokens: seq<Token>, k: nat, plan: seq<Mark>, ins: seq<Kind>)
    requires k <= |plan| < |tokens| && Lands(tokens[k..|plan|], ins, plan[k..])
    ensures Inserts(tokens[k].start, ins) + EditsFrom(tokens, k, plan) == TextEdits(tokens[k..|plan|], ins, plan[k..])
    decreases |plan| - k
  {
    hide Inserts, MarkEdits, TextEdits, EditsFrom, Lands;
    var ts, ps := tokens[k..|plan|], plan[k..];
    if k == |plan| {
      LastEdits(tokens, plan, ins);
    } else {
      assert ts[0] == tokens[k] && ts[1..] == tokens[k + 1..|plan|] && ps[1..] == plan[k + 1..];
      LandsRest(ts, ins, ps);
      EditsFromIsText(tokens, k + 1, plan, InsOf(plan[k]));
      EditsUnfold(ts, ins, ps);
      MarkSplits(tokens, k, plan[k]);
      EditsFromStep(tokens, k, plan);
      var drop := if plan[k].drop then [Edit(tokens[k].start, tokens[k].end, " ")] else [];
      Regroup(Inserts(tokens[k].start, ins), [], drop, Inserts(tokens[k + 1].start, InsOf(plan[k])),
        EditsFrom(tokens, k + 1, plan));
      assert Inserts(tokens[k].start, ins) + [] == Inserts(tokens[k].start, ins);
    }
  }

  lemma {:induction false} LastEdits(tokens: seq<Token>, plan: seq<Mark>, ins: seq<Kind>)
    requires |plan| < |tokens| && Lands(tokens[|plan|..|plan|], ins, plan[|plan|..])
    ensures Inserts(tokens[|plan|].start, ins) + EditsFrom(tokens, |plan|, plan) ==
      TextEdits(tokens[|plan|..|plan|], ins, plan[|plan|..])
  {
    hide Inserts;
    NoInserts(tokens[|plan|].start);
  }

  lemma {:induction false} NoInserts(at: nat)
    ensures Inserts(at, []) == []
  {
  }

  lemma {:induction false} EditsFromStep(tokens: seq<Token>, k: nat, plan: seq<Mark>)
    requires k < |plan|
    ensures EditsFrom(tokens, k, plan) == MarkEdits(tokens, k, plan[k]) + EditsFrom(tokens, k + 1, plan)
  {
  }

  lemma {:induction false} MarkSplits(tokens: seq<Token>, k: nat, m: Mark)
    requires k + 1 < |tokens|
    ensures MarkEdits(tokens, k, m) ==
            (if m.drop then [Edit(tokens[k].start, tokens[k].end, " ")]
              else []) + Inserts(tokens[k + 1].start, InsOf(m))
  {
    var next := tokens[k + 1].start;
    assert Inserts(next, [NIL]) == [Edit(next, next, " nil ")];
    assert Inserts(next, [Semicolon]) == [Edit(next, next, ";")];
    assert [Semicolon, NIL][1..] == [NIL];
    assert Inserts(next, [Semicolon, NIL]) == [Edit(next, next, ";"), Edit(next, next, " nil ")];
  }
}
