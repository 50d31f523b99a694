/** Static shapes of record literals, read off the tokens by a scan with three bracket counters. */
module RecordShapes {
  import opened Tokens
  import opened Grammar

  /** A field and the index of the token that names it. */
  datatype Field = Field(name: string, at: nat)

  /** The shape of a field whose value is a record itself. */
  datatype Shape = Shape(field: Field, fields: seq<Field>, nested: seq<Shape>)

  datatype DirectRecord = DirectRecord(fields: seq<Field>, nested: seq<Shape>, duplicates: bool, closing: nat)


  // ------------------------------------------------------------------ specification

  function SkipLines(ks: seq<Kind>, i: nat): (j: nat)
    ensures j >= i
    decreases |ks| - i
  {
    if i < |ks| && ks[i] == Newline then SkipLines(ks, i + 1) else i
  }

  datatype Scan = Stop | Item(next: nat) | Closed(at: nat)

  /** From inside a value to the separator after it or to the closing brace of the record. */
  function ScanValue(ks: seq<Kind>, i: nat, round: nat, square: nat, curly: nat): (r: Scan)
    ensures r.Item? ==> i < r.next <= |ks|
    ensures r.Closed? ==> i <= r.at < |ks| && ks[r.at] == CloseCurly
    decreases |ks| - i
  {
    if i >= |ks| then Stop
    else
      match ks[i]
      case OpenRound => ScanValue(ks, i + 1, round + 1, square, curly)
      case OpenSquare => ScanValue(ks, i + 1, round, square + 1, curly)
      case OpenCurly => ScanValue(ks, i + 1, round, square, curly + 1)
      case CloseRound => if round == 0 then Stop else ScanValue(ks, i + 1, round - 1, square, curly)
      case CloseSquare => if square == 0 then Stop else ScanValue(ks, i + 1, round, square - 1, curly)
      case CloseCurly => if curly > 0 then ScanValue(ks, i + 1, round, square, curly - 1) else Closed(i)
      case End => Stop
      case Comma => if round == 0 && square == 0 && curly == 0 then Item(i + 1)
        else ScanValue(ks, i + 1, round, square, curly)
      case Newline => if round == 0 && square == 0 && curly == 0 then Item(i + 1)
        else ScanValue(ks, i + 1, round, square, curly)
      case _ => ScanValue(ks, i + 1, round, square, curly)
  }

  predicate HasName(fields: seq<Field>, name: string) {
    exists i :: 0 <= i < |fields| && fields[i].name == name
  }

  predicate EndsValue(k: Kind) {
    k == Newline || k == Comma || k == CloseCurly || k == End
  }

  predicate FollowsChild(k: Kind) {
    k == Comma || k == Newline || k == CloseCurly
  }

  /** A field name, its colon and the start of a value. */
  predicate StartsMember(ks: seq<Kind>, j: nat) {
    j + 2 < |ks| && IsNameKind(ks[j]) && ks[j + 1] == Operator(":") && !EndsValue(ks[j + 2])
  }

  function Finished(fields: seq<Field>, nested: seq<Shape>, duplicates: bool, closing: nat): (r: DirectRecord) {
    DirectRecord(fields, if duplicates then [] else nested, duplicates, closing)
  }

  function RecordAt(ks: seq<Kind>, open: nat, depth: nat): (r: Option<DirectRecord>)
    decreases depth, 2
  {
    if open >= |ks| || ks[open] != OpenCurly then None else Members(ks, open + 1, depth, Partial([], [], false))
  }

  /** What is known of a record while its members are read. */
  datatype Partial = Partial(fields: seq<Field>, nested: seq<Shape>, duplicates: bool)

  datatype MemberStep = Bad | Done(closing: nat, p: Partial) | More(next: nat, p: Partial)

  /** A new member: its field, and its shape if it has one that counts. */
  function Added(ks: seq<Kind>, j: nat, child: Option<DirectRecord>, p: Partial): (r: Option<Partial>)
    requires StartsMember(ks, j)
  {
    var field := Field(ks[j].name, j);
    if HasName(p.fields, field.name) then Some(p.(duplicates := true))
    else
      var q := p.(fields := p.fields + [field]);
      if child.None? || child.value.duplicates then Some(q)
      else if child.value.closing + 1 >= |ks| then None
      else if FollowsChild(ks[child.value.closing + 1]) then
        Some(q.(nested := p.nested + [Shape(field, child.value.fields, child.value.nested)]))
      else Some(q)
  }

  function MemberAt(ks: seq<Kind>, j: nat, depth: nat, p: Partial): (r: MemberStep)
    requires j < |ks|
    ensures r.More? ==> j < r.next <= |ks|
    decreases depth, 0, 1
  {
    if ks[j] == CloseCurly then Done(j, p)
    else if !StartsMember(ks, j) then Bad
    else
      var child := if !HasName(p.fields, ks[j].name) && depth > 0 then RecordAt(ks, j + 2, depth - 1) else None;
      var q := Added(ks, j, child, p);
      var scan := ScanValue(ks, j + 2, 0, 0, 0);
      if q.None? || scan.Stop? then Bad
      else if scan.Closed? then Done(scan.at, q.value)
      else More(scan.next, q.value)
  }

  function Members(ks: seq<Kind>, i: nat, depth: nat, p: Partial): (r: Option<DirectRecord>)
    decreases depth, 1, if i <= |ks| then |ks| - i else 0
  {
    var j := SkipLines(ks, i);
    if j >= |ks| then None
    else
      match MemberAt(ks, j, depth, p)
      case Bad => None
      case Done(closing, q) => Some(Finished(q.fields, q.nested, q.duplicates, closing))
      case More(next, q) => Members(ks, next, depth, q)
  }

  // ------------------------------------------------------------------ brackets

  predicate IsOpen(k: Kind) {
    k == OpenRound || k == OpenSquare || k == OpenCurly
  }

  predicate IsClose(k: Kind) {
    k == CloseRound || k == CloseSquare || k == CloseCurly
  }

  function CloserOf(k: Kind): (r: Kind) {
    if k == OpenRound then CloseRound else if k == OpenSquare then CloseSquare else CloseCurly
  }

  /** The brackets open before token `hi`, counting from token `lo`; none if one was closed wrongly. */
  function Stack(ks: seq<Kind>, lo: nat, hi: nat): (r: Option<seq<Kind>>)
    requires lo <= hi <= |ks|
    ensures r.Some? ==> forall i :: 0 <= i < |r.value| ==> IsOpen(r.value[i])
    decreases hi - lo
  {
    if lo == hi then Some([])
    else
      var before := Stack(ks, lo, hi - 1);
      var k := ks[hi - 1];
      if before.None? then None
      else if IsOpen(k) then Some(before.value + [k])
      else if !IsClose(k) then before
      else if before.value != [] && CloserOf(before.value[|before.value| - 1]) == k then
        Some(before.value[..|before.value| - 1])
      else None
  }

  /** The bracket at `close` matches the one at `open`. */
  ghost predicate Matches(ks: seq<Kind>, open: nat, close: nat) {
    && open < close < |ks| && IsOpen(ks[open])
    && Stack(ks, open, close + 1) == Some([])
    && forall k :: open < k <= close ==> Stack(ks, open, k).Some? && Stack(ks, open, k).value != []
  }

  function Count(stack: seq<Kind>, k: Kind): (n: nat) {
    if stack == [] then 0 else Count(stack[..|stack| - 1], k) + if stack[|stack| - 1] == k then 1 else 0
  }

  lemma {:induction false} CountZero(stack: seq<Kind>)
    requires forall i :: 0 <= i < |stack| ==> IsOpen(stack[i])
    requires Count(stack, OpenRound) == 0 && Count(stack, OpenSquare) == 0 && Count(stack, OpenCurly) == 0
    ensures stack == []
  {
    assert stack != [] ==> IsOpen(stack[|stack| - 1]);
  }

  lemma {:induction false} CountStep(stack: seq<Kind>, k: Kind, x: Kind)
    ensures Count(stack + [k], x) == Count(stack, x) + if k == x then 1 else 0
  {
    assert (stack + [k])[..|stack|] == stack;
  }

  /** The brackets opened inside a value of the record that opens at `open`. */
  ghost predicate Inside(ks: seq<Kind>, open: nat, i: nat, above: seq<Kind>)
    requires open <= i <= |ks|
  {
    Stack(ks, open, i) == Some([OpenCurly] + above)
  }

  /** What the scan may end with. */
  ghost predicate StopsRight(ks: seq<Kind>, open: nat, close: nat, i: nat, r: Scan)
    requires open < close < |ks|
  {
    && (r.Closed? ==> r.at == close)
    && (r.Item? ==> open < r.next <= close && Inside(ks, open, r.next, []))
    && (r.Stop? ==> exists e :: i <= e < close && ks[e] == End)
  }

  lemma {:induction false} StopsLater(ks: seq<Kind>, open: nat, close: nat, i: nat, r: Scan)
    requires open < close < |ks| && StopsRight(ks, open, close, i + 1, r)
    ensures StopsRight(ks, open, close, i, r)
  {
  }

  /** On matched brackets the counters agree with the stack: the scan stops exactly at separators of
      this record and at its own closing brace. */
  lemma {:induction false} ScanStops(ks: seq<Kind>, open: nat, close: nat, i: nat, above: seq<Kind>)
    requires Matches(ks, open, close) && open < i <= close < |ks| && Inside(ks, open, i, above)
    ensures StopsRight(ks, open, close, i, ScanValue(ks, i, Count(above, OpenRound), Count(above, OpenSquare),
      Count(above, OpenCurly)))
    decreases close - i
  {
    hide ScanValue, Count, Inside, Matches, StopsRight;
    var k := ks[i];
    var round, square, curly := Count(above, OpenRound), Count(above, OpenSquare), Count(above, OpenCurly);
    var r := ScanValue(ks, i, round, square, curly);
    ScanUnfolds(ks, i, round, square, curly);
    if IsOpen(k) {
      OpenStep(ks, open, close, i, above);
      CountAll(above, k);
      ScanStops(ks, open, close, i + 1, above + [k]);
      StopsLater(ks, open, close, i, r);
    } else if IsClose(k) {
      CloseStep(ks, open, close, i, above);
      if above == [] {
        NoCount(OpenCurly);
        LastIs(ks, open, close, i);
        StopsHere(ks, open, close, i, r);
      } else {
        var rest, top := above[..|above| - 1], above[|above| - 1];
        assert above == rest + [top];
        CountAll(rest, top);
        ScanStops(ks, open, close, i + 1, rest);
        StopsLater(ks, open, close, i, r);
      }
    } else {
      OtherStep(ks, open, close, i, above);
      if k == End {
        StopsHere(ks, open, close, i, r);
      } else if (k == Comma || k == Newline) && round == 0 && square == 0 && curly == 0 {
        OpensOnly(ks, open, i, above);
        CountZero(above);
        StopsHere(ks, open, close, i, r);
      } else {
        ScanStops(ks, open, close, i + 1, above);
        StopsLater(ks, open, close, i, r);
      }
    }
  }

  lemma {:induction false} StopsHere(ks: seq<Kind>, open: nat, close: nat, i: nat, r: Scan)
    requires open < i <= close < |ks|
    requires (r == Closed(i) && i == close) || (r == Stop && ks[i] == End && i < close) ||
             (r == Item(i + 1) && i < close && Inside(ks, open, i + 1, []))
    ensures StopsRight(ks, open, close, i, r)
  {
  }

  lemma {:induction false} OpenStep(ks: seq<Kind>, open: nat, close: nat, i: nat, above: seq<Kind>)
    requires Matches(ks, open, close) && open < i <= close < |ks| && IsOpen(ks[i]) && Inside(ks, open, i, above)
    ensures i < close && Inside(ks, open, i + 1, above + [ks[i]])
  {
    NotLast(ks, open, close, i);
    assert [OpenCurly] + above + [ks[i]] == [OpenCurly] + (above + [ks[i]]);
  }

  lemma {:induction false} OtherStep(ks: seq<Kind>, open: nat, close: nat, i: nat, above: seq<Kind>)
    requires Matches(ks, open, close) && open < i <= close < |ks| && !IsOpen(ks[i]) && !IsClose(ks[i]) &&
      Inside(ks, open, i, above)
    ensures i < close && Inside(ks, open, i + 1, above)
  {
    NotLast(ks, open, close, i);
    assert [OpenCurly] + above + [] == [OpenCurly] + above;
  }

  lemma {:induction false} OpensOnly(ks: seq<Kind>, open: nat, i: nat, above: seq<Kind>)
    requires open <= i <= |ks| && Inside(ks, open, i, above)
    ensures forall j :: 0 <= j < |above| ==> IsOpen(above[j])
  {
    hide Stack;
    var stack := [OpenCurly] + above;
    forall j | 0 <= j < |above| ensures IsOpen(above[j]) {
      assert above[j] == stack[j + 1];
    }
  }

  lemma {:induction false} NoCount(k: Kind)
    ensures Count([], k) == 0
  {
  }

  lemma {:induction false} CountAll(stack: seq<Kind>, k: Kind)
    ensures Count(stack + [k], OpenRound) == Count(stack, OpenRound) + if k == OpenRound then 1 else 0
    ensures Count(stack + [k], OpenSquare) == Count(stack, OpenSquare) + if k == OpenSquare then 1 else 0
    ensures Count(stack + [k], OpenCurly) == Count(stack, OpenCurly) + if k == OpenCurly then 1 else 0
  {
    CountStep(stack, k, OpenRound);
    CountStep(stack, k, OpenSquare);
    CountStep(stack, k, OpenCurly);
  }

  /** One step of the scan. */
  lemma {:induction false} ScanUnfolds(ks: seq<Kind>, i: nat, round: nat, square: nat, curly: nat)
    requires i < |ks|
    ensures var r := ScanValue(ks, i, round, square, curly);
            var k := ks[i];
            if k == OpenRound then r == ScanValue(ks, i + 1, round + 1, square, curly)
            else if k == OpenSquare then r == ScanValue(ks, i + 1, round, square + 1, curly)
            else if k == OpenCurly then r == ScanValue(ks, i + 1, round, square, curly + 1)
            else if k == CloseRound then if round == 0 then r == Stop
              else r == ScanValue(ks, i + 1, round - 1, square, curly)
            else if k == CloseSquare then if square == 0 then r == Stop
              else r == ScanValue(ks, i + 1, round, square - 1, curly)
            else if k == CloseCurly then if curly > 0 then r == ScanValue(ks, i + 1, round, square, curly - 1)
              else r == Closed(i)
            else if k == End then r == Stop
            else if (k == Comma || k == Newline) && round == 0 && square == 0 && curly == 0 then r == Item(i + 1)
            else r == ScanValue(ks, i + 1, round, square, curly)
  {
  }

  /** Only the closing brace itself empties the stack. */
  lemma {:induction false} NotLast(ks: seq<Kind>, open: nat, close: nat, i: nat)
    requires Matches(ks, open, close) && open < i <= close && !IsClose(ks[i])
    ensures i < close && Stack(ks, open, i + 1) ==
      Some(Stack(ks, open, i).value + if IsOpen(ks[i]) then [ks[i]] else [])
  {
    assert Stack(ks, open, i).Some? && Stack(ks, open, i).value != [];
    assert Stack(ks, open, i).value + [] == Stack(ks, open, i).value;
  }

  lemma {:induction false} CloseStep(ks: seq<Kind>, open: nat, close: nat, i: nat, above: seq<Kind>)
    requires Matches(ks, open, close) && open < i <= close && IsClose(ks[i]) && Inside(ks, open, i, above)
    ensures if above == [] then ks[i] == CloseCurly
            else
              && i < close && CloserOf(above[|above| - 1]) == ks[i] && IsOpen(above[|above| - 1])
              && Inside(ks, open, i + 1, above[..|above| - 1])
  {
    var stack := [OpenCurly] + above;
    assert Stack(ks, open, i + 1).Some?;
    if above == [] {
      assert stack[|stack| - 1] == OpenCurly;
    } else {
      assert stack[|stack| - 1] == above[|above| - 1] && stack[..|stack| - 1] == [OpenCurly] + above[..|above| - 1];
    }
  }

  lemma {:induction false} LastIs(ks: seq<Kind>, open: nat, close: nat, i: nat)
    requires Matches(ks, open, close) && open < i <= close && IsClose(ks[i]) && Inside(ks, open, i, [])
    ensures i == close
  {
    assert [OpenCurly] + [] == [OpenCurly];
    assert Stack(ks, open, i + 1) == Some([]) || Stack(ks, open, i + 1) == None;
  }

  // ------------------------------------------------------------------ what a record holds

  /** Distinct names at increasing positions between the braces. */
  ghost predicate FieldsInOrder(ks: seq<Kind>, fields: seq<Field>, lo: nat, hi: nat) {
    && (forall i :: 0 <= i < |fields| ==>
      lo <= fields[i].at < hi && fields[i].at < |ks| && ks[fields[i].at] == Identifier(fields[i].name))
    && (forall i, j :: 0 <= i < j < |fields| ==> fields[i].at < fields[j].at && fields[i].name != fields[j].name)
  }

  /** Each nested shape belongs to a retained field and is the whole record that is its value. */
  ghost predicate ShapesUnder(ks: seq<Kind>, nested: seq<Shape>, fields: seq<Field>, depth: nat) {
    forall i :: 0 <= i < |nested| ==>
      && nested[i].field in fields && depth > 0
      && var child := RecordAt(ks, nested[i].field.at + 2, depth - 1);
         child.Some? && !child.value.duplicates && nested[i].fields == child.value.fields &&
           nested[i].nested == child.value.nested
  }

  ghost predicate Good(ks: seq<Kind>, p: Partial, depth: nat, lo: nat, hi: nat) {
    FieldsInOrder(ks, p.fields, lo, hi) && ShapesUnder(ks, p.nested, p.fields, depth)
  }

  lemma {:induction false} AddedIsGood(ks: seq<Kind>, j: nat, depth: nat, p: Partial, lo: nat, hi: nat)
    requires lo <= j < hi && StartsMember(ks, j) && Good(ks, p, depth, lo, j)
    requires var child := if !HasName(p.fields, ks[j].name) && depth > 0 then RecordAt(ks, j + 2, depth - 1) else None;
             Added(ks, j, child, p).Some?
    ensures var child := if !HasName(p.fields, ks[j].name) && depth > 0 then RecordAt(ks, j + 2, depth - 1) else None;
            var q := Added(ks, j, child, p).value;
            Good(ks, q, depth, lo, hi) && (p.duplicates ==> q.duplicates)
  {
    hide RecordAt, IsReserved;
    var field := Field(ks[j].name, j);
    assert ks[j] == Identifier(field.name);
    MoreFields(ks, p.fields, field, lo, j, hi);
    if !HasName(p.fields, field.name) {
      ShapesGrow(ks, p.nested, p.fields, p.fields + [field], depth);
      assert field in p.fields + [field];
    }
  }

  lemma {:induction false} MembersFacts(ks: seq<Kind>, i: nat, depth: nat, p: Partial, lo: nat)
    requires lo <= i && Good(ks, p, depth, lo, i) && Members(ks, i, depth, p).Some?
    ensures var r := Members(ks, i, depth, p).value;
            && i <= r.closing < |ks| && ks[r.closing] == CloseCurly
            && FieldsInOrder(ks, r.fields, lo, r.closing) && ShapesUnder(ks, r.nested, r.fields, depth)
            && (r.duplicates ==> r.nested == []) && (p.duplicates ==> r.duplicates)
    decreases if i <= |ks| then |ks| - i else 0
  {
    hide RecordAt, ScanValue, FieldsInOrder, ShapesUnder, StartsMember, Added;
    var j := SkipLines(ks, i);
    FieldsWiden(ks, p.fields, lo, i, j);
    var step := MemberAt(ks, j, depth, p);
    NoShapes(ks, depth);
    if ks[j] != CloseCurly {
      assert StartsMember(ks, j);
      StartsBelow(ks, j);
      AddedIsGood(ks, j, depth, p, lo, j + 2);
      if step.Done? {
        FieldsWiden(ks, step.p.fields, lo, j + 2, step.closing);
        NoShapesOf(ks, step.p.fields, depth);
      } else {
        FieldsWiden(ks, step.p.fields, lo, j + 2, step.next);
        MembersFacts(ks, step.next, depth, step.p, lo);
      }
    } else {
      NoShapesOf(ks, p.fields, depth);
    }
  }

  lemma {:induction false} StartsBelow(ks: seq<Kind>, j: nat)
    requires StartsMember(ks, j)
    ensures j + 2 < |ks|
  {
  }

  lemma {:induction false} NoShapes(ks: seq<Kind>, depth: nat)
    ensures ShapesUnder(ks, [], [], depth)
  {
  }

  lemma {:induction false} NoShapesOf(ks: seq<Kind>, fields: seq<Field>, depth: nat)
    ensures ShapesUnder(ks, [], fields, depth)
  {
  }

  lemma {:induction false} FieldsWiden(ks: seq<Kind>, fields: seq<Field>, lo: nat, hi: nat, wider: nat)
    requires FieldsInOrder(ks, fields, lo, hi) && hi <= wider
    ensures FieldsInOrder(ks, fields, lo, wider)
  {
  }

  lemma {:induction false} MoreFields(ks: seq<Kind>, fields: seq<Field>, field: Field, lo: nat, i: nat, hi: nat)
    requires FieldsInOrder(ks, fields, lo, i) && lo <= i <= field.at < hi && field.at < |ks| &&
      ks[field.at] == Identifier(field.name)
    ensures FieldsInOrder(ks, fields, lo, hi)
    ensures !HasName(fields, field.name) ==> FieldsInOrder(ks, fields + [field], lo, hi)
  {
  }

  lemma {:induction false} ShapesGrow(ks: seq<Kind>, nested: seq<Shape>, fields: seq<Field>, all: seq<Field>,
      depth: nat)
    requires ShapesUnder(ks, nested, fields, depth) && fields <= all
    ensures ShapesUnder(ks, nested, all, depth)
  {
    hide RecordAt;
    forall i | 0 <= i < |nested| ensures nested[i].field in all {
      StillIn(fields, all, nested[i].field);
    }
  }

  lemma {:induction false} StillIn(fields: seq<Field>, all: seq<Field>, x: Field)
    requires x in fields && fields <= all
    ensures x in all
  {
    var k :| 0 <= k < |fields| && fields[k] == x;
    assert all[k] == x;
  }

  /** Nesting of shapes below a record. */
  function Nesting(nested: seq<Shape>): (n: nat)
    decreases nested
  {
    if nested == [] then 0
    else
      var last := 1 + Nesting(nested[|nested| - 1].nested);
      var before := Nesting(nested[..|nested| - 1]);
      if last > before then last else before
  }

  ghost predicate ShallowAll(nested: seq<Shape>, depth: nat) {
    forall i :: 0 <= i < |nested| ==> Nesting(nested[i].nested) < depth
  }

  lemma {:induction false} NestingBound(nested: seq<Shape>, depth: nat)
    requires ShallowAll(nested, depth)
    ensures Nesting(nested) <= depth
  {
    if nested != [] {
      var n := |nested| - 1;
      assert forall i :: 0 <= i < n ==> nested[..n][i] == nested[i];
      NestingBound(nested[..n], depth);
    }
  }

  /** The scan of a record: fields are distinct and in source order, nested shapes stand only under
      retained fields and only when no field repeats, and nesting keeps to the depth asked for. */
  lemma {:induction false} RecordFacts(ks: seq<Kind>, open: nat, depth: nat)
    requires RecordAt(ks, open, depth).Some?
    ensures var r := RecordAt(ks, open, depth).value;
            && open < r.closing < |ks| && ks[open] == OpenCurly && ks[r.closing] == CloseCurly
            && FieldsInOrder(ks, r.fields, open + 1, r.closing) && ShapesUnder(ks, r.nested, r.fields, depth)
            && (r.duplicates ==> r.nested == []) && Nesting(r.nested) <= depth
    decreases depth
  {
    hide Members, Nesting;
    NoShapes(ks, depth);
    MembersFacts(ks, open + 1, depth, Partial([], [], false), open + 1);
    var r := RecordAt(ks, open, depth).value;
    hide RecordAt, FieldsInOrder;
    forall i | 0 <= i < |r.nested| ensures Nesting(r.nested[i].nested) < depth {
      RecordFacts(ks, r.nested[i].field.at + 2, depth - 1);
    }
    NestingBound(r.nested, depth);
  }

  // ------------------------------------------------------------------ the matching brace

  /** Skipping newlines stays directly inside the record. */
  lemma {:induction false} SkipInside(ks: seq<Kind>, open: nat, close: nat, i: nat)
    requires Matches(ks, open, close) && open < i <= close && Inside(ks, open, i, [])
    ensures var j := SkipLines(ks, i); i <= j <= close && Inside(ks, open, j, [])
    decreases close - i
  {
    if ks[i] == Newline {
      NotLast(ks, open, close, i);
      assert [OpenCurly] + [] == [OpenCurly];
      SkipInside(ks, open, close, i + 1);
    }
  }

  /** A name and a colon are no brackets. */
  lemma {:induction false} MemberInside(ks: seq<Kind>, open: nat, close: nat, j: nat)
    requires Matches(ks, open, close) && open < j <= close && Inside(ks, open, j, []) && StartsMember(ks, j)
    ensures j + 2 <= close && Inside(ks, open, j + 2, [])
  {
    hide IsReserved;
    NotLast(ks, open, close, j);
    assert [OpenCurly] + [] == [OpenCurly];
    NotLast(ks, open, close, j + 1);
  }

  /** All fields stand directly inside the record. */
  ghost predicate DirectFields(ks: seq<Kind>, fields: seq<Field>, open: nat, close: nat)
    requires open < close < |ks|
  {
    forall k :: 0 <= k < |fields| ==> open < fields[k].at <= close && Inside(ks, open, fields[k].at, [])
  }

  lemma {:induction false} MemberMatches(ks: seq<Kind>, open: nat, close: nat, j: nat, depth: nat, p: Partial)
    requires Matches(ks, open, close) && open < j <= close < |ks| && Inside(ks, open, j, []) &&
      DirectFields(ks, p.fields, open, close)
    ensures var step := MemberAt(ks, j, depth, p);
            && (step.Done? ==> step.closing == close && DirectFields(ks, step.p.fields, open, close))
            && (step.More? ==>
              step.next <= close && Inside(ks, open, step.next, []) && DirectFields(ks, step.p.fields, open, close))
  {
    hide RecordAt, ScanValue, IsReserved, Matches, Inside;
    if ks[j] == CloseCurly {
      LastIs(ks, open, close, j);
    } else if StartsMember(ks, j) {
      MemberInside(ks, open, close, j);
      NoCount(OpenRound);
      NoCount(OpenSquare);
      NoCount(OpenCurly);
      ScanStops(ks, open, close, j + 2, []);
    }
  }

  lemma {:induction false} MembersMatch(ks: seq<Kind>, open: nat, close: nat, i: nat, depth: nat, p: Partial)
    requires Matches(ks, open, close) && open < i <= close < |ks| && Inside(ks, open, i, []) &&
      DirectFields(ks, p.fields, open, close)
    ensures var r := Members(ks, i, depth, p);
            r.Some? ==> r.value.closing == close && DirectFields(ks, r.value.fields, open, close)
    decreases close - i
  {
    hide MemberAt, Matches, Inside, DirectFields;
    var j := SkipLines(ks, i);
    SkipInside(ks, open, close, i);
    MemberMatches(ks, open, close, j, depth, p);
    var step := MemberAt(ks, j, depth, p);
    if step.More? {
      MembersMatch(ks, open, close, step.next, depth, step.p);
    }
  }

  /** On matched brackets the scan returns the brace that matches its opening one, and every field it
      lists stands directly inside that record. */
  lemma {:induction false} RecordMatchesBrace(ks: seq<Kind>, open: nat, close: nat, depth: nat)
    requires Matches(ks, open, close) && RecordAt(ks, open, depth).Some?
    ensures var r := RecordAt(ks, open, depth).value; r.closing == close && DirectFields(ks, r.fields, open, close)
  {
    hide Members;
    assert Stack(ks, open, open) == Some([]);
    assert [] + [OpenCurly] == [OpenCurly] && [OpenCurly] + [] == [OpenCurly];
    assert Inside(ks, open, open + 1, []);
    MembersMatch(ks, open, close, open + 1, depth, Partial([], [], false));
  }

  // ------------------------------------------------------------------ repeated fields

  /** Where the members of a record start, repeated names included. */
  function Starts(ks: seq<Kind>, i: nat): (r: seq<nat>)
    decreases if i <= |ks| then |ks| - i else 0
  {
    var j := SkipLines(ks, i);
    if j >= |ks| || ks[j] == CloseCurly || !StartsMember(ks, j) then []
    else
      match ScanValue(ks, j + 2, 0, 0, 0)
      case Item(next) => [j] + Starts(ks, next)
      case _ => [j]
  }

  /** The fields so far, extended by the first occurrence of every further name. */
  function FirstOfEach(ks: seq<Kind>, starts: seq<nat>, fields: seq<Field>): (r: seq<Field>) {
    if starts == [] then fields
    else
      var j := starts[0];
      var name := if j < |ks| && ks[j].Identifier? then ks[j].name else "";
      FirstOfEach(ks, starts[1..], if HasName(fields, name) then fields else fields + [Field(name, j)])
  }

  lemma {:induction false} FirstsAtMost(ks: seq<Kind>, starts: seq<nat>, fields: seq<Field>)
    ensures |fields| <= |FirstOfEach(ks, starts, fields)| <= |fields| + |starts|
    decreases |starts|
  {
    if starts != [] {
      var j := starts[0];
      var name := if j < |ks| && ks[j].Identifier? then ks[j].name else "";
      FirstsAtMost(ks, starts[1..], if HasName(fields, name) then fields else fields + [Field(name, j)]);
    }
  }

  lemma {:induction false} AddedFields(ks: seq<Kind>, j: nat, child: Option<DirectRecord>, p: Partial)
    requires StartsMember(ks, j) && Added(ks, j, child, p).Some?
    ensures var q := Added(ks, j, child, p).value;
            var known := HasName(p.fields, ks[j].name);
            q.fields == (if known then p.fields else p.fields + [Field(ks[j].name, j)]) &&
              q.duplicates == (p.duplicates || known)
  {
  }

  lemma {:induction false} MembersList(ks: seq<Kind>, i: nat, depth: nat, p: Partial)
    requires Members(ks, i, depth, p).Some?
    ensures var r := Members(ks, i, depth, p).value;
            && r.fields == FirstOfEach(ks, Starts(ks, i), p.fields)
            && (r.duplicates <==> p.duplicates || |r.fields| < |p.fields| + |Starts(ks, i)|)
    decreases if i <= |ks| then |ks| - i else 0
  {
    hide RecordAt, ScanValue, IsReserved, Added;
    var j := SkipLines(ks, i);
    if ks[j] != CloseCurly {
      var child := if !HasName(p.fields, ks[j].name) && depth > 0 then RecordAt(ks, j + 2, depth - 1) else None;
      AddedFields(ks, j, child, p);
      var q := Added(ks, j, child, p).value;
      var step := MemberAt(ks, j, depth, p);
      if step.More? {
        MembersList(ks, step.next, depth, q);
        var rest := Starts(ks, step.next);
        assert ([j] + rest)[1..] == rest;
        FirstsAtMost(ks, rest, q.fields);
      } else {
        assert [j][1..] == [];
      }
    }
  }

  /** The fields are the first occurrence of every member name, in order; a record is marked as
      repeating exactly when some member is not a first occurrence. */
  lemma {:induction false} RecordListsMembers(ks: seq<Kind>, open: nat, depth: nat)
    requires RecordAt(ks, open, depth).Some?
    ensures var r := RecordAt(ks, open, depth).value;
            && r.fields == FirstOfEach(ks, Starts(ks, open + 1), [])
            && (r.duplicates <==> |r.fields| < |Starts(ks, open + 1)|)
  {
    hide Members;
    MembersList(ks, open + 1, depth, Partial([], [], false));
  }

  // ------------------------------------------------------------------ the scan

  method ScanToEnd(ks: seq<Kind>, from: nat) returns (r: Scan)
    ensures r == ScanValue(ks, from, 0, 0, 0)
  {
    hide ScanValue;
    var index := from;
    var round: nat, square: nat, curly: nat := 0, 0, 0;
    while index < |ks|
      invariant ScanValue(ks, index, round, square, curly) == ScanValue(ks, from, 0, 0, 0)
      decreases |ks| - index
    {
      ScanUnfolds(ks, index, round, square, curly);
      var k := ks[index];
      if k == End || (k == CloseRound && round == 0) || (k == CloseSquare && square == 0) {
        return Stop;
      } else if k == CloseCurly && curly == 0 {
        return Closed(index);
      } else if (k == Comma || k == Newline) && round == 0 && square == 0 && curly == 0 {
        return Item(index + 1);
      } else if k == OpenRound {
        round := round + 1;
      } else if k == OpenSquare {
        square := square + 1;
      } else if k == OpenCurly {
        curly := curly + 1;
      } else if k == CloseRound {
        round := round - 1;
      } else if k == CloseSquare {
        square := square - 1;
      } else if k == CloseCurly {
        curly := curly - 1;
      }
      index := index + 1;
    }
    ScanPastEnd(ks, index, round, square, curly);
    r := Stop;
  }

  lemma {:induction false} ScanPastEnd(ks: seq<Kind>, i: nat, round: nat, square: nat, curly: nat)
    requires i >= |ks|
    ensures ScanValue(ks, i, round, square, curly) == Stop
  {
  }

  method SkipNewlines(ks: seq<Kind>, from: nat) returns (index: nat)
    ensures index == SkipLines(ks, from)
  {
    index := from;
    while index < |ks| && ks[index] == Newline
      invariant SkipLines(ks, index) == SkipLines(ks, from)
      decreases |ks| - index
    {
      index := index + 1;
    }
  }

  /** Reads the fields of the record that opens at `open`, descending into children while depth remains. */
  method DirectRecordFields(ks: seq<Kind>, open: nat, depth: nat) returns (r: Option<DirectRecord>)
    ensures r == RecordAt(ks, open, depth)
    decreases depth, 1
  {
    hide MemberAt;
    if open >= |ks| || ks[open] != OpenCurly {
      return None;
    }
    var p := Partial([], [], false);
    var names: set<string> := {};
    var index := open + 1;
    while true
      invariant Members(ks, index, depth, p) == RecordAt(ks, open, depth)
      invariant forall name :: name in names <==> HasName(p.fields, name)
      decreases if index <= |ks| then |ks| - index else 0
    {
      index := SkipNewlines(ks, index);
      if index >= |ks| {
        return None;
      }
      var step := ReadMember(ks, index, depth, p, names);
      match step
      case Bad => return None;
      case Done(closing, q) => return Some(Finished(q.fields, q.nested, q.duplicates, closing));
      case More(next, q) =>
        if |q.fields| > |p.fields| {
          names := names + {q.fields[|q.fields| - 1].name};
        }
        NamesGrow(ks, index, depth, p);
        index, p := next, q;
    }
  }

  lemma {:induction false} NamesGrow(ks: seq<Kind>, j: nat, depth: nat, p: Partial)
    requires j < |ks| && MemberAt(ks, j, depth, p).More?
    ensures var q := MemberAt(ks, j, depth, p).p;
            || q.fields == p.fields
            || (|q.fields| == |p.fields| + 1 && q.fields[..|p.fields|] == p.fields)
  {
    hide RecordAt, ScanValue;
  }

  /** One member, with the shape of its value if that is a record. */
  method ReadMember(ks: seq<Kind>, j: nat, depth: nat, p: Partial, names: set<string>) returns (r: MemberStep)
    requires j < |ks| && forall name :: name in names <==> HasName(p.fields, name)
    ensures r == MemberAt(ks, j, depth, p)
    decreases depth, 0
  {
    hide RecordAt, ScanValue, IsReserved;
    if ks[j] == CloseCurly {
      return Done(j, p);
    }
    if !StartsMember(ks, j) {
      return Bad;
    }
    var field := Field(ks[j].name, j);
    var unique := field.name !in names;
    var child := None;
    if unique && depth > 0 {
      child := DirectRecordFields(ks, j + 2, depth - 1);
    }
    var q := Added(ks, j, child, p);
    if q.None? {
      return Bad;
    }
    var scan := ScanToEnd(ks, j + 2);
    match scan
    case Stop => r := Bad;
    case Closed(at) => r := Done(at, q.value);
    case Item(next) => r := More(next, q.value);
  }
}
