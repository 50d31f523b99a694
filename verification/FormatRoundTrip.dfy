/** Re-lexing formatted text gives the same tokens, and formatting twice changes nothing more. */
module FormatRoundTrip {
  import opened Tokens
  import opened Lexing
  import opened LexFacts
  import opened Tiling
  import opened Formatting

  // ------------------------------------------------------------------ new gaps lead where the old ones did

  /** Text that is not all blanks is blanks and a part that starts with something else. */
  lemma {:induction false} GapParts(g: string)
    requires !AllBlank(g)
    ensures var b, c := g[..Run(g, IsBlank)], TrimStart(g);
            g == b + c && AllBlank(b) && c != "" && !IsBlank(c[0])
  {
  }

  /** Trailing blanks matter only behind a star. */
  lemma {:induction false} TrimWalk(g: string, p: Place)
    ensures var t := Walk(TrimEnd(g), p);
            Walk(g, p) == t || (t == AtStar && Walk(g, p) == InBlock) || (t == AtSlash && Walk(g, p) == Off)
  {
    hide Walk;
    var r := TrimEnd(g);
    assert g == r + g[|r|..];
    WalkConcat(r, g[|r|..], p);
    BlankWalk(g[|r|..], Walk(r, p));
    if g[|r|..] == "" {
      assert g == r;
    }
  }

  /** Re-indenting changes nothing about where a fragment leads. */
  lemma {:induction false} IndentWalk(b: string, d: string, c: string, p: Place)
    requires AllBlank(b) && AllBlank(d) && (p == InCode || p == InBlock)
    ensures Walk(b + c, p) == Walk(d + c, p)
  {
    hide Walk;
    WalkConcat(b, c, p);
    WalkConcat(d, c, p);
    BlankWalk(b, p);
    BlankWalk(d, p);
  }

  lemma {:induction false} LaidWalk(ks: seq<Kind>, n: nat, g: string, p: Place)
    requires n <= |ks| && (p == InCode || p == InBlock)
    ensures Walk(GapText(ks, n, g), p) == Walk(g, p)
    ensures Walk(TrimEnd(GapText(ks, n, g)), p) == Walk(TrimEnd(g), p)
  {
    if AllBlank(g) {
      BlankWalk(g, p);
      BlankTrims(g);
    } else if LineStart(ks, n) {
      GapParts(g);
      var b, c := g[..Run(g, IsBlank)], TrimStart(g);
      var d := Indent(Indentation(ks, n));
      hide Walk, TrimEnd, TrimStart, Indentation;
      IndentWalk(b, d, c, p);
      TrimEndKeepsFront(b, c);
      TrimEndKeepsFront(d, c);
      IndentWalk(b, d, TrimEnd(c), p);
    }
  }

  lemma {:induction false} BlankTrims(g: string)
    requires AllBlank(g)
    ensures TrimEnd(g) == ""
  {
    if g != "" {
      BlankTrims(g[..|g| - 1]);
    }
  }

  /** In front of a line break the new gap leads where the trimmed one does, elsewhere back to code. */
  lemma {:induction false} NewGapWalk(ks: seq<Kind>, n: nat, g: string, p: Place)
    requires n < |ks| && (p == InCode || p == InBlock)
    ensures ks[n] == Newline ==> Walk(NewGap(ks, n, g), p) == Walk(TrimEnd(g), p)
    ensures ks[n] != Newline && Walk(g, p) == InCode ==> Walk(NewGap(ks, n, g), p) == InCode
  {
    LaidWalk(ks, n, g, p);
    if ks[n] != Newline && Walk(g, p) == InCode {
      if AllBlank(g) {
        BlankWalk(g, p);
        assert AllBlank(NewGap(ks, n, g)) by {
          hide Spaced;
        }
        BlankWalk(NewGap(ks, n, g), p);
      } else {
        hide Walk, GapText;
        assert GapText(ks, n, g) + "" == GapText(ks, n, g);
      }
    }
  }

  // ------------------------------------------------------------------ tokens stay apart

  /** Without a space in between, the second token's first character does not extend the first token. */
  lemma {:induction false} TightIsSafe(ks: seq<Kind>, n: nat, c: char)
    requires OperatorsApart(ks) && 0 < n < |ks| && !Spaced(ks, n) && Starts(ks[n], c)
    ensures Ends(ks[n - 1], c)
  {
    hide IsControlKeyword;
  }

  /** A gap that starts in code starts with a blank or a comment. */
  lemma {:induction false} GapStart(g: string)
    requires g != "" && Walk(g, InCode) != Off
    ensures IsBlank(g[0]) || g[0] == '/'
  {
    if After(InCode, g[0]) == Off {
      OffStays(g[1..]);
    }
  }

  /** What stands directly after token `n - 1` in the formatted text cannot extend it. */
  lemma {:induction false} NewGapEnds(ks: seq<Kind>, n: nat, g: string, t: string, rest: string, rest2: string)
    requires OperatorsApart(ks) && 0 < n < |ks| && Walk(g, InCode) != Off
    requires ks[n] == Newline || (t != "" && Starts(ks[n], t[0]))
    requires ks[n - 1].Operator? ==> EndsBefore(ks[n - 1], g + t + rest)
    ensures EndsBefore(ks[n - 1], NewGap(ks, n, g) + (if ks[n] == Newline then "\n" else t) + rest2)
  {
    var gap := NewGap(ks, n, g);
    if ks[n - 1] != Newline {
      if ks[n] == Newline {
        assert g + t + rest == g + (t + rest);
        GapEnds(ks, n, g, t + rest);
      } else if !AllBlank(g) {
        hide Spaced, Walk;
        assert gap == g + "" == g;
        GapStart(g);
        assert (g + t + rest)[0] == g[0] && (gap + t + rest2)[0] == g[0];
      } else if gap == "" {
        TightIsSafe(ks, n, t[0]);
      }
    }
  }

  /** The same for text in front of a line break or the end. */
  lemma {:induction false} GapEnds(ks: seq<Kind>, n: nat, g: string, rest: string)
    requires 0 < n <= |ks| && ks[n - 1] != Newline && Walk(g, InCode) != Off
    requires ks[n - 1].Operator? ==> EndsBefore(ks[n - 1], g + rest)
    ensures EndsBefore(ks[n - 1], TrimEnd(GapText(ks, n, g)))
  {
    if !AllBlank(g) {
      GapStart(g);
      GapFirst(g);
      assert (g + rest)[0] == g[0];
      hide TrimEnd, AllBlank, Walk;
    }
  }

  lemma {:induction false} GapFirst(g: string)
    requires !AllBlank(g)
    ensures TrimEnd(g) != "" && TrimEnd(g)[0] == g[0]
  {
    GapParts(g);
    var b, c := g[..Run(g, IsBlank)], TrimStart(g);
    TrimEndKeepsFront(b, c);
  }

  // ------------------------------------------------------------------ places along a cut

  /** Where item `n` starts: in code or inside a block comment. */
  function PlaceAt(items: seq<Item>, n: nat): (p: Place)
    requires n <= |items|
    ensures p == InCode || p == InBlock
  {
    if n == 0 then InCode else Behind(Walk(items[n - 1].gap, PlaceAt(items, n - 1)))
  }

  lemma {:induction false} TilesAt(inRange: string -> bool, items: seq<Item>, tail: string, n: nat)
    requires Tiles(inRange, items, tail, InCode) && n <= |items|
    ensures Tiles(inRange, items[n..], tail, PlaceAt(items, n))
  {
    hide Leads, Walk, Join;
    if n > 0 {
      TilesAt(inRange, items, tail, n - 1);
      assert items[n - 1..][1..] == items[n..];
    } else {
      assert items[0..] == items;
    }
  }

  lemma {:induction false} ItemFacts(inRange: string -> bool, items: seq<Item>, tail: string, n: nat)
    requires Tiles(inRange, items, tail, InCode) && n < |items|
    ensures Leads(inRange, items[n], Join(items[n + 1..], tail), Walk(items[n].gap, PlaceAt(items, n)))
  {
    hide Leads, Walk, Join;
    TilesAt(inRange, items, tail, n);
    assert items[n..][1..] == items[n + 1..];
  }

  lemma {:induction false} TailFacts(inRange: string -> bool, items: seq<Item>, tail: string)
    requires Tiles(inRange, items, tail, InCode)
    ensures var e := Walk(tail, PlaceAt(items, |items|)); e == InCode || e == InLine
  {
    hide Leads, Walk, Join;
    TilesAt(inRange, items, tail, |items|);
    assert items[|items|..] == [];
  }

  /** No line of a block comment ends, blanks aside, in a lone star. */
  predicate StarSafeAt(items: seq<Item>, n: nat)
    requires n < |items|
  {
    items[n].kind == Newline ==> Walk(TrimEnd(items[n].gap), PlaceAt(items, n)) != AtStar
  }

  predicate StarSafe(items: seq<Item>) {
    forall n :: 0 <= n < |items| ==> StarSafeAt(items, n)
  }

  predicate StarSafeFrom(items: seq<Item>, n: nat) {
    forall k :: n <= k < |items| ==> StarSafeAt(items, k)
  }

  // ------------------------------------------------------------------ round trip

  /** A formatted text may end in `LaidTail`, or in that and a final newline token. */
  function Ending(items: seq<Item>, tail: string, newline: bool): (r: Cut) {
    if newline then Cut([Item(LaidTail(items, tail), Newline, "\n")], "") else Cut([], LaidTail(items, tail))
  }

  function Final(newline: bool): (s: string) {
    if newline then "\n" else ""
  }

  lemma {:induction false} EndingTiles(inRange: string -> bool, items: seq<Item>, tail: string, newline: bool)
    requires Tiles(inRange, items, tail, InCode)
    ensures var e := Ending(items, tail, newline);
            && Tiles(inRange, e.items, e.tail, PlaceAt(items, |items|))
            && Join(e.items, e.tail) == LaidTail(items, tail) + Final(newline)
  {
    var p := PlaceAt(items, |items|);
    TailFacts(inRange, items, tail);
    LaidWalk(Kinds(items), |items|, tail, p);
    TrimWalk(tail, p);
    hide Walk, GapText, TrimEnd, PlaceAt, Tiles, Join;
    LastTiles(inRange, LaidTail(items, tail), p);
  }

  lemma {:induction false} LastTiles(inRange: string -> bool, t: string, p: Place)
    requires Walk(t, p) == InCode || Walk(t, p) == InLine
    ensures Tiles(inRange, [], t, p) && Join([], t) == t + ""
    ensures Tiles(inRange, [Item(t, Newline, "\n")], "", p) && Join([Item(t, Newline, "\n")], "") == t + "\n"
  {
    assert Walk("", InCode) == InCode;
    assert t + "" == t && t + "\n" + "" == t + "\n";
    hide Walk, CodeStep;
    assert [Item(t, Newline, "\n")][1..] == [];
  }

  lemma {:induction false} EndingJoin(items: seq<Item>, tail: string, newline: bool, n: nat)
    requires n <= |items|
    requires var e := Ending(items, tail, newline); Join(e.items, e.tail) == LaidTail(items, tail) + Final(newline)
    ensures var e := Ending(items, tail, newline);
            Join((LaidOut(items) + e.items)[n..], e.tail) ==
              Join(LaidOut(items)[n..], LaidTail(items, tail)) + Final(newline)
    decreases |items| - n
  {
    hide Laid, LaidTail;
    var e := Ending(items, tail, newline);
    var laid := LaidOut(items);
    var more := laid + e.items;
    if n == |items| {
      assert more[n..] == e.items && laid[n..] == [];
    } else {
      EndingJoin(items, tail, newline, n + 1);
      assert more[n..][1..] == more[n + 1..] && laid[n..][1..] == laid[n + 1..];
      var rest := Join(laid[n + 1..], LaidTail(items, tail));
      assert laid[n].gap + laid[n].text + (rest + Final(newline)) == laid[n].gap + laid[n].text + rest + Final(newline);
    }
  }

  /** The formatted suffix from token `n` on is loosely tiled, and tiled exactly when it is star-safe. */
  lemma {:induction false} LaidTiles(inRange: string -> bool, items: seq<Item>, tail: string, newline: bool, n: nat)
    requires Tiles(inRange, items, tail, InCode) && OperatorsApart(Kinds(items)) && n <= |items|
    ensures var e := Ending(items, tail, newline);
            && LooseTiles(inRange, (LaidOut(items) + e.items)[n..], e.tail, PlaceAt(items, n))
            && (Tiles(inRange, (LaidOut(items) + e.items)[n..], e.tail, PlaceAt(items, n)) <==> StarSafeFrom(items, n))
    decreases |items| - n
  {
    hide Leads, NewGap, GapText, OperatorsApart, LaidTail, Walk, PlaceAt, StarSafeAt;
    var laid := LaidOut(items);
    var e := Ending(items, tail, newline);
    var more := laid + e.items;
    EndingTiles(inRange, items, tail, newline);
    if n == |items| {
      assert more[n..] == e.items;
      TilesAreLoose(inRange, e.items, e.tail, PlaceAt(items, n));
    } else {
      LaidTiles(inRange, items, tail, newline, n + 1);
      assert more[n..][1..] == more[n + 1..] && more[n..][0] == laid[n];
      EndingJoin(items, tail, newline, n + 1);
      LaidItem(inRange, items, tail, newline, n);
      StarNeverLeads(inRange, laid[n], Join(more[n + 1..], e.tail));
      hide Join;
      assert StarSafeFrom(items, n) <==> StarSafeAt(items, n) && StarSafeFrom(items, n + 1);
    }
  }

  lemma {:induction false} StarNeverLeads(inRange: string -> bool, item: Item, rest: string)
    ensures !Leads(inRange, item, rest, AtStar)
  {
  }

  lemma {:induction false} TilesAreLoose(inRange: string -> bool, items: seq<Item>, tail: string, p: Place)
    requires Tiles(inRange, items, tail, p)
    ensures LooseTiles(inRange, items, tail, p)
  {
    hide Walk, Join, IsToken;
    if items != [] {
      TilesAreLoose(inRange, items[1..], tail, Behind(Walk(items[0].gap, p)));
    }
  }

  /** Item `n` of the formatted text leads on as it did, unless it is a line break behind a star. */
  lemma {:induction false} LaidItem(inRange: string -> bool, items: seq<Item>, tail: string, newline: bool, n: nat)
    requires Tiles(inRange, items, tail, InCode) && OperatorsApart(Kinds(items)) && n < |items|
    ensures var item := LaidOut(items)[n];
            var rest := Join(LaidOut(items)[n + 1..], LaidTail(items, tail)) + Final(newline);
            var e := Walk(item.gap, PlaceAt(items, n));
            if StarSafeAt(items, n) then Leads(inRange, item, rest, e) && Behind(e) == PlaceAt(items, n + 1)
            else item.kind == Newline && e == AtStar && item.text == "\n"
  {
    var p := PlaceAt(items, n);
    ItemFacts(inRange, items, tail, n);
    NewGapWalk(Kinds(items), n, items[n].gap, p);
    TrimWalk(items[n].gap, p);
    hide OperatorsApart, NewGap, GapText, Walk, LaidTail, TrimEnd;
    assert PlaceAt(items, n + 1) == Behind(Walk(items[n].gap, p));
    hide PlaceAt, Join;
    if items[n].kind != Newline {
      LaidToken(inRange, items, tail, newline, n);
    }
  }

  /** Token `n` is scanned the same in the formatted text. */
  lemma {:induction false} LaidToken(inRange: string -> bool, items: seq<Item>, tail: string, newline: bool, n: nat)
    requires Tiles(inRange, items, tail, InCode) && OperatorsApart(Kinds(items)) && n < |items| &&
      items[n].kind != Newline
    ensures IsToken(inRange, LaidOut(items)[n], Join(LaidOut(items)[n + 1..], LaidTail(items, tail)) + Final(newline))
  {
    hide OperatorsApart, NewGap, GapText, CodeStep, Join, LaidTail, Walk, PlaceAt;
    ItemFacts(inRange, items, tail, n);
    var rest := Join(items[n + 1..], tail);
    var rest2 := Join(LaidOut(items)[n + 1..], LaidTail(items, tail));
    NextEnds(inRange, items, tail, n);
    assert rest2 != "" ==> (rest2 + Final(newline))[0] == rest2[0];
    StepStable(inRange, items[n].text, rest, rest2 + Final(newline));
  }

  /** The formatted text after token `n` does not extend it. */
  lemma {:induction false} NextEnds(inRange: string -> bool, items: seq<Item>, tail: string, n: nat)
    requires Tiles(inRange, items, tail, InCode) && OperatorsApart(Kinds(items)) && n < |items| &&
      items[n].kind != Newline
    ensures EndsBefore(items[n].kind, Join(LaidOut(items)[n + 1..], LaidTail(items, tail)))
  {
    var ks := Kinds(items);
    var laid := LaidOut(items);
    var rest := Join(items[n + 1..], tail);
    ItemFacts(inRange, items, tail, n);
    assert PlaceAt(items, n + 1) == InCode;
    hide OperatorsApart, NewGap, GapText, CodeStep, EndsBefore, Walk, PlaceAt;
    if items[n].kind.Operator? {
      OperatorIsMaximal(inRange, items[n].text, rest);
    }
    if n + 1 == |items| {
      assert items[n + 1..] == [] && laid[n + 1..] == [];
      TailFacts(inRange, items, tail);
      assert tail + "" == tail;
      GapEnds(ks, n + 1, tail, "");
    } else {
      var next := items[n + 1];
      ItemFacts(inRange, items, tail, n + 1);
      var after := Join(items[n + 2..], tail);
      assert items[n + 1..][1..] == items[n + 2..];
      assert laid[n + 1..][1..] == laid[n + 2..];
      if next.kind != Newline {
        StepStarts(inRange, next.text + after);
        assert (next.text + after)[0] == next.text[0];
      }
      NewGapEnds(ks, n + 1, next.gap, next.text, after, Join(laid[n + 2..], LaidTail(items, tail)));
    }
  }

  /** The formatted text is tiled by the tokens of the source, plus the final newline if one was added,
      exactly when the source is star-safe; otherwise its own line breaks are not all tokens. */
  lemma {:induction false} FormattedTiles(inRange: string -> bool, cut: Cut, appendNewline: bool)
    requires Tiles(inRange, cut.items, cut.tail, InCode) && OperatorsApart(Kinds(cut.items))
    ensures var f := Formatted(cut, appendNewline);
            && LooseTiles(inRange, f.items, f.tail, InCode)
            && (Tiles(inRange, f.items, f.tail, InCode) <==> StarSafe(cut.items))
  {
    hide OperatorsApart, LaidOut, LaidTail, Tiles, LooseTiles, StarSafeAt;
    var laid := LaidOut(cut.items);
    var newline := appendNewline && LacksNewline(Join(laid, LaidTail(cut.items, cut.tail)));
    LaidTiles(inRange, cut.items, cut.tail, newline, 0);
    var e := Ending(cut.items, cut.tail, newline);
    assert (laid + e.items)[0..] == laid + e.items;
    assert laid + [] == laid;
    assert PlaceAt(cut.items, 0) == InCode;
    assert StarSafe(cut.items) <==> StarSafeFrom(cut.items, 0);
  }

  // ------------------------------------------------------------------ idempotence

  lemma {:induction false} SameKinds(items: seq<Item>)
    ensures Kinds(LaidOut(items)) == Kinds(items)
  {
  }

  /** Laying out a laid-out gap changes nothing. */
  lemma {:induction false} GapAgain(ks: seq<Kind>, n: nat, g: string)
    requires n <= |ks|
    ensures GapText(ks, n, GapText(ks, n, g)) == GapText(ks, n, g)
    ensures var h := TrimEnd(GapText(ks, n, g)); TrimEnd(GapText(ks, n, h)) == h
  {
    if AllBlank(g) {
      assert GapText(ks, n, g) == "";
    } else {
      GapParts(g);
      var c := TrimStart(g);
      var b := if LineStart(ks, n) then Indent(Indentation(ks, n)) else g[..Run(g, IsBlank)];
      hide TrimEnd, TrimStart, Indentation, AllBlank, Indent;
      assert GapText(ks, n, g) == b + c;
      LaidFragment(ks, n, b, c);
      TrimEndKeepsFront(b, c);
      LaidFragment(ks, n, b, TrimEnd(c));
      TrimEndAgain(c);
      TrimEndKeepsFront(b, TrimEnd(c));
    }
  }

  lemma {:induction false} LaidFragment(ks: seq<Kind>, n: nat, b: string, c: string)
    requires n <= |ks| && AllBlank(b) && c != "" && !IsBlank(c[0])
    requires LineStart(ks, n) ==> b == Indent(Indentation(ks, n))
    ensures GapText(ks, n, b + c) == b + c
  {
    BlanksThenComment(b, c);
  }

  lemma {:induction false} NewGapAgain(ks: seq<Kind>, n: nat, g: string)
    requires n < |ks|
    ensures NewGap(ks, n, NewGap(ks, n, g)) == NewGap(ks, n, g)
  {
    GapAgain(ks, n, g);
    if ks[n] != Newline {
      if AllBlank(g) {
        assert AllBlank(NewGap(ks, n, g)) by {
          hide Spaced;
        }
        hide Spaced, Indentation;
      } else {
        GapParts(g);
        var c := TrimStart(g);
        var b := if LineStart(ks, n) then Indent(Indentation(ks, n)) else g[..Run(g, IsBlank)];
        assert GapText(ks, n, g) == b + c;
        BlanksThenComment(b, c);
        hide Spaced, Indentation, AllBlank, TrimStart;
        assert GapText(ks, n, g) + "" == GapText(ks, n, g);
      }
    }
  }

  lemma {:induction false} LaidAgain(items: seq<Item>, tail: string)
    ensures LaidOut(LaidOut(items)) == LaidOut(items)
    ensures LaidTail(LaidOut(items), LaidTail(items, tail)) == LaidTail(items, tail)
  {
    hide NewGap, GapText, TrimEnd;
    var laid := LaidOut(items);
    SameKinds(items);
    forall n | 0 <= n < |items| ensures Laid(laid, n) == laid[n] {
      NewGapAgain(Kinds(items), n, items[n].gap);
    }
    GapAgain(Kinds(items), |items|, tail);
  }

  /** The layout state before a token does not depend on later tokens. */
  lemma {:induction false} PrefixState(ks: seq<Kind>, more: seq<Kind>, n: nat)
    requires n <= |ks|
    ensures LambdaOpen(ks + more, n) == LambdaOpen(ks, n)
    ensures Indentation(ks + more, n) == Indentation(ks, n)
  {
    if n > 0 {
      PrefixState(ks, more, n - 1);
      assert (ks + more)[n - 1] == ks[n - 1];
    }
  }

  lemma {:induction false} PrefixLaid(ks: seq<Kind>, more: seq<Kind>, n: nat, g: string)
    requires n < |ks|
    ensures NewGap(ks + more, n, g) == NewGap(ks, n, g)
  {
    hide NeedsSpace, TrimEnd, AllBlank, LambdaOpen, Indentation;
    PrefixState(ks, more, n);
    if n > 0 {
      PrefixState(ks, more, n - 1);
    }
    assert (ks + more)[n] == ks[n] && (n > 0 ==> (ks + more)[n - 1] == ks[n - 1]);
  }

  /** Formatting a formatted text gives it back. A second pass never has more newline budget than
      the first, because the first added at most one token. */
  lemma {:induction false} FormatAgain(cut: Cut, appendNewline: bool, again: bool)
    requires again ==> appendNewline
    ensures Formatted(Formatted(cut, appendNewline), again) == Formatted(cut, appendNewline)
  {
    hide LaidTail;
    var laid := LaidOut(cut.items);
    var tail := LaidTail(cut.items, cut.tail);
    LaidAgain(cut.items, cut.tail);
    if appendNewline && LacksNewline(Join(laid, tail)) {
      NewlineAgain(cut);
      var f := Cut(laid + [Item(tail, Newline, "\n")], "");
      assert LaidOut(f.items) == f.items && LaidTail(f.items, "") == "";
      EndsInNewline(laid, tail, 0);
      assert f.items[0..] == f.items;
    }
  }

  lemma {:induction false} NewlineAgain(cut: Cut)
    ensures var items := LaidOut(cut.items) + [Item(LaidTail(cut.items, cut.tail), Newline, "\n")];
            LaidOut(items) == items && LaidTail(items, "") == ""
  {
    hide NewGap, GapText, TrimEnd;
    var laid := LaidOut(cut.items);
    var tail := LaidTail(cut.items, cut.tail);
    var items := laid + [Item(tail, Newline, "\n")];
    var ks := Kinds(cut.items);
    SameKinds(cut.items);
    LaidAgain(cut.items, cut.tail);
    assert Kinds(items) == ks + [Newline];
    forall n | 0 <= n < |items| ensures Laid(items, n) == items[n] {
      if n < |laid| {
        PrefixLaid(ks, [Newline], n, laid[n].gap);
        assert Laid(laid, n) == laid[n];
      } else {
        LastGap(ks, tail);
      }
    }
    BlankTail(Kinds(items));
  }

  lemma {:induction false} BlankTail(ks: seq<Kind>)
    ensures TrimEnd(GapText(ks, |ks|, "")) == ""
  {
  }

  lemma {:induction false} LastGap(ks: seq<Kind>, tail: string)
    requires TrimEnd(GapText(ks, |ks|, tail)) == tail
    ensures NewGap(ks + [Newline], |ks|, tail) == tail
  {
    PrefixState(ks, [Newline], |ks|);
    hide TrimEnd, AllBlank;
    assert GapText(ks + [Newline], |ks|, tail) == GapText(ks, |ks|, tail);
  }

  lemma {:induction false} EndsInNewline(items: seq<Item>, tail: string, n: nat)
    requires n <= |items|
    ensures !LacksNewline(Join((items + [Item(tail, Newline, "\n")])[n..], ""))
    decreases |items| - n
  {
    var more := items + [Item(tail, Newline, "\n")];
    if n == |items| {
      assert more[n..] == [Item(tail, Newline, "\n")] && more[n..][1..] == [];
    } else {
      EndsInNewline(items, tail, n + 1);
      assert more[n..][1..] == more[n + 1..];
      NonEmptyJoin(items, tail, n + 1);
    }
  }

  lemma {:induction false} NonEmptyJoin(items: seq<Item>, tail: string, n: nat)
    requires n <= |items|
    ensures Join((items + [Item(tail, Newline, "\n")])[n..], "") != ""
    decreases |items| - n
  {
    var more := items + [Item(tail, Newline, "\n")];
    if n < |items| {
      NonEmptyJoin(items, tail, n + 1);
      assert more[n..][1..] == more[n + 1..];
    }
  }
}
