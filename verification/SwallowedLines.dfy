/** Formatted text whose comments lost line breaks: what it lexes to, and how it formats again.

    A comment line that ends in a star and blanks is trimmed to the star, and the star swallows the line break.
    The text around such a break is one gap, and laying that gap out once more changes nothing. */
module SwallowedLines {
  import opened Tokens
  import opened Lexing
  import opened LexFacts
  import opened Tiling
  import opened Formatting
  import opened FormatRoundTrip

  /** The items from `n` on, with every swallowed line break made part of the gap it stands in. `more` are the
      formatted items of `items`, possibly followed by a final newline. */
  function FusedFrom(items: seq<Item>, more: seq<Item>, tail: string, n: nat): (cut: Cut)
    requires |items| <= |more| && n <= |more|
    decreases |more| - n
  {
    if n >= |items| then Cut(more[n..], tail)
    else
      var rest := FusedFrom(items, more, tail, n + 1);
      if StarSafeAt(items, n) then Cut([more[n]] + rest.items, rest.tail)
      else Widen(rest, more[n].gap + more[n].text)
  }

  /** The cut of the formatted text. */
  function Fused(cut: Cut, appendNewline: bool): (r: Cut) {
    var f := Formatted(cut, appendNewline);
    FusedFrom(cut.items, f.items, f.tail, 0)
  }

  /** The kinds that are still tokens in the formatted text. */
  function KeptKinds(items: seq<Item>, n: nat): (ks: seq<Kind>)
    requires n <= |items|
    decreases |items| - n
  {
    if n == |items| then []
    else (if StarSafeAt(items, n) then [items[n].kind] else []) + KeptKinds(items, n + 1)
  }

  // ------------------------------------------------------------------ the text lexes to the fused cut

  lemma {:induction false} FusedJoin(items: seq<Item>, more: seq<Item>, tail: string, n: nat)
    requires |items| <= |more| && n <= |more|
    ensures var cut := FusedFrom(items, more, tail, n); Join(cut.items, cut.tail) == Join(more[n..], tail)
    decreases |more| - n
  {
    hide StarSafeAt, Widen;
    if n < |items| {
      var rest := FusedFrom(items, more, tail, n + 1);
      FusedJoin(items, more, tail, n + 1);
      assert more[n..][1..] == more[n + 1..];
      if StarSafeAt(items, n) {
        assert ([more[n]] + rest.items)[1..] == rest.items;
      } else {
        WidenJoin(rest, more[n].gap + more[n].text);
      }
    }
  }

  lemma {:induction false} FusedTiles(inRange: string -> bool, items: seq<Item>, tail: string, newline: bool, n: nat)
    requires Tiles(inRange, items, tail, InCode) && OperatorsApart(Kinds(items)) && n <= |items|
    ensures var e := Ending(items, tail, newline);
            var cut := FusedFrom(items, LaidOut(items) + e.items, e.tail, n);
            Tiles(inRange, cut.items, cut.tail, PlaceAt(items, n))
    decreases |items| - n
  {
    hide Leads, Tiles, LaidOut, LaidTail, OperatorsApart, Walk, PlaceAt, StarSafeAt, Join, Ending, Widen;
    var e := Ending(items, tail, newline);
    var more := LaidOut(items) + e.items;
    EndingTiles(inRange, items, tail, newline);
    if n == |items| {
      assert more[n..] == e.items;
    } else {
      FusedTiles(inRange, items, tail, newline, n + 1);
      var rest := FusedFrom(items, more, e.tail, n + 1);
      LaidItem(inRange, items, tail, newline, n);
      FusedJoin(items, more, e.tail, n + 1);
      EndingJoin(items, tail, newline, n + 1);
      var item := more[n];
      if StarSafeAt(items, n) {
        TilesFront(inRange, item, rest.items, rest.tail, PlaceAt(items, n));
      } else {
        SwallowedPlace(inRange, items, tail, n);
        WalkConcat(item.gap, "\n", PlaceAt(items, n));
        OneBreak();
        WidenTiles(inRange, rest, item.gap + item.text, PlaceAt(items, n));
      }
    }
  }

  lemma {:induction false} OneBreak()
    ensures Walk("\n", AtStar) == InBlock
  {
    assert "\n"[1..] == "";
  }

  /** Behind an unsafe line break the source is inside the comment. */
  lemma {:induction false} SwallowedPlace(inRange: string -> bool, items: seq<Item>, tail: string, n: nat)
    requires Tiles(inRange, items, tail, InCode) && n < |items| && !StarSafeAt(items, n)
    ensures PlaceAt(items, n + 1) == InBlock
  {
    hide Walk, TrimEnd, Tiles;
    ItemFacts(inRange, items, tail, n);
    TrimWalk(items[n].gap, PlaceAt(items, n));
  }

  /** The formatted text of a tiled source is tiled by the fused cut. */
  lemma {:induction false} FormattedFuses(inRange: string -> bool, cut: Cut, appendNewline: bool)
    requires Tiles(inRange, cut.items, cut.tail, InCode) && OperatorsApart(Kinds(cut.items))
    ensures var f, g := Formatted(cut, appendNewline), Fused(cut, appendNewline);
            Tiles(inRange, g.items, g.tail, InCode) && Join(g.items, g.tail) == Join(f.items, f.tail)
  {
    hide Tiles, LaidOut, LaidTail, OperatorsApart, StarSafeAt;
    var laid := LaidOut(cut.items);
    var f := Formatted(cut, appendNewline);
    var newline := appendNewline && LacksNewline(Join(laid, LaidTail(cut.items, cut.tail)));
    var e := Ending(cut.items, cut.tail, newline);
    assert laid + [] == laid;
    assert f == Cut(laid + e.items, e.tail);
    FusedTiles(inRange, cut.items, cut.tail, newline, 0);
    FusedJoin(cut.items, f.items, f.tail, 0);
    assert f.items[0..] == f.items;
  }

  lemma {:induction false} FusedKinds(items: seq<Item>, more: seq<Item>, tail: string, n: nat)
    requires |items| <= |more| && n <= |items| && forall i :: 0 <= i < |items| ==> more[i].kind == items[i].kind
    ensures Kinds(FusedFrom(items, more, tail, n).items) == KeptKinds(items, n) + Kinds(more[|items|..])
    ensures |KeptKinds(items, n)| <= |items| - n
    ensures |KeptKinds(items, n)| == |items| - n <==> StarSafeFrom(items, n)
    decreases |items| - n
  {
    KeptCount(items, n);
    hide StarSafeAt, StarSafeFrom, Kinds, Widen;
    if n == |items| {
      assert [] + Kinds(more[n..]) == Kinds(more[n..]);
    } else {
      FusedKinds(items, more, tail, n + 1);
      var rest := FusedFrom(items, more, tail, n + 1);
      var kept, behind := KeptKinds(items, n + 1), Kinds(more[|items|..]);
      if StarSafeAt(items, n) {
        KindsFront(more[n], rest.items);
        assert [more[n].kind] + (kept + behind) == [more[n].kind] + kept + behind;
      } else {
        WidenKinds(rest, more[n].gap + more[n].text);
        assert [] + kept == kept;
      }
    }
  }

  lemma {:induction false} KindsFront(item: Item, items: seq<Item>)
    ensures Kinds([item] + items) == [item.kind] + Kinds(items)
  {
  }

  lemma {:induction false} WidenKinds(cut: Cut, front: string)
    ensures Kinds(Widen(cut, front).items) == Kinds(cut.items)
  {
  }

  lemma {:induction false} KeptCount(items: seq<Item>, n: nat)
    requires n <= |items|
    ensures |KeptKinds(items, n)| <= |items| - n
    ensures |KeptKinds(items, n)| == |items| - n <==> StarSafeFrom(items, n)
    decreases |items| - n
  {
    hide StarSafeAt;
    if n < |items| {
      KeptCount(items, n + 1);
      assert StarSafeFrom(items, n) <==> StarSafeAt(items, n) && StarSafeFrom(items, n + 1);
    }
  }

  // ------------------------------------------------------------------ laying the fused cut out again

  /** The items behind tokens of kinds `before` are laid out as they are. */
  predicate Fixed(before: seq<Kind>, items: seq<Item>, tail: string)
    decreases |items|
  {
    if items == [] then TrimEnd(GapText(before, |before|, tail)) == tail
    else
      && NewGap(before + [items[0].kind], |before|, items[0].gap) == items[0].gap && NewText(items[0]) == items[0].text
      && Fixed(before + [items[0].kind], items[1..], tail)
  }

  lemma {:induction false} FixedIsLaid(before: seq<Kind>, items: seq<Item>, tail: string, ks: seq<Kind>, n: nat)
    requires Fixed(before, items, tail) && ks == before + Kinds(items) && |before| <= n < |ks|
    ensures var item := items[n - |before|]; NewGap(ks, n, item.gap) == item.gap && NewText(item) == item.text
    decreases |items|
  {
    hide NewGap;
    var next := before + [items[0].kind];
    assert next + Kinds(items[1..]) == ks;
    if n == |before| {
      PrefixLaid(next, Kinds(items[1..]), |before|, items[0].gap);
    } else {
      FixedIsLaid(next, items[1..], tail, ks, n);
    }
  }

  lemma {:induction false} FixedTail(before: seq<Kind>, items: seq<Item>, tail: string)
    requires Fixed(before, items, tail)
    ensures var ks := before + Kinds(items); TrimEnd(GapText(ks, |ks|, tail)) == tail
    decreases |items|
  {
    hide NewGap, GapText, TrimEnd;
    if items == [] {
      assert before + Kinds(items) == before;
    } else {
      var next := before + [items[0].kind];
      FixedTail(next, items[1..], tail);
      assert next + Kinds(items[1..]) == before + Kinds(items);
    }
  }

  lemma {:induction false} NothingBefore(ks: seq<Kind>)
    ensures [] + ks == ks
  {
  }

  lemma {:induction false} LaidUnfolds(items: seq<Item>, n: nat)
    requires n < |items|
    ensures Laid(items, n) == Item(NewGap(Kinds(items), n, items[n].gap), items[n].kind, NewText(items[n]))
  {
  }

  lemma {:induction false} FixedItem(cut: Cut, n: nat)
    requires Fixed([], cut.items, cut.tail) && n < |cut.items|
    ensures Laid(cut.items, n) == cut.items[n]
  {
    hide *;
    var ks := Kinds(cut.items);
    NothingBefore(ks);
    FixedIsLaid([], cut.items, cut.tail, ks, n);
    LaidUnfolds(cut.items, n);
  }

  lemma {:induction false} FixedFormats(cut: Cut)
    requires Fixed([], cut.items, cut.tail)
    ensures LaidOut(cut.items) == cut.items && LaidTail(cut.items, cut.tail) == cut.tail
  {
    hide Laid, GapText, TrimEnd, Fixed;
    forall n | 0 <= n < |cut.items| ensures Laid(cut.items, n) == cut.items[n] {
      FixedItem(cut, n);
    }
    FixedTail([], cut.items, cut.tail);
    assert [] + Kinds(cut.items) == Kinds(cut.items);
  }

  /** The layout state behind `before` is the one before token `n` of `ks`, and so is the last token unless
      swallowed line breaks stand in between. */
  ghost predicate SameState(before: seq<Kind>, ks: seq<Kind>, n: nat, w: string) {
    && n <= |ks|
    && Indentation(before, |before|) == Indentation(ks, n)
    && LambdaOpen(before, |before|) == LambdaOpen(ks, n)
    && (w == "" ==>
          if n == 0 then before == []
          else
            && before != [] && before[|before| - 1] == ks[n - 1]
            && ClosedBefore(before) == ClosedLambdaBefore(ks, n))
  }

  predicate ClosedBefore(before: seq<Kind>)
    requires before != []
  {
    ClosedLambdaBefore(before, |before|)
  }

  /** Text with swallowed line breaks that starts the gap behind `before`. */
  predicate Pending(before: seq<Kind>, w: string) {
    w != "" ==> w[|w| - 1] == '\n' && Indented(before, w)
  }

  /** Not all blank, and at the start of a line indented as the formatter would. */
  predicate Indented(before: seq<Kind>, w: string) {
    && !AllBlank(w)
    && (LineStart(before, |before|) ==>
          var b := Indent(Indentation(before, |before|));
          |b| < |w| && w[..|b|] == b && !IsBlank(w[|b|]))
  }

  lemma {:induction false} IndentedLonger(before: seq<Kind>, w: string, g: string)
    requires Indented(before, w)
    ensures Indented(before, w + g) && GapText(before, |before|, w + g) == w + g
  {
    assert !AllBlank(w + g) by {
      var i :| 0 <= i < |w| && !IsBlank(w[i]);
      assert (w + g)[i] == w[i];
    }
    if LineStart(before, |before|) {
      var b := Indent(Indentation(before, |before|));
      var c := w[|b|..] + g;
      assert w + g == b + c && c[0] == w[|b|];
      BlanksThenComment(b, c);
    }
  }

  /** The gap as laid out depends on the layout state alone. */
  lemma {:induction false} StateText(before: seq<Kind>, ks: seq<Kind>, n: nat, g: string)
    requires SameState(before, ks, n, "")
    ensures GapText(before, |before|, g) == GapText(ks, n, g)
  {
    hide AllBlank, LambdaOpen, Indentation, TrimStart;
  }

  lemma {:induction false} StateLaid(before: seq<Kind>, ks: seq<Kind>, n: nat, g: string)
    requires SameState(before, ks, n, "") && n < |ks|
    ensures NewGap(before + [ks[n]], |before|, g) == NewGap(ks, n, g)
  {
    hide NeedsSpace, TrimEnd, AllBlank, LambdaOpen, Indentation, TrimStart, Indent;
    var next := before + [ks[n]];
    PrefixState(before, [ks[n]], |before|);
    assert next[|before|] == ks[n];
    assert n > 0 ==> next[|before| - 1] == ks[n - 1];
    assert GapText(next, |before|, g) == GapText(ks, n, g);
    hide GapText;
    if n > 0 {
      PrefixState(before, [ks[n]], |before| - 1);
      assert ClosedLambdaBefore(next, |before|) == ClosedLambdaBefore(ks, n);
      assert ClosesLambda(next, |before|) == ClosesLambda(ks, n);
      hide ClosedLambdaBefore, ClosesLambda;
      assert Spaced(next, |before|) == Spaced(ks, n);
    }
  }

  lemma {:induction false} NextState(before: seq<Kind>, ks: seq<Kind>, n: nat, w: string)
    requires SameState(before, ks, n, w) && n < |ks|
    ensures SameState(before + [ks[n]], ks, n + 1, "")
  {
    var next := before + [ks[n]];
    PrefixState(before, [ks[n]], |before|);
    assert next[|next| - 1] == ks[n];
  }

  /** A formatted item fits behind swallowed text as it fitted before. */
  lemma {:induction false} FusedItem(before: seq<Kind>, ks: seq<Kind>, n: nat, w: string, g: string)
    requires SameState(before, ks, n, w) && n < |ks| && Pending(before, w) && NewGap(ks, n, g) == g
    ensures NewGap(before + [ks[n]], |before|, w + g) == w + g
  {
    hide SameState, Indented, NeedsSpace, Indentation, LambdaOpen;
    if w == "" {
      assert w + g == g;
      StateLaid(before, ks, n, g);
    } else {
      IndentedLonger(before, w, g);
      var next := before + [ks[n]];
      PrefixState(before, [ks[n]], |before|);
      assert next[..|before|] == before;
      assert (w + g) + "" == w + g;
      assert GapText(next, |before|, w + g) == w + g by {
        assert LineStart(next, |before|) == LineStart(before, |before|);
      }
      assert !AllBlank(w + g) by {
        IndentedIsText(before, w + g);
      }
      if ks[n] == Newline {
        TrimmedBehindBreak(w, g, GapText(ks, n, g));
      }
    }
  }

  lemma {:induction false} IndentedIsText(before: seq<Kind>, w: string)
    requires Indented(before, w)
    ensures !AllBlank(w)
  {
  }

  lemma {:induction false} TrimmedBehindBreak(w: string, g: string, laid: string)
    requires w != "" && w[|w| - 1] == '\n' && g == TrimEnd(laid)
    ensures TrimEnd(w + g) == w + g
  {
    if g == "" {
      assert w + g == w;
    } else {
      assert (w + g)[|w + g| - 1] == g[|g| - 1];
    }
  }

  /** A swallowed line break makes pending text of its gap. */
  lemma {:induction false} PendingGrows(before: seq<Kind>, ks: seq<Kind>, n: nat, w: string, g: string)
    requires SameState(before, ks, n, w) && n < |ks| && Pending(before, w) && NewGap(ks, n, g) == g && ks[n] == Newline
    requires !AllBlank(g)
    ensures Pending(before, w + (g + "\n")) && SameState(before, ks, n + 1, w + (g + "\n"))
  {
    hide NeedsSpace;
    var v := w + (g + "\n");
    assert v[|v| - 1] == '\n';
    if w != "" {
      hide Indented, SameState;
      IndentedLonger(before, w, g + "\n");
    } else {
      StateText(before, ks, n, g);
      assert v == g + "\n";
      IndentedGap(before, g);
      IndentedLonger(before, g, "\n");
    }
  }

  lemma {:induction false} IndentedGap(before: seq<Kind>, g: string)
    requires !AllBlank(g) && (exists h :: g == TrimEnd(GapText(before, |before|, h)))
    ensures Indented(before, g)
  {
    var h :| g == TrimEnd(GapText(before, |before|, h));
    if LineStart(before, |before|) {
      assert !AllBlank(h);
      GapParts(h);
      var b, c := Indent(Indentation(before, |before|)), TrimStart(h);
      TrimEndKeepsFront(b, c);
      assert g == b + TrimEnd(c);
    }
  }

  lemma {:induction false} WidenTwice(cut: Cut, a: string, b: string)
    ensures Widen(Widen(cut, a), b) == Widen(cut, b + a)
  {
    if cut.items == [] {
      assert b + (a + cut.tail) == b + a + cut.tail;
    } else {
      assert b + (a + cut.items[0].gap) == b + a + cut.items[0].gap;
      assert Widen(cut, a).items[1..] == cut.items[1..];
    }
  }

  /** The formatted items from `n` on, fused and behind pending text, are laid out as they are. */
  lemma {:induction false} FusedIsFixed(items: seq<Item>, more: seq<Item>, tail: string, n: nat, before: seq<Kind>,
      w: string)
    requires |items| <= |more| && n <= |more| && LaidOut(more) == more && LaidTail(more, tail) == tail
    requires forall i :: 0 <= i < |items| && !StarSafeAt(items, i) ==> more[i].kind == Newline && !AllBlank(more[i].gap)
    requires SameState(before, Kinds(more), n, w) && Pending(before, w)
    ensures var cut := Widen(FusedFrom(items, more, tail, n), w); Fixed(before, cut.items, cut.tail)
    decreases |more| - n
  {
    hide StarSafeAt, NewGap, SameState, Pending, LaidOut, AllBlank, LaidTail;
    var ks := Kinds(more);
    if n == |more| {
      FusedEnd(items, more, tail, before, w);
    } else {
      assert Laid(more, n) == more[n];
      if n < |items| && !StarSafeAt(items, n) {
        PendingGrows(before, ks, n, w, more[n].gap);
        FusedIsFixed(items, more, tail, n + 1, before, w + (more[n].gap + "\n"));
        WidenTwice(FusedFrom(items, more, tail, n + 1), more[n].gap + "\n", w);
      } else {
        FusedItem(before, ks, n, w, more[n].gap);
        NextState(before, ks, n, w);
        NothingPending(before + [ks[n]]);
        FusedIsFixed(items, more, tail, n + 1, before + [ks[n]], "");
        FusedStep(items, more, tail, n, before, w);
      }
    }
  }

  lemma {:induction false} NothingPending(before: seq<Kind>)
    ensures Pending(before, "")
  {
  }

  lemma {:induction false} FusedStep(items: seq<Item>, more: seq<Item>, tail: string, n: nat, before: seq<Kind>,
      w: string)
    requires |items| <= |more| && n < |more| && (n < |items| ==> StarSafeAt(items, n)) &&
      NewText(more[n]) == more[n].text
    requires NewGap(before + [more[n].kind], |before|, w + more[n].gap) == w + more[n].gap
    requires var rest := Widen(FusedFrom(items, more, tail, n + 1), ""); Fixed(before + [more[n].kind], rest.items,
      rest.tail)
    ensures var cut := Widen(FusedFrom(items, more, tail, n), w); Fixed(before, cut.items, cut.tail)
  {
    hide StarSafeAt, NewGap;
    var rest := FusedFrom(items, more, tail, n + 1);
    WidenNothing(rest);
    assert FusedFrom(items, more, tail, n) == Cut([more[n]] + rest.items, rest.tail) by {
      assert more[n..] == [more[n]] + more[n + 1..];
    }
    var cut := Widen(FusedFrom(items, more, tail, n), w);
    assert cut.items[1..] == rest.items;
  }

  lemma {:induction false} FusedEnd(items: seq<Item>, more: seq<Item>, tail: string, before: seq<Kind>, w: string)
    requires |items| <= |more| && LaidTail(more, tail) == tail
    requires SameState(before, Kinds(more), |more|, w) && Pending(before, w)
    ensures var cut := Widen(FusedFrom(items, more, tail, |more|), w); Fixed(before, cut.items, cut.tail)
  {
    hide SameState, Indented, GapText;
    assert FusedFrom(items, more, tail, |more|) == Cut([], tail);
    if w == "" {
      assert w + tail == tail;
      StateText(before, Kinds(more), |more|, tail);
    } else {
      IndentedLonger(before, w, tail);
      TrimmedBehindBreak(w, tail, GapText(Kinds(more), |more|, tail));
    }
  }

  /** A formatted text, cut as it lexes, is laid out as it is. */
  lemma {:induction false} FusedFormats(inRange: string -> bool, cut: Cut, appendNewline: bool)
    requires Tiles(inRange, cut.items, cut.tail, InCode)
    ensures var g := Fused(cut, appendNewline); LaidOut(g.items) == g.items && LaidTail(g.items, g.tail) == g.tail
  {
    hide Tiles, LaidOut, LaidTail, StarSafeAt, Join, Fixed;
    var f := Formatted(cut, appendNewline);
    var g := Fused(cut, appendNewline);
    FormattedIsLaid(cut, appendNewline);
    forall i | 0 <= i < |cut.items| && !StarSafeAt(cut.items, i)
      ensures f.items[i].kind == Newline && !AllBlank(f.items[i].gap) {
      UnsafeGap(cut, appendNewline, i);
    }
    assert SameState([], Kinds(f.items), 0, "") && Pending([], "");
    FusedIsFixed(cut.items, f.items, f.tail, 0, [], "");
    WidenNothing(g);
    FixedFormats(g);
  }

  lemma {:induction false} WidenNothing(cut: Cut)
    ensures Widen(cut, "") == cut
  {
    if cut.items == [] {
      assert "" + cut.tail == cut.tail;
    } else {
      assert "" + cut.items[0].gap == cut.items[0].gap;
      assert [cut.items[0]] + cut.items[1..] == cut.items;
    }
  }

  lemma {:induction false} FormattedIsLaid(cut: Cut, appendNewline: bool)
    ensures var f := Formatted(cut, appendNewline);
            && LaidOut(f.items) == f.items && LaidTail(f.items, f.tail) == f.tail && |f.items| >= |cut.items|
            && forall i :: 0 <= i < |cut.items| ==> f.items[i] == Laid(cut.items, i)
  {
    hide Laid, LaidTail, Join;
    LaidAgain(cut.items, cut.tail);
    NewlineAgain(cut);
  }

  lemma {:induction false} UnsafeGap(cut: Cut, appendNewline: bool, i: nat)
    requires i < |cut.items| && !StarSafeAt(cut.items, i)
    ensures var f := Formatted(cut, appendNewline);
            |f.items| > i && f.items[i].kind == Newline && !AllBlank(f.items[i].gap)
  {
    hide Walk, PlaceAt, LaidTail, Join, GapText, TrimEnd;
    var p := PlaceAt(cut.items, i);
    NewGapWalk(Kinds(cut.items), i, cut.items[i].gap, p);
    var g := NewGap(Kinds(cut.items), i, cut.items[i].gap);
    if AllBlank(g) {
      BlankWalk(g, p);
      assert false;
    }
  }

  // ------------------------------------------------------------------ the end of the text

  lemma {:induction false} TrimBlanks(a: string, b: string)
    requires AllBlank(b)
    ensures TrimEnd(a + b) == TrimEnd(a)
    decreases |b|
  {
    if b == "" {
      assert a + b == a;
    } else {
      assert (a + b)[..|a + b| - 1] == a + b[..|b| - 1];
      TrimBlanks(a, b[..|b| - 1]);
    }
  }

  lemma {:induction false} JoinLast(items: seq<Item>)
    requires items != [] && items[|items| - 1].text != ""
    ensures Join(items, "") != "" && var s, t := Join(items, ""), items[|items| - 1].text; s[|s| - 1] == t[|t| - 1]
    decreases |items|
  {
    if |items| == 1 {
      assert items[1..] == [];
      assert items[0].gap + items[0].text + "" == items[0].gap + items[0].text;
    } else {
      assert items[1..][|items| - 2] == items[|items| - 1];
      JoinLast(items[1..]);
    }
  }

  /** Blanks aside, the laid-out text ends as the source does. */
  lemma {:induction false} EndsAlike(inRange: string -> bool, cut: Cut)
    requires Tiles(inRange, cut.items, cut.tail, InCode) && Solid(cut.items)
    ensures LacksNewline(Join(LaidOut(cut.items), LaidTail(cut.items, cut.tail))) <==>
      LacksNewline(TrimEnd(Join(cut.items, cut.tail)))
  {
    hide Tiles, TrimEnd, Join, LaidOut, LaidTail, LacksNewline, Solid;
    if AllBlank(cut.tail) {
      BlankEndsAlike(inRange, cut);
    } else {
      var laid, tail := LaidOut(cut.items), LaidTail(cut.items, cut.tail);
      JoinTail(cut.items, cut.tail);
      JoinTail(laid, tail);
      LaidCommentTail(cut, TrimStart(cut.tail));
      CommentEndsAlike(Join(cut.items, ""), cut.tail, Join(laid, ""), tail);
    }
  }

  /** A tail of blanks: both texts end with the last token. */
  lemma {:induction false} BlankEndsAlike(inRange: string -> bool, cut: Cut)
    requires Tiles(inRange, cut.items, cut.tail, InCode) && Solid(cut.items) && AllBlank(cut.tail)
    ensures LacksNewline(Join(LaidOut(cut.items), LaidTail(cut.items, cut.tail))) <==>
      LacksNewline(TrimEnd(Join(cut.items, cut.tail)))
  {
    hide Tiles, TrimEnd, GapText, Join;
    var laid := LaidOut(cut.items);
    JoinTail(cut.items, cut.tail);
    JoinTail(laid, LaidTail(cut.items, cut.tail));
    var front, newFront := Join(cut.items, ""), Join(laid, "");
    TrimBlanks(front, cut.tail);
    LaidBlankTail(cut);
    assert newFront + "" == newFront;
    if cut.items == [] {
      NoItems();
    } else {
      SolidEnd(inRange, cut);
      JoinLast(cut.items);
      JoinLast(laid);
      assert front != "" && !IsBlank(front[|front| - 1]);
      TrimSolid(front);
    }
  }

  /** A tail with a comment: both texts end with the comment, blanks aside. */
  lemma {:induction false} CommentEndsAlike(front: string, tail: string, newFront: string, newTail: string)
    requires !AllBlank(tail)
    requires var d := TrimEnd(TrimStart(tail)); newTail != "" && d != "" && newTail[|newTail| - 1] == d[|d| - 1]
    ensures LacksNewline(newFront + newTail) <==> LacksNewline(TrimEnd(front + tail))
  {
    hide TrimEnd, TrimStart, Run, AllBlank;
    var c := TrimStart(tail);
    var b := BlanksFirst(tail);
    assert front + tail == (front + b) + c;
    TrimEndKeepsFront(front + b, c);
    LastOf(front + b, TrimEnd(c));
    LastOf(newFront, newTail);
  }

  lemma {:induction false} BlanksFirst(tail: string) returns (b: string)
    requires !AllBlank(tail)
    ensures tail == b + TrimStart(tail)
    ensures TrimStart(tail) != "" && !IsBlank(TrimStart(tail)[0])
  {
    GapParts(tail);
    b := tail[..Run(tail, IsBlank)];
  }

  lemma {:induction false} LastOf(a: string, b: string)
    requires b != ""
    ensures a + b != "" && (a + b)[|a + b| - 1] == b[|b| - 1]
  {
  }

  lemma {:induction false} NoItems()
    ensures Join([], "") == "" && TrimEnd("") == ""
  {
  }

  lemma {:induction false} TrimSolid(s: string)
    requires s != "" && !IsBlank(s[|s| - 1])
    ensures TrimEnd(s) == s
  {
  }

  lemma {:induction false} LaidBlankTail(cut: Cut)
    requires AllBlank(cut.tail)
    ensures LaidTail(cut.items, cut.tail) == ""
  {
  }

  lemma {:induction false} LaidCommentTail(cut: Cut, c: string)
    requires !AllBlank(cut.tail) && c == TrimStart(cut.tail)
    ensures var t, d := LaidTail(cut.items, cut.tail), TrimEnd(c); t != "" && d != "" && t[|t| - 1] == d[|d| - 1]
  {
    var ks := Kinds(cut.items);
    GapParts(cut.tail);
    var b := if LineStart(ks, |ks|) then Indent(Indentation(ks, |ks|)) else cut.tail[..Run(cut.tail, IsBlank)];
    assert GapText(ks, |ks|, cut.tail) == b + c;
    TrimEndKeepsFront(b, c);
  }

  lemma {:induction false} SolidEnd(inRange: string -> bool, cut: Cut)
    requires Tiles(inRange, cut.items, cut.tail, InCode) && Solid(cut.items) && cut.items != []
    ensures var n := |cut.items| - 1;
            var t, u := cut.items[n].text, NewText(cut.items[n]);
            t != "" && u != "" && t[|t| - 1] == u[|u| - 1] && !IsBlank(t[|t| - 1])
  {
    hide Tiles, IsToken;
    var n := |cut.items| - 1;
    assert SolidText(cut.items[n].text);
    ItemFacts(inRange, cut.items, cut.tail, n);
  }

  // ------------------------------------------------------------------ sources without block comments

  /** No gap in front of a token opens a block comment. */
  ghost predicate NoBlockComment(items: seq<Item>) {
    forall n, k :: 0 <= n < |items| && 0 <= k <= |items[n].gap| ==> Walk(items[n].gap[..k], InCode) != InBlock
  }

  lemma {:induction false} OutsideComments(items: seq<Item>, n: nat)
    requires NoBlockComment(items) && n <= |items|
    ensures PlaceAt(items, n) == InCode
  {
    if n > 0 {
      OutsideComments(items, n - 1);
      var g := items[n - 1].gap;
      assert g[..|g|] == g;
    }
  }

  /** A star is reached only inside a comment. */
  lemma {:induction false} NoStarOutside(full: string, g: string)
    requires g <= full && forall k :: 0 <= k <= |full| ==> Walk(full[..k], InCode) != InBlock
    ensures Walk(g, InCode) != AtStar
  {
    if g != "" {
      var n := |g| - 1;
      assert g[..n] == full[..n];
      assert g == g[..n] + [g[n]] && [g[n]][1..] == "";
      WalkConcat(g[..n], [g[n]], InCode);
    }
  }

  lemma {:induction false} NoCommentsAreSafe(items: seq<Item>)
    requires NoBlockComment(items)
    ensures StarSafe(items)
  {
    hide Walk, TrimEnd;
    forall n | 0 <= n < |items| ensures StarSafeAt(items, n) {
      OutsideComments(items, n);
      NoStarOutside(items[n].gap, TrimEnd(items[n].gap));
    }
  }
}
