/** Formatting a whole source: lexing, checking the grammar and laying out.

    The formatted text lexes to the tokens it was written from, each at its place, exactly when no line of a
    block comment ends, blanks aside, in a lone star. Without that the text may still format to itself or be
    accepted, and the exact conditions for both are given. */
module CanonicalSource {
  import opened Tokens
  import opened Lexing
  import opened LexFacts
  import opened Tiling
  import opened Formatting
  import opened FormatRoundTrip
  import opened SwallowedLines
  import opened CanonicalFormatter
  import opened ProfileLexer
  import opened Recogniser
  import opened FinalNewline
  import opened Grammar
  import opened OperatorSpacing
  import opened ParseBuilder
  import opened LoweringPlan
  import opened CanonicalParser
  import Choices
  import Completeness
  import NodeLayout
  import OneDerivation

  // ------------------------------------------------------------------ specification

  function Parsed(tokens: seq<Token>, maxNesting: nat): (e: Env)
    ensures ValidEnv(e)
  {
    Env(KindsOf(tokens) + [End], maxNesting)
  }

  /** No report from the lexer within the token limit, and none from the parser. */
  ghost predicate Accepted(inRange: string -> bool, source: string, maxTokens: nat, maxNesting: nat) {
    var lexed := Tokenized(inRange, source, maxTokens);
    lexed.clean && Accepts(Parsed(lexed.tokens, maxNesting))
  }

  function SourceCut(inRange: string -> bool, source: string): (cut: Cut) {
    CutAt(source, 0, Lex(inRange, source, Code, 0).tokens)
  }

  /** The conventional final newline is a token of its own and needs room. */
  predicate RoomForNewline(count: nat, maxTokens: nat) {
    count + 1 <= maxTokens
  }

  ghost function CanonicalCut(inRange: string -> bool, source: string, maxTokens: nat): (cut: Cut) {
    var cut := SourceCut(inRange, source);
    Formatted(cut, RoomForNewline(|cut.items|, maxTokens))
  }

  ghost function CanonicalText(inRange: string -> bool, source: string, maxTokens: nat): (text: string) {
    var cut := CanonicalCut(inRange, source, maxTokens);
    Join(cut.items, cut.tail)
  }

  // ------------------------------------------------------------------ the source's cut

  lemma {:induction false} CutFacts(inRange: string -> bool, source: string)
    requires Lex(inRange, source, Code, 0).clean
    ensures var cut := SourceCut(inRange, source);
            && source == Join(cut.items, cut.tail) && Solid(cut.items)
            && Lex(inRange, source, Code, 0).tokens == TokensAt(cut.items, 0)
  {
    hide Lex, CutAt, InOrder;
    LexInOrder(inRange, source, Code, 0);
    CutJoins(source, 0, Lex(inRange, source, Code, 0).tokens);
  }

  lemma {:induction false} CutTiles(inRange: string -> bool, source: string)
    requires Lex(inRange, source, Code, 0).clean
    ensures var cut := SourceCut(inRange, source); Tiles(inRange, cut.items, cut.tail, InCode)
  {
    hide Lex, Tiles, CutAt, InOrder;
    var cut := LexTiles(inRange, source, Code, 0);
    CutBack(cut.items, cut.tail, 0);
  }

  /** The cut of a tiled text is the tiling. */
  lemma {:induction false} TiledCut(inRange: string -> bool, cut: Cut)
    requires Tiles(inRange, cut.items, cut.tail, InCode)
    ensures var text := Join(cut.items, cut.tail);
            && Lex(inRange, text, Code, 0) == Lexed(TokensAt(cut.items, 0), true)
            && SourceCut(inRange, text) == cut
  {
    hide Lex, Tiles, CutAt, InOrder, Join;
    TilesLex(inRange, cut.items, cut.tail, InCode, 0);
    CutBack(cut.items, cut.tail, 0);
  }

  /** No line of a block comment in the source ends, blanks aside, in a lone star. */
  ghost predicate CommentsKeepLines(inRange: string -> bool, source: string) {
    StarSafe(SourceCut(inRange, source).items)
  }

  /** Trimmed gaps of a tiling are safe. */
  lemma {:induction false} LaidIsSafe(inRange: string -> bool, cut: Cut, appendNewline: bool)
    requires Formatted(cut, appendNewline) == cut && Tiles(inRange, cut.items, cut.tail, InCode)
    ensures StarSafe(cut.items)
  {
    hide Tiles, PlaceAt, Walk, LaidTail;
    FixedLayout(cut, appendNewline);
    forall n | 0 <= n < |cut.items| ensures StarSafeAt(cut.items, n) {
      if cut.items[n].kind == Newline {
        ItemFacts(inRange, cut.items, cut.tail, n);
        assert Laid(cut.items, n) == cut.items[n];
        TrimEndAgain(GapText(Kinds(cut.items), n, cut.items[n].gap));
      }
    }
  }

  // ------------------------------------------------------------------ round trip

  /** The same tokens with the same spellings; line breaks become plain newlines. */
  predicate SameTokens(before: seq<Item>, after: seq<Item>)
    requires |after| >= |before|
  {
    forall i :: 0 <= i < |before| ==> after[i].kind == before[i].kind && after[i].text == NewText(before[i])
  }

  /** The formatted text lexes to the tokens it was written from, each at its place, exactly when the
      comments of the source keep their lines. */
  lemma {:induction false} FormatKeepsPlaces(inRange: string -> bool, source: string, maxTokens: nat)
    requires Tokenized(inRange, source, maxTokens).clean
    requires OperatorsApart(Kinds(SourceCut(inRange, source).items))
    ensures var f := CanonicalCut(inRange, source, maxTokens);
            Lex(inRange, CanonicalText(inRange, source, maxTokens), Code, 0) == Lexed(TokensAt(f.items, 0), true)
            <==> CommentsKeepLines(inRange, source)
  {
    hide Lex, Tiles, LooseTiles, CutAt, InOrder, Join, OperatorsApart, LaidTail, NewGap, SourceCut, StarSafe;
    var cut := SourceCut(inRange, source);
    CutTiles(inRange, source);
    var f := CanonicalCut(inRange, source, maxTokens);
    FormattedTiles(inRange, cut, RoomForNewline(|cut.items|, maxTokens));
    LooseLexes(inRange, f.items, f.tail, InCode, 0);
  }

  /** Formatting keeps the tokens: re-lexing the text gives them back, and at most one newline more. */
  lemma {:induction false} FormatKeepsTokens(inRange: string -> bool, source: string, maxTokens: nat)
    requires Tokenized(inRange, source, maxTokens).clean && CommentsKeepLines(inRange, source)
    requires OperatorsApart(Kinds(SourceCut(inRange, source).items))
    ensures var text := CanonicalText(inRange, source, maxTokens);
            var before, after := SourceCut(inRange, source).items, SourceCut(inRange, text).items;
            && Tokenized(inRange, text, maxTokens) == Lexed(TokensAt(after, 0), true)
            && |before| <= |after| <= |before| + 1 && SameTokens(before, after)
            && (|after| > |before| ==> after[|before|].kind == Newline && RoomForNewline(|before|, maxTokens))
  {
    hide Lex, Tiles, StarSafe, CutAt, InOrder, Join, OperatorsApart, LaidTail, NewGap, SourceCut;
    var cut := SourceCut(inRange, source);
    CutTiles(inRange, source);
    CutFacts(inRange, source);
    var f := CanonicalCut(inRange, source, maxTokens);
    FormattedTiles(inRange, cut, RoomForNewline(|cut.items|, maxTokens));
    TiledCut(inRange, f);
    assert |f.items| <= maxTokens;
  }

  /** The cut of the formatted text, whether or not the comments keep their lines. */
  lemma {:induction false} FormattedCut(inRange: string -> bool, source: string, maxTokens: nat)
    requires Tokenized(inRange, source, maxTokens).clean
    requires OperatorsApart(Kinds(SourceCut(inRange, source).items))
    ensures var cut := SourceCut(inRange, source);
            var room := RoomForNewline(|cut.items|, maxTokens);
            var text, g := CanonicalText(inRange, source, maxTokens), Fused(cut, room);
            && SourceCut(inRange, text) == g && Join(g.items, g.tail) == text
            && Lex(inRange, text, Code, 0) == Lexed(TokensAt(g.items, 0), true)
            && Kinds(g.items) == KeptKinds(cut.items, 0) + AddedNewline(source, room)
            && |KeptKinds(cut.items, 0)| <= |cut.items|
            && (|KeptKinds(cut.items, 0)| == |cut.items| <==> CommentsKeepLines(inRange, source))
            && (LacksNewline(text) <==> !room && LacksNewline(TrimEnd(source)))
  {
    hide Lex, Tiles, CutAt, InOrder, Join, OperatorsApart, LaidTail, LaidOut, SourceCut, StarSafeAt, Fused, KeptKinds;
    var cut := SourceCut(inRange, source);
    var room := RoomForNewline(|cut.items|, maxTokens);
    CutTiles(inRange, source);
    CutFacts(inRange, source);
    FormattedFuses(inRange, cut, room);
    TiledCut(inRange, Fused(cut, room));
    EndsAlike(inRange, cut);
    FormattedKinds(cut, room);
    FormattedEnd(cut, room);
  }

  /** The conventional final newline, if it is missing and there is room. */
  function AddedNewline(source: string, room: bool): (ks: seq<Kind>) {
    if room && LacksNewline(TrimEnd(source)) then [Newline] else []
  }

  lemma {:induction false} FormattedKinds(cut: Cut, appendNewline: bool)
    ensures var g := Fused(cut, appendNewline);
            var added := appendNewline && LacksNewline(Join(LaidOut(cut.items), LaidTail(cut.items, cut.tail)));
            && Kinds(g.items) == KeptKinds(cut.items, 0) + (if added then [Newline] else [])
            && |KeptKinds(cut.items, 0)| <= |cut.items|
            && (|KeptKinds(cut.items, 0)| == |cut.items| <==> StarSafe(cut.items))
  {
    hide Join, LaidTail, Laid, StarSafeAt, KeptKinds, FusedFrom;
    var f := Formatted(cut, appendNewline);
    FormattedIsLaid(cut, appendNewline);
    SameKinds(cut.items);
    FusedKinds(cut.items, f.items, f.tail, 0);
    assert StarSafe(cut.items) <==> StarSafeFrom(cut.items, 0);
  }

  lemma {:induction false} FormattedEnd(cut: Cut, appendNewline: bool)
    ensures var f := Formatted(cut, appendNewline);
            LacksNewline(Join(f.items, f.tail)) <==>
            !appendNewline && LacksNewline(Join(LaidOut(cut.items), LaidTail(cut.items, cut.tail)))
  {
    hide Join, LaidTail, LaidOut;
    var laid, tail := LaidOut(cut.items), LaidTail(cut.items, cut.tail);
    EndsInNewline(laid, tail, 0);
    var more := laid + [Item(tail, Newline, "\n")];
    assert more[0..] == more;
  }

  /** The comments keep their lines, or the final newline has room, or the source ends in a line break already. */
  ghost predicate FormatsOnce(inRange: string -> bool, source: string, maxTokens: nat) {
    || CommentsKeepLines(inRange, source)
    || RoomForNewline(|SourceCut(inRange, source).items|, maxTokens)
    || !LacksNewline(TrimEnd(source))
  }

  /** Formatting the formatted text changes nothing, exactly when the comments of the source keep their lines, or
      the final newline had room, or the source ends in a line break already: otherwise a swallowed line break
      makes the room that was missing. */
  lemma {:induction false} FormatIsIdempotent(inRange: string -> bool, source: string, maxTokens: nat)
    requires Tokenized(inRange, source, maxTokens).clean
    requires OperatorsApart(Kinds(SourceCut(inRange, source).items))
    ensures var text := CanonicalText(inRange, source, maxTokens);
            CanonicalText(inRange, text, maxTokens) == text <==> FormatsOnce(inRange, source, maxTokens)
  {
    hide Lex, OperatorsApart, SourceCut, CommentsKeepLines, KeptKinds, Fused, Join, LaidOut, LaidTail, TrimEnd,
      LacksNewline;
    var cut := SourceCut(inRange, source);
    var room := RoomForNewline(|cut.items|, maxTokens);
    var text, g := CanonicalText(inRange, source, maxTokens), Fused(cut, room);
    FormattedCut(inRange, source, maxTokens);
    CutTiles(inRange, source);
    CutFacts(inRange, source);
    FusedFormats(inRange, cut, room);
    var again := RoomForNewline(|g.items|, maxTokens);
    assert |g.items| == |Kinds(g.items)|;
    assert CanonicalCut(inRange, text, maxTokens) == Formatted(g, again);
    NewlineOnly(g, again);
  }

  /** A cut that is laid out already can only gain the final newline. */
  lemma {:induction false} NewlineOnly(cut: Cut, appendNewline: bool)
    requires LaidOut(cut.items) == cut.items && LaidTail(cut.items, cut.tail) == cut.tail
    ensures var f, text := Formatted(cut, appendNewline), Join(cut.items, cut.tail);
            Join(f.items, f.tail) == text <==> !(appendNewline && LacksNewline(text))
  {
    hide LaidOut, LaidTail;
    if appendNewline && LacksNewline(Join(cut.items, cut.tail)) {
      JoinTail(cut.items, cut.tail);
      JoinAppend(cut.items, Item(cut.tail, Newline, "\n"));
    }
  }

  /** With comments that keep their lines the second pass gives the same cut, and is safe itself. */
  lemma {:induction false} FormatAgainIsSame(inRange: string -> bool, source: string, maxTokens: nat)
    requires Tokenized(inRange, source, maxTokens).clean && CommentsKeepLines(inRange, source)
    requires OperatorsApart(Kinds(SourceCut(inRange, source).items))
    ensures var text := CanonicalText(inRange, source, maxTokens);
            && CanonicalText(inRange, text, maxTokens) == text
            && CanonicalCut(inRange, text, maxTokens) == SourceCut(inRange, text) ==
              CanonicalCut(inRange, source, maxTokens)
            && CommentsKeepLines(inRange, text)
  {
    hide Lex, Tiles, StarSafe, CutAt, InOrder, Join, OperatorsApart, LaidTail, NewGap, SourceCut, LaidOut;
    var cut := SourceCut(inRange, source);
    CutTiles(inRange, source);
    var room := RoomForNewline(|cut.items|, maxTokens);
    var f := Formatted(cut, room);
    FormattedTiles(inRange, cut, room);
    TiledCut(inRange, f);
    FormatAgain(cut, room, RoomForNewline(|f.items|, maxTokens));
    LaidIsSafe(inRange, f, RoomForNewline(|f.items|, maxTokens));
  }

  /** A source without block comments keeps its lines. */
  lemma {:induction false} NoCommentKeepsLines(inRange: string -> bool, source: string)
    requires NoBlockComment(SourceCut(inRange, source).items)
    ensures CommentsKeepLines(inRange, source)
  {
    hide SourceCut;
    NoCommentsAreSafe(SourceCut(inRange, source).items);
  }

  /** A comment line that ends in a star and a blank: trimming the blank lets the star swallow the
      line break, and formatting the result once more adds another. */
  lemma {:induction false} StarSwallowsLine(inRange: string -> bool, maxNesting: nat)
    ensures var source := "/** \n*/";
            var text := "/**\n*/";
            && Accepted(inRange, source, 1, maxNesting) && !CommentsKeepLines(inRange, source)
            && CanonicalText(inRange, source, 1) == text && CanonicalText(inRange, text, 1) == text + "\n"
  {
    StarSource(inRange, maxNesting);
    StarText(inRange);
  }

  lemma {:induction false} StarSource(inRange: string -> bool, maxNesting: nat)
    ensures var source := "/** \n*/";
            && Accepted(inRange, source, 1, maxNesting) && !CommentsKeepLines(inRange, source)
            && CanonicalText(inRange, source, 1) == "/**\n*/"
  {
    hide Walk, Lex, SourceCut, Accepts, GapText, TrimEnd, NewGap, Indentation, CodeStep;
    var item := Item("/** ", Newline, "\n");
    var cut := Cut([item], "*/");
    StarWalks();
    assert cut.items[1..] == [];
    assert Join([], "*/") == "*/" && "/** " + "\n" + "*/" == "/** \n*/";
    TiledCut(inRange, cut);
    StarGap();
    assert PlaceAt(cut.items, 0) == InCode && !StarSafeAt(cut.items, 0);
    assert Kinds(cut.items) == [Newline];
    assert LaidOut(cut.items) == [Item("/**", Newline, "\n")];
    assert LaidTail(cut.items, cut.tail) == "*/" by {
      StarTail();
    }
    assert [Item("/**", Newline, "\n")][1..] == [] && "/**" + "\n" + "*/" == "/**\n*/";
    assert KindsOf(TokensAt(cut.items, 0)) + [End] == [Newline, End];
    OnlyNewline(maxNesting);
  }

  lemma {:induction false} StarWalks()
    ensures Walk("/** ", InCode) == InBlock && Walk("*/", InBlock) == InCode && Walk("/**", InCode) == AtStar
  {
  }

  lemma {:induction false} FlushText(ks: seq<Kind>, n: nat, g: string)
    requires n <= |ks| && LineStart(ks, n) && Indentation(ks, n) == 0 && g != "" && !IsBlank(g[0])
    ensures GapText(ks, n, g) == g
  {
    assert Indent(0) == "";
    assert "" + g == g;
  }

  lemma {:induction false} StarGap()
    ensures TrimEnd("/** ") == "/**" && NewGap([Newline], 0, "/** ") == "/**"
  {
    assert TrimEnd("/** ") == "/**" by {
      assert "/** "[..3] == "/**";
    }
    hide TrimEnd;
    FlushText([Newline], 0, "/** ");
  }

  lemma {:induction false} StarTail()
    ensures TrimEnd(GapText([Newline], 1, "*/")) == "*/"
  {
    assert Indentation([Newline], 0) == 0;
    FlushText([Newline], 1, "*/");
  }

  lemma {:induction false} OnlyNewline(maxNesting: nat)
    ensures Accepts(Env([Newline, End], maxNesting))
  {
  }

  lemma {:induction false} StarText(inRange: string -> bool)
    ensures CanonicalText(inRange, "/**\n*/", 1) == "/**\n*/" + "\n"
  {
    hide Walk, Lex, SourceCut, TrimEnd, CodeStep, Indentation;
    var text := "/**\n*/";
    TextWalks();
    TiledCut(inRange, Cut([], text));
    assert Join([], text) == text;
    assert SourceCut(inRange, text) == Cut([], text);
    assert Kinds([]) == [];
    TextTail();
    hide GapText;
    assert LaidOut([]) == [] && LaidTail([], text) == text && Join([], text) == text;
    assert [] + [Item(text, Newline, "\n")] == [Item(text, Newline, "\n")];
    assert Formatted(Cut([], text), true) == Cut([Item(text, Newline, "\n")], "");
    assert CanonicalCut(inRange, text, 1) == Cut([Item(text, Newline, "\n")], "");
    assert [Item(text, Newline, "\n")][1..] == [] && text + "\n" + "" == text + "\n";
    assert Join([], "") == "";
    assert Join([Item(text, Newline, "\n")], "") == text + "\n";
  }

  lemma {:induction false} TextWalks()
    ensures Walk("/**\n*/", InCode) == InCode
  {
    assert Walk("\n*/", AtStar) == InCode;
  }

  lemma {:induction false} TextTail()
    ensures TrimEnd(GapText([], 0, "/**\n*/")) == "/**\n*/"
  {
    FlushText([], 0, "/**\n*/");
  }

  /** The kinds of the source without the swallowed line breaks, and with the final newline if one is added. */
  ghost function LeftKinds(inRange: string -> bool, source: string, maxTokens: nat): (ks: seq<Kind>) {
    var cut := SourceCut(inRange, source);
    KeptKinds(cut.items, 0) + AddedNewline(source, RoomForNewline(|cut.items|, maxTokens))
  }

  /** The formatted text is accepted exactly when the tokens of the source without the swallowed line breaks are,
      with the final newline if one was added. */
  lemma {:induction false} FormatAccepted(inRange: string -> bool, source: string, maxTokens: nat, maxNesting: nat)
    requires Tokenized(inRange, source, maxTokens).clean
    requires OperatorsApart(Kinds(SourceCut(inRange, source).items))
    ensures Accepted(inRange, CanonicalText(inRange, source, maxTokens), maxTokens, maxNesting) <==>
            Accepts(Env(LeftKinds(inRange, source, maxTokens) + [End], maxNesting))
  {
    hide Lex, OperatorsApart, SourceCut, CommentsKeepLines, KeptKinds, Fused, Join, CanonicalText, TrimEnd,
      LacksNewline, Accepts, TokensAt, Solid;
    var cut := SourceCut(inRange, source);
    var text := CanonicalText(inRange, source, maxTokens);
    FormattedCut(inRange, source, maxTokens);
    CutFacts(inRange, source);
    var g := Fused(cut, RoomForNewline(|cut.items|, maxTokens));
    assert KindsOf(TokensAt(g.items, 0)) == Kinds(g.items);
    assert |g.items| == |Kinds(g.items)|;
  }

  /** Comments that keep their lines keep a source accepted. */
  lemma {:induction false} FormatIsAccepted(inRange: string -> bool, source: string, maxTokens: nat, maxNesting: nat)
    requires Accepted(inRange, source, maxTokens, maxNesting) && CommentsKeepLines(inRange, source)
    requires OperatorsApart(Kinds(SourceCut(inRange, source).items))
    ensures Accepted(inRange, CanonicalText(inRange, source, maxTokens), maxTokens, maxNesting)
  {
    hide Lex, CommentsKeepLines, OperatorsApart, SourceCut, CanonicalText, Accepts, TokensAt, Solid;
    FormatKeepsTokens(inRange, source, maxTokens);
    CutFacts(inRange, source);
    var text := CanonicalText(inRange, source, maxTokens);
    var before, after := SourceCut(inRange, source).items, SourceCut(inRange, text).items;
    var e, x := Parsed(TokensAt(before, 0), maxNesting), Parsed(TokensAt(after, 0), maxNesting);
    if |after| == |before| {
      assert e.ks == x.ks;
    } else {
      assert x.ks == e.ks[..|e.ks| - 1] + [Newline, End];
      SolidKinds(before);
      AcceptedWithNewline(e, x);
    }
  }

  const BREAK := Identifier("break")
  const BREAKS := Cut([Item("", BREAK, "break"), Item(" /** ", Newline, "\n"), Item("*/ ", BREAK, "break")], "")

  /** Two statements that only a swallowed line break kept apart: the formatted text is refused. */
  lemma {:induction false} StarJoinsStatements(inRange: string -> bool, maxNesting: nat)
    ensures var source := "break /** \n*/ break";
            && Accepted(inRange, source, 3, maxNesting)
            && !Accepted(inRange, CanonicalText(inRange, source, 3), 3, maxNesting)
  {
    hide Lex, Tiles, Join, SourceCut, CanonicalText, Accepts, KeptKinds, Kinds, OperatorsApart, TokensAt, TrimEnd,
      LacksNewline;
    BreaksTile(inRange);
    TiledCut(inRange, BREAKS);
    BreaksAccepted(inRange, maxNesting);
    BreaksKept();
    FormatAccepted(inRange, "break /** \n*/ break", 3, maxNesting);
    BreakBreak(maxNesting);
  }

  lemma {:induction false} BreakWord(inRange: string -> bool, rest: string)
    requires rest != "" ==> rest[0] == ' '
    ensures IsToken(inRange, Item("", BREAK, "break"), rest) && IsToken(inRange, Item("*/ ", BREAK, "break"), rest)
  {
    hide NumberStep, StringExtent, SingleQuotedExtent, OperatorStep, Run;
    var s := "break" + rest;
    RunIs(s, IsIdentifierPart, 5);
    assert s[..5] == "break";
  }

  lemma {:induction false} BreaksTile(inRange: string -> bool)
    ensures Tiles(inRange, BREAKS.items, BREAKS.tail, InCode) &&
      Join(BREAKS.items, BREAKS.tail) == "break /** \n*/ break"
  {
    hide IsToken, Walk, Tiles, Join, Leads, TokensAt;
    var a, b, c := Item("", BREAK, "break"), Item(" /** ", Newline, "\n"), Item("*/ ", BREAK, "break");
    BreakWalks();
    LastBreakTiles(inRange, b, c);
    BreakWord(inRange, " /** \n*/ break");
    assert [a] + [b, c] == BREAKS.items && "" + "break" + " /** \n*/ break" == "break /** \n*/ break";
    JoinFront(a, [b, c], "", 0);
    BreakLeads(inRange, a, " /** \n*/ break");
    TilesFront(inRange, a, [b, c], "", InCode);
  }

  lemma {:induction false} LastBreakTiles(inRange: string -> bool, b: Item, c: Item)
    requires b == Item(" /** ", Newline, "\n") && c == Item("*/ ", BREAK, "break")
    ensures Tiles(inRange, [b, c], "", InCode) && Join([b, c], "") == " /** \n*/ break"
  {
    hide IsToken, Walk, Tiles, Join, Leads, TokensAt;
    BreakWalks();
    EmptyCut(inRange, 0);
    BreakWord(inRange, "");
    assert [c] + [] == [c] && [b] + [c] == [b, c];
    JoinFront(c, [], "", 0);
    assert "*/ " + "break" + "" == "*/ break" && " /** " + "\n" + "*/ break" == " /** \n*/ break";
    BreakLeads(inRange, c, "");
    TilesFront(inRange, c, [], "", InBlock);
    JoinFront(b, [c], "", 0);
    LineLeads(inRange, b);
    TilesFront(inRange, b, [c], "", InCode);
  }

  lemma {:induction false} BreakLeads(inRange: string -> bool, item: Item, rest: string)
    requires item.kind == BREAK && IsToken(inRange, item, rest)
    ensures Leads(inRange, item, rest, InCode) && Behind(InCode) == InCode
  {
  }

  lemma {:induction false} LineLeads(inRange: string -> bool, item: Item)
    requires item.kind == Newline && item.text == "\n"
    ensures Leads(inRange, item, "*/ break", InBlock) && Behind(InBlock) == InBlock
  {
  }

  lemma {:induction false} BreakWalks()
    ensures Walk("", InCode) == InCode && Walk(" /** ", InCode) == InBlock && Walk("*/ ", InBlock) == InCode
  {
    assert Walk("/** ", InCode) == InBlock;
  }

  lemma {:induction false} BreaksKept()
    ensures KeptKinds(BREAKS.items, 0) == [BREAK, BREAK] && OperatorsApart(Kinds(BREAKS.items))
  {
    hide Walk, TrimEnd;
    BreakWalks();
    SpacedStar();
    assert PlaceAt(BREAKS.items, 0) == InCode && PlaceAt(BREAKS.items, 1) == InCode;
    assert StarSafeAt(BREAKS.items, 0) && !StarSafeAt(BREAKS.items, 1) && StarSafeAt(BREAKS.items, 2);
    assert KeptKinds(BREAKS.items, 3) == [];
    assert KeptKinds(BREAKS.items, 2) == [BREAK] + [];
    assert KeptKinds(BREAKS.items, 1) == [] + [BREAK];
  }

  lemma {:induction false} SpacedStar()
    ensures Walk(TrimEnd(" /** "), InCode) == AtStar
  {
    assert TrimEnd(" /** ") == " /**" by {
      assert " /** "[..4] == " /**";
    }
    StarWalks();
    assert " /**"[1..] == "/**";
  }

  lemma {:induction false} BreakBreak(maxNesting: nat)
    ensures !Accepts(Env([BREAK, BREAK] + [] + [End], maxNesting))
  {
    var e := Env([BREAK, BREAK] + [] + [End], maxNesting);
    assert e.ks == [BREAK, BREAK, End];
    var s := PS(0, 0, true);
    assert SkipEnds(e, s) == s;
    var t := ParseStatement(e, s);
    assert t == PS(1, 0, true);
    assert !RequireStatementEnd(e, t).ok;
  }

  lemma {:induction false} BreaksAccepted(inRange: string -> bool, maxNesting: nat)
    requires Lex(inRange, "break /** \n*/ break", Code, 0) == Lexed(TokensAt(BREAKS.items, 0), true)
    ensures Accepted(inRange, "break /** \n*/ break", 3, maxNesting)
  {
    hide Lex, TokensAt;
    assert KindsOf(TokensAt(BREAKS.items, 0)) + [End] == [BREAK, Newline, BREAK, End];
    BreakLineBreak(maxNesting);
  }

  lemma {:induction false} BreakLineBreak(maxNesting: nat)
    ensures Accepts(Env([BREAK, Newline, BREAK, End], maxNesting))
  {
    var e := Env([BREAK, Newline, BREAK, End], maxNesting);
    var s, t, u, v := PS(0, 0, true), PS(1, 0, true), PS(2, 0, true), PS(3, 0, true);
    assert SkipEnds(e, s) == s && SkipEnds(e, u) == u;
    assert SkipEnds(e, t) == SkipEnds(e, u);
    assert ParseStatement(e, s) == t && RequireStatementEnd(e, t) == u;
    assert OneStatement(e, s) == u;
    assert ParseStatement(e, u) == v && RequireStatementEnd(e, v) == v;
    assert OneStatement(e, u) == v;
    assert TopLevel(e, v) == v;
    assert TopLevel(e, u) == v;
  }

  lemma {:induction false} SolidKinds(items: seq<Item>)
    requires Solid(items)
    ensures forall i :: 0 <= i < |items| ==> items[i].kind != End
  {
  }

  // ------------------------------------------------------------------ the output limit

  lemma {:induction false} PrefixBytes(a: string, b: string)
    ensures ByteLength(a) <= ByteLength(a + b)
    decreases |b|
  {
    if b == "" {
      assert a + b == a;
    } else {
      assert (a + b)[..|a + b| - 1] == a + b[..|b| - 1];
      PrefixBytes(a, b[..|b| - 1]);
    }
  }

  lemma {:induction false} JoinSplit(items: seq<Item>, tail: string, n: nat)
    requires n <= |items|
    ensures Join(items, tail) == Join(items[..n], "") + Join(items[n..], tail)
  {
    if n == 0 {
      assert items[0..] == items && items[..0] == [];
    } else {
      JoinSplit(items[1..], tail, n - 1);
      assert items[..n][1..] == items[1..][..n - 1] && items[1..][n - 1..] == items[n..];
    }
  }

  /** A gap the formatter has written is not written longer before it is trimmed. */
  lemma {:induction false} GapIsTight(ks: seq<Kind>, n: nat, g: string)
    requires n <= |ks| && TrimEnd(GapText(ks, n, g)) == g
    ensures GapText(ks, n, g) == g || GapText(ks, n, g) == ""
  {
    var w := GapText(ks, n, g);
    if !AllBlank(g) {
      assert g != "" && !IsBlank(g[|g| - 1]);
      assert |w| >= |TrimStart(g)|;
      assert TrimStart(g) != "" && w[|w| - 1] == g[|g| - 1];
      assert TrimEnd(w) == w;
    }
  }

  /** For a text that formats to itself the limit is a plain bound on its length. */
  lemma {:induction false} LimitOfFormatted(max: nat, cut: Cut, appendNewline: bool)
    requires Formatted(cut, appendNewline) == cut
    ensures StaysWithin(max, cut, appendNewline) <==> ByteLength(Join(cut.items, cut.tail)) <= max
  {
    if ByteLength(Join(cut.items, cut.tail)) <= max {
      FixedLayout(cut, appendNewline);
      forall n | 0 <= n < |cut.items| ensures StepFits(max, Join(LaidOut(cut.items)[..n], ""), cut.items, n) {
        StepWithin(max, cut, n);
      }
      EndWithin(max, cut, appendNewline);
    }
  }

  lemma {:induction false} FixedLayout(cut: Cut, appendNewline: bool)
    requires Formatted(cut, appendNewline) == cut
    ensures LaidOut(cut.items) == cut.items && LaidTail(cut.items, cut.tail) == cut.tail
  {
    hide Laid, LaidTail, Join;
    assert |Formatted(cut, appendNewline).items| == |cut.items|;
  }

  lemma {:induction false} StepWithin(max: nat, cut: Cut, n: nat)
    requires n < |cut.items| && LaidOut(cut.items) == cut.items && ByteLength(Join(cut.items, cut.tail)) <= max
    ensures StepFits(max, Join(LaidOut(cut.items)[..n], ""), cut.items, n)
  {
    hide ByteLength, Join, GapText, TrimEnd, AllBlank, Spaced;
    var ks := Kinds(cut.items);
    var item := cut.items[n];
    var before := Join(cut.items[..n], "");
    var rest := Join(cut.items[n + 1..], cut.tail);
    assert Laid(cut.items, n) == item;
    ItemSplit(cut, n);
    var w := GapText(ks, n, item.gap);
    var more := NarrowGap(ks, n, item.gap);
    assert Join(cut.items, cut.tail) == (before + w) + (more + item.text + rest);
    PrefixBytes(before + w, more + item.text + rest);
    assert Join(cut.items, cut.tail) == (before + item.gap + item.text) + rest;
    PrefixBytes(before + item.gap + item.text, rest);
  }

  /** The gap as first written is a prefix of the final gap. */
  lemma {:induction false} NarrowGap(ks: seq<Kind>, n: nat, g: string) returns (more: string)
    requires n < |ks| && NewGap(ks, n, g) == g
    ensures GapText(ks, n, g) + more == g
  {
    hide Spaced, Indent;
    if ks[n] == Newline {
      GapIsTight(ks, n, g);
      more := if GapText(ks, n, g) == g then "" else g;
    } else {
      more := g[|GapText(ks, n, g)|..];
    }
  }

  lemma {:induction false} ItemSplit(cut: Cut, n: nat)
    requires n < |cut.items|
    ensures Join(cut.items, cut.tail) ==
            Join(cut.items[..n], "") + cut.items[n].gap + cut.items[n].text + Join(cut.items[n + 1..], cut.tail)
  {
    JoinSplit(cut.items, cut.tail, n);
    assert cut.items[n..][1..] == cut.items[n + 1..];
  }

  lemma {:induction false} EndWithin(max: nat, cut: Cut, appendNewline: bool)
    requires LaidOut(cut.items) == cut.items && LaidTail(cut.items, cut.tail) == cut.tail
    requires Formatted(cut, appendNewline) == cut && ByteLength(Join(cut.items, cut.tail)) <= max
    ensures EndFits(max, cut, appendNewline)
  {
    hide ByteLength, Join, GapText, TrimEnd, Formatted;
    var ks := Kinds(cut.items);
    var w := GapText(ks, |ks|, cut.tail);
    GapIsTight(ks, |ks|, cut.tail);
    JoinTail(cut.items, cut.tail);
    var all := Join(cut.items, "");
    assert all + "" == all;
    PrefixBytes(all, cut.tail);
  }

  // ------------------------------------------------------------------ token order

  /** Spans are non-empty, lie in `[base, limit]` and follow one another. */
  ghost predicate Spans(tokens: seq<Token>, base: nat, limit: nat) {
    && (forall i :: 0 <= i < |tokens| ==> base <= tokens[i].start < tokens[i].end <= limit)
    && (forall i, j :: 0 <= i < j < |tokens| ==> tokens[i].end <= tokens[j].start)
  }

  lemma {:induction false} LexSpans(inRange: string -> bool, s: string, mode: Mode, base: nat)
    ensures Spans(Lex(inRange, s, mode, base).tokens, base, base + |s|)
    decreases |s|
  {
    hide LexStep;
    if s != "" {
      var st := LexStep(inRange, s, mode);
      LexSpans(inRange, s[st.len..], st.mode, base + st.len);
      SpansFront(st, base, Lex(inRange, s[st.len..], st.mode, base + st.len).tokens, base + |s|);
    }
  }

  lemma {:induction false} SpansFront(st: Lexing.Step, base: nat, rest: seq<Token>, limit: nat)
    requires st.len >= 1 && base + st.len <= limit && Spans(rest, base + st.len, limit)
    ensures Spans(Emitted(st, base) + rest, base, limit)
  {
    var all := Emitted(st, base) + rest;
    forall i | 0 <= i < |all| ensures base <= all[i].start < all[i].end <= limit {
      if |all| > |rest| && i > 0 {
        assert all[i] == rest[i - 1];
      } else if |all| == |rest| {
        assert all[i] == rest[i];
      }
    }
    forall i, j | 0 <= i < j < |all| ensures all[i].end <= all[j].start {
      if |all| > |rest| {
        assert all[j] == rest[j - 1];
        assert i > 0 ==> all[i] == rest[i - 1];
      } else {
        assert all[i] == rest[i] && all[j] == rest[j];
      }
    }
  }

  /** The lexer's tokens are in strictly increasing order. */
  lemma {:induction false} LexOrdered(inRange: string -> bool, source: string, maxTokens: nat)
    ensures Ordered(Tokenized(inRange, source, maxTokens).tokens + [Token(End, |source|, |source|)])
  {
    hide Lex;
    LexSpans(inRange, source, Code, 0);
    var tokens := Tokenized(inRange, source, maxTokens).tokens;
    assert Spans(tokens, 0, |source|);
    var all := tokens + [Token(End, |source|, |source|)];
    forall i, j | 0 <= i < j < |all| ensures all[i].start < all[j].start && all[i].end <= all[j].start {
      assert all[i] == tokens[i];
    }
  }

  // ------------------------------------------------------------------ the formatting entry point

  datatype FormatOutcome = Rejected | TooLarge(actual: nat, maximum: nat) | Text(text: string)

  /** What formatting promises of its text: same tokens and at most one newline more, accepted
      under the same limits, and a fixed point that stays within the same output limit. */
  ghost predicate RoundTrips(inRange: string -> bool, source: string, text: string, maxTokens: nat, maxNesting: nat,
      maxOutputBytes: nat) {
    var before, after := SourceCut(inRange, source).items, SourceCut(inRange, text).items;
    && Tokenized(inRange, text, maxTokens) == Lexed(TokensAt(after, 0), true)
    && |before| <= |after| <= |before| + 1 && SameTokens(before, after)
    && (|after| > |before| ==> after[|before|].kind == Newline && RoomForNewline(|before|, maxTokens))
    && Accepted(inRange, text, maxTokens, maxNesting)
    && CanonicalText(inRange, text, maxTokens) == text
    && StaysWithin(maxOutputBytes, SourceCut(inRange, text), RoomForNewline(|after|, maxTokens))
  }

  /** When the text formats to itself, and when it is accepted again. */
  ghost predicate FormatsAgain(inRange: string -> bool, source: string, text: string, maxTokens: nat, maxNesting: nat) {
    && (CanonicalText(inRange, text, maxTokens) == text <==> FormatsOnce(inRange, source, maxTokens))
    && (Accepted(inRange, text, maxTokens, maxNesting) <==>
      Accepts(Env(LeftKinds(inRange, source, maxTokens) + [End], maxNesting)))
  }

  lemma {:induction false} SecondPass(inRange: string -> bool, source: string, maxTokens: nat, maxNesting: nat)
    requires Tokenized(inRange, source, maxTokens).clean
    requires OperatorsApart(Kinds(SourceCut(inRange, source).items))
    ensures FormatsAgain(inRange, source, CanonicalText(inRange, source, maxTokens), maxTokens, maxNesting)
  {
    hide Lex, OperatorsApart, SourceCut, CanonicalText, Accepts, Accepted, FormatsOnce, LeftKinds;
    FormatIsIdempotent(inRange, source, maxTokens);
    FormatAccepted(inRange, source, maxTokens, maxNesting);
  }

  lemma {:induction false} FormattedRoundTrips(inRange: string -> bool, source: string, maxTokens: nat,
      maxNesting: nat, maxOutputBytes: nat)
    requires Accepted(inRange, source, maxTokens, maxNesting) && CommentsKeepLines(inRange, source)
    requires OperatorsApart(Kinds(SourceCut(inRange, source).items))
    requires ByteLength(CanonicalText(inRange, source, maxTokens)) <= maxOutputBytes
    ensures RoundTrips(inRange, source, CanonicalText(inRange, source, maxTokens), maxTokens, maxNesting,
      maxOutputBytes)
  {
    hide Lex, CommentsKeepLines, OperatorsApart, SourceCut, Accepts, TokensAt, Formatted, StaysWithin, ByteLength, Join;
    var text := CanonicalText(inRange, source, maxTokens);
    FormatKeepsTokens(inRange, source, maxTokens);
    FormatAgainIsSame(inRange, source, maxTokens);
    FormatIsAccepted(inRange, source, maxTokens, maxNesting);
    var f := SourceCut(inRange, text);
    LimitOfFormatted(maxOutputBytes, f, RoomForNewline(|f.items|, maxTokens));
  }

  /** The verdict and derivation for the tokens of a source. */
  method CheckTokens(inRange: string -> bool, source: string, maxTokens: nat, maxNesting: nat, tokens: seq<Token>)
      returns (ok: bool)
    requires Tokenized(inRange, source, maxTokens).clean
    requires tokens == Tokenized(inRange, source, maxTokens).tokens + [Token(End, |source|, |source|)]
    ensures ok <==> Accepted(inRange, source, maxTokens, maxNesting)
    ensures ok <==> Completeness.Derivable(Kinds(SourceCut(inRange, source).items) + [End], maxNesting)
    ensures ok ==> OperatorsApart(Kinds(SourceCut(inRange, source).items))
    ensures ok ==> LaidOutByNodes(inRange, source)
  {
    hide Lex, SourceCut, OperatorsApart, Accepts, Ordered, PlanOf, Separators, TailEdits, Derives, Yield, Solid,
      TokensAt, Choices.Forced, Completeness.Derivable, NodeLayout.CanonicalLayout;
    var parser := new Parser(tokens, maxNesting);
    ghost var tree := parser.Parse();
    ok := parser.clean;
    CutFacts(inRange, source);
    ghost var items := SourceCut(inRange, source).items;
    ghost var cut := TokensAt(items, 0);
    assert KindsOf(tokens) == KindsOf(cut) + [End];
    SolidKinds(items);
    assert KindsOf(cut) == Kinds(items);
    if Completeness.Derivable(Kinds(items) + [End], maxNesting) {
      Completeness.DerivableIsAccepted(Kinds(items) + [End], maxNesting);
    }
    if ok {
      EndIsLast(items, tokens, parser.index);
      assert Yield(tree) == Kinds(items);
      AcceptedOperatorsApart(tree);
      NodeLayout.LayoutIsCanonical(items, tree);
      assert OneDerivation.IsDerivation(Kinds(items) + [End], tree);
      Completeness.AcceptedIsDerivable(Kinds(items) + [End], tree, maxNesting);
    }
  }

  /** The formatted gaps of an accepted source are those its derivation calls for. */
  ghost predicate LaidOutByNodes(inRange: string -> bool, source: string) {
    var items := SourceCut(inRange, source).items;
    exists tree ::
      OneDerivation.IsDerivation(Kinds(items) + [End], tree) && NodeLayout.CanonicalLayout(items, tree)
  }

  lemma {:induction false} EndIsLast(items: seq<Item>, tokens: seq<Token>, k: nat)
    requires |tokens| == |items| + 1 && k < |tokens| && tokens[k].kind == End
    requires forall i :: 0 <= i < |items| ==> tokens[i].kind == items[i].kind != End
    ensures k == |items|
  {
  }

  method FormatCanonicalSource(inRange: string -> bool, source: string, maxTokens: nat, maxNesting: nat,
      maxOutputBytes: nat)
    returns (r: FormatOutcome)
    ensures r.Rejected? <==> !Accepted(inRange, source, maxTokens, maxNesting)
    ensures r.Text? ==> r.text == CanonicalText(inRange, source, maxTokens)
    ensures !r.Rejected? ==>
              var cut := SourceCut(inRange, source);
              r.Text? <==> StaysWithin(maxOutputBytes, cut, RoomForNewline(|cut.items|, maxTokens))
    ensures r.TooLarge? ==> r.maximum == maxOutputBytes < r.actual
    ensures r.Text? && CommentsKeepLines(inRange, source) ==>
              RoundTrips(inRange, source, r.text, maxTokens, maxNesting, maxOutputBytes)
    ensures r.Text? ==> FormatsAgain(inRange, source, r.text, maxTokens, maxNesting)
    ensures r.Text? ==> LaidOutByNodes(inRange, source)
  {
    hide LaidOutByNodes, Completeness.Derivable, Lex, SourceCut, OperatorsApart, Accepts, StepFits, ByteLength, Solid,
      TokensAt, Join, Formatted, RoundTrips, CommentsKeepLines, LambdaOpen, Indentation, FormatsAgain;
    var lexer := new Lexer(source, maxTokens, inRange);
    lexer.Tokenize();
    if !lexer.clean {
      return Rejected;
    }
    var ok := CheckTokens(inRange, source, maxTokens, maxNesting, lexer.tokens);
    if !ok {
      return Rejected;
    }
    CutFacts(inRange, source);
    ghost var cut := SourceCut(inRange, source);
    SecondPass(inRange, source, maxTokens, maxNesting);
    var append := |lexer.tokens| <= maxTokens;
    var formatter := new Formatter(source, lexer.tokens, maxOutputBytes, append);
    StartState(Kinds(cut.items));
    var done := formatter.Format(cut);
    match done
    case Done(text) =>
      if CommentsKeepLines(inRange, source) {
        FormattedRoundTrips(inRange, source, maxTokens, maxNesting, maxOutputBytes);
      }
      r := Text(text);
    case OutputTooLarge(actual, maximum) =>
      r := TooLarge(actual, maximum);
  }

  lemma {:induction false} StartState(ks: seq<Kind>)
    ensures !LambdaOpen(ks, 0) && Indentation(ks, 0) == 0
  {
  }
}
