/** A text cut into tokens and the gaps between them.

    `Tiles` says that the cut is the one the lexer makes; the two main lemmas turn a clean lexing
    into a tiling and a tiling back into the lexing. */
module Tiling {
  import opened Tokens
  import opened Lexing
  import opened LexFacts
  import StringLiterals

  /** A token together with the text between it and the previous token. */
  datatype Item = Item(gap: string, kind: Kind, text: string)

  datatype Cut = Cut(items: seq<Item>, tail: string)

  function Join(items: seq<Item>, tail: string): (s: string) {
    if items == [] then tail else items[0].gap + items[0].text + Join(items[1..], tail)
  }

  lemma {:induction false} JoinTail(items: seq<Item>, tail: string)
    ensures Join(items, tail) == Join(items, "") + tail
  {
    if items != [] {
      JoinTail(items[1..], tail);
    }
  }

  predicate IsToken(inRange: string -> bool, item: Item, rest: string) {
    item.text != "" && CodeStep(inRange, item.text + rest) == Step(|item.text|, Some(item.kind), Code, true)
  }

  // ------------------------------------------------------------------ places inside a gap

  /** Where a character between two tokens stands; `Off` is anything the lexer would not pass silently. */
  datatype Place = InCode | AtSlash | InLine | InBlock | AtStar | Off

  function After(p: Place, c: char): (q: Place) {
    match p
    case InCode => if IsBlank(c) then InCode else if c == '/' then AtSlash else Off
    case AtSlash => if c == '/' then InLine else if c == '*' then InBlock else Off
    case InLine => if IsCommentChar(c) then InLine else Off
    case InBlock => if c == '*' then AtStar else if IsLineBreak(c) then Off else InBlock
    case AtStar => if c == '/' then InCode else InBlock
    case Off => Off
  }

  function Walk(g: string, p: Place): (q: Place) {
    if g == "" then p else Walk(g[1..], After(p, g[0]))
  }

  lemma {:induction false} WalkConcat(a: string, b: string, p: Place)
    ensures Walk(a + b, p) == Walk(b, Walk(a, p))
    decreases |a|
  {
    if a == "" {
      assert a + b == b;
    } else {
      assert (a + b)[1..] == a[1..] + b;
      WalkConcat(a[1..], b, After(p, a[0]));
    }
  }

  lemma {:induction false} OffStays(g: string)
    ensures Walk(g, Off) == Off
  {
    if g != "" {
      OffStays(g[1..]);
    }
  }

  /** Blanks matter only right after a slash or a star. */
  lemma {:induction false} BlankWalk(b: string, p: Place)
    requires AllBlank(b)
    ensures p != AtSlash && p != AtStar ==> Walk(b, p) == p
    ensures p == AtStar && b != "" ==> Walk(b, p) == InBlock
    ensures p == AtSlash && b != "" ==> Walk(b, p) == Off
  {
    if b != "" {
      assert IsBlank(b[0]) && IsCommentChar(b[0]);
      BlankWalk(b[1..], After(p, b[0]));
    }
  }

  lemma {:induction false} LineWalk(g: string)
    ensures Walk(g, InLine) == if (forall i :: 0 <= i < |g| ==> IsCommentChar(g[i])) then InLine else Off
  {
    if g != "" {
      if IsCommentChar(g[0]) {
        LineWalk(g[1..]);
        assert forall i :: 1 <= i < |g| ==> g[i] == g[1..][i - 1];
      } else {
        OffStays(g[1..]);
      }
    }
  }

  predicate IsBreak(text: string) {
    text == "\n" || text == "\r\n"
  }

  /** A gap in front of an item may end in code; in front of a line break also inside a comment. */
  ghost predicate Leads(inRange: string -> bool, item: Item, rest: string, e: Place) {
    if item.kind == Newline then (e == InCode || e == InLine || e == InBlock) && IsBreak(item.text)
    else e == InCode && IsToken(inRange, item, rest)
  }

  /** A block comment goes on behind a line break inside it. */
  function Behind(e: Place): (p: Place) {
    if e == InBlock then InBlock else InCode
  }

  ghost predicate Tiles(inRange: string -> bool, items: seq<Item>, tail: string, p: Place) {
    if items == [] then Walk(tail, p) == InCode || Walk(tail, p) == InLine
    else
      var e := Walk(items[0].gap, p);
      && Leads(inRange, items[0], Join(items[1..], tail), e)
      && Tiles(inRange, items[1..], tail, Behind(e))
  }

  /** The tokens of a cut that starts at position `base`. */
  function TokensAt(items: seq<Item>, base: nat): (r: seq<Token>)
    ensures |r| == |items|
    ensures forall i :: 0 <= i < |items| ==> r[i].kind == items[i].kind
  {
    if items == [] then []
    else
      var start := base + |items[0].gap|;
      var end := start + |items[0].text|;
      [Token(items[0].kind, start, end)] + TokensAt(items[1..], end)
  }

  // ------------------------------------------------------------------ from lexing to tiling

  function PlaceOf(mode: Mode): (p: Place) {
    match mode
    case Code => InCode
    case Comment => InBlock
    case CommentStar => AtStar
  }

  function ModeOf(p: Place): (mode: Mode) {
    if p == InBlock then Comment else if p == AtStar then CommentStar else Code
  }

  /** A clean text is tiled by its tokens. */
  lemma {:induction false} LexTiles(inRange: string -> bool, s: string, mode: Mode, base: nat) returns (cut: Cut)
    requires Lex(inRange, s, mode, base).clean
    ensures s == Join(cut.items, cut.tail) && Tiles(inRange, cut.items, cut.tail, PlaceOf(mode))
    ensures Lex(inRange, s, mode, base).tokens == TokensAt(cut.items, base)
    decreases |s|
  {
    hide LexStep, Join, Tiles, TokensAt;
    if s == "" {
      cut := Cut([], "");
      EmptyCut(inRange, base);
    } else {
      var st := LexStep(inRange, s, mode);
      var rest := LexTiles(inRange, s[st.len..], st.mode, base + st.len);
      if st.kind.Some? {
        cut := Cut([Item("", st.kind.value, s[..st.len])] + rest.items, rest.tail);
        TokenFront(inRange, s, mode, base, st, rest);
      } else {
        cut := Widen(rest, s[..st.len]);
        GapFront(inRange, s, mode, st, rest);
        GapFrontTokens(s, base, st.len, rest, cut);
        assert Emitted(st, base) + TokensAt(rest.items, base + st.len) == TokensAt(rest.items, base + st.len);
      }
    }
  }

  lemma {:induction false} EmptyCut(inRange: string -> bool, base: nat)
    ensures Join([], "") == "" && Tiles(inRange, [], "", InCode) && TokensAt([], base) == []
  {
  }

  /** Which steps emit a token, and what they leave behind. */
  lemma {:induction false} TokenStep(inRange: string -> bool, s: string, mode: Mode)
    requires s != "" && LexStep(inRange, s, mode).kind.Some? && LexStep(inRange, s, mode).ok
    ensures var st := LexStep(inRange, s, mode);
            && st.mode == mode && mode != CommentStar
            && (st.kind.value == Newline ==> IsBreak(s[..st.len]))
            && (st.kind.value != Newline ==> mode == Code && st == CodeStep(inRange, s))
  {
    hide NumberExtent, StringExtent, SingleQuotedExtent;
  }

  lemma {:induction false} TokenFront(inRange: string -> bool, s: string, mode: Mode, base: nat, st: Step, rest: Cut)
    requires s != "" && st == LexStep(inRange, s, mode) && st.kind.Some? && st.ok
    requires s[st.len..] == Join(rest.items, rest.tail) && Tiles(inRange, rest.items, rest.tail, PlaceOf(st.mode))
    ensures var items := [Item("", st.kind.value, s[..st.len])] + rest.items;
            && s == Join(items, rest.tail) && Tiles(inRange, items, rest.tail, PlaceOf(mode))
            && TokensAt(items, base) == Emitted(st, base) + TokensAt(rest.items, base + st.len)
  {
    hide LexStep, IsToken, Leads, Join, TokensAt, Tiles;
    TokenLeads(inRange, s, mode);
    var item := Item("", st.kind.value, s[..st.len]);
    TilesFront(inRange, item, rest.items, rest.tail, PlaceOf(mode));
    JoinFront(item, rest.items, rest.tail, base);
    TwoParts(s, st.len);
  }

  lemma {:induction false} TwoParts(s: string, n: nat)
    requires n <= |s|
    ensures "" + s[..n] + s[n..] == s
  {
  }

  lemma {:induction false} TilesFront(inRange: string -> bool, item: Item, items: seq<Item>, tail: string, p: Place)
    requires Leads(inRange, item, Join(items, tail), Walk(item.gap, p))
    requires Tiles(inRange, items, tail, Behind(Walk(item.gap, p)))
    ensures Tiles(inRange, [item] + items, tail, p)
  {
    hide Leads, Walk, Join;
    assert ([item] + items)[1..] == items;
  }

  lemma {:induction false} JoinFront(item: Item, items: seq<Item>, tail: string, base: nat)
    ensures Join([item] + items, tail) == item.gap + item.text + Join(items, tail)
    ensures var start := base + |item.gap|;
            var end := start + |item.text|;
            TokensAt([item] + items, base) == [Token(item.kind, start, end)] + TokensAt(items, end)
  {
    assert ([item] + items)[1..] == items;
  }

  lemma {:induction false} TokenLeads(inRange: string -> bool, s: string, mode: Mode)
    requires s != "" && LexStep(inRange, s, mode).kind.Some? && LexStep(inRange, s, mode).ok
    ensures var st := LexStep(inRange, s, mode);
            && Leads(inRange, Item("", st.kind.value, s[..st.len]), s[st.len..], PlaceOf(mode))
            && PlaceOf(st.mode) == Behind(PlaceOf(mode))
  {
    TokenStep(inRange, s, mode);
    hide LexStep, CodeStep;
    var st := LexStep(inRange, s, mode);
    assert s == s[..st.len] + s[st.len..];
  }

  /** A step that emits nothing widens the first gap. */
  function Widen(cut: Cut, front: string): (r: Cut) {
    if cut.items == [] then Cut([], front + cut.tail)
    else Cut([cut.items[0].(gap := front + cut.items[0].gap)] + cut.items[1..], cut.tail)
  }

  lemma {:induction false} WidenJoin(cut: Cut, front: string)
    ensures var r := Widen(cut, front); Join(r.items, r.tail) == front + Join(cut.items, cut.tail)
  {
    var r := Widen(cut, front);
    if cut.items != [] {
      assert r.items[1..] == cut.items[1..];
      assert front + cut.items[0].gap + cut.items[0].text + Join(cut.items[1..], cut.tail)
          == front + (cut.items[0].gap + cut.items[0].text + Join(cut.items[1..], cut.tail));
    }
  }

  lemma {:induction false} WidenTiles(inRange: string -> bool, cut: Cut, front: string, p: Place)
    requires Tiles(inRange, cut.items, cut.tail, Walk(front, p))
    ensures var r := Widen(cut, front); Tiles(inRange, r.items, r.tail, p)
  {
    hide Walk, CodeStep;
    var r := Widen(cut, front);
    if cut.items == [] {
      WalkConcat(front, cut.tail, p);
    } else {
      WalkConcat(front, cut.items[0].gap, p);
      assert r.items[1..] == cut.items[1..];
    }
  }

  lemma {:induction false} GapFront(inRange: string -> bool, s: string, mode: Mode, st: Step, rest: Cut)
    requires s != "" && st == LexStep(inRange, s, mode) && st.kind.None? && st.ok
    requires s[st.len..] == Join(rest.items, rest.tail) && Tiles(inRange, rest.items, rest.tail, PlaceOf(st.mode))
    ensures var cut := Widen(rest, s[..st.len]);
            s == Join(cut.items, cut.tail) && Tiles(inRange, cut.items, cut.tail, PlaceOf(mode))
  {
    hide LexStep, Tiles, Join, Walk;
    var front := s[..st.len];
    WidenJoin(rest, front);
    assert s == front + s[st.len..];
    SilentStep(inRange, s, mode);
    if mode == Code && !IsBlank(s[0]) && |s| > 1 && s[1] == '/' {
      LineCommentFront(inRange, s, rest);
    }
    WidenTiles(inRange, rest, front, PlaceOf(mode));
  }

  /** Steps that emit nothing: where they lead, and that a line comment runs to the end of its line. */
  lemma {:induction false} SilentStep(inRange: string -> bool, s: string, mode: Mode)
    requires s != "" && LexStep(inRange, s, mode).kind.None? && LexStep(inRange, s, mode).ok
    ensures var st := LexStep(inRange, s, mode);
            if mode == Code && !IsBlank(s[0]) && |s| > 1 && s[1] == '/'
            then s[0] == '/' && st.len == 2 + Run(s[2..], IsCommentChar) && st.mode == Code &&
              Walk(s[..st.len], InCode) == InLine
            else Walk(s[..st.len], PlaceOf(mode)) == PlaceOf(st.mode) && (mode == Code && |s| > 1 ==> s[..2] != "//")
  {
    hide NumberExtent, StringExtent, SingleQuotedExtent;
    var st := LexStep(inRange, s, mode);
    if mode == Code && !IsBlank(s[0]) {
      assert |s| > 1 && s[0] == '/' && (s[1] == '/' || s[1] == '*');
      var front := s[..st.len];
      assert front[0] == s[0] && front[1] == s[1] && front[1..][0] == s[1] && front[1..][1..] == front[2..];
      if s[1] == '/' {
        LineWalk(front[2..]);
        assert forall i :: 0 <= i < st.len - 2 ==> front[2..][i] == s[2..][i];
      } else {
        assert front == "/*" && "/*"[1..] == "*" && "*"[1..] == "";
        assert Walk("*", AtSlash) == InBlock;
      }
    } else if st.len == 1 {
      assert s[..1] == [s[0]] && s[..1][1..] == "";
    } else {
      assert s[..2] == "*/" && "*/"[1..] == "/" && "/"[1..] == "";
      assert Walk("/", AtStar) == InCode;
    }
  }

  /** After a line comment comes a line break or the end, so the next token is that line break. */
  lemma {:induction false} LineCommentFront(inRange: string -> bool, s: string, rest: Cut)
    requires |s| > 1
    requires var n := 2 + Run(s[2..], IsCommentChar);
             s[n..] == Join(rest.items, rest.tail) && Tiles(inRange, rest.items, rest.tail, InCode)
    ensures Tiles(inRange, rest.items, rest.tail, InLine)
  {
    var n := 2 + Run(s[2..], IsCommentChar);
    if n < |s| {
      assert s[n] == s[2..][n - 2];
      FirstAtBreak(inRange, rest, s[n..]);
    } else if rest.items != [] {
      NonEmpty(inRange, rest);
      assert false;
    }
  }

  lemma {:induction false} NonEmpty(inRange: string -> bool, cut: Cut)
    requires cut.items != [] && Tiles(inRange, cut.items, cut.tail, InCode)
    ensures Join(cut.items, cut.tail) != ""
  {
  }

  lemma {:induction false} FirstAtBreak(inRange: string -> bool, rest: Cut, s: string)
    requires s != "" && IsLineBreak(s[0]) && s == Join(rest.items, rest.tail) &&
      Tiles(inRange, rest.items, rest.tail, InCode)
    ensures rest.items != [] && rest.items[0].gap == "" && rest.items[0].kind.Newline?
  {
    assert After(InCode, s[0]) == Off;
    OffStays(s[1..]);
    if rest.items == [] {
      assert false;
    }
    var item := rest.items[0];
    if item.gap != "" {
      assert item.gap[0] == s[0];
      OffStays(item.gap[1..]);
      assert false;
    }
    hide NumberExtent, StringExtent, SingleQuotedExtent;
  }

  lemma {:induction false} GapFrontTokens(s: string, base: nat, n: nat, rest: Cut, cut: Cut)
    requires n <= |s| && cut == Widen(rest, s[..n])
    ensures TokensAt(cut.items, base) == TokensAt(rest.items, base + n)
  {
    if rest.items != [] {
      assert cut.items[1..] == rest.items[1..];
    }
  }

  // ------------------------------------------------------------------ from tiling to lexing

  /** A step that emits nothing is passed over. */
  lemma {:induction false} SilentPasses(inRange: string -> bool, a: string, rest: string, mode: Mode, next: Mode,
      base: nat)
    requires a != "" && LexStep(inRange, a + rest, mode) == Step(|a|, None, next, true)
    ensures Lex(inRange, a + rest, mode, base) == Lex(inRange, rest, next, base + |a|)
  {
    hide LexStep;
    assert (a + rest)[|a|..] == rest;
    assert [] + Lex(inRange, rest, next, base + |a|).tokens == Lex(inRange, rest, next, base + |a|).tokens;
  }

  /** A place the lexer can be in between two steps. */
  predicate Steady(p: Place) {
    p == InCode || p == InBlock || p == AtStar
  }

  /** A gap is passed over without tokens or diagnostics; `rest` ends a line comment. */
  lemma {:induction false} GapLexes(inRange: string -> bool, g: string, rest: string, p: Place, base: nat)
    requires Steady(p) && (Steady(Walk(g, p)) || Walk(g, p) == InLine)
    requires Walk(g, p) == InLine ==> rest == "" || IsLineBreak(rest[0])
    ensures Lex(inRange, g + rest, ModeOf(p), base) == Lex(inRange, rest, ModeOf(Walk(g, p)), base + |g|)
    decreases |g|
  {
    hide Lex, LexStep;
    if g == "" {
      assert g + rest == rest;
    } else if p == InCode && g[0] == '/' {
      SlashLexes(inRange, g, rest, base);
    } else if p == InBlock && g[0] == '*' {
      StarLexes(inRange, g, rest, base);
    } else {
      if After(p, g[0]) == Off {
        OffStays(g[1..]);
        assert false;
      }
      OneLexes(inRange, g, rest, p);
      assert g + rest == [g[0]] + (g[1..] + rest);
      SilentPasses(inRange, [g[0]], g[1..] + rest, ModeOf(p), ModeOf(After(p, g[0])), base);
      GapLexes(inRange, g[1..], rest, After(p, g[0]), base + 1);
    }
  }

  lemma {:induction false} OneLexes(inRange: string -> bool, g: string, rest: string, p: Place)
    requires g != "" && Steady(p) && Steady(After(p, g[0])) && !(p == InBlock && g[0] == '*')
    ensures LexStep(inRange, [g[0]] + (g[1..] + rest), ModeOf(p)) == Step(1, None, ModeOf(After(p, g[0])), true)
  {
    hide NumberExtent, StringExtent, SingleQuotedExtent;
  }

  lemma {:induction false} SlashLexes(inRange: string -> bool, g: string, rest: string, base: nat)
    requires g != "" && g[0] == '/' && (Steady(Walk(g, InCode)) || Walk(g, InCode) == InLine)
    requires Walk(g, InCode) == InLine ==> rest == "" || IsLineBreak(rest[0])
    ensures Lex(inRange, g + rest, Code, base) == Lex(inRange, rest, ModeOf(Walk(g, InCode)), base + |g|)
    decreases |g|, 0
  {
    hide Lex, LexStep;
    assert After(InCode, '/') == AtSlash;
    if |g| == 1 {
      assert false;
    }
    assert g[1..][1..] == g[2..] && g[1..][0] == g[1];
    if g[1] == '/' {
      LineWalk(g[2..]);
      assert forall i :: 2 <= i < |g| ==> g[i] == g[2..][i - 2];
      LineCommentStep(inRange, g, rest);
      SilentPasses(inRange, g, rest, Code, Code, base);
    } else {
      if g[1] != '*' {
        OffStays(g[2..]);
        assert false;
      }
      OpenLexes(inRange, g, rest);
      assert g + rest == g[..2] + (g[2..] + rest);
      SilentPasses(inRange, g[..2], g[2..] + rest, Code, Comment, base);
      GapLexes(inRange, g[2..], rest, InBlock, base + 2);
    }
  }

  lemma {:induction false} OpenLexes(inRange: string -> bool, g: string, rest: string)
    requires |g| > 1 && g[0] == '/' && g[1] == '*'
    ensures LexStep(inRange, g[..2] + (g[2..] + rest), Code) == Step(2, None, Comment, true)
  {
    hide NumberExtent, StringExtent, SingleQuotedExtent;
    var s := g[..2] + (g[2..] + rest);
    assert s[0] == '/' && s[1] == '*';
  }

  lemma {:induction false} StarLexes(inRange: string -> bool, g: string, rest: string, base: nat)
    requires g != "" && g[0] == '*' && (Steady(Walk(g, InBlock)) || Walk(g, InBlock) == InLine)
    requires Walk(g, InBlock) == InLine ==> rest == "" || IsLineBreak(rest[0])
    ensures Lex(inRange, g + rest, Comment, base) == Lex(inRange, rest, ModeOf(Walk(g, InBlock)), base + |g|)
    decreases |g|, 0
  {
    hide Lex, LexStep;
    var s := g + rest;
    assert After(InBlock, '*') == AtStar;
    if |g| > 1 && g[1] == '/' {
      assert g[1..][0] == '/' && g[1..][1..] == g[2..];
      assert s == g[..2] + (g[2..] + rest);
      CloseStep(inRange, s);
      SilentPasses(inRange, g[..2], g[2..] + rest, Comment, Code, base);
      GapLexes(inRange, g[2..], rest, InCode, base + 2);
    } else if |g| == 1 && rest != "" && rest[0] == '/' {
      assert g == "*" && g[1..] == "";
      StarPair(inRange, rest, base);
    } else {
      assert s == [g[0]] + (g[1..] + rest);
      LoneStarStep(inRange, s);
      SilentPasses(inRange, [g[0]], g[1..] + rest, Comment, CommentStar, base);
      GapLexes(inRange, g[1..], rest, AtStar, base + 1);
    }
  }

  lemma {:induction false} CloseStep(inRange: string -> bool, s: string)
    requires |s| > 1 && s[0] == '*' && s[1] == '/'
    ensures LexStep(inRange, s, Comment) == Step(2, None, Code, true)
  {
  }

  lemma {:induction false} LoneStarStep(inRange: string -> bool, s: string)
    requires s != "" && s[0] == '*' && (|s| > 1 ==> s[1] != '/')
    ensures LexStep(inRange, s, Comment) == Step(1, None, CommentStar, true)
  {
  }

  /** A star and a slash close a comment whether they are read together or one by one. */
  lemma {:induction false} StarPair(inRange: string -> bool, rest: string, base: nat)
    requires rest != "" && rest[0] == '/'
    ensures Lex(inRange, "*" + rest, Comment, base) == Lex(inRange, rest, CommentStar, base + 1)
  {
    var s := "*" + rest;
    assert LexStep(inRange, s, Comment) == Step(2, None, Code, true);
    assert LexStep(inRange, rest, CommentStar) == Step(1, None, Code, true);
    assert s[2..] == rest[1..];
  }

  lemma {:induction false} LineCommentStep(inRange: string -> bool, c: string, rest: string)
    requires |c| >= 2 && c[0] == '/' && c[1] == '/' && (forall i :: 2 <= i < |c| ==> IsCommentChar(c[i]))
    requires rest == "" || IsLineBreak(rest[0])
    ensures LexStep(inRange, c + rest, Code) == Step(|c|, None, Code, true)
  {
    hide NumberExtent, StringExtent, SingleQuotedExtent;
    var s := c + rest;
    assert s[0] == '/' && s[1] == '/';
    assert s[2..] == c[2..] + rest;
    RunIs(s[2..], IsCommentChar, |c| - 2);
  }

  /** A tiled text lexes to exactly the tokens of its tiling. */
  lemma {:induction false} TilesLex(inRange: string -> bool, items: seq<Item>, tail: string, p: Place, base: nat)
    requires Steady(p) && Tiles(inRange, items, tail, p)
    ensures Lex(inRange, Join(items, tail), ModeOf(p), base) == Lexed(TokensAt(items, base), true)
    decreases |items|
  {
    hide Lex, LexStep, CodeStep, Walk, IsToken;
    if items == [] {
      NothingLeft(inRange, base + |tail|);
      assert tail + "" == tail;
      GapLexes(inRange, tail, "", p, base);
    } else {
      var e := Walk(items[0].gap, p);
      TilesLex(inRange, items[1..], tail, Behind(e), base + |items[0].gap| + |items[0].text|);
      ItemLexes(inRange, items[0], Join(items[1..], tail), p, base);
    }
  }

  lemma {:induction false} NothingLeft(inRange: string -> bool, base: nat)
    ensures Lex(inRange, "", Code, base) == Lexed([], true)
  {
  }

  lemma {:induction false} ItemLexes(inRange: string -> bool, item: Item, rest: string, p: Place, base: nat)
    requires Steady(p) && Leads(inRange, item, rest, Walk(item.gap, p))
    ensures var start := base + |item.gap|;
            var after := Lex(inRange, rest, ModeOf(Behind(Walk(item.gap, p))), start + |item.text|);
            Lex(inRange, item.gap + item.text + rest, ModeOf(p), base) ==
            Lexed([Token(item.kind, start, start + |item.text|)] + after.tokens, after.clean)
  {
    hide Lex, CodeStep, Walk;
    var e := Walk(item.gap, p);
    ItemStep(inRange, item, rest, e, base + |item.gap|);
    GapLexes(inRange, item.gap, item.text + rest, p, base);
    assert item.gap + (item.text + rest) == item.gap + item.text + rest;
  }

  lemma {:induction false} ItemStep(inRange: string -> bool, item: Item, rest: string, e: Place, start: nat)
    requires Leads(inRange, item, rest, e)
    ensures var after := Lex(inRange, rest, ModeOf(Behind(e)), start + |item.text|);
            Lex(inRange, item.text + rest, ModeOf(e), start) ==
            Lexed([Token(item.kind, start, start + |item.text|)] + after.tokens, after.clean)
    ensures e == InLine ==> IsLineBreak((item.text + rest)[0])
  {
    hide CodeStep, CommentStep;
    var s := item.text + rest;
    assert s[|item.text|..] == rest;
    if item.kind == Newline {
      BreakStep(inRange, item.text, rest, ModeOf(e));
    }
  }

  lemma {:induction false} BreakStep(inRange: string -> bool, text: string, rest: string, mode: Mode)
    requires IsBreak(text) && mode != CommentStar
    ensures LexStep(inRange, text + rest, mode) == Step(|text|, Some(Newline), mode, true)
  {
    hide NumberExtent, StringExtent, SingleQuotedExtent;
    var s := text + rest;
    assert s[0] == text[0] && (|text| > 1 ==> s[1] == text[1]);
  }

  // ------------------------------------------------------------------ a line break behind a star

  /** Tiles, except that a line break may stand behind a lone star; nothing is asked of what follows it. */
  ghost predicate LooseTiles(inRange: string -> bool, items: seq<Item>, tail: string, p: Place) {
    if items == [] then Walk(tail, p) == InCode || Walk(tail, p) == InLine
    else
      var e := Walk(items[0].gap, p);
      if items[0].kind == Newline && e == AtStar then items[0].text == "\n"
      else Leads(inRange, items[0], Join(items[1..], tail), e) && LooseTiles(inRange, items[1..], tail, Behind(e))
  }

  /** The cut is the lexer's exactly when no line break stands behind a star. */
  lemma {:induction false} LooseLexes(inRange: string -> bool, items: seq<Item>, tail: string, p: Place, base: nat)
    requires Steady(p) && LooseTiles(inRange, items, tail, p)
    ensures Lex(inRange, Join(items, tail), ModeOf(p), base) == Lexed(TokensAt(items, base), true) <==>
      Tiles(inRange, items, tail, p)
    decreases |items|
  {
    hide Lex, LexStep, Walk, IsToken, Leads;
    if Tiles(inRange, items, tail, p) {
      hide Tiles, Join, LooseTiles;
      TilesLex(inRange, items, tail, p, base);
    } else {
      hide TokensAt;
      var item := items[0];
      var e := Walk(item.gap, p);
      var rest := Join(items[1..], tail);
      TokensUnfold(items, base);
      if item.kind == Newline && e == AtStar {
        BreakIsSwallowed(inRange, item, rest, p, base);
      } else {
        var end := base + |item.gap| + |item.text|;
        LooseLexes(inRange, items[1..], tail, Behind(e), end);
        ItemLexes(inRange, item, rest, p, base);
        var after := Lex(inRange, rest, ModeOf(Behind(e)), end);
        OtherTokens(Token(item.kind, base + |item.gap|, end), after.tokens, TokensAt(items[1..], end));
      }
    }
  }

  lemma {:induction false} TokensUnfold(items: seq<Item>, base: nat)
    requires items != []
    ensures var start := base + |items[0].gap|;
            var end := start + |items[0].text|;
            TokensAt(items, base) == [Token(items[0].kind, start, end)] + TokensAt(items[1..], end)
  {
  }

  lemma {:induction false} OtherTokens(t: Token, a: seq<Token>, b: seq<Token>)
    ensures [t] + a == [t] + b <==> a == b
  {
    assert ([t] + a)[1..] == a && ([t] + b)[1..] == b;
  }

  lemma {:induction false} BreakIsSwallowed(inRange: string -> bool, item: Item, rest: string, p: Place, base: nat)
    requires Steady(p) && Walk(item.gap, p) == AtStar && item.text == "\n"
    ensures var tokens := Lex(inRange, item.gap + item.text + rest, ModeOf(p), base).tokens;
            tokens == [] || tokens[0].start > base + |item.gap|
  {
    hide Lex, LexStep, Walk;
    var s := item.text + rest;
    var at := base + |item.gap|;
    assert item.gap + item.text + rest == item.gap + s;
    GapLexes(inRange, item.gap, s, p, base);
    SwallowStep(inRange, rest);
    SilentPasses(inRange, "\n", rest, CommentStar, Comment, at);
    TokensAfter(inRange, rest, Comment, at + 1);
  }

  lemma {:induction false} SwallowStep(inRange: string -> bool, rest: string)
    ensures LexStep(inRange, "\n" + rest, CommentStar) == Step(1, None, Comment, true)
  {
  }

  /** Tokens start no earlier than the text. */
  lemma {:induction false} TokensAfter(inRange: string -> bool, s: string, mode: Mode, base: nat)
    ensures var tokens := Lex(inRange, s, mode, base).tokens; tokens == [] || tokens[0].start >= base
    decreases |s|
  {
    hide LexStep;
    if s != "" {
      var st := LexStep(inRange, s, mode);
      TokensAfter(inRange, s[st.len..], st.mode, base + st.len);
    }
  }

  // ------------------------------------------------------------------ cutting at given tokens

  /** The spans of `tokens` lie one after another in `s`, which starts at `base`. */
  ghost predicate InOrder(s: string, base: nat, tokens: seq<Token>) {
    tokens == [] ||
    (base <= tokens[0].start <= tokens[0].end <= base + |s| &&
     InOrder(s[tokens[0].end - base..], tokens[0].end, tokens[1..]))
  }

  function CutAt(s: string, base: nat, tokens: seq<Token>): (r: Cut)
    decreases |tokens|
  {
    if tokens == [] || !(base <= tokens[0].start <= tokens[0].end <= base + |s|) then Cut([], s)
    else
      var t := tokens[0];
      var rest := CutAt(s[t.end - base..], t.end, tokens[1..]);
      Cut([Item(s[..t.start - base], t.kind, s[t.start - base..t.end - base])] + rest.items, rest.tail)
  }

  lemma {:induction false} CutJoins(s: string, base: nat, tokens: seq<Token>)
    requires InOrder(s, base, tokens)
    ensures var cut := CutAt(s, base, tokens);
            Join(cut.items, cut.tail) == s && TokensAt(cut.items, base) == tokens
    decreases |tokens|
  {
    hide InOrder, CutAt;
    if tokens == [] {
      NoTokens(s, base);
    } else {
      hide Join, TokensAt;
      OrderUnfolds(s, base, tokens);
      CutUnfolds(s, base, tokens);
      var i, j := tokens[0].start - base, tokens[0].end - base;
      CutJoins(s[j..], tokens[0].end, tokens[1..]);
      ThreeParts(s, i, j);
      CutStep(CutAt(s, base, tokens), Item(s[..i], tokens[0].kind, s[i..j]),
        CutAt(s[j..], tokens[0].end, tokens[1..]), tokens, base);
    }
  }

  lemma {:induction false} CutStep(cut: Cut, first: Item, rest: Cut, tokens: seq<Token>, base: nat)
    requires cut == Cut([first] + rest.items, rest.tail) && tokens != []
    requires tokens[0] == Token(first.kind, base + |first.gap|, base + |first.gap| + |first.text|)
    requires TokensAt(rest.items, tokens[0].end) == tokens[1..]
    ensures Join(cut.items, cut.tail) == first.gap + first.text + Join(rest.items, rest.tail)
    ensures TokensAt(cut.items, base) == tokens
  {
    hide Join, TokensAt;
    JoinFront(first, rest.items, rest.tail, base);
    FirstAndRest(tokens);
  }

  lemma {:induction false} ThreeParts(s: string, i: nat, j: nat)
    requires i <= j <= |s|
    ensures s[..i] + s[i..j] + s[j..] == s && |s[..i]| == i && |s[i..j]| == j - i
  {
  }

  lemma {:induction false} FirstAndRest(tokens: seq<Token>)
    requires tokens != []
    ensures [Token(tokens[0].kind, tokens[0].start, tokens[0].end)] + tokens[1..] == tokens
  {
  }

  lemma {:induction false} CutUnfolds(s: string, base: nat, tokens: seq<Token>)
    requires tokens != [] && base <= tokens[0].start <= tokens[0].end <= base + |s|
    ensures var t := tokens[0];
            var rest := CutAt(s[t.end - base..], t.end, tokens[1..]);
            var first := Item(s[..t.start - base], t.kind, s[t.start - base..t.end - base]);
            CutAt(s, base, tokens) == Cut([first] + rest.items, rest.tail)
  {
  }

  lemma {:induction false} OrderUnfolds(s: string, base: nat, tokens: seq<Token>)
    requires InOrder(s, base, tokens) && tokens != []
    ensures base <= tokens[0].start <= tokens[0].end <= base + |s|
    ensures InOrder(s[tokens[0].end - base..], tokens[0].end, tokens[1..])
  {
  }

  lemma {:induction false} SliceJoin(g: string, t: string, r: string)
    ensures var s := g + t + r;
            s[..|g|] == g && s[|g|..|g| + |t|] == t && s[|g| + |t|..] == r
  {
  }

  /** A cut is determined by its text and its tokens. */
  lemma {:induction false} CutBack(items: seq<Item>, tail: string, base: nat)
    ensures var s := Join(items, tail);
            InOrder(s, base, TokensAt(items, base)) && CutAt(s, base, TokensAt(items, base)) == Cut(items, tail)
  {
    hide InOrder, CutAt;
    if items == [] {
      NoTokens(tail, base);
    } else {
      var item := items[0];
      var rest := Join(items[1..], tail);
      var end := base + |item.gap| + |item.text|;
      CutBack(items[1..], tail, end);
      assert items == [item] + items[1..];
      CutFront(item, rest, base, TokensAt(items[1..], end));
    }
  }

  /** One more item in front of a cut. */
  lemma {:induction false} CutFront(item: Item, rest: string, base: nat, tokens: seq<Token>)
    requires InOrder(rest, base + |item.gap| + |item.text|, tokens)
    ensures var start := base + |item.gap|;
            var end := start + |item.text|;
            var s := item.gap + item.text + rest;
            var all := [Token(item.kind, start, end)] + tokens;
            var cut := CutAt(rest, end, tokens);
            InOrder(s, base, all) && CutAt(s, base, all) == Cut([item] + cut.items, cut.tail)
  {
    hide InOrder, CutAt;
    SliceJoin(item.gap, item.text, rest);
    var s := item.gap + item.text + rest;
    var end := base + |item.gap| + |item.text|;
    var all := [Token(item.kind, base + |item.gap|, end)] + tokens;
    assert all[1..] == tokens && s[end - base..] == rest;
    OrderFolds(s, base, all);
    CutUnfolds(s, base, all);
  }

  lemma {:induction false} OrderFolds(s: string, base: nat, tokens: seq<Token>)
    requires tokens != [] && base <= tokens[0].start <= tokens[0].end <= base + |s|
    requires InOrder(s[tokens[0].end - base..], tokens[0].end, tokens[1..])
    ensures InOrder(s, base, tokens)
  {
  }

  predicate SolidText(t: string) {
    t != "" && !IsBlank(t[|t| - 1])
  }

  /** No token text is empty or ends in a blank, and none is the end marker. */
  predicate Solid(items: seq<Item>) {
    forall i :: 0 <= i < |items| ==> SolidText(items[i].text) && items[i].kind != End
  }

  lemma {:induction false} StepSolid(inRange: string -> bool, s: string, mode: Mode)
    requires s != "" && LexStep(inRange, s, mode).kind.Some? && LexStep(inRange, s, mode).ok
    ensures !IsBlank(s[LexStep(inRange, s, mode).len - 1]) && LexStep(inRange, s, mode).kind.value != End
  {
    hide NumberExtent, StringExtent, SingleQuotedExtent;
    if mode == Code {
      if IsDigit(s[0]) {
        NumberSolid(inRange, s);
      } else if s[0] == '"' {
        var t := s[1..];
        var ps := StringLiterals.AcceptedHasPieces(t);
        assert t[..StringExtent(t).len][StringExtent(t).len - 1] == '"';
      }
    }
  }

  lemma {:induction false} NumberSolid(inRange: string -> bool, s: string)
    requires s != "" && IsDigit(s[0]) && NumberExtent(inRange, s).ok
    ensures IsDigit(s[NumberExtent(inRange, s).len - 1])
  {
    var d := Run(s, IsDigit);
    var f := FractionEnd(s, d);
    assert IsDigit(s[d - 1]);
    assert f.len > d ==> IsDigit(s[d + 1..][f.len - d - 2]);
    assert IsDigit(s[f.len - 1]);
    var x := ExponentEnd(s, f.len);
    if x.len > f.len {
      var j := SignEnd(s, f.len + 1);
      assert IsDigit(s[j..][x.len - j - 1]);
    }
  }

  /** The lexer's tokens are in order, and solid when nothing was reported. */
  lemma {:induction false} LexInOrder(inRange: string -> bool, s: string, mode: Mode, base: nat)
    ensures InOrder(s, base, Lex(inRange, s, mode, base).tokens)
    ensures Lex(inRange, s, mode, base).clean ==> Solid(CutAt(s, base, Lex(inRange, s, mode, base).tokens).items)
    decreases |s|
  {
    hide LexStep, InOrder, CutAt, SolidText;
    if s == "" {
      NoTokens(s, base);
    } else {
      hide Solid;
      var st := LexStep(inRange, s, mode);
      var tokens := Lex(inRange, s[st.len..], st.mode, base + st.len).tokens;
      LexInOrder(inRange, s[st.len..], st.mode, base + st.len);
      if st.kind.Some? {
        if st.ok {
          StepSolid(inRange, s, mode);
        }
        FirstToken(s, base, st.len, st.kind.value, tokens);
      } else {
        LaterStart(s, base, st.len, tokens);
        if st.ok && Lex(inRange, s[st.len..], st.mode, base + st.len).clean {
          WidenSolid(CutAt(s[st.len..], base + st.len, tokens), s[..st.len]);
        }
        assert Emitted(st, base) + tokens == tokens;
      }
    }
  }

  lemma {:induction false} NoTokens(s: string, base: nat)
    ensures InOrder(s, base, []) && CutAt(s, base, []) == Cut([], s)
  {
  }

  lemma {:induction false} FirstToken(s: string, base: nat, n: nat, kind: Kind, tokens: seq<Token>)
    requires 1 <= n <= |s| && InOrder(s[n..], base + n, tokens)
    ensures InOrder(s, base, [Token(kind, base, base + n)] + tokens)
    ensures Solid(CutAt(s[n..], base + n, tokens).items) && !IsBlank(s[n - 1]) && kind != End
            ==> Solid(CutAt(s, base, [Token(kind, base, base + n)] + tokens).items)
  {
    hide InOrder, CutAt;
    assert s == "" + s[..n] + s[n..];
    CutFront(Item("", kind, s[..n]), s[n..], base, tokens);
    var rest := CutAt(s[n..], base + n, tokens).items;
    assert !IsBlank(s[n - 1]) ==> SolidText(s[..n]);
    hide SolidText;
    assert forall i :: 0 < i < 1 + |rest| ==> ([Item("", kind, s[..n])] + rest)[i] == rest[i - 1];
  }

  /** Moving the start of the text back widens the first gap. */
  lemma {:induction false} LaterStart(s: string, base: nat, n: nat, tokens: seq<Token>)
    requires n <= |s| && InOrder(s[n..], base + n, tokens)
    ensures InOrder(s, base, tokens)
    ensures CutAt(s, base, tokens) == Widen(CutAt(s[n..], base + n, tokens), s[..n])
  {
    var rest := s[n..];
    if tokens == [] {
      assert s == s[..n] + rest;
    } else {
      var t := tokens[0];
      var i, j := t.start - base, t.end - base;
      assert rest[j - n..] == s[j..];
      assert rest[i - n..j - n] == s[i..j];
      assert s[..i] == s[..n] + rest[..i - n];
    }
  }

  lemma {:induction false} WidenSolid(cut: Cut, front: string)
    requires Solid(cut.items)
    ensures Solid(Widen(cut, front).items)
  {
    hide SolidText;
    var r := Widen(cut, front);
    assert forall i :: 0 <= i < |r.items| ==>
      r.items[i].text == cut.items[i].text && r.items[i].kind == cut.items[i].kind;
  }
}
