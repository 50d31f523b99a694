/** The lowered text lexes to the lowered tokens, block comments included: an edit never lands
    inside a comment or a token, and never makes two tokens meet. */
module LoweredText {
  import opened Tokens
  import opened Lexing
  import opened LexFacts
  import opened Tiling
  import opened LoweringPlan
  import opened LoweredStructure

  /** What a mark inserts after its token. */
  function InsOf(m: Mark): (ins: seq<Kind>) {
    (if m.semi then [Semicolon] else []) + (if m.nil then [NIL] else [])
  }

  predicate IsIns(ins: seq<Kind>) {
    ins == [] || ins == [Semicolon] || ins == [NIL] || ins == [Semicolon, NIL]
  }

  function InsText(ins: seq<Kind>): (s: string) {
    if ins == [] then "" else (if ins[0] == Semicolon then ";" else " nil ") + InsText(ins[1..])
  }

  /** Every insertion is in front of a token other than a newline; only semicolons are blanked. */
  ghost predicate Lands(tokens: seq<Token>, ins: seq<Kind>, plan: seq<Mark>) {
    && |plan| == |tokens| && IsIns(ins)
    && (ins != [] ==> tokens != [] && tokens[0].kind != Newline)
    && (tokens != [] ==>
      (plan[0].drop ==> tokens[0].kind == Semicolon) && Lands(tokens[1..], InsOf(plan[0]), plan[1..]))
  }

  /** The text `s`, which starts at `base` and holds `tokens`, with `ins` in front of the first
      token and the edits of the plan. */
  ghost function Low(s: string, base: nat, tokens: seq<Token>, ins: seq<Kind>, plan: seq<Mark>): (r: string)
    requires |plan| == |tokens| && InOrder(s, base, tokens)
    decreases |tokens|
  {
    if tokens == [] then s
    else
      var i, j := tokens[0].start - base, tokens[0].end - base;
      s[..i] + InsText(ins) + (if plan[0].drop then " " else s[i..j]) +
      Low(s[j..], tokens[0].end, tokens[1..], InsOf(plan[0]), plan[1..])
  }

  /** The kinds of the lowered tokens. */
  function LoweredKinds(tokens: seq<Token>, plan: seq<Mark>): (ks: seq<Kind>)
    requires |plan| == |tokens|
  {
    if tokens == [] then []
    else (if plan[0].drop then [] else [tokens[0].kind]) + InsOf(plan[0]) + LoweredKinds(tokens[1..], plan[1..])
  }

  function KindsAll(tokens: seq<Token>): (ks: seq<Kind>)
    ensures |ks| == |tokens| && forall i :: 0 <= i < |tokens| ==> ks[i] == tokens[i].kind
  {
    seq(|tokens|, i requires 0 <= i < |tokens| => tokens[i].kind)
  }

  // ------------------------------------------------------------------ shape of the lowered text

  lemma {:induction false} LowUnfolds(s: string, base: nat, tokens: seq<Token>, ins: seq<Kind>, plan: seq<Mark>)
    requires |plan| == |tokens| && InOrder(s, base, tokens) && tokens != []
    ensures var i, j := tokens[0].start - base, tokens[0].end - base;
            && 0 <= i <= j <= |s| && InOrder(s[j..], tokens[0].end, tokens[1..])
            && Low(s, base, tokens, ins, plan) ==
               s[..i] + InsText(ins) + (if plan[0].drop then " " else s[i..j]) +
               Low(s[j..], tokens[0].end, tokens[1..], InsOf(plan[0]), plan[1..])
  {
    hide InsText, InsOf;
  }

  /** Text in front of the first token is copied. */
  lemma {:induction false} LowShift(s: string, base: nat, n: nat, tokens: seq<Token>, ins: seq<Kind>, plan: seq<Mark>)
    requires n <= |s| && |plan| == |tokens| && InOrder(s[n..], base + n, tokens)
    ensures InOrder(s, base, tokens)
    ensures Low(s, base, tokens, ins, plan) == s[..n] + Low(s[n..], base + n, tokens, ins, plan)
  {
    hide InOrder, InsText, InsOf, Low;
    LaterStart(s, base, n, tokens);
    var rest := s[n..];
    if tokens == [] {
      NoLow(s, base, ins, plan);
      NoLow(rest, base + n, ins, plan);
      assert s == s[..n] + rest;
    } else {
      LowUnfolds(s, base, tokens, ins, plan);
      LowUnfolds(rest, base + n, tokens, ins, plan);
      var i, j := tokens[0].start - base, tokens[0].end - base;
      InOrderAfter(s, base, n, tokens);
      Slices(s, n, i, j);
      var after := Low(s[j..], tokens[0].end, tokens[1..], InsOf(plan[0]), plan[1..]);
      var t := if plan[0].drop then " " else s[i..j];
      Glue(s[..i], s[..n], rest[..i - n], InsText(ins), t, after);
    }
  }

  lemma {:induction false} InOrderAfter(s: string, base: nat, n: nat, tokens: seq<Token>)
    requires n <= |s| && InOrder(s[n..], base + n, tokens) && tokens != []
    ensures n <= tokens[0].start - base <= tokens[0].end - base <= |s|
  {
  }

  lemma {:induction false} Slices(s: string, n: nat, i: nat, j: nat)
    requires n <= i <= j <= |s|
    ensures s[n..][j - n..] == s[j..] && s[n..][i - n..j - n] == s[i..j] && s[..i] == s[..n] + s[n..][..i - n]
  {
  }

  lemma {:induction false} Glue(ab: string, a: string, b: string, c: string, d: string, e: string)
    requires ab == a + b
    ensures ab + c + d + e == a + (b + c + d + e)
  {
  }

  lemma {:induction false} LowToken(s: string, base: nat, n: nat, kind: Kind, tokens: seq<Token>, ins: seq<Kind>,
      plan: seq<Mark>)
    requires 1 <= n <= |s| && |plan| == |tokens| + 1 && InOrder(s[n..], base + n, tokens)
    ensures var all := [Token(kind, base, base + n)] + tokens;
            && InOrder(s, base, all)
            && Low(s, base, all, ins, plan) ==
               InsText(ins) + (if plan[0].drop then " "
                 else s[..n]) + Low(s[n..], base + n, tokens, InsOf(plan[0]), plan[1..])
  {
    hide Low, InsText, InsOf;
    var all := [Token(kind, base, base + n)] + tokens;
    assert all[1..] == tokens;
    assert InOrder(s, base, all);
    hide InOrder;
    LowUnfolds(s, base, all, ins, plan);
    assert s[..0] == "" && s[0..n] == s[..n] && "" + InsText(ins) == InsText(ins);
  }

  /** How the lowered text starts: as the original does, or with an inserted `;` or blank. */
  predicate Front(s: string, low: string, same: bool) {
    if s == "" then low == ""
    else low != "" && (low[0] == s[0] || (!same && (low[0] == ';' || low[0] == ' ')))
  }

  predicate Silent(st: Step) {
    st.kind.None? || st.kind.value == Newline
  }

  lemma {:induction false} LowFront(inRange: string -> bool, s: string, mode: Mode, base: nat, ins: seq<Kind>,
      plan: seq<Mark>)
    requires var tokens := Lex(inRange, s, mode, base).tokens; Lands(tokens, ins, plan)
    ensures var tokens := Lex(inRange, s, mode, base).tokens;
            && InOrder(s, base, tokens)
            && Front(s, Low(s, base, tokens, ins, plan), s != "" && Silent(LexStep(inRange, s, mode)))
  {
    hide LexStep, InOrder, Low, Front, InsText, Lex, InsOf;
    LexInOrder(inRange, s, mode, base);
    LexOne(inRange, s, mode, base);
    if s == "" {
      NoLow(s, base, ins, plan);
      EmptyFront();
    } else {
      var st := LexStep(inRange, s, mode);
      var rest := Lex(inRange, s[st.len..], st.mode, base + st.len).tokens;
      LexInOrder(inRange, s[st.len..], st.mode, base + st.len);
      if st.kind.None? {
        CopiedLow(s, base, st.len, rest, ins, plan, Silent(st));
      } else {
        MarkedLow(s, base, st.len, st.kind.value, rest, ins, plan, Silent(st));
      }
    }
  }

  lemma {:induction false} LexOne(inRange: string -> bool, s: string, mode: Mode, base: nat)
    ensures s == "" ==> Lex(inRange, s, mode, base) == Lexed([], mode == Code)
    ensures s != "" ==>
              var st := LexStep(inRange, s, mode);
              var rest := Lex(inRange, s[st.len..], st.mode, base + st.len);
              Lex(inRange, s, mode, base) ==
              Lexed(if st.kind.Some? then [Token(st.kind.value, base, base + st.len)] + rest.tokens
                else rest.tokens, st.ok && rest.clean)
  {
    hide LexStep;
    if s != "" {
      var st := LexStep(inRange, s, mode);
      var rest := Lex(inRange, s[st.len..], st.mode, base + st.len);
      assert [] + rest.tokens == rest.tokens;
    }
  }

  lemma {:induction false} CopiedLow(s: string, base: nat, n: nat, tokens: seq<Token>, ins: seq<Kind>,
      plan: seq<Mark>, same: bool)
    requires 1 <= n <= |s| && |plan| == |tokens| && InOrder(s[n..], base + n, tokens)
    ensures InOrder(s, base, tokens) && Front(s, Low(s, base, tokens, ins, plan), same)
  {
    hide InOrder, Low, Front, InsText;
    LowShift(s, base, n, tokens, ins, plan);
    CopiedFront(s, n, Low(s[n..], base + n, tokens, ins, plan));
    FrontWeaker(s, Low(s, base, tokens, ins, plan), true, same);
  }

  lemma {:induction false} MarkedLow(s: string, base: nat, n: nat, kind: Kind, rest: seq<Token>, ins: seq<Kind>,
      plan: seq<Mark>, same: bool)
    requires 1 <= n <= |s| && |plan| == |rest| + 1 && InOrder(s[n..], base + n, rest)
    requires same ==> ins == [] && !plan[0].drop
    ensures var tokens := [Token(kind, base, base + n)] + rest;
            InOrder(s, base, tokens) && Front(s, Low(s, base, tokens, ins, plan), same)
  {
    hide InOrder, Low, Front, InsText, InsOf;
    LowToken(s, base, n, kind, rest, ins, plan);
    MarkedFront(s, n, ins, plan[0].drop, Low(s[n..], base + n, rest, InsOf(plan[0]), plan[1..]));
    var tokens := [Token(kind, base, base + n)] + rest;
    FrontWeaker(s, Low(s, base, tokens, ins, plan), ins == [] && !plan[0].drop, same);
  }

  lemma {:induction false} FrontWeaker(s: string, low: string, a: bool, b: bool)
    requires Front(s, low, a) && (b ==> a)
    ensures Front(s, low, b)
  {
  }

  lemma {:induction false} EmptyFront()
    ensures Front("", "", false)
  {
  }

  lemma {:induction false} CopiedFront(s: string, n: nat, low: string)
    requires 1 <= n <= |s|
    ensures Front(s, s[..n] + low, true)
  {
    assert (s[..n] + low)[0] == s[0];
  }

  lemma {:induction false} MarkedFront(s: string, n: nat, ins: seq<Kind>, drop: bool, low: string)
    requires 1 <= n <= |s|
    ensures Front(s, InsText(ins) + (if drop then " " else s[..n]) + low, ins == [] && !drop)
  {
    InsFront(ins);
    var t := if drop then " " else s[..n];
    var all := InsText(ins) + t + low;
    assert all[0] == if InsText(ins) == "" then t[0] else InsText(ins)[0];
  }

  lemma {:induction false} NoLow(s: string, base: nat, ins: seq<Kind>, plan: seq<Mark>)
    requires plan == []
    ensures InOrder(s, base, []) && Low(s, base, [], ins, plan) == s
  {
  }

  lemma {:induction false} InsFront(ins: seq<Kind>)
    ensures InsText(ins) == "" <==> ins == []
    ensures ins != [] ==> InsText(ins)[0] == ';' || InsText(ins)[0] == ' '
  {
  }

  // ------------------------------------------------------------------ lexing it

  /** Kinds of a lexing, and its verdict. */
  ghost predicate LexesTo(inRange: string -> bool, s: string, mode: Mode, base: nat, ks: seq<Kind>) {
    var r := Lex(inRange, s, mode, base);
    r.clean && KindsAll(r.tokens) == ks
  }

  lemma {:induction false} SilentFront(inRange: string -> bool, a: string, rest: string, mode: Mode, next: Mode,
      base: nat, ks: seq<Kind>)
    requires a != "" && LexStep(inRange, a + rest, mode) == Step(|a|, None, next, true)
    requires LexesTo(inRange, rest, next, base + |a|, ks)
    ensures LexesTo(inRange, a + rest, mode, base, ks)
  {
    hide LexStep;
    assert (a + rest)[|a|..] == rest;
    var r := Lex(inRange, rest, next, base + |a|);
    assert [] + r.tokens == r.tokens;
  }

  lemma {:induction false} TokenFirst(inRange: string -> bool, a: string, rest: string, mode: Mode, next: Mode,
      k: Kind, base: nat, ks: seq<Kind>)
    requires a != "" && LexStep(inRange, a + rest, mode) == Step(|a|, Some(k), next, true)
    requires LexesTo(inRange, rest, next, base + |a|, ks)
    ensures LexesTo(inRange, a + rest, mode, base, [k] + ks)
  {
    hide LexStep;
    assert (a + rest)[|a|..] == rest;
    var r := Lex(inRange, rest, next, base + |a|);
    var all := [Token(k, base, base + |a|)] + r.tokens;
    assert KindsAll(all) == [k] + KindsAll(r.tokens);
  }

  /** Inserted text lexes to what was inserted. */
  lemma {:induction false} InsLexes(inRange: string -> bool, ins: seq<Kind>, rest: string, base: nat, ks: seq<Kind>)
    requires IsIns(ins) && LexesTo(inRange, rest, Code, base + |InsText(ins)|, ks)
    ensures LexesTo(inRange, InsText(ins) + rest, Code, base, ins + ks)
  {
    hide LexesTo;
    if ins == [] {
      assert InsText(ins) + rest == rest && ins + ks == ks;
    } else if ins[0] == Semicolon {
      var more := InsText(ins[1..]);
      assert InsText(ins) + rest == ";" + (more + rest);
      if ins[1..] == [] {
        assert more + rest == rest && ins == [Semicolon];
        SemicolonStep(inRange, rest);
        TokenFirst(inRange, ";", rest, Code, Code, Semicolon, base, ks);
      } else {
        assert ins[1..] == [NIL] && more == InsText([NIL]) == " nil ";
        assert |InsText(ins)| == 6;
        NilLexes(inRange, rest, base + 1, ks);
        SemicolonStep(inRange, more + rest);
        TokenFirst(inRange, ";", more + rest, Code, Code, Semicolon, base, [NIL] + ks);
        assert ins + ks == [Semicolon] + ([NIL] + ks);
      }
    } else {
      NilLexes(inRange, rest, base, ks);
    }
  }

  lemma {:induction false} SemicolonStep(inRange: string -> bool, rest: string)
    ensures LexStep(inRange, ";" + rest, Code) == Step(1, Some(Semicolon), Code, true)
  {
    assert (";" + rest)[0] == ';';
  }

  lemma {:induction false} BlankFirst(inRange: string -> bool, rest: string)
    ensures LexStep(inRange, " " + rest, Code) == Step(1, None, Code, true)
  {
    assert (" " + rest)[0] == ' ';
  }

  lemma {:induction false} NilStep(inRange: string -> bool, rest: string)
    ensures LexStep(inRange, "nil" + (" " + rest), Code) == Step(3, Some(NIL), Code, true)
  {
    hide NumberExtent, StringExtent, SingleQuotedExtent;
    var s := "nil" + (" " + rest);
    assert s[0] == 'n' && s[1] == 'i' && s[2] == 'l' && s[3] == ' ';
    RunIs(s, IsIdentifierPart, 3);
    assert s[..3] == "nil";
  }

  lemma {:induction false} NilLexes(inRange: string -> bool, rest: string, base: nat, ks: seq<Kind>)
    requires LexesTo(inRange, rest, Code, base + 5, ks)
    ensures InsText([NIL]) == " nil " && LexesTo(inRange, InsText([NIL]) + rest, Code, base, [NIL] + ks)
  {
    hide LexesTo, LexStep;
    assert InsText([NIL]) == " nil ";
    BlankFirst(inRange, rest);
    SilentFront(inRange, " ", rest, Code, Code, base + 4, ks);
    NilStep(inRange, rest);
    TokenFirst(inRange, "nil", " " + rest, Code, Code, NIL, base + 1, ks);
    BlankFirst(inRange, "nil" + (" " + rest));
    SilentFront(inRange, " ", "nil" + (" " + rest), Code, Code, base, [NIL] + ks);
    assert " nil " + rest == " " + ("nil" + (" " + rest));
  }

  // ------------------------------------------------------------------ steps are kept

  /** A step without a token is the same before the lowered rest. */
  lemma {:induction false} SilentKept(inRange: string -> bool, s: string, mode: Mode, low: string)
    requires s != ""
    requires var st := LexStep(inRange, s, mode);
             && st.kind.None? && st.ok
             && Front(s[st.len..], low, st.len < |s| && (st.mode != Code || IsLineBreak(s[st.len])))
    ensures var st := LexStep(inRange, s, mode); LexStep(inRange, s[..st.len] + low, mode) == st
  {
    hide NumberExtent, StringExtent, SingleQuotedExtent;
    var st := LexStep(inRange, s, mode);
    var s2 := s[..st.len] + low;
    assert s2[0] == s[0];
    if mode == Code {
      if IsBlank(s[0]) {
      } else if |s| > 1 && s[0] == '/' && s[1] == '/' {
        LineCommentKept(inRange, s, st.len, low);
      } else {
        assert s2[1] == s[1];
      }
    } else if mode == Comment {
      CommentKept(s, st, low);
    }
  }

  lemma {:induction false} LineCommentKept(inRange: string -> bool, s: string, n: nat, low: string)
    requires |s| > 1 && s[0] == '/' && s[1] == '/' && n == 2 + Run(s[2..], IsCommentChar)
    requires Front(s[n..], low, n < |s| && IsLineBreak(s[n]))
    ensures CodeStep(inRange, s[..n] + low) == CodeStep(inRange, s)
  {
    hide NumberExtent, StringExtent, SingleQuotedExtent;
    var s2 := s[..n] + low;
    assert s2[0] == '/' && s2[1] == '/';
    assert s2[2..] == s[2..n] + low;
    assert forall i :: 2 <= i < n ==> s[2..][i - 2] == s[i];
    if n < |s| {
      assert s[2..][n - 2] == s[n];
      assert s2[2..][n - 2] == low[0];
    }
    RunIs(s2[2..], IsCommentChar, n - 2);
  }

  lemma {:induction false} CommentKept(s: string, st: Step, low: string)
    requires s != "" && st == CommentStep(s, Comment) && st.kind.None? && st.ok
    requires Front(s[st.len..], low, st.len < |s| && st.mode != Code)
    ensures CommentStep(s[..st.len] + low, Comment) == st
  {
    var s2 := s[..st.len] + low;
    assert s2[0] == s[0];
    if s[0] == '*' && |s| > 1 && s[1] == '/' {
      assert s2[1] == s[1];
    } else if s[0] == '*' && |s| > 1 {
      assert s2[1] == low[0] == s[1];
    }
  }

  /** A token is the same before the lowered rest. */
  lemma {:induction false} TokenKept(inRange: string -> bool, s: string, mode: Mode, low: string)
    requires s != ""
    requires var st := LexStep(inRange, s, mode); st.kind.Some? && st.ok && Front(s[st.len..], low, false)
    ensures var st := LexStep(inRange, s, mode); LexStep(inRange, s[..st.len] + low, mode) == st
  {
    var st := LexStep(inRange, s, mode);
    var t, r := s[..st.len], s[st.len..];
    assert s == t + r;
    if mode != Code {
      BreakKept(s, mode, low);
    } else if SameFront(r, low) {
      hide CodeStep;
      StepStableSame(inRange, t, r, low);
    } else {
      assert EndsBefore(st.kind.value, low) by { EndsAtMark(st.kind.value, low); }
      hide CodeStep;
      StepStable(inRange, t, r, low);
    }
  }

  lemma {:induction false} EndsAtMark(kind: Kind, low: string)
    requires low != "" && (low[0] == ';' || low[0] == ' ')
    ensures EndsBefore(kind, low)
  {
  }

  lemma {:induction false} BreakKept(s: string, mode: Mode, low: string)
    requires s != "" && mode != Code && CommentStep(s, mode).kind.Some?
    ensures var st := CommentStep(s, mode); CommentStep(s[..st.len] + low, mode) == st
  {
    var st := CommentStep(s, mode);
    var s2 := s[..st.len] + low;
    assert s2[0] == s[0];
    assert st.len == 2 ==> s2[1] == s[1];
  }

  // ------------------------------------------------------------------ the whole text

  lemma {:induction false} LowLexes(inRange: string -> bool, s: string, mode: Mode, base: nat, ins: seq<Kind>,
      plan: seq<Mark>, at: nat)
    requires Lex(inRange, s, mode, base).clean && Lands(Lex(inRange, s, mode, base).tokens, ins, plan)
    requires InOrder(s, base, Lex(inRange, s, mode, base).tokens)
    ensures var tokens := Lex(inRange, s, mode, base).tokens;
            LexesTo(inRange, Low(s, base, tokens, ins, plan), mode, at, ins + LoweredKinds(tokens, plan))
    decreases |s|
  {
    hide Lex, LexStep, InOrder, Low, LexesTo, Front, InsText, LoweredKinds, InsOf, Silent;
    LexOne(inRange, s, mode, base);
    if s == "" {
      NothingLow(inRange, mode, base, ins, plan, at);
    } else {
      var st := LexStep(inRange, s, mode);
      var s2, base2 := s[st.len..], base + st.len;
      var rest := Lex(inRange, s2, st.mode, base2).tokens;
      LexInOrder(inRange, s2, st.mode, base2);
      if st.kind.None? {
        LowFront(inRange, s2, st.mode, base2, ins, plan);
        LowLexes(inRange, s2, st.mode, base2, ins, plan, at + st.len);
        LowShift(s, base, st.len, rest, ins, plan);
        SilentLow(inRange, s, mode, Low(s2, base2, rest, ins, plan), at, ins + LoweredKinds(rest, plan));
      } else {
        var m, more := plan[0], plan[1..];
        var tokens := [Token(st.kind.value, base, base2)] + rest;
        LandsRest(tokens, ins, plan);
        LowFront(inRange, s2, st.mode, base2, InsOf(m), more);
        var skip := |InsText(ins)| + if m.drop then 1 else st.len;
        LowLexes(inRange, s2, st.mode, base2, InsOf(m), more, at + skip);
        LowToken(s, base, st.len, st.kind.value, rest, ins, plan);
        TokenLow(inRange, s, mode, Low(s2, base2, rest, InsOf(m), more), ins, m.drop, at,
          InsOf(m) + LoweredKinds(rest, more));
        KindsUnfold(tokens, plan);
      }
    }
  }

  lemma {:induction false} LandsRest(tokens: seq<Token>, ins: seq<Kind>, plan: seq<Mark>)
    requires tokens != [] && Lands(tokens, ins, plan)
    ensures Lands(tokens[1..], InsOf(plan[0]), plan[1..]) && IsIns(ins)
    ensures (ins != [] ==> tokens[0].kind != Newline) && (plan[0].drop ==> tokens[0].kind == Semicolon)
  {
  }

  lemma {:induction false} KindsUnfold(tokens: seq<Token>, plan: seq<Mark>)
    requires tokens != [] && |plan| == |tokens|
    ensures LoweredKinds(tokens, plan) ==
            (if plan[0].drop then [] else [tokens[0].kind]) + (InsOf(plan[0]) + LoweredKinds(tokens[1..], plan[1..]))
  {
  }

  lemma {:induction false} NothingLow(inRange: string -> bool, mode: Mode, base: nat, ins: seq<Kind>, plan: seq<Mark>,
      at: nat)
    requires mode == Code && ins == [] && plan == [] && InOrder("", base, [])
    ensures LexesTo(inRange, Low("", base, [], ins, plan), mode, at, ins + LoweredKinds([], plan))
  {
  }

  lemma {:induction false} SilentLow(inRange: string -> bool, s: string, mode: Mode, low: string, at: nat,
      ks: seq<Kind>)
    requires s != "" && LexStep(inRange, s, mode).kind.None? && LexStep(inRange, s, mode).ok
    requires var st := LexStep(inRange, s, mode);
             && LexesTo(inRange, low, st.mode, at + st.len, ks)
             && Front(s[st.len..], low, s[st.len..] != "" && Silent(LexStep(inRange, s[st.len..], st.mode)))
    ensures var st := LexStep(inRange, s, mode); LexesTo(inRange, s[..st.len] + low, mode, at, ks)
  {
    hide LexesTo;
    var st := LexStep(inRange, s, mode);
    NextSilent(inRange, s[st.len..], st.mode);
    assert Front(s[st.len..], low, st.len < |s| && (st.mode != Code || IsLineBreak(s[st.len])));
    hide LexStep, Front;
    SilentKept(inRange, s, mode, low);
    SilentFront(inRange, s[..st.len], low, mode, st.mode, at, ks);
  }

  /** In a comment, and at a line break, the next step emits at most a newline. */
  lemma {:induction false} NextSilent(inRange: string -> bool, s: string, mode: Mode)
    ensures s != "" && (mode != Code || IsLineBreak(s[0])) ==> Silent(LexStep(inRange, s, mode))
  {
    hide NumberExtent, StringExtent, SingleQuotedExtent;
  }

  lemma {:induction false} TokenLow(inRange: string -> bool, s: string, mode: Mode, low: string, ins: seq<Kind>,
      drop: bool, at: nat, ks: seq<Kind>)
    requires s != "" && LexStep(inRange, s, mode).kind.Some? && LexStep(inRange, s, mode).ok && IsIns(ins)
    requires var st := LexStep(inRange, s, mode);
             && (ins != [] ==> st.kind.value != Newline) && (drop ==> st.kind.value == Semicolon)
             && LexesTo(inRange, low, st.mode, at + |InsText(ins)| + (if drop then 1 else st.len), ks)
             && Front(s[st.len..], low, s[st.len..] != "" && Silent(LexStep(inRange, s[st.len..], st.mode)))
    ensures var st := LexStep(inRange, s, mode);
            LexesTo(inRange, InsText(ins) + (if drop then " " else s[..st.len]) + low, mode, at,
                    ins + ((if drop then [] else [st.kind.value]) + ks))
  {
    hide LexesTo, Front, LexStep, InsText, Silent;
    var st := LexStep(inRange, s, mode);
    InCode(inRange, s, mode);
    var here := at + |InsText(ins)|;
    var t := if drop then " " else s[..st.len];
    var out := (if drop then [] else [st.kind.value]) + ks;
    KeptOrBlank(inRange, s, mode, low, drop, here, ks);
    assert InsText(ins) + t + low == InsText(ins) + (t + low);
    if mode == Code {
      InsLexes(inRange, ins, t + low, at, out);
    } else {
      InsFront(ins);
      assert InsText(ins) + (t + low) == t + low && ins + out == out;
    }
  }

  lemma {:induction false} KeptOrBlank(inRange: string -> bool, s: string, mode: Mode, low: string, drop: bool,
      at: nat, ks: seq<Kind>)
    requires s != "" && LexStep(inRange, s, mode).kind.Some? && LexStep(inRange, s, mode).ok
    requires var st := LexStep(inRange, s, mode);
             && (drop ==> st.kind.value == Semicolon)
             && LexesTo(inRange, low, st.mode, at + (if drop then 1 else st.len), ks)
             && Front(s[st.len..], low, s[st.len..] != "" && Silent(LexStep(inRange, s[st.len..], st.mode)))
    ensures var st := LexStep(inRange, s, mode);
            LexesTo(inRange, (if drop then " " else s[..st.len]) + low, mode, at,
              (if drop then [] else [st.kind.value]) + ks)
  {
    hide LexesTo, LexStep, Silent;
    var st := LexStep(inRange, s, mode);
    assert Front(s[st.len..], low, false);
    InCode(inRange, s, mode);
    hide Front;
    if drop {
      BlankFirst(inRange, low);
      SilentFront(inRange, " ", low, Code, Code, at, ks);
      assert [] + ks == ks;
    } else {
      TokenKept(inRange, s, mode, low);
      TokenFirst(inRange, s[..st.len], low, mode, st.mode, st.kind.value, at, ks);
    }
  }

  /** A token other than a newline is read in code, and lexing goes on in code. */
  lemma {:induction false} InCode(inRange: string -> bool, s: string, mode: Mode)
    requires s != "" && LexStep(inRange, s, mode).kind.Some?
    ensures LexStep(inRange, s, mode).mode == mode
    ensures LexStep(inRange, s, mode).kind.value != Newline ==> mode == Code
  {
    hide NumberExtent, StringExtent, SingleQuotedExtent;
  }
}
