/** Lowering a canonical source for a tokenizer that ignores newlines. */
module VmLowering {
  import opened Tokens
  import opened Lexing
  import opened LexFacts
  import opened Tiling
  import opened ProfileLexer
  import opened Recogniser
  import opened Grammar
  import opened Choices
  import OneDerivation
  import opened LoweringPlan
  import opened ParseBuilder
  import opened CanonicalParser
  import opened CanonicalSource
  import opened LoweredStructure
  import opened LoweredReading
  import opened LoweredText
  import opened LoweredEdits

  datatype Lowering = Refused | Lowered(source: string, inserted: nat)

  function Erased(ks: seq<Kind>): (r: seq<Kind>) {
    if ks == [] then [] else (if ks[0] == Newline then [] else [ks[0]]) + Erased(ks[1..])
  }

  /** The lowered text lexes cleanly, and its tokens alone, without newlines, split at `;` and nested at every
      brace, read as the source's statements in order, token for token as they are spelled. */
  ghost predicate KeepsStructure(inRange: string -> bool, source: string, lowered: string, tree: Tree) {
    var before, after := Lex(inRange, source, Code, 0).tokens, Lex(inRange, lowered, Code, 0).tokens;
    && Lex(inRange, lowered, Code, 0).clean && Spelled(source, before) && Spelled(lowered, after)
    && OneDerivation.IsDerivation(KindsAll(before) + [End], tree)
    && Erased(KindsAll(after)) == Words(tree)
    && var r := Read(Erased(KindsAll(after)), [], []);
       r.rest == [] && Listed(r.body) == StatementsOf(tree.kids)
  }

  // ------------------------------------------------------------------ erasing newlines

  lemma {:induction false} ErasedFront(k: Kind, ks: seq<Kind>)
    ensures Erased([k] + ks) == (if k == Newline then [] else [k]) + Erased(ks)
  {
    assert ([k] + ks)[1..] == ks;
  }

  lemma {:induction false} ErasedConcat(a: seq<Kind>, b: seq<Kind>)
    ensures Erased(a + b) == Erased(a) + Erased(b)
  {
    hide Erased;
    if a == [] {
      NothingErased();
      assert a + b == b;
    } else {
      ErasedConcat(a[1..], b);
      assert a + b == [a[0]] + (a[1..] + b) && a == [a[0]] + a[1..];
      ErasedFront(a[0], a[1..] + b);
      ErasedFront(a[0], a[1..]);
    }
  }

  lemma {:induction false} InsKept(m: Mark)
    ensures Erased(InsOf(m)) == InsOf(m)
  {
    assert [Semicolon, NIL][1..] == [NIL];
    assert Erased([NIL]) == [NIL] && Erased([Semicolon]) == [Semicolon];
    assert Erased([Semicolon, NIL]) == [Semicolon, NIL];
  }

  lemma {:induction false} ErasedMark(k: Kind, m: Mark)
    ensures Erased((if m.drop then [] else [k]) + InsOf(m)) == OutAt(k, m)
  {
    InsKept(m);
    ErasedConcat(if m.drop then [] else [k], InsOf(m));
    assert Erased([k]) == if k == Newline then [] else [k];
  }

  lemma {:induction false} ErasedKinds(tokens: seq<Token>, plan: seq<Mark>)
    requires |plan| == |tokens|
    ensures Erased(LoweredKinds(tokens, plan)) == Out(KindsAll(tokens), plan)
    decreases |tokens|
  {
    hide OutAt, InsOf, Erased, Out;
    var ks := KindsAll(tokens);
    if tokens == [] {
      assert Erased([]) == [] && Out([], []) == [] by { NothingErased(); }
    } else {
      ErasedKinds(tokens[1..], plan[1..]);
      ErasedMark(ks[0], plan[0]);
      var first := (if plan[0].drop then [] else [ks[0]]) + InsOf(plan[0]);
      ErasedConcat(first, LoweredKinds(tokens[1..], plan[1..]));
      assert ks == [ks[0]] + KindsAll(tokens[1..]) && plan == [plan[0]] + plan[1..];
      OutConcat([ks[0]], KindsAll(tokens[1..]), [plan[0]], plan[1..]);
      OutOne(ks[0], plan[0]);
    }
  }

  lemma {:induction false} NothingErased()
    ensures Erased([]) == [] && Out([], []) == []
  {
  }

  // ------------------------------------------------------------------ where the edits land

  lemma {:induction false} AimedLands(tokens: seq<Token>, plan: seq<Mark>, k: nat, ins: seq<Kind>)
    requires k <= |plan| && |tokens| == |plan| + 1 && tokens[|plan|].kind == End && Aimed(tokens, 0, plan)
    requires IsIns(ins) && (ins != [] ==> tokens[k].kind != Newline && tokens[k].kind != End)
    ensures Lands(tokens[k..|plan|], ins, plan[k..])
    decreases |plan| - k
  {
    var ts, ps := tokens[k..|plan|], plan[k..];
    if k < |plan| {
      assert AimedAt(tokens, 0 + k, plan[k]);
      AimedLands(tokens, plan, k + 1, InsOf(plan[k]));
      assert ts[1..] == tokens[k + 1..|plan|] && ps[1..] == plan[k + 1..];
    }
  }

  /** Sorting the logged edits and applying them gives the lowered text. */
  lemma {:induction false} LoggedEditsApply(source: string, tokens: seq<Token>, plan: seq<Mark>, edits: seq<Edit>)
    requires Ordered(tokens) && |tokens| == |plan| + 1 && tokens[|plan|].kind == End && Aimed(tokens, 0, plan)
    requires InOrder(source, 0, tokens[..|plan|])
    requires edits == StableSort(InsertionsAt(Separators(tokens, 0, plan)) + TailEdits(tokens, 0, plan))
    ensures Lands(tokens[..|plan|], [], plan)
    ensures Applicable(|source|, 0, edits) && Applied(source, 0, edits) == Low(source, 0, tokens[..|plan|], [], plan)
  {
    hide Ordered, StableSort, Separators, TailEdits, Lands, Applied, Applicable, Low, InOrder, PlanEdits, Aimed,
      TextEdits, EditsFrom;
    var ts := tokens[..|plan|];
    SortGivesPlan(tokens, plan);
    FrontAndBack(tokens, 0, plan);
    assert plan[..0] == [] && plan[0..] == plan && tokens[0..|plan|] == ts;
    NothingSorted(tokens);
    AimedLands(tokens, plan, 0, []);
    EditsFromIsText(tokens, 0, plan, []);
    NoInserts(tokens[0].start);
    assert [] + EditsFrom(tokens, 0, plan) == EditsFrom(tokens, 0, plan);
    assert source[0..] == source;
    AppliedIsLow(source, 0, ts, [], plan);
  }

  // ------------------------------------------------------------------ counting

  function Count(plan: seq<Mark>): (n: nat) {
    if plan == [] then 0 else Count(plan[..|plan| - 1]) + |InsOf(plan[|plan| - 1])|
  }

  function NilEdits(edits: seq<Edit>): (n: nat) {
    if edits == [] then 0 else NilEdits(edits[..|edits| - 1]) + if edits[|edits| - 1].text == " nil " then 1 else 0
  }

  lemma {:induction false} NilAppend(edits: seq<Edit>, e: Edit)
    ensures NilEdits(edits + [e]) == NilEdits(edits) + if e.text == " nil " then 1 else 0
  {
    assert (edits + [e])[..|edits|] == edits;
  }

  /** The logged count is the number of tokens inserted. */
  lemma {:induction false} CountIsLogged(tokens: seq<Token>, plan: seq<Mark>)
    ensures |Separators(tokens, 0, plan)| + NilEdits(TailEdits(tokens, 0, plan)) == Count(plan)
  {
    hide Start, TailEditsAt, NilEdits;
    if plan == [] {
      assert NilEdits([]) == 0 by { NoNils(); }
    } else {
      var n := |plan| - 1;
      CountIsLogged(tokens, plan[..n]);
      NilsOfMark(TailEdits(tokens, 0, plan[..n]), tokens, n, plan[n]);
    }
  }

  lemma {:induction false} NoNils()
    ensures NilEdits([]) == 0
  {
  }

  lemma {:induction false} NilsOfMark(front: seq<Edit>, tokens: seq<Token>, n: nat, m: Mark)
    ensures NilEdits(front + TailEditsAt(tokens, n, m)) == NilEdits(front) + if m.nil then 1 else 0
  {
    hide Start, Finish, NilEdits;
    var drop := Edit(Start(tokens, n), Finish(tokens, n), " ");
    var nil := Edit(Start(tokens, n + 1), Start(tokens, n + 1), " nil ");
    assert |drop.text| != |nil.text|;
    NilAppend(front, drop);
    NilAppend(front, nil);
    NilAppend(front + [drop], nil);
    if m.drop && m.nil {
      assert front + TailEditsAt(tokens, n, m) == front + [drop] + [nil];
    } else if m.drop {
      assert front + TailEditsAt(tokens, n, m) == front + [drop];
    } else if m.nil {
      assert front + TailEditsAt(tokens, n, m) == front + [nil];
    } else {
      assert front + TailEditsAt(tokens, n, m) == front;
    }
  }

  /** Tokens that stay and tokens inserted make up the lowered text. */
  lemma {:induction false} LoweredSize(tokens: seq<Token>, plan: seq<Mark>)
    requires |plan| == |tokens|
    ensures |LoweredKinds(tokens, plan)| <= |tokens| + Count(plan)
    decreases |tokens|
  {
    hide InsOf;
    if tokens != [] {
      LoweredSize(tokens[1..], plan[1..]);
      CountFront(plan);
    }
  }

  lemma {:induction false} CountFront(plan: seq<Mark>)
    requires plan != []
    ensures Count(plan) == |InsOf(plan[0])| + Count(plan[1..])
  {
    hide InsOf;
    if |plan| > 1 {
      CountFront(plan[..|plan| - 1]);
      assert plan[1..][..|plan| - 2] == plan[..|plan| - 1][1..];
    }
  }

  // ------------------------------------------------------------------ methods

  /** Copies the source, replacing each edited span. */
  method ApplyEdits(source: string, edits: seq<Edit>) returns (lowered: string)
    requires Applicable(|source|, 0, edits)
    ensures lowered == Applied(source, 0, edits)
  {
    lowered := "";
    var offset := 0;
    var i := 0;
    assert edits[0..] == edits;
    while i < |edits|
      invariant 0 <= i <= |edits| && 0 <= offset <= |source| && Applicable(|source|, offset, edits[i..])
      invariant Applied(source, 0, edits) == lowered + Applied(source, offset, edits[i..])
    {
      var e := edits[i];
      assert edits[i..][0] == e && edits[i..][1..] == edits[i + 1..];
      lowered := lowered + source[offset..e.start] + e.text;
      offset := e.end;
      i := i + 1;
    }
    lowered := lowered + source[offset..];
  }

  method CountNils(edits: seq<Edit>) returns (n: nat)
    ensures n == NilEdits(edits)
  {
    n := 0;
    for i := 0 to |edits|
      invariant n == NilEdits(edits[..i])
    {
      assert edits[..i + 1] == edits[..i] + [edits[i]];
      NilAppend(edits[..i], edits[i]);
      if edits[i].text == " nil " {
        n := n + 1;
      }
    }
    assert edits[..|edits|] == edits;
  }

  /** Facts about a clean parse of a source's tokens. */
  lemma {:induction false} LoweredLexes(inRange: string -> bool, source: string, tokens: seq<Token>, tree: Tree)
    requires Lex(inRange, source, Code, 0).clean
    requires tokens == Lex(inRange, source, Code, 0).tokens + [Token(End, |source|, |source|)]
    requires Ordered(tokens) && tree.Node? && tree.sym == Program && Derives(tree) && Aimed(tokens, 0, PlanOf(tree))
    requires Yield(tree) == KindsAll(Lex(inRange, source, Code, 0).tokens) && Forced(KindsOf(tokens), 0, tree)
    ensures var edits := StableSort(InsertionsAt(Separators(tokens, 0, PlanOf(tree))) + TailEdits(tokens, 0,
      PlanOf(tree)));
            && Applicable(|source|, 0, edits) && KeepsStructure(inRange, source, Applied(source, 0, edits), tree)
            && |Lex(inRange, Applied(source, 0, edits), Code, 0).tokens| <= |tokens| - 1 + Count(PlanOf(tree))
  {
    hide Lex, Spelled, Ordered, StableSort, Separators, TailEdits, Applied, Applicable, Low, InOrder, Aimed, Derives,
      Yield, PlanOf, Words, Read, StatementsOf, Out, Lands, Forced;
    var plan := PlanOf(tree);
    var ts := Lex(inRange, source, Code, 0).tokens;
    PlanLength(tree);
    assert tokens[..|plan|] == ts && KindsOf(tokens) == KindsAll(ts) + [End];
    LexInOrder(inRange, source, Code, 0);
    var edits := StableSort(InsertionsAt(Separators(tokens, 0, plan)) + TailEdits(tokens, 0, plan));
    LoggedEditsApply(source, tokens, plan, edits);
    LowLexes(inRange, source, Code, 0, [], plan, 0);
    AllSpelled(inRange, source);
    AllSpelled(inRange, Applied(source, 0, edits));
    assert [] + LoweredKinds(ts, plan) == LoweredKinds(ts, plan);
    ErasedKinds(ts, plan);
    PlanGivesWords(tree);
    LoweredReadsBack(tree);
    LoweredSize(ts, plan);
  }

  /** The structure of a source fixes the tokens of a text that keeps it, newlines aside, and how many were inserted. */
  lemma {:induction false} LoweringIsFixed(inRange: string -> bool, source: string, a: string, t: Tree, b: string,
      u: Tree)
    requires KeepsStructure(inRange, source, a, t) && KeepsStructure(inRange, source, b, u)
    ensures t == u && Erased(KindsAll(Lex(inRange, a, Code, 0).tokens)) ==
      Erased(KindsAll(Lex(inRange, b, Code, 0).tokens))
  {
    hide Lex, Erased, Words, Read, Spelled, OneDerivation.IsDerivation;
    OneDerivation.DerivationIsUnique(KindsAll(Lex(inRange, source, Code, 0).tokens) + [End], t, u);
  }

  /** Accepts exactly the canonical sources; the result keeps their statement structure, and grows
      the token count by at most the number reported. */
  method LowerCanonicalSource(inRange: string -> bool, source: string, maxTokens: nat, maxNesting: nat)
    returns (r: Lowering, ghost tree: Tree)
    ensures r.Refused? <==> !Accepted(inRange, source, maxTokens, maxNesting)
    ensures r.Lowered? ==> KeepsStructure(inRange, source, r.source, tree) && r.inserted == Count(PlanOf(tree))
    ensures r.Lowered? ==>
      |Lex(inRange, r.source, Code, 0).tokens| <= |Lex(inRange, source, Code, 0).tokens| + r.inserted
  {
    hide Lex, Accepts, Ordered, PlanOf, Separators, TailEdits, Derives, Yield, StableSort, Applied, Applicable,
      KeepsStructure, Aimed, Count, Forced;
    tree := Leaf(End);
    var lexer := new Lexer(source, maxTokens, inRange);
    lexer.Tokenize();
    if !lexer.clean {
      return Refused, tree;
    }
    var tokens := lexer.tokens;
    var parser := new Parser(tokens, maxNesting);
    LexOrdered(inRange, source, maxTokens);
    tree := parser.Parse();
    ParsedAlike(inRange, source, tokens, maxNesting);
    if !parser.clean {
      return Refused, tree;
    }
    AllTokensParsed(inRange, source, tokens, parser.index);
    LoweredLexes(inRange, source, tokens, tree);
    CountIsLogged(tokens, PlanOf(tree));
    var nils := CountNils(parser.edits.tailEdits);
    var edits := StableSort(InsertionsAt(parser.edits.separators) + parser.edits.tailEdits);
    var lowered := ApplyEdits(source, edits);
    r := Lowered(lowered, |parser.edits.separators| + nils);
  }

  lemma {:induction false} ParsedAlike(inRange: string -> bool, source: string, tokens: seq<Token>, maxNesting: nat)
    requires tokens == Lex(inRange, source, Code, 0).tokens + [Token(End, |source|, |source|)]
    ensures Parsed(Lex(inRange, source, Code, 0).tokens, maxNesting) == Env(KindsOf(tokens), maxNesting)
  {
    hide Lex;
    var ts := Lex(inRange, source, Code, 0).tokens;
    assert KindsOf(tokens) == KindsOf(ts) + [End];
  }

  /** The parser stops at the `End` token, which is the last one. */
  lemma {:induction false} AllTokensParsed(inRange: string -> bool, source: string, tokens: seq<Token>, index: nat)
    requires Lex(inRange, source, Code, 0).clean
    requires tokens == Lex(inRange, source, Code, 0).tokens + [Token(End, |source|, |source|)]
    requires index < |tokens| && tokens[index].kind == End
    ensures index == |tokens| - 1 && KindsOf(tokens)[..index] == KindsAll(Lex(inRange, source, Code, 0).tokens)
  {
    hide Lex, SourceCut, Solid;
    CutFacts(inRange, source);
    var items := SourceCut(inRange, source).items;
    SolidKinds(items);
    EndIsLast(items, tokens, index);
  }
}
