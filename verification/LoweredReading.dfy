/** Reading lowered tokens back: a reader for a language that knows `;` but no newlines. */
module LoweredReading {
  import opened Tokens
  import opened Grammar
  import opened LoweringPlan
  import opened LoweredStructure

  /** A statement is its tokens, with whatever stands in braces read as a statement list of its own. */
  datatype Piece = Atom(kind: Kind) | Nested(body: Body)

  /** The statements ended by a `;`, and what stands unterminated after them. */
  datatype Body = Body(statements: seq<seq<Piece>>, tail: seq<Piece>)

  // ------------------------------------------------------------------ the reader

  datatype Reading = Reading(body: Body, rest: seq<Kind>)

  /** Reads one statement list. Only `;` ends a statement; empty statements are dropped. */
  function Read(ws: seq<Kind>, done: seq<seq<Piece>>, cur: seq<Piece>): (r: Reading)
    ensures |r.rest| <= |ws|
    decreases |ws|
  {
    if ws == [] || ws[0] == CloseCurly then Reading(Body(done, cur), ws)
    else if ws[0] == OpenCurly then
      var inner := Read(ws[1..], [], []);
      if inner.rest == [] then Reading(Body(done, cur + [Nested(inner.body)]), [])
      else Read(inner.rest[1..], done, cur + [Nested(inner.body)])
    else if ws[0] == Semicolon then Read(ws[1..], if cur == [] then done else done + [cur], [])
    else Read(ws[1..], done, cur + [Atom(ws[0])])
  }

  // ------------------------------------------------------------------ the source's own lists

  /** The pieces of a tree as the source has them: newlines only separate. */
  function Pieces(t: Tree): (ps: seq<Piece>)
    decreases t
  {
    if t.Leaf? then (if t.kind == Newline then [] else [Atom(t.kind)])
    else if IsBlockSym(t.sym) && |t.kids| >= 2 then
      [Nested(BodyOf(t.sym == Block(true), t.kids[1..|t.kids| - 1]))]
    else if t.sym == Record && |t.kids| >= 2 then [Nested(Body([], PiecesAll(t.kids[1..|t.kids| - 1])))]
    else PiecesAll(t.kids)
  }

  function PiecesAll(ts: seq<Tree>): (ps: seq<Piece>)
    decreases ts, 0
  {
    if ts == [] then [] else PiecesAll(ts[..|ts| - 1]) + Pieces(ts[|ts| - 1])
  }

  /** The statements of a list of lines. */
  function StatementsOf(ts: seq<Tree>): (ss: seq<seq<Piece>>)
    decreases ts, 1
  {
    if ts == [] then []
    else
      var last := ts[|ts| - 1];
      StatementsOf(ts[..|ts| - 1]) +
      if IsLineOf(last, true) || IsLineOf(last, false) then [Pieces(last.kids[0])]
      else if last.Node? && last.sym.Statement? then [Pieces(last)]
      else []
  }

  /** What a block must read as. A conditional block ends in an unterminated value: its own last
      value, or `nil` if its last statement has none; elsewhere every statement is terminated. */
  function BodyOf(conditional: bool, inner: seq<Tree>): (b: Body)
    decreases inner, 2
  {
    if !conditional then Body(StatementsOf(inner), [])
    else if ValueTail(inner) then Body(StatementsOf(inner[..|inner| - 1]), Pieces(inner[|inner| - 1].kids[0]))
    else Body(StatementsOf(inner), [Atom(NIL)])
  }

  /** All statements of a body, terminated or not. */
  function Listed(b: Body): (ss: seq<seq<Piece>>) {
    b.statements + if b.tail == [] then [] else [b.tail]
  }

  // ------------------------------------------------------------------ rows without statement ends

  predicate PlainSym(sym: Sym) {
    !sym.Line? && sym != Ends && sym != Program
  }

  /** The reader takes it as it is. */
  predicate PlainKind(k: Kind) {
    k != Semicolon && k != OpenCurly && k != CloseCurly
  }

  predicate PlainRoot(r: Root) {
    if r.T? then PlainKind(r.kind) else PlainSym(r.sym)
  }

  predicate Plain(t: Tree) {
    PlainRoot(RootOf(t))
  }

  lemma {:induction false} PlainRow(sym: Sym, r: seq<Root>)
    requires Production(sym, r) && PlainSym(sym) && !IsBlockSym(sym) && sym != Record
    ensures forall i :: 0 <= i < |r| ==> PlainRoot(r[i])
  {
    hide IsReserved;
    match sym {
      case Path => NamesPlain(r, Op("."));
      case Names(_) => NamesPlain(r, T(Comma));
      case Bindings => NamesPlain(r, T(Comma));
      case Binary(_) => OperatorsPlain(sym, r);
      case BinaryTail(_) => OperatorsPlain(sym, r);
      case Unary => OperatorsPlain(sym, r);
      case Primary => OperatorsPlain(sym, r);
      case Statement(_) => StatementsPlain(sym, r);
      case Declaration => StatementsPlain(sym, r);
      case FunctionDeclaration => StatementsPlain(sym, r);
      case Conditional => StatementsPlain(sym, r);
      case _ => OthersPlain(sym, r);
    }
  }

  lemma {:induction false} NamesPlain(r: seq<Root>, separator: Root)
    requires NameList(r, separator) && PlainRoot(separator)
    ensures forall i :: 0 <= i < |r| ==> PlainRoot(r[i])
  {
    hide IsReserved;
  }

  lemma {:induction false} OperatorsPlain(sym: Sym, r: seq<Root>)
    requires Production(sym, r) && (sym.Binary? || sym.BinaryTail? || sym.Unary? || sym.Primary?)
    ensures forall i :: 0 <= i < |r| ==> PlainRoot(r[i])
  {
    hide IsReserved;
  }

  lemma {:induction false} StatementsPlain(sym: Sym, r: seq<Root>)
    requires Production(sym, r) && (sym.Statement? || sym.Declaration? || sym.FunctionDeclaration? || sym.Conditional?)
    ensures forall i :: 0 <= i < |r| ==> PlainRoot(r[i])
  {
    hide IsReserved;
  }

  lemma {:induction false} OthersPlain(sym: Sym, r: seq<Root>)
    requires Production(sym, r) && PlainSym(sym) && !IsBlockSym(sym) && sym != Record
    requires !sym.Path? && !sym.Names? && !sym.Bindings? && !sym.Binary? && !sym.BinaryTail? && !sym.Unary? &&
      !sym.Primary?
    requires !sym.Statement? && !sym.Declaration? && !sym.FunctionDeclaration? && !sym.Conditional?
    ensures forall i :: 0 <= i < |r| ==> PlainRoot(r[i])
  {
    hide IsReserved;
  }

  // ------------------------------------------------------------------ statements are not empty

  /** Symbols whose first token is a word of its own. */
  predicate Wordy(sym: Sym) {
    PlainSym(sym) && sym != Newlines && sym != MemberSeparator
  }

  predicate StartsWord(r: seq<Root>) {
    r != [] && if r[0].T? then r[0].kind != Newline else Wordy(r[0].sym)
  }

  lemma {:induction false} WordyRow(sym: Sym, r: seq<Root>)
    requires Production(sym, r) && Wordy(sym)
    ensures StartsWord(r)
  {
    hide IsReserved, Production, StartsWord;
    if sym.Statement? || sym.Declaration? || sym.FunctionDeclaration? || sym.Conditional? || sym.Loop? ||
      IsBlockSym(sym) ||
       sym.Path? || sym.Names? || sym.Bindings? {
      WordyStatement(sym, r);
    } else {
      WordyOther(sym, r);
    }
  }

  lemma {:induction false} WordyStatement(sym: Sym, r: seq<Root>)
    requires Production(sym, r) && Wordy(sym)
    requires sym.Statement? || sym.Declaration? || sym.FunctionDeclaration? || sym.Conditional? || sym.Loop? ||
      IsBlockSym(sym) ||
             sym.Path? || sym.Names? || sym.Bindings?
    ensures StartsWord(r)
  {
    hide IsReserved;
  }

  lemma {:induction false} WordyOther(sym: Sym, r: seq<Root>)
    requires Production(sym, r) && Wordy(sym)
    requires !(sym.Statement? || sym.Declaration? || sym.FunctionDeclaration? || sym.Conditional? || sym.Loop? ||
      IsBlockSym(sym) ||
               sym.Path? || sym.Names? || sym.Bindings?)
    ensures StartsWord(r)
  {
    hide IsReserved;
  }

  lemma {:induction false} PiecesConcat(a: seq<Tree>, b: seq<Tree>)
    ensures PiecesAll(a + b) == PiecesAll(a) + PiecesAll(b)
    decreases |b|
  {
    hide Pieces;
    if b == [] {
      assert a + b == a;
    } else {
      var n := |b| - 1;
      PiecesConcat(a, b[..n]);
      assert (a + b)[..|a| + n] == a + b[..n];
    }
  }

  lemma {:induction false} NotEmpty(t: Tree)
    requires t.Node? && Derives(t) && Wordy(t.sym)
    ensures Pieces(t) != []
    decreases t
  {
    hide Production, PiecesAll;
    if !((IsBlockSym(t.sym) || t.sym == Record) && |t.kids| >= 2) {
      var r := Roots(t.kids);
      WordyRow(t.sym, r);
      var first := t.kids[0];
      assert r[0] == RootOf(first) && Derives(first);
      if first.Node? {
        NotEmpty(first);
      }
      assert Pieces(first) != [];
      assert t.kids == [first] + t.kids[1..];
      PiecesConcat([first], t.kids[1..]);
      OnePiece(first);
    }
  }

  lemma {:induction false} OnePiece(t: Tree)
    ensures PiecesAll([t]) == Pieces(t)
  {
    hide Pieces;
    assert [t][..0] == [];
    NoPieces();
  }

  lemma {:induction false} NoPieces()
    ensures PiecesAll([]) == [] && StatementsOf([]) == [] && WordsAll([]) == []
  {
  }

  // ------------------------------------------------------------------ one step of the reader

  lemma {:induction false} ReadAtom(k: Kind, rest: seq<Kind>, done: seq<seq<Piece>>, cur: seq<Piece>)
    requires PlainKind(k)
    ensures Read([k] + rest, done, cur) == Read(rest, done, cur + [Atom(k)])
  {
    assert ([k] + rest)[1..] == rest;
  }

  lemma {:induction false} ReadSemi(rest: seq<Kind>, done: seq<seq<Piece>>, cur: seq<Piece>)
    ensures Read([Semicolon] + rest, done, cur) == Read(rest, if cur == [] then done else done + [cur], [])
  {
    assert ([Semicolon] + rest)[1..] == rest;
  }

  lemma {:induction false} ReadNested(ws: seq<Kind>, body: Body, rest: seq<Kind>, done: seq<seq<Piece>>,
      cur: seq<Piece>)
    requires Read(ws + [CloseCurly] + rest, [], []) == Reading(body, [CloseCurly] + rest)
    ensures Read([OpenCurly] + ws + [CloseCurly] + rest, done, cur) == Read(rest, done, cur + [Nested(body)])
  {
    var all := [OpenCurly] + ws + [CloseCurly] + rest;
    assert all[1..] == ws + [CloseCurly] + rest;
    assert ([CloseCurly] + rest)[1..] == rest;
  }

  /** More semicolons after the first one change nothing. */
  lemma {:induction false} ReadSemis(ks: seq<Kind>, rest: seq<Kind>, done: seq<seq<Piece>>)
    ensures Read(Semis(ks) + rest, done, []) == Read(rest, done, [])
    decreases |ks|
  {
    hide Read;
    if ks == [] {
      assert Semis(ks) + rest == rest;
    } else {
      var n := |ks| - 1;
      if ks[n] == Semicolon {
        assert Semis(ks) + rest == Semis(ks[..n]) + ([Semicolon] + rest);
        ReadSemis(ks[..n], [Semicolon] + rest, done);
        ReadSemi(rest, done, []);
      } else {
        ReadSemis(ks[..n], rest, done);
        assert Semis(ks) == Semis(ks[..n]);
      }
    }
  }

  /** A statement with something in it is ended by its line end. */
  lemma {:induction false} ReadLineEnd(ks: seq<Kind>, rest: seq<Kind>, done: seq<seq<Piece>>, cur: seq<Piece>)
    requires cur != [] && (Semicolon in ks)
    ensures Read(Semis(ks) + rest, done, cur) == Read(rest, done + [cur], [])
    decreases |ks|
  {
    hide Read;
    var n := |ks| - 1;
    if ks[n] == Semicolon {
      assert Semis(ks) + rest == Semis(ks[..n]) + ([Semicolon] + rest);
      if Semicolon in ks[..n] {
        ReadLineEnd(ks[..n], [Semicolon] + rest, done, cur);
        ReadSemi(rest, done + [cur], []);
      } else {
        NoSemis(ks[..n]);
        assert Semis(ks[..n]) + ([Semicolon] + rest) == [Semicolon] + rest;
        ReadSemi(rest, done, cur);
      }
    } else {
      assert Semis(ks) == Semis(ks[..n]);
      ReadLineEnd(ks[..n], rest, done, cur);
    }
  }

  lemma {:induction false} ReadEnd(ks: seq<Kind>, rest: seq<Kind>, done: seq<seq<Piece>>, cur: seq<Piece>)
    requires cur != []
    ensures Read(LineEnd(ks) + rest, done, cur) == Read(rest, done + [cur], [])
  {
    hide Read, Semis;
    if Semicolon in ks {
      ReadLineEnd(ks, rest, done, cur);
    } else {
      ReadSemi(rest, done, cur);
    }
  }

  // ------------------------------------------------------------------ reading trees

  /** A tree without statement ends of its own adds its pieces to the current statement. */
  lemma {:induction false} ReadTree(t: Tree, rest: seq<Kind>, done: seq<seq<Piece>>, cur: seq<Piece>)
    requires Derives(t) && Plain(t)
    ensures Read(Words(t) + rest, done, cur) == Read(rest, done, cur + Pieces(t))
    decreases t, 3
  {
    hide Read, Production, WordsAll, PiecesAll, Derives;
    if t.Leaf? {
      ReadLeaf(t, rest, done, cur);
    } else if IsBlockSym(t.sym) {
      BlockParts(t);
      var conditional, inner := t.sym == Block(true), t.kids[1..|t.kids| - 1];
      hide Words, Pieces;
      ReadBlock(t, conditional, inner, rest);
      BlockForms(t);
      ReadNested(BlockWords(conditional, inner), BodyOf(conditional, inner), rest, done, cur);
    } else if t.sym == Record {
      RecordParts(t);
      var inner := t.kids[1..|t.kids| - 1];
      ReadTrees(inner, [CloseCurly] + rest, [], []);
      hide Words, Pieces;
      RecordForms(t);
      var pieces := PiecesAll(inner);
      assert [] + pieces == pieces && WordsAll(inner) + [CloseCurly] + rest == WordsAll(inner) + ([CloseCurly] + rest);
      ReadStop(rest, [], pieces);
      ReadNested(WordsAll(inner), Body([], pieces), rest, done, cur);
    } else {
      NodeKids(t);
      PlainRow(t.sym, Roots(t.kids));
      PlainKids(t.kids);
      ReadTrees(t.kids, rest, done, cur);
    }
  }

  /** A record is its braces around members and newlines. */
  lemma {:induction false} RecordParts(t: Tree)
    requires t.Node? && t.sym == Record && Derives(t)
    ensures |t.kids| >= 2 && t.kids[0] == Leaf(OpenCurly) && t.kids[|t.kids| - 1] == Leaf(CloseCurly)
    ensures var inner := t.kids[1..|t.kids| - 1];
            AllDerive(inner) && forall i :: 0 <= i < |inner| ==> Plain(inner[i])
  {
    hide Derives;
    var r, n := Roots(t.kids), |t.kids|;
    assert Production(t.sym, r) && AllDerive(t.kids) by { NodeKids(t); }
    RecordRow(r);
    assert r[0] == RootOf(t.kids[0]) && r[n - 1] == RootOf(t.kids[n - 1]);
    var inner := t.kids[1..n - 1];
    forall i | 0 <= i < |inner| ensures Derives(inner[i]) && Plain(inner[i]) {
      assert inner[i] == t.kids[i + 1] && r[i + 1] == RootOf(t.kids[i + 1]);
    }
  }

  lemma {:induction false} RecordRow(r: seq<Root>)
    requires Production(Record, r)
    ensures |r| >= 2 && r[0] == T(OpenCurly) && r[|r| - 1] == T(CloseCurly)
    ensures forall i :: 1 <= i < |r| - 1 ==> PlainRoot(r[i])
  {
  }

  lemma {:induction false} RecordForms(t: Tree)
    requires t.Node? && t.sym == Record && |t.kids| >= 2 && t.kids[0] == Leaf(OpenCurly) &&
      t.kids[|t.kids| - 1] == Leaf(CloseCurly)
    ensures var inner := t.kids[1..|t.kids| - 1];
            Words(t) == [OpenCurly] + WordsAll(inner) + [CloseCurly] &&
              Pieces(t) == [Nested(Body([], PiecesAll(inner)))]
  {
    hide WordsAll, PiecesAll;
    var inner := t.kids[1..|t.kids| - 1];
    assert t.kids == [Leaf(OpenCurly)] + inner + [Leaf(CloseCurly)];
    ConcatAll([Leaf(OpenCurly)], inner);
    WordsAppend([Leaf(OpenCurly)] + inner, Leaf(CloseCurly));
    OneOf(Leaf(OpenCurly));
  }

  lemma {:induction false} BlockForms(t: Tree)
    requires t.Node? && IsBlockSym(t.sym) && |t.kids| >= 2
    ensures var conditional, inner := t.sym == Block(true), t.kids[1..|t.kids| - 1];
            Words(t) == [OpenCurly] + BlockWords(conditional, inner) + [CloseCurly] &&
              Pieces(t) == [Nested(BodyOf(conditional, inner))]
  {
    hide BlockWords, BodyOf;
  }

  lemma {:induction false} PlainKids(kids: seq<Tree>)
    requires forall i :: 0 <= i < |kids| ==> PlainRoot(Roots(kids)[i])
    ensures forall i :: 0 <= i < |kids| ==> Plain(kids[i])
  {
    forall i | 0 <= i < |kids| ensures Plain(kids[i]) {
      assert Roots(kids)[i] == RootOf(kids[i]);
    }
  }

  lemma {:induction false} ReadLeaf(t: Tree, rest: seq<Kind>, done: seq<seq<Piece>>, cur: seq<Piece>)
    requires t.Leaf? && PlainKind(t.kind)
    ensures Read(Words(t) + rest, done, cur) == Read(rest, done, cur + Pieces(t))
  {
    hide Read;
    if t.kind == Newline {
      assert [] + rest == rest && cur + [] == cur;
    } else {
      ReadAtom(t.kind, rest, done, cur);
    }
  }

  lemma {:induction false} ReadTrees(ts: seq<Tree>, rest: seq<Kind>, done: seq<seq<Piece>>, cur: seq<Piece>)
    requires AllDerive(ts) && forall i :: 0 <= i < |ts| ==> Plain(ts[i])
    ensures Read(WordsAll(ts) + rest, done, cur) == Read(rest, done, cur + PiecesAll(ts))
    decreases ts, 2
  {
    hide Read, Words, Pieces, Derives;
    if ts == [] {
      assert WordsAll(ts) + rest == rest && cur + [] == cur;
    } else {
      var n := |ts| - 1;
      assert WordsAll(ts) + rest == WordsAll(ts[..n]) + (Words(ts[n]) + rest);
      ReadTrees(ts[..n], Words(ts[n]) + rest, done, cur);
      ReadTree(ts[n], rest, done, cur + PiecesAll(ts[..n]));
      assert cur + PiecesAll(ts[..n]) + Pieces(ts[n]) == cur + PiecesAll(ts);
    }
  }

  /** Lines are read as their statements. */
  lemma {:induction false} ReadLines(ts: seq<Tree>, rest: seq<Kind>, done: seq<seq<Piece>>)
    requires forall i :: 0 <= i < |ts| ==> ts[i].Node? && Derives(ts[i]) && (ts[i].sym.Line? || ts[i].sym == Ends)
    ensures Read(WordsAll(ts) + rest, done, []) == Read(rest, done + StatementsOf(ts), [])
    decreases ts, 2
  {
    hide Read, Words, Pieces, Derives;
    if ts == [] {
      assert WordsAll(ts) + rest == rest && done + [] == done;
    } else {
      var n := |ts| - 1;
      var before := done + StatementsOf(ts[..n]);
      assert WordsAll(ts) + rest == WordsAll(ts[..n]) + (Words(ts[n]) + rest);
      ReadLines(ts[..n], Words(ts[n]) + rest, done);
      if ts[n].sym == Ends {
        EndsAre(ts[n]);
        ReadSemis(Yield(ts[n]), rest, before);
        assert StatementsOf(ts) == StatementsOf(ts[..n]);
      } else {
        ReadLine(ts[n], rest, before);
        LineParts(ts[n]);
        assert before + [Pieces(ts[n].kids[0])] == done + StatementsOf(ts);
      }
    }
  }

  lemma {:induction false} ReadLine(line: Tree, rest: seq<Kind>, done: seq<seq<Piece>>)
    requires line.Node? && line.sym.Line? && Derives(line)
    ensures |line.kids| == 2 && Read(Words(line) + rest, done, []) == Read(rest, done + [Pieces(line.kids[0])], [])
    decreases line, 4
  {
    hide Read, Pieces, Derives, Production, LineEnd;
    LineParts(line);
    var stmt, ks := line.kids[0], Yield(line.kids[1]);
    assert Words(line) + rest == Words(stmt) + (LineEnd(ks) + rest);
    hide Words;
    ReadTree(stmt, LineEnd(ks) + rest, done, []);
    assert [] + Pieces(stmt) == Pieces(stmt);
    NotEmpty(stmt);
    ReadEnd(ks, rest, done, Pieces(stmt));
  }

  /** A block reads as its body. */
  lemma {:induction false} ReadBlock(parent: Tree, conditional: bool, inner: seq<Tree>, rest: seq<Kind>)
    requires forall i :: 0 <= i < |inner| ==>
      inner[i].Node? && Derives(inner[i]) && (inner[i].sym.Line? || inner[i].sym == Ends)
    requires parent.Node? && |parent.kids| >= 2 && inner == parent.kids[1..|parent.kids| - 1]
    ensures Read(BlockWords(conditional, inner) + [CloseCurly] + rest, [], []) ==
      Reading(BodyOf(conditional, inner), [CloseCurly] + rest)
    decreases parent, 2
  {
    hide Read, Words, Pieces, Derives, WordsAll, StatementsOf;
    var after := [CloseCurly] + rest;
    if !conditional {
      ReadLines(inner, after, []);
      assert [] + StatementsOf(inner) == StatementsOf(inner);
      ReadStop(rest, StatementsOf(inner), []);
      assert WordsAll(inner) + [CloseCurly] + rest == WordsAll(inner) + after;
    } else if ValueTail(inner) {
      var n := |inner| - 1;
      var stmt := inner[n].kids[0];
      LineParts(inner[n]);
      assert BlockWords(true, inner) + [CloseCurly] + rest == WordsAll(inner[..n]) + (Words(stmt) + after);
      ReadLines(inner[..n], Words(stmt) + after, []);
      var ss := StatementsOf(inner[..n]);
      assert [] + ss == ss && [] + Pieces(stmt) == Pieces(stmt);
      ReadTree(stmt, after, ss, []);
      ReadStop(rest, ss, Pieces(stmt));
    } else {
      assert BlockWords(true, inner) + [CloseCurly] + rest == WordsAll(inner) + ([NIL] + after);
      ReadLines(inner, [NIL] + after, []);
      var ss := StatementsOf(inner);
      assert [] + ss == ss && [] + [Atom(NIL)] == [Atom(NIL)];
      ReadAtom(NIL, after, ss, []);
      ReadStop(rest, ss, [Atom(NIL)]);
    }
  }

  lemma {:induction false} ReadStop(rest: seq<Kind>, done: seq<seq<Piece>>, cur: seq<Piece>)
    ensures Read([CloseCurly] + rest, done, cur) == Reading(Body(done, cur), [CloseCurly] + rest)
  {
  }

  // ------------------------------------------------------------------ programs

  lemma {:induction false} ReadNothing(done: seq<seq<Piece>>, cur: seq<Piece>)
    ensures Read([], done, cur) == Reading(Body(done, cur), [])
  {
  }

  /** How many children of a program are lines or leading ends. */
  lemma {:induction false} ProgramParts(t: Tree) returns (n: nat)
    requires t.Node? && t.sym == Program && Derives(t)
    ensures n <= |t.kids| <= n + 2
    ensures forall i :: 0 <= i < n ==>
      t.kids[i].Node? && Derives(t.kids[i]) && (t.kids[i].sym.Line? || t.kids[i].sym == Ends)
    ensures n < |t.kids| ==> t.kids[n].Node? && t.kids[n].sym.Statement? && Derives(t.kids[n])
    ensures n + 1 < |t.kids| ==> t.kids[n + 1].Node? && t.kids[n + 1].sym == Ends && Derives(t.kids[n + 1])
  {
    hide Derives;
    var r := Roots(t.kids);
    assert ProgramShape(r) && AllDerive(t.kids) by { ProgramIs(t); }
    var lo := LeadingEnds(r, 0);
    n := if Lines(r, lo, |r|) then |r| else if IsStatement(r[|r| - 1]) then |r| - 1 else |r| - 2;
    forall i | 0 <= i < |t.kids| ensures r[i] == RootOf(t.kids[i]) && Derives(t.kids[i]) {
    }
    forall i | 0 <= i < n ensures t.kids[i].Node? && (t.kids[i].sym.Line? || t.kids[i].sym == Ends) {
      if i >= lo {
        assert IsLine(r[i]);
      }
    }
  }

  lemma {:induction false} ProgramIs(t: Tree)
    requires t.Node? && t.sym == Program && Derives(t)
    ensures ProgramShape(Roots(t.kids)) && AllDerive(t.kids)
  {
  }

  /** The lowered program reads as the source's statements, each once and in order; all of them are
      terminated except possibly the last. */
  lemma {:induction false} LoweredReadsBack(t: Tree)
    requires t.Node? && t.sym == Program && Derives(t)
    ensures var r := Read(Words(t), [], []);
            r.rest == [] && Listed(r.body) == StatementsOf(t.kids)
  {
    hide Read, Words, Pieces, Derives, WordsAll, StatementsOf;
    var n := ProgramParts(t);
    var front := t.kids[..n];
    ProgramWords(t);
    var ss := StatementsOf(front);
    assert [] + ss == ss;
    if n == |t.kids| {
      assert front == t.kids && WordsAll(front) + [] == WordsAll(front);
      ReadLines(front, [], []);
      ReadNothing(ss, []);
    } else {
      EndsAtStatement(t.kids, n);
    }
  }

  lemma {:induction false} EndsAtStatement(kids: seq<Tree>, n: nat)
    requires n < |kids| <= n + 2
    requires forall i :: 0 <= i < n ==> kids[i].Node? && Derives(kids[i]) && (kids[i].sym.Line? || kids[i].sym == Ends)
    requires kids[n].Node? && kids[n].sym.Statement? && Derives(kids[n])
    requires n + 1 < |kids| ==> kids[n + 1].Node? && kids[n + 1].sym == Ends && Derives(kids[n + 1])
    ensures var r := Read(WordsAll(kids), [], []);
            r.rest == [] && Listed(r.body) == StatementsOf(kids)
  {
    hide Read, Words, Pieces, Derives, WordsAll, StatementsOf;
    var front, stmt := kids[..n], kids[n];
    var ss := StatementsOf(front);
    LastStatement(kids, n);
    NotEmpty(stmt);
    var tail := if n + 1 < |kids| then Words(kids[n + 1]) else [];
    assert WordsAll(kids) == WordsAll(front) + (Words(stmt) + tail);
    ReadLines(front, Words(stmt) + tail, []);
    assert [] + ss == ss && [] + Pieces(stmt) == Pieces(stmt);
    ReadTree(stmt, tail, ss, []);
    if n + 1 < |kids| {
      EndsAre(kids[n + 1]);
      ReadLast(Yield(kids[n + 1]), ss, Pieces(stmt));
      assert tail + [] == tail;
    } else {
      ReadNothing(ss, Pieces(stmt));
    }
  }

  lemma {:induction false} ReadLast(ks: seq<Kind>, done: seq<seq<Piece>>, cur: seq<Piece>)
    requires cur != []
    ensures var r := Read(Semis(ks) + [], done, cur); r.rest == [] && Listed(r.body) == done + [cur]
  {
    hide Read, Semis;
    if Semicolon in ks {
      ReadLineEnd(ks, [], done, cur);
      ReadNothing(done + [cur], []);
    } else {
      NoSemis(ks);
      ReadNothing(done, cur);
    }
  }

  lemma {:induction false} ProgramWords(t: Tree)
    requires t.Node? && t.sym == Program
    ensures Words(t) == WordsAll(t.kids)
  {
  }

  lemma {:induction false} LastStatement(kids: seq<Tree>, n: nat)
    requires n < |kids| <= n + 2 && kids[n].Node? && kids[n].sym.Statement?
    requires n + 1 < |kids| ==> kids[n + 1].Node? && kids[n + 1].sym == Ends
    ensures StatementsOf(kids) == StatementsOf(kids[..n]) + [Pieces(kids[n])]
    ensures WordsAll(kids) == WordsAll(kids[..n]) + Words(kids[n]) + if n + 1 < |kids| then Words(kids[n + 1]) else []
  {
    hide Words, Pieces;
    var k := kids[..n + 1];
    assert k[..n] == kids[..n];
    assert StatementsOf(k) == StatementsOf(kids[..n]) + [Pieces(kids[n])];
    assert WordsAll(k) == WordsAll(kids[..n]) + Words(kids[n]);
    if n + 1 < |kids| {
      assert kids[..|kids| - 1] == k;
    } else {
      assert k == kids;
    }
  }
}
