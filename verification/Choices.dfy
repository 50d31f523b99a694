/** The grammar alone does not say where an expression ends or which `if` an `else` belongs to. These are the choices
    that the next token forces: a node goes on as long as it can, and a brace where a block may stand opens one. */
module Choices {
  import opened Tokens
  import opened Grammar

  predicate IsSuffixStart(k: Kind) {
    k == OpenRound || k == Operator(".") || k == OpenSquare
  }

  predicate IsStatementBoundary(k: Kind) {
    k == Newline || k == Semicolon || k == CloseCurly || k == End
  }

  /** The first token from `at` on that is no newline. */
  function BehindNewlines(ks: seq<Kind>, at: nat): (k: Kind)
    decreases |ks| - at
  {
    if at >= |ks| then End else if ks[at] == Newline then BehindNewlines(ks, at + 1) else ks[at]
  }

  /** A node with these children has to end in front of the token at `at`. */
  predicate Halts(sym: Sym, r: seq<Root>, ks: seq<Kind>, at: nat) {
    at < |ks| &&
    var k := ks[at];
    match sym
    case Program => k == End
    case Line(_) => k != End
    case Ends => k != Newline && k != Semicolon
    case Newlines => k != Newline
    case Statement(_) => |r| == 1 && r[0] == Keyword("return") ==> IsStatementBoundary(k)
    case Path => k != Operator(".")
    case Names(_) => k != Comma
    case Bindings => k != Comma
    case Exprs => k != Comma
    case Declaration => |r| == 2 ==> k != Operator("=")
    case Conditional => k == Identifier("elif") || k == Identifier("else") ==> r != [] && r[|r| - 1] == N(ElsePart)
    case Binary(level) => !OperatorAt(level, k)
    case Postfix => !IsSuffixStart(k)
    case Members => k != Comma && (k == Newline ==> BehindNewlines(ks, at) == CloseCurly)
    case MemberSeparator => |r| == 1 && r[0] == T(Comma) ==> k != Newline
    case _ => true
  }

  /** Behind this a block may stand instead of an expression. */
  predicate IsArmPlace(r: Root) {
    r == N(Binary(0)) || r == Keyword("else") || r == Keyword("try") || r == Keyword("catch") ||
    r == Op("||") || r == Op("|")
  }

  /** No expression behind these children starts with the brace of a block. */
  predicate NoBlockHere(r: seq<Root>, k: Kind) {
    r != [] && IsArmPlace(r[|r| - 1]) ==> k != OpenCurly
  }

  predicate Suits(r: seq<Root>, x: Root, ks: seq<Kind>, at: nat) {
    x.N? && x.sym.Expression? ==> at < |ks| && NoBlockHere(r, ks[at])
  }

  /** Every choice in the tree, whose first token is `at`, is forced. */
  predicate Forced(ks: seq<Kind>, at: nat, t: Tree)
    decreases t, 0
  {
    t.Leaf? || (Halts(t.sym, Roots(t.kids), ks, at + |Yield(t)|) && ForcedAll(ks, at, t.kids))
  }

  predicate ForcedAll(ks: seq<Kind>, at: nat, ts: seq<Tree>)
    decreases ts, 1
  {
    ts == [] ||
    var front, last := ts[..|ts| - 1], ts[|ts| - 1];
    var from := at + |YieldAll(front)|;
    ForcedAll(ks, at, front) && Suits(Roots(front), RootOf(last), ks, from) && Forced(ks, from, last)
  }

  lemma {:induction false} ForcedAppend(ks: seq<Kind>, at: nat, ts: seq<Tree>, t: Tree)
    requires ForcedAll(ks, at, ts) && Suits(Roots(ts), RootOf(t), ks, at + |YieldAll(ts)|)
    requires Forced(ks, at + |YieldAll(ts)|, t)
    ensures ForcedAll(ks, at, ts + [t])
  {
    hide Forced, Suits, YieldAll;
    assert (ts + [t])[..|ts|] == ts;
  }

  lemma {:induction false} ForcedAt(ks: seq<Kind>, at: nat, ts: seq<Tree>, i: nat)
    requires ForcedAll(ks, at, ts) && i < |ts|
    ensures var from := at + |YieldAll(ts[..i])|;
            Suits(Roots(ts[..i]), RootOf(ts[i]), ks, from) && Forced(ks, from, ts[i])
    decreases |ts|
  {
    hide Forced, Suits, YieldAll;
    var n := |ts| - 1;
    if i < n {
      ForcedAt(ks, at, ts[..n], i);
      assert ts[..n][..i] == ts[..i];
    }
  }
}
