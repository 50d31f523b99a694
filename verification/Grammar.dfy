/** The published v0.2 grammar as derivation trees.

    A tree node is a grammar symbol over its children; `Production` lists which sequences of
    children each symbol allows. A repeated group of the grammar has a symbol of its own, so that
    every production is a fixed frame around a homogeneous list. */
module Grammar {
  import opened Tokens

  datatype Sym =
    | Program
    | Ends                             // one or more statement ends
    | Line(value: bool)                // a statement and its ends
    | Statement(value: bool)           // `value`: a value-producing expression
    | Import
    | Path
    | Declaration
    | FunctionDeclaration
    | ParameterList
    | Names(lambda: bool)              // parameters of a lambda or of a function
    | Bindings
    | Block(conditional: bool)         // `conditional`: the branch of an `if`
    | ValueBlock
    | Expression(value: bool)
    | Conditional
    | ElifPart
    | ElsePart
    | TryExpression
    | Loop
    | Binary(level: nat)
    | BinaryTail(level: nat)
    | Unary
    | Postfix
    | Suffix
    | Call
    | Exprs
    | Primary
    | Array
    | Record
    | Members
    | Member
    | MemberSeparator
    | Newlines
    | Lambda

  datatype Tree = Leaf(kind: Kind) | Node(sym: Sym, kids: seq<Tree>)

  /** What a production sees of a child: a terminal or a symbol. */
  datatype Root = T(kind: Kind) | N(sym: Sym)

  function RootOf(t: Tree): (r: Root) {
    if t.Leaf? then T(t.kind) else N(t.sym)
  }

  function Roots(ts: seq<Tree>): (r: seq<Root>)
    ensures |r| == |ts| && forall i :: 0 <= i < |ts| ==> r[i] == RootOf(ts[i])
  {
    seq(|ts|, i requires 0 <= i < |ts| => RootOf(ts[i]))
  }

  // ------------------------------------------------------------------ rows of children

  function Snoc<A>(s: seq<A>, x: A): (r: seq<A>)
    ensures |r| == |s| + 1 && r[|s|] == x
  {
    s + [x]
  }

  function One(a: Root): (r: seq<Root>) {
    Snoc([], a)
  }

  function Two(a: Root, b: Root): (r: seq<Root>) {
    Snoc(One(a), b)
  }

  function Three(a: Root, b: Root, c: Root): (r: seq<Root>) {
    Snoc(Two(a, b), c)
  }

  function Four(a: Root, b: Root, c: Root, d: Root): (r: seq<Root>) {
    Snoc(Three(a, b, c), d)
  }

  function Five(a: Root, b: Root, c: Root, d: Root, e: Root): (r: seq<Root>) {
    Snoc(Four(a, b, c, d), e)
  }

  // ------------------------------------------------------------------ terminals

  function Keyword(name: string): (r: Root) {
    T(Identifier(name))
  }

  function Op(text: string): (r: Root) {
    T(Operator(text))
  }

  predicate IsNameKind(kind: Kind) {
    kind.Identifier? && !IsReserved(kind.name)
  }

  predicate IsName(r: Root) {
    r.T? && IsNameKind(r.kind)
  }

  predicate IsEnd(r: Root) {
    r == T(Newline) || r == T(Semicolon)
  }

  predicate IsLiteralWord(kind: Kind) {
    kind == Identifier("true") || kind == Identifier("false") || kind == Identifier("nil")
  }

  /** The operators of one precedence level, from assignment (0) to multiplication (6). */
  predicate OperatorAt(level: nat, kind: Kind) {
    kind.Operator? &&
    match level
    case 0 => kind.text == "=" || kind.text == "+=" || kind.text == "-=" || kind.text == "*=" || kind.text == "/=" ||
      kind.text == "%="
    case 1 => kind.text == "||"
    case 2 => kind.text == "&&"
    case 3 => kind.text == "==" || kind.text == "!="
    case 4 => kind.text == "<" || kind.text == "<=" || kind.text == ">" || kind.text == ">="
    case 5 => kind.text == "+" || kind.text == "-"
    case 6 => kind.text == "*" || kind.text == "/" || kind.text == "%"
    case _ => false
  }

  predicate IsUnaryOperator(kind: Kind) {
    kind == Operator("!") || kind == Operator("-") || kind == Operator("+")
  }

  function Operand(level: nat): (s: Sym) {
    if level < 6 then Binary(level + 1) else Unary
  }

  // ------------------------------------------------------------------ symbol classes

  predicate IsLine(r: Root) {
    r == N(Line(true)) || r == N(Line(false))
  }

  predicate IsStatement(r: Root) {
    r == N(Statement(true)) || r == N(Statement(false))
  }

  predicate IsExpression(r: Root) {
    r == N(Expression(true)) || r == N(Expression(false))
  }

  predicate IsBranch(r: Root) {
    r == N(Block(true)) || IsExpression(r)
  }

  predicate IsTryBranch(r: Root) {
    r == N(ValueBlock) || IsExpression(r)
  }

  predicate IsBody(r: Root) {
    r == N(Block(false)) || IsExpression(r)
  }

  // ------------------------------------------------------------------ shapes

  predicate Lines(r: seq<Root>, lo: nat, hi: nat) {
    forall i :: lo <= i < hi && i < |r| ==> IsLine(r[i])
  }

  predicate NameList(r: seq<Root>, separator: Root) {
    |r| % 2 == 1 && forall i :: 0 <= i < |r| ==> if i % 2 == 0 then IsName(r[i]) else r[i] == separator
  }

  predicate ExpressionList(r: seq<Root>) {
    |r| % 2 == 1 && forall i :: 0 <= i < |r| ==> if i % 2 == 0 then IsExpression(r[i]) else r[i] == T(Comma)
  }

  predicate MemberList(r: seq<Root>) {
    |r| % 2 == 1 && forall i :: 0 <= i < |r| ==> r[i] == N(if i % 2 == 0 then Member else MemberSeparator)
  }

  predicate All(r: seq<Root>, from: nat, x: Root) {
    forall i :: from <= i < |r| ==> r[i] == x
  }

  function LeadingEnds(r: seq<Root>, at: nat): (n: nat)
    ensures at <= n <= at + 1
  {
    if at < |r| && r[at] == N(Ends) then at + 1 else at
  }

  /** Lines, and a last statement that the end of the source may close instead of its own ends. */
  predicate ProgramShape(r: seq<Root>) {
    var lo := LeadingEnds(r, 0);
    var n := |r|;
    || Lines(r, lo, n)
    || (n > lo && IsStatement(r[n - 1]) && Lines(r, lo, n - 1))
    || (n > lo + 1 && IsStatement(r[n - 2]) && r[n - 1] == N(Ends) && Lines(r, lo, n - 2))
  }

  predicate BlockShape(r: seq<Root>) {
    |r| >= 2 && r[0] == T(OpenCurly) && r[|r| - 1] == T(CloseCurly) && Lines(r, LeadingEnds(r, 1), |r| - 1)
  }

  predicate StatementShape(value: bool, r: seq<Root>) {
    if value then r == [N(Expression(true))]
    else
      r == [N(Import)] || r == [N(Declaration)] || r == [N(FunctionDeclaration)] || r == [N(Expression(false))] ||
      r == [Keyword("return")] || r == [Keyword("break")] || r == [Keyword("continue")] ||
      (|r| == 2 && r[0] == Keyword("return") && IsExpression(r[1]))
  }

  predicate ExpressionShape(value: bool, r: seq<Root>) {
    if value then r == [N(Conditional)] || r == [N(TryExpression)] || r == [N(Binary(0))]
    else r == [N(Loop)]
  }

  predicate DeclarationShape(r: seq<Root>) {
    && |r| >= 2 && r[0] == Keyword("let") && IsName(r[1])
    && (|r| == 2 || (|r| == 4 && r[2] == Op("=") && IsExpression(r[3])))
  }

  predicate ConditionalShape(r: seq<Root>) {
    && |r| >= 3 && r[0] == Keyword("if") && r[1] == N(Binary(0)) && IsBranch(r[2])
    && forall i :: 3 <= i < |r| ==> r[i] == N(ElifPart) || (i == |r| - 1 && r[i] == N(ElsePart))
  }

  predicate LoopShape(r: seq<Root>) {
    || r == [Keyword("for"), N(Bindings), Keyword("in"), N(Binary(0)), N(Block(false))]
    || r == [Keyword("loop"), N(Block(false))]
    || r == [Keyword("while"), N(Binary(0)), N(Block(false))]
  }

  predicate SuffixShape(r: seq<Root>) {
    || r == [N(Call)]
    || (|r| == 2 && r[0] == Op(".") && IsName(r[1]))
    || (|r| == 3 && r[0] == T(OpenSquare) && IsExpression(r[1]) && r[2] == T(CloseSquare))
  }

  predicate PrimaryShape(r: seq<Root>) {
    || (|r| == 1 && r[0].T? && (r[0].kind.Number? || r[0].kind.StringLiteral? || IsLiteralWord(r[0].kind) ||
      IsNameKind(r[0].kind)))
    || r == [N(Array)] || r == [N(Record)] || r == [N(Lambda)]
    || (|r| == 3 && r[0] == T(OpenRound) && IsExpression(r[1]) && r[2] == T(CloseRound))
  }

  predicate RecordShape(r: seq<Root>) {
    || r == [T(OpenCurly), T(CloseCurly)]
    || r == [T(OpenCurly), N(Newlines), T(CloseCurly)]
    || r == [T(OpenCurly), N(Members), T(CloseCurly)]
    || r == [T(OpenCurly), N(Newlines), N(Members), T(CloseCurly)]
    || r == [T(OpenCurly), N(Members), N(Newlines), T(CloseCurly)]
    || r == [T(OpenCurly), N(Newlines), N(Members), N(Newlines), T(CloseCurly)]
  }

  predicate LambdaShape(r: seq<Root>) {
    || (|r| == 2 && r[0] == Op("||") && IsBody(r[1]))
    || (|r| == 4 && r[0] == Op("|") && r[1] == N(Names(true)) && r[2] == Op("|") && IsBody(r[3]))
  }

  /** The grammar: which children each symbol may have. */
  predicate Production(sym: Sym, r: seq<Root>) {
    match sym
    case Program => ProgramShape(r)
    case Ends => |r| >= 1 && forall i :: 0 <= i < |r| ==> IsEnd(r[i])
    case Line(value) => r == [N(Statement(value)), N(Ends)]
    case Statement(value) => StatementShape(value, r)
    case Import => r == [Keyword("use"), Keyword("mod"), Op("."), N(Path)]
    case Path => NameList(r, Op("."))
    case Declaration => DeclarationShape(r)
    case FunctionDeclaration => |r| == 4 && r[0] == Keyword("fn") && IsName(r[1]) && r[2] == N(ParameterList) &&
      r[3] == N(Block(false))
    case ParameterList => r == [T(OpenRound), T(CloseRound)] || r == [T(OpenRound), N(Names(false)), T(CloseRound)]
    case Names(_) => NameList(r, T(Comma))
    case Bindings => NameList(r, T(Comma)) && |r| <= 5
    case Block(_) => BlockShape(r)
    case ValueBlock => BlockShape(r) && |r| >= 3 && r[|r| - 2] == N(Line(true))
    case Expression(value) => ExpressionShape(value, r)
    case Conditional => ConditionalShape(r)
    case ElifPart => |r| == 3 && r[0] == Keyword("elif") && r[1] == N(Binary(0)) && IsBranch(r[2])
    case ElsePart => |r| == 2 && r[0] == Keyword("else") && IsBranch(r[1])
    case TryExpression => |r| == 4 && r[0] == Keyword("try") && IsTryBranch(r[1]) && r[2] == Keyword("catch") &&
      IsTryBranch(r[3])
    case Loop => LoopShape(r)
    case Binary(level) => level <= 6 && |r| >= 1 && r[0] == N(Operand(level)) && All(r, 1, N(BinaryTail(level)))
    case BinaryTail(level) => |r| == 2 && r[0].T? && OperatorAt(level, r[0].kind) && r[1] == N(Operand(level))
    case Unary => r == [N(Postfix)] || (|r| == 2 && r[0].T? && IsUnaryOperator(r[0].kind) && r[1] == N(Postfix))
    case Postfix => |r| >= 1 && r[0] == N(Primary) && All(r, 1, N(Suffix))
    case Suffix => SuffixShape(r)
    case Call => r == [T(OpenRound), T(CloseRound)] || r == [T(OpenRound), N(Exprs), T(CloseRound)]
    case Exprs => ExpressionList(r)
    case Primary => PrimaryShape(r)
    case Array => r == [T(OpenSquare), T(CloseSquare)] || r == [T(OpenSquare), N(Exprs), T(CloseSquare)]
    case Record => RecordShape(r)
    case Members => MemberList(r)
    case Member => |r| == 3 && IsName(r[0]) && r[1] == Op(":") && IsExpression(r[2])
    case MemberSeparator => r == [T(Comma)] || r == [T(Comma), N(Newlines)] || r == [N(Newlines)]
    case Newlines => |r| >= 1 && All(r, 0, T(Newline))
    case Lambda => LambdaShape(r)
  }

  /** A tree whose every node follows a production. */
  predicate Derives(t: Tree)
    decreases t, 0
  {
    t.Leaf? || (Production(t.sym, Roots(t.kids)) && AllDerive(t.kids))
  }

  predicate AllDerive(ts: seq<Tree>)
    decreases ts, 1
  {
    forall i :: 0 <= i < |ts| ==> Derives(ts[i])
  }

  /** The token kinds at the leaves, left to right. */
  function Yield(t: Tree): (ks: seq<Kind>)
    decreases t
  {
    if t.Leaf? then [t.kind] else YieldAll(t.kids)
  }

  function YieldAll(ts: seq<Tree>): (ks: seq<Kind>)
    decreases ts
  {
    if ts == [] then [] else YieldAll(ts[..|ts| - 1]) + Yield(ts[|ts| - 1])
  }

  lemma {:induction false} YieldAppend(ts: seq<Tree>, t: Tree)
    ensures YieldAll(ts + [t]) == YieldAll(ts) + Yield(t)
  {
    assert (ts + [t])[..|ts|] == ts;
  }

  lemma {:induction false} YieldConcat(a: seq<Tree>, b: seq<Tree>)
    ensures YieldAll(a + b) == YieldAll(a) + YieldAll(b)
    decreases |b|
  {
    hide Yield;
    if b == [] {
      assert a + b == a;
    } else {
      var front := b[..|b| - 1];
      var last := b[|b| - 1];
      YieldConcat(a, front);
      assert a + b == a + front + [last];
      YieldAppend(a + front, last);
    }
  }
}
