/** What the recursive-descent parser decides: position, nesting and whether anything was reported,
    as a function of the token kinds and the nesting limit.

    Every function ends no earlier than it starts and gives back the nesting it was called with, on
    every path; the recursion terminates on any token list that ends in `End`. */
module Recogniser {
  import opened Tokens
  import opened Grammar

  /** The token kinds, closed by `End`, and the nesting limit. */
  datatype Env = Env(ks: seq<Kind>, maxNesting: nat)

  predicate ValidEnv(e: Env) {
    |e.ks| > 0 && e.ks[|e.ks| - 1] == End
  }

  datatype PS = PS(index: nat, nesting: nat, ok: bool)

  predicate Ready(e: Env, s: PS) {
    ValidEnv(e) && s.index < |e.ks|
  }

  /** What every parsing function keeps. */
  predicate Moved(e: Env, s: PS, r: PS) {
    s.index <= r.index < |e.ks| && r.nesting == s.nesting && (r.ok ==> s.ok)
  }

  function Left(e: Env, s: PS): (n: int) {
    |e.ks| - s.index
  }

  function Cur(e: Env, s: PS): (k: Kind)
    requires Ready(e, s)
  {
    e.ks[s.index]
  }

  predicate At(e: Env, s: PS, k: Kind)
    requires Ready(e, s)
  {
    Cur(e, s) == k
  }

  predicate AtWord(e: Env, s: PS, name: string)
    requires Ready(e, s)
  {
    Cur(e, s) == Identifier(name)
  }

  predicate AtOp(e: Env, s: PS, text: string)
    requires Ready(e, s)
  {
    Cur(e, s) == Operator(text)
  }

  function Fail(s: PS): (r: PS) {
    s.(ok := false)
  }

  function Advance(e: Env, s: PS): (r: PS)
    requires Ready(e, s)
    ensures Moved(e, s, r)
    ensures Cur(e, s) != End ==> r.index == s.index + 1
  {
    if At(e, s, End) then s else s.(index := s.index + 1)
  }

  /** Takes the expected kind or reports. */
  function Expect(e: Env, s: PS, k: Kind): (r: PS)
    requires Ready(e, s)
    ensures Moved(e, s, r)
  {
    if At(e, s, k) then Advance(e, s) else Fail(s)
  }

  function ExpectName(e: Env, s: PS): (r: PS)
    requires Ready(e, s)
    ensures Moved(e, s, r)
  {
    if IsNameKind(Cur(e, s)) then Advance(e, s) else Fail(s)
  }

  predicate AtEnds(e: Env, s: PS)
    requires Ready(e, s)
  {
    At(e, s, Newline) || At(e, s, Semicolon)
  }

  predicate AtStatementBoundary(e: Env, s: PS)
    requires Ready(e, s)
  {
    AtEnds(e, s) || At(e, s, CloseCurly) || At(e, s, End)
  }

  predicate AtExpressionBoundary(e: Env, s: PS)
    requires Ready(e, s)
  {
    AtStatementBoundary(e, s) || At(e, s, Comma) || At(e, s, CloseRound) || At(e, s, CloseSquare)
  }

  predicate StartsControl(k: Kind) {
    k == Identifier("if") || k == Identifier("try") || k == Identifier("for") || k == Identifier("loop") ||
      k == Identifier("while")
  }

  predicate StartsLoop(k: Kind) {
    k == Identifier("for") || k == Identifier("loop") || k == Identifier("while")
  }

  predicate StartsLambda(k: Kind) {
    k == Operator("|") || k == Operator("||")
  }

  predicate StartsNonValue(k: Kind) {
    k == Identifier("use") || k == Identifier("let") || k == Identifier("fn") || k == Identifier("return") ||
    k == Identifier("break") || k == Identifier("continue") || k == Identifier("for") || k == Identifier("loop") ||
    k == Identifier("while")
  }

  // ------------------------------------------------------------------ runs of tokens

  function SkipEnds(e: Env, s: PS): (r: PS)
    requires Ready(e, s)
    ensures Moved(e, s, r) && !AtEnds(e, r) && r.ok == s.ok
    ensures AtEnds(e, s) ==> r.index > s.index
    decreases Left(e, s)
  {
    if AtEnds(e, s) then SkipEnds(e, Advance(e, s)) else s
  }

  function SkipNewlines(e: Env, s: PS): (r: PS)
    requires Ready(e, s)
    ensures Moved(e, s, r) && !At(e, r, Newline) && r.ok == s.ok
    ensures At(e, s, Newline) ==> r.index > s.index
    decreases Left(e, s)
  {
    if At(e, s, Newline) then SkipNewlines(e, Advance(e, s)) else s
  }

  function SkipToBoundary(e: Env, s: PS): (r: PS)
    requires Ready(e, s)
    ensures Moved(e, s, r)
    decreases Left(e, s)
  {
    if AtStatementBoundary(e, s) then s else SkipToBoundary(e, Advance(e, s))
  }

  function RequireStatementEnd(e: Env, s: PS): (r: PS)
    requires Ready(e, s)
    ensures Moved(e, s, r)
  {
    if AtEnds(e, s) then SkipEnds(e, s)
    else if At(e, s, End) then s
    else SkipEnds(e, SkipToBoundary(e, Fail(s)))
  }

  /** Statement ends make progress, and without a report there are ends or the source ends. */
  lemma {:induction false} EndsOrEnd(e: Env, s: PS)
    requires Ready(e, s)
    ensures var r := RequireStatementEnd(e, s); r.ok ==> r.index > s.index || At(e, s, End)
  {
  }

  // ------------------------------------------------------------------ statements

  function ParseProgram(e: Env, s: PS): (r: PS)
    requires Ready(e, s)
    ensures Moved(e, s, r)
  {
    TopLevel(e, SkipEnds(e, s))
  }

  /** The loop over top-level statements. */
  function TopLevel(e: Env, s: PS): (r: PS)
    requires Ready(e, s)
    ensures Moved(e, s, r)
    decreases Left(e, s), 40
  {
    if At(e, s, End) then s
    else if At(e, s, CloseCurly) then TopLevel(e, Advance(e, Fail(s)))
    else TopLevel(e, OneStatement(e, s))
  }

  /** A statement, its ends, and one forced step if neither consumed anything. */
  function OneStatement(e: Env, s: PS): (r: PS)
    requires Ready(e, s)
    ensures Moved(e, s, r)
    ensures !At(e, s, End) ==> r.index > s.index
    decreases Left(e, s), 39
  {
    var t := RequireStatementEnd(e, ParseStatement(e, s));
    if t.index == s.index then Advance(e, t) else t
  }

  /** The end of the source follows the statement that starts here. */
  predicate IsLast(e: Env, s: PS)
    requires Ready(e, s)
  {
    At(e, RequireStatementEnd(e, ParseStatement(e, s)), End)
  }

  /** The loop over the statements of a block; `value` is what the last one started as. */
  datatype Body = Body(s: PS, value: bool)

  function Statements(e: Env, s: PS, value: bool): (r: Body)
    requires Ready(e, s)
    ensures Moved(e, s, r.s)
    decreases Left(e, s), 40
  {
    if At(e, s, End) || At(e, s, CloseCurly) then Body(s, value)
    else Statements(e, OneStatement(e, s), !StartsNonValue(Cur(e, s)))
  }

  function ParseBlock(e: Env, s: PS): (r: PS)
    requires Ready(e, s)
    ensures Moved(e, s, r)
    decreases Left(e, s), 10
  {
    if s.nesting >= e.maxNesting || !At(e, s, OpenCurly) then Fail(s)
    else
      var body := Statements(e, SkipEnds(e, Advance(e, s.(nesting := s.nesting + 1))), false);
      Expect(e, body.s, CloseCurly).(nesting := s.nesting)
  }

  function ParseStatement(e: Env, s: PS): (r: PS)
    requires Ready(e, s)
    ensures Moved(e, s, r)
    decreases Left(e, s), 38
  {
    if AtWord(e, s, "use") then ParseImport(e, Advance(e, s))
    else if AtWord(e, s, "let") then ParseDeclaration(e, Advance(e, s))
    else if AtWord(e, s, "fn") then ParseFunctionDeclaration(e, Advance(e, s))
    else if AtWord(e, s, "return") then
      var t := Advance(e, s);
      if AtStatementBoundary(e, t) then t else ParseExpression(e, t)
    else if AtWord(e, s, "break") || AtWord(e, s, "continue") then Advance(e, s)
    else ParseExpression(e, s)
  }

  function ParseImport(e: Env, s: PS): (r: PS)
    requires Ready(e, s)
    ensures Moved(e, s, r)
  {
    if !AtWord(e, s, "mod") then Fail(s)
    else
      var t := Advance(e, s);
      if !AtOp(e, t, ".") then Fail(t) else ImportPath(e, ExpectName(e, Advance(e, t)))
  }

  function ImportPath(e: Env, s: PS): (r: PS)
    requires Ready(e, s)
    ensures Moved(e, s, r)
    decreases Left(e, s)
  {
    if AtOp(e, s, ".") then ImportPath(e, ExpectName(e, Advance(e, s))) else s
  }

  function ParseDeclaration(e: Env, s: PS): (r: PS)
    requires Ready(e, s)
    ensures Moved(e, s, r)
    decreases Left(e, s), 37
  {
    var t := ExpectName(e, s);
    if AtOp(e, t, "=") then ParseExpression(e, Advance(e, t))
    else if !AtStatementBoundary(e, t) then Fail(t)
    else t
  }

  function ParseFunctionDeclaration(e: Env, s: PS): (r: PS)
    requires Ready(e, s)
    ensures Moved(e, s, r)
    decreases Left(e, s), 37
  {
    ParseBlock(e, ParseParameterList(e, ExpectName(e, s)))
  }

  function ParseParameterList(e: Env, s: PS): (r: PS)
    requires Ready(e, s)
    ensures Moved(e, s, r)
  {
    if !At(e, s, OpenRound) then Fail(s)
    else
      var t := Advance(e, s);
      if At(e, t, CloseRound) then Advance(e, t) else Parameters(e, t)
  }

  function Parameters(e: Env, s: PS): (r: PS)
    requires Ready(e, s)
    ensures Moved(e, s, r)
    decreases Left(e, s)
  {
    var t := ExpectName(e, s);
    if At(e, t, Comma) then
      var u := Advance(e, t);
      if At(e, u, CloseRound) then Advance(e, Fail(u)) else Parameters(e, u)
    else Expect(e, t, CloseRound)
  }

  // ------------------------------------------------------------------ control expressions

  function ParseExpression(e: Env, s: PS): (r: PS)
    requires Ready(e, s)
    ensures Moved(e, s, r)
    decreases Left(e, s), 30
  {
    if s.nesting >= e.maxNesting then Fail(s)
    else ExpressionBody(e, s.(nesting := s.nesting + 1)).(nesting := s.nesting)
  }

  function ExpressionBody(e: Env, s: PS): (r: PS)
    requires Ready(e, s)
    ensures Moved(e, s, r)
    decreases Left(e, s), 29
  {
    if AtWord(e, s, "if") then ParseIf(e, s)
    else if AtWord(e, s, "try") then ParseTry(e, s)
    else if AtWord(e, s, "for") then ParseFor(e, s)
    else if AtWord(e, s, "loop") then ParseBlock(e, Advance(e, s))
    else if AtWord(e, s, "while") then ParseBlock(e, ParseCondition(e, Advance(e, s)))
    else ParseBinary(e, s, 0)
  }

  function ParseCondition(e: Env, s: PS): (r: PS)
    requires Ready(e, s)
    ensures Moved(e, s, r)
    decreases Left(e, s), 28
  {
    if StartsControl(Cur(e, s)) || StartsLambda(Cur(e, s)) then Fail(s) else ParseBinary(e, s, 0)
  }

  function ConditionOrFail(e: Env, s: PS): (r: PS)
    requires Ready(e, s)
    ensures Moved(e, s, r)
    decreases Left(e, s), 29
  {
    if AtExpressionBoundary(e, s) then Fail(s) else ParseCondition(e, s)
  }

  function ParseTry(e: Env, s: PS): (r: PS)
    requires Ready(e, s) && !At(e, s, End)
    ensures Moved(e, s, r)
    decreases Left(e, s), 28
  {
    var t := TryArm(e, Advance(e, s), true);
    if !AtWord(e, t, "catch") then Fail(t) else TryArm(e, Advance(e, t), false)
  }

  /** The protected (`first`) or fallback branch. */
  function TryArm(e: Env, s: PS, first: bool): (r: PS)
    requires Ready(e, s)
    ensures Moved(e, s, r)
    decreases Left(e, s), 32
  {
    if (first && AtWord(e, s, "catch")) || AtExpressionBoundary(e, s) then Fail(s) else ParseTryBranch(e, s)
  }

  function ParseTryBranch(e: Env, s: PS): (r: PS)
    requires Ready(e, s)
    ensures Moved(e, s, r)
    decreases Left(e, s), 31
  {
    if !At(e, s, OpenCurly) then ParseExpression(e, s)
    else if s.nesting >= e.maxNesting then Fail(s)
    else ParseValueBlock(e, s)
  }

  function ParseValueBlock(e: Env, s: PS): (r: PS)
    requires Ready(e, s) && At(e, s, OpenCurly)
    ensures Moved(e, s, r)
    decreases Left(e, s), 30
  {
    var body := Statements(e, SkipEnds(e, Advance(e, s.(nesting := s.nesting + 1))), false);
    CloseValueBlock(e, body).(nesting := s.nesting)
  }

  /** The closing brace of a block that must end in a value. */
  function CloseValueBlock(e: Env, body: Body): (r: PS)
    requires Ready(e, body.s)
    ensures Moved(e, body.s, r)
  {
    if !At(e, body.s, CloseCurly) then Fail(body.s)
    else if body.value then Advance(e, body.s)
    else Fail(Advance(e, body.s))
  }

  function ParseIf(e: Env, s: PS): (r: PS)
    requires Ready(e, s) && !At(e, s, End)
    ensures Moved(e, s, r)
    decreases Left(e, s), 28
  {
    Elifs(e, ParseBranch(e, ConditionOrFail(e, Advance(e, s))))
  }

  function Elifs(e: Env, s: PS): (r: PS)
    requires Ready(e, s)
    ensures Moved(e, s, r)
    decreases Left(e, s), 1
  {
    if AtWord(e, s, "elif") then Elifs(e, ParseBranch(e, ConditionOrFail(e, Advance(e, s))))
    else if AtWord(e, s, "else") then ParseBranch(e, Advance(e, s))
    else s
  }

  function ParseBranch(e: Env, s: PS): (r: PS)
    requires Ready(e, s)
    ensures Moved(e, s, r)
    decreases Left(e, s), 31
  {
    if At(e, s, OpenCurly) then ParseBlock(e, s)
    else if StartsLambda(Cur(e, s)) || AtExpressionBoundary(e, s) then Fail(s)
    else ParseExpression(e, s)
  }

  function ParseFor(e: Env, s: PS): (r: PS)
    requires Ready(e, s) && !At(e, s, End)
    ensures Moved(e, s, r)
    decreases Left(e, s), 28
  {
    var b := ForBindings(e, Advance(e, s), 0);
    if b.count == 0 || !AtWord(e, b.s, "in") then Fail(b.s)
    else ParseBlock(e, ConditionOrFail(e, Advance(e, b.s)))
  }

  datatype Bound = Bound(s: PS, count: nat)

  /** The bindings of a `for`, up to the `in` or to whatever stops them. */
  function ForBindings(e: Env, s: PS, count: nat): (r: Bound)
    requires Ready(e, s)
    ensures Moved(e, s, r.s)
    decreases Left(e, s)
  {
    if AtWord(e, s, "in") then Bound(s, count)
    else
      var t := ExpectName(e, s);
      var u := if count + 1 > 3 then Fail(t) else t;
      if At(e, u, Comma) then
        var v := Advance(e, u);
        if AtWord(e, v, "in") then Bound(Fail(v), count + 1) else ForBindings(e, v, count + 1)
      else Bound(u, count + 1)
  }

  // ------------------------------------------------------------------ operators

  /** The seven precedence levels, from assignment down to multiplication. */
  function ParseBinary(e: Env, s: PS, level: nat): (r: PS)
    requires Ready(e, s) && level <= 7
    ensures Moved(e, s, r)
    decreases Left(e, s), 27 - level
  {
    if level == 7 then ParseUnary(e, s) else BinaryTails(e, ParseBinary(e, s, level + 1), level)
  }

  function BinaryTails(e: Env, s: PS, level: nat): (r: PS)
    requires Ready(e, s) && level <= 6
    ensures Moved(e, s, r)
    decreases Left(e, s), 1
  {
    if OperatorAt(level, Cur(e, s)) then BinaryTails(e, ParseBinary(e, Advance(e, s), level + 1), level) else s
  }

  function ParseUnary(e: Env, s: PS): (r: PS)
    requires Ready(e, s)
    ensures Moved(e, s, r)
    decreases Left(e, s), 19
  {
    ParsePostfix(e, if IsUnaryOperator(Cur(e, s)) then Advance(e, s) else s)
  }

  function ParsePostfix(e: Env, s: PS): (r: PS)
    requires Ready(e, s)
    ensures Moved(e, s, r)
    decreases Left(e, s), 18
  {
    Suffixes(e, ParsePrimary(e, s))
  }

  predicate StartsSuffix(k: Kind) {
    k == OpenRound || k == Operator(".") || k == OpenSquare
  }

  function Suffixes(e: Env, s: PS): (r: PS)
    requires Ready(e, s)
    ensures Moved(e, s, r)
    decreases Left(e, s), 1
  {
    if StartsSuffix(Cur(e, s)) then Suffixes(e, ParseSuffix(e, s)) else s
  }

  function ParseSuffix(e: Env, s: PS): (r: PS)
    requires Ready(e, s) && StartsSuffix(Cur(e, s))
    ensures Moved(e, s, r) && r.index > s.index
    decreases Left(e, s), 0, 1
  {
    if At(e, s, OpenRound) then ParseCall(e, s)
    else if AtOp(e, s, ".") then ExpectName(e, Advance(e, s))
    else ParseIndex(e, s)
  }

  function ParseIndex(e: Env, s: PS): (r: PS)
    requires Ready(e, s) && At(e, s, OpenSquare)
    ensures Moved(e, s, r) && r.index > s.index
    decreases Left(e, s), 0, 0
  {
    var t := Advance(e, s);
    var u := if At(e, t, CloseSquare) then Fail(t) else ParseExpression(e, t);
    Expect(e, u, CloseSquare)
  }

  function ParseCall(e: Env, s: PS): (r: PS)
    requires Ready(e, s) && At(e, s, OpenRound)
    ensures Moved(e, s, r) && r.index > s.index
    decreases Left(e, s), 0, 0
  {
    var t := Advance(e, s);
    if At(e, t, CloseRound) then Advance(e, t) else Arguments(e, t, CloseRound)
  }

  /** The expressions of a call or an array, up to its closing bracket. */
  function Arguments(e: Env, s: PS, close: Kind): (r: PS)
    requires Ready(e, s)
    ensures Moved(e, s, r)
    decreases Left(e, s), 40
  {
    var t := ParseExpression(e, s);
    if At(e, t, Comma) then
      var u := Advance(e, t);
      if At(e, u, close) then Advance(e, Fail(u)) else Arguments(e, u, close)
    else Expect(e, t, close)
  }

  function ParsePrimary(e: Env, s: PS): (r: PS)
    requires Ready(e, s)
    ensures Moved(e, s, r)
    decreases Left(e, s), 17
  {
    var k := Cur(e, s);
    if k.Number? || k.StringLiteral? || IsLiteralWord(k) || IsNameKind(k) then Advance(e, s)
    else if k == OpenSquare then ParseArray(e, s)
    else if k == OpenCurly then ParseRecord(e, s)
    else if k == OpenRound then Expect(e, ParseExpression(e, Advance(e, s)), CloseRound)
    else if StartsLambda(k) then ParseLambda(e, s)
    else Advance(e, Fail(s))
  }

  function ParseArray(e: Env, s: PS): (r: PS)
    requires Ready(e, s) && At(e, s, OpenSquare)
    ensures Moved(e, s, r)
    decreases Left(e, s), 16
  {
    var t := Advance(e, s);
    if At(e, t, CloseSquare) then Advance(e, t) else Arguments(e, t, CloseSquare)
  }

  function ParseRecord(e: Env, s: PS): (r: PS)
    requires Ready(e, s) && At(e, s, OpenCurly)
    ensures Moved(e, s, r)
    decreases Left(e, s), 16
  {
    var t := SkipNewlines(e, Advance(e, s));
    if At(e, t, CloseCurly) then Advance(e, t) else RecordMembers(e, t)
  }

  function RecordMembers(e: Env, s: PS): (r: PS)
    requires Ready(e, s)
    ensures Moved(e, s, r)
    decreases Left(e, s), 16
  {
    var t := ExpectName(e, s);
    if !AtOp(e, t, ":") then Fail(t)
    else
      var n := MemberEnd(e, ParseExpression(e, Advance(e, t)));
      if n.more then RecordMembers(e, n.s) else n.s
  }

  datatype Next = Next(s: PS, more: bool)

  /** After a record member: a separator and another member, or the closing brace. */
  function MemberEnd(e: Env, s: PS): (r: Next)
    requires Ready(e, s)
    ensures Moved(e, s, r.s)
  {
    if At(e, s, Comma) then
      var t := SkipNewlines(e, Advance(e, s));
      if At(e, t, CloseCurly) then Next(Advance(e, Fail(t)), false) else Next(t, true)
    else if At(e, s, Newline) then
      var t := SkipNewlines(e, s);
      if At(e, t, CloseCurly) then Next(Advance(e, t), false) else Next(t, true)
    else Next(Expect(e, s, CloseCurly), false)
  }

  function ParseLambda(e: Env, s: PS): (r: PS)
    requires Ready(e, s) && StartsLambda(Cur(e, s))
    ensures Moved(e, s, r)
    decreases Left(e, s), 16
  {
    var n := LambdaHead(e, s);
    if n.more then ParseBody(e, n.s) else n.s
  }

  /** The bars and the names between them. */
  function LambdaHead(e: Env, s: PS): (r: Next)
    requires Ready(e, s) && StartsLambda(Cur(e, s))
    ensures Moved(e, s, r.s) && r.s.index > s.index
  {
    var t := Advance(e, s);
    if AtOp(e, s, "||") then Next(t, true)
    else
      var u := LambdaParameters(e, ExpectName(e, t));
      if AtOp(e, u, "|") then Next(Advance(e, u), true) else Next(Fail(u), false)
  }

  function LambdaParameters(e: Env, s: PS): (r: PS)
    requires Ready(e, s)
    ensures Moved(e, s, r)
    decreases Left(e, s)
  {
    if At(e, s, Comma) then LambdaParameters(e, ExpectName(e, Advance(e, s))) else s
  }

  function ParseBody(e: Env, s: PS): (r: PS)
    requires Ready(e, s)
    ensures Moved(e, s, r)
    decreases Left(e, s), 31
  {
    if At(e, s, OpenCurly) then ParseBlock(e, s)
    else if AtExpressionBoundary(e, s) then Fail(s)
    else ParseExpression(e, s)
  }

  /** The whole verdict on a token list. */
  predicate Accepts(e: Env)
    requires ValidEnv(e)
  {
    ParseProgram(e, PS(0, 0, true)).ok
  }
}
