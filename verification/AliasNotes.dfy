/** Which `let` declarations only rename another binding, read off the tokens behind the name. */
module AliasNotes {
  import opened Tokens
  import opened Grammar
  import opened LexicalEvents
  import opened LoweringPlan

  /** `let binding = target`, possibly through fields of the target. */
  datatype Alias = Alias(binding: Span, target: Span, throughField: bool)

  /** A name that is a whole initializer, with the number of fields behind it. */
  datatype Target = Target(span: Span, fields: nat)

  const MAX_FIELDS: nat := 2

  predicate IsNameToken(tokens: seq<Token>, k: nat) {
    k < |tokens| && IsNameKind(tokens[k].kind)
  }

  predicate EndsStatement(k: Kind) {
    k == Newline || k == Semicolon || k == CloseCurly || k == End
  }

  function SpanAt(tokens: seq<Token>, k: nat): (s: Span) {
    Span(Start(tokens, k), Finish(tokens, k))
  }

  /** The fields taken behind the name at `k`, at most `left`; nothing if one of them is no name. */
  function FieldsBehind(tokens: seq<Token>, k: nat, left: nat): (n: Option<nat>)
    decreases left
  {
    if left == 0 then Some(0)
    else if k + 1 >= |tokens| then None
    else if tokens[k + 1].kind != Operator(".") then Some(0)
    else if !IsNameToken(tokens, k + 2) then None
    else
      var rest := FieldsBehind(tokens, k + 2, left - 1);
      if rest.None? then None else Some(rest.value + 1)
  }

  /** The name at `k` with up to two fields, if the statement ends behind it. */
  function DirectTarget(tokens: seq<Token>, k: nat): (r: Option<Target>) {
    if !IsNameToken(tokens, k) then None
    else
      var n := FieldsBehind(tokens, k, MAX_FIELDS);
      if n.None? then None
      else
        var end := k + 2 * n.value + 1;
        if end < |tokens| && EndsStatement(tokens[end].kind) then Some(Target(SpanAt(tokens, k), n.value)) else None
  }

  method FindTarget(tokens: seq<Token>, k: nat) returns (r: Option<Target>)
    ensures r == DirectTarget(tokens, k)
  {
    hide IsReserved;
    if !IsNameToken(tokens, k) {
      return None;
    }
    var end, fields := k, 0;
    while fields < MAX_FIELDS && end + 1 < |tokens| && tokens[end + 1].kind == Operator(".")
      invariant fields <= MAX_FIELDS && end == k + 2 * fields
      invariant var all, rest := FieldsBehind(tokens, k, MAX_FIELDS), FieldsBehind(tokens, end, MAX_FIELDS - fields);
                all == if rest.None? then None else Some(rest.value + fields)
      decreases MAX_FIELDS - fields
    {
      if !IsNameToken(tokens, end + 2) {
        return None;
      }
      end, fields := end + 2, fields + 1;
    }
    if end + 1 >= |tokens| || !EndsStatement(tokens[end + 1].kind) {
      return None;
    }
    r := Some(Target(SpanAt(tokens, k), fields));
  }

  /** What stands behind the name of a declaration: `=` and a target, or anything else. */
  function Initializer(tokens: seq<Token>, k: nat): (r: Option<Target>) {
    if k < |tokens| && tokens[k].kind == Operator("=") then DirectTarget(tokens, k + 1) else None
  }

  // ------------------------------------------------------------------ the logs of a run

  /** The token that starts at a position. */
  function TokenFrom(tokens: seq<Token>, start: nat): (k: nat)
    ensures k <= |tokens|
  {
    if tokens == [] || tokens[0].start == start then 0 else 1 + TokenFrom(tokens[1..], start)
  }

  lemma {:induction false} TokenIsFound(tokens: seq<Token>, k: nat)
    requires Ordered(tokens) && k < |tokens|
    ensures TokenFrom(tokens, tokens[k].start) == k
    decreases |tokens|
  {
    if k > 0 {
      assert forall i :: 0 <= i < |tokens| - 1 ==> tokens[1..][i] == tokens[i + 1];
      TokenIsFound(tokens[1..], k - 1);
    }
  }

  function NoteOf(tokens: seq<Token>, e: Event): (r: seq<Alias>) {
    if !e.Define? || e.kind != LetSymbol then []
    else
      var target := Initializer(tokens, TokenFrom(tokens, e.start) + 1);
      if target.None? then [] else [Alias(Span(e.start, e.end), target.value.span, target.value.fields > 0)]
  }

  /** The declarations among the events that are aliases, in order. */
  function AliasLog(tokens: seq<Token>, events: seq<Event>): (r: seq<Alias>) {
    if events == [] then [] else AliasLog(tokens, events[..|events| - 1]) + NoteOf(tokens, events[|events| - 1])
  }

  predicate EndsImport(k: Kind) {
    k == Newline || k == Semicolon || k == End
  }

  function ImportOf(tokens: seq<Token>, e: Event): (r: seq<Span>) {
    var k := if e.Define? then TokenFrom(tokens, e.at) else 0;
    if e.Define? && e.kind == ImportSymbol && k < |tokens| && EndsImport(tokens[k].kind) then [Span(e.start, e.end)]
      else []
  }

  /** The imports among the events that end their statement, in order. */
  function ImportLog(tokens: seq<Token>, events: seq<Event>): (r: seq<Span>) {
    if events == [] then [] else ImportLog(tokens, events[..|events| - 1]) + ImportOf(tokens, events[|events| - 1])
  }

  lemma {:induction false} LogsGrow(tokens: seq<Token>, events: seq<Event>, e: Event)
    ensures AliasLog(tokens, events + [e]) == AliasLog(tokens, events) + NoteOf(tokens, e)
    ensures ImportLog(tokens, events + [e]) == ImportLog(tokens, events) + ImportOf(tokens, e)
  {
    assert (events + [e])[..|events|] == events;
  }
}
