/** What the parser tells the symbol collector, and the timing of a whole run of it. */
module LexicalEvents {
  datatype Span = Span(start: nat, end: nat)

  datatype SymbolKind =
    | ImportSymbol
    | LetSymbol
    | FunctionSymbol
    | ParameterSymbol
    | LoopBindingSymbol
    | LambdaParameterSymbol

  datatype Event =
    | PushScope
    | PopScope(at: nat)
    | Define(name: string, start: nat, end: nat, kind: SymbolKind, at: nat)
    | Refer(name: string, start: nat, end: nat)

  /** Scopes opened and not closed. */
  function Depth(events: seq<Event>): (n: int) {
    if events == [] then 0
    else
      var last := events[|events| - 1];
      Depth(events[..|events| - 1]) + if last.PushScope? then 1 else if last.PopScope? then -1 else 0
  }

  /** The position of the last event that has one. */
  function Clock(events: seq<Event>): (n: nat) {
    if events == [] then 0
    else
      match events[|events| - 1]
      case PushScope => Clock(events[..|events| - 1])
      case PopScope(at) => at
      case Define(_, _, _, _, at) => at
      case Refer(_, _, end) => end
  }

  /** Positions never go back, and a definition becomes visible no earlier than its own end. */
  predicate Timed(events: seq<Event>) {
    events == [] ||
    var front, last := events[..|events| - 1], events[|events| - 1];
    && Timed(front)
    && match last
       case PushScope => true
       case PopScope(at) => Clock(front) <= at
       case Define(_, start, end, _, at) => Clock(front) <= at && start < end <= at
       case Refer(_, start, end) => Clock(front) <= start < end
  }

  /** The visibility and definition starts of the last definition, or -1. */
  function LastAt(events: seq<Event>): (n: int)
    ensures n >= -1
  {
    if events == [] then -1
    else if events[|events| - 1].Define? then events[|events| - 1].at
    else LastAt(events[..|events| - 1])
  }

  function LastStart(events: seq<Event>): (n: int)
    ensures n >= -1
  {
    if events == [] then -1
    else if events[|events| - 1].Define? then events[|events| - 1].start
    else LastStart(events[..|events| - 1])
  }

  /** Definitions come in increasing order of (visibility start, definition start). */
  predicate KeysIncrease(events: seq<Event>) {
    events == [] ||
    var front, last := events[..|events| - 1], events[|events| - 1];
    && KeysIncrease(front)
    && (last.Define? ==> LastAt(front) < last.at || (LastAt(front) == last.at && LastStart(front) < last.start))
  }

  lemma {:induction false} AddEvent(events: seq<Event>, e: Event)
    ensures Depth(events + [e]) == Depth(events) + if e.PushScope? then 1 else if e.PopScope? then -1 else 0
    ensures Clock(events + [e]) ==
            if e.PushScope? then Clock(events) else if e.Refer? then e.end else e.at
    ensures Timed(events + [e]) <==>
            Timed(events) &&
            match e
            case PushScope => true
            case PopScope(at) => Clock(events) <= at
            case Define(_, start, end, _, at) => Clock(events) <= at && start < end <= at
            case Refer(_, start, end) => Clock(events) <= start < end
    ensures LastAt(events + [e]) == if e.Define? then e.at else LastAt(events)
    ensures LastStart(events + [e]) == if e.Define? then e.start else LastStart(events)
    ensures KeysIncrease(events + [e]) <==>
            KeysIncrease(events) &&
            (e.Define? ==> LastAt(events) < e.at || (LastAt(events) == e.at && LastStart(events) < e.start))
  {
    assert (events + [e])[..|events|] == events;
  }
}
