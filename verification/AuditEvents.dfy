/** Audit events, exported batches, and the text a journal stores for them. */
module AuditEvents {
  const MAX_U64: nat := 0xFFFF_FFFF_FFFF_FFFF
  const MAX_TOOL_NAME_BYTES: nat := 128
  const UNRECOGNIZED_PREFIX: string := "unrecognized:"
  const DIGEST_DIGITS: nat := 64

  type U64 = n: nat | n <= 0xFFFF_FFFF_FFFF_FFFF

  datatype Option<T> = None | Some(value: T)

  datatype RetryClass = Transient | RateLimited

  datatype AuditOutcome =
    Allowed | Denied | Failed | Cancelled | TimedOut | CancellationRequested
    | RetryScheduled | Streamed | StreamDenied

  datatype AuditEvent = AuditEvent(
    eventSequence: U64, sequence: U64, tool: string, inputBytes: U64, outputBytes: U64,
    outcome: AuditOutcome, retryClass: Option<RetryClass>)

  datatype EventError =
    EventSequence | Tool | RetryClassRequired | RetryClassUnexpected | UnexpectedOutputBytes

  datatype BatchError =
    InvalidEventSequence | InvalidNextEventSequence | NonContiguousEventSequence
    | InvalidEvent(error: EventError)

  datatype Batch = Batch(events: seq<AuditEvent>, next: U64) {
    /** The first sequence of the batch, or the cursor after it when it is empty. */
    function First(): U64 {
      if events == [] then next else events[0].eventSequence
    }
  }

  predicate NameChar(c: char) {
    'a' <= c <= 'z' || '0' <= c <= '9' || c in "._-"
  }

  predicate ToolName(name: string) {
    0 < |name| <= MAX_TOOL_NAME_BYTES && forall k :: 0 <= k < |name| ==> NameChar(name[k])
  }

  predicate HexDigit(c: char) {
    '0' <= c <= '9' || 'a' <= c <= 'f'
  }

  predicate ToolLabel(value: string) {
    || ToolName(value)
    || (&& UNRECOGNIZED_PREFIX <= value
        && |value| == |UNRECOGNIZED_PREFIX| + DIGEST_DIGITS
        && forall k :: |UNRECOGNIZED_PREFIX| <= k < |value| ==> HexDigit(value[k]))
  }

  /** What is wrong with one event, checked in the order of the fields. */
  function EventProblem(e: AuditEvent): Option<EventError> {
    if e.eventSequence == 0 || e.eventSequence == MAX_U64 then Some(EventSequence)
    else if !ToolLabel(e.tool) then Some(Tool)
    else if e.outcome.RetryScheduled? && e.retryClass.None? then Some(RetryClassRequired)
    else if !e.outcome.RetryScheduled? && e.retryClass.Some? then Some(RetryClassUnexpected)
    else if !e.outcome.Allowed? && !e.outcome.Streamed? && e.outputBytes != 0 then Some(UnexpectedOutputBytes)
    else None
  }

  /** An event with a sequence of its own, a tool, a retry class exactly for a retry, and output only of a call that
      produced some. */
  predicate ValidEvent(e: AuditEvent) {
    && 0 < e.eventSequence < MAX_U64 && ToolLabel(e.tool)
    && (e.retryClass.Some? <==> e.outcome.RetryScheduled?)
    && (e.outputBytes > 0 ==> e.outcome.Allowed? || e.outcome.Streamed?)
  }

  /** The checks on one event find nothing exactly in the valid ones. */
  lemma {:induction false} EventProblemMeans(e: AuditEvent)
    ensures EventProblem(e).None? <==> ValidEvent(e)
  {
    hide ToolLabel;
  }

  /** Valid events numbered without a gap from `start`. */
  ghost predicate Numbered(events: seq<AuditEvent>, start: nat) {
    forall k :: 0 <= k < |events| ==>
      events[k].eventSequence == start + k && ValidEvent(events[k])
  }

  ghost predicate ValidBatch(b: Batch) {
    && b.next != 0
    && (b.events != [] ==>
          Numbered(b.events, b.events[0].eventSequence) && b.next == b.events[0].eventSequence + |b.events|)
  }

  /** The first fault met when the events from `i` on are compared with a counter. */
  function RunProblem(events: seq<AuditEvent>, i: nat, expected: U64): Option<BatchError>
    requires i <= |events|
    decreases |events| - i
  {
    if i == |events| then None
    else if events[i].eventSequence != expected ||
      events[i].eventSequence == MAX_U64 then Some(NonContiguousEventSequence)
    else match EventProblem(events[i]) {
      case Some(error) => Some(InvalidEvent(error))
      case None => RunProblem(events, i + 1, expected + 1)
    }
  }

  function BatchProblem(b: Batch): Option<BatchError> {
    if b.next == 0 then Some(InvalidNextEventSequence)
    else if b.events == [] then None
    else
      var first := b.events[0].eventSequence;
      if first == 0 || first == MAX_U64 then Some(InvalidEventSequence)
      else match RunProblem(b.events, 0, first) {
        case Some(error) => Some(error)
        case None => if first + |b.events| != b.next then Some(InvalidNextEventSequence) else None
      }
  }

  lemma {:induction false} RunProblemMeans(events: seq<AuditEvent>, i: nat, expected: U64)
    requires i <= |events|
    ensures RunProblem(events, i, expected).None? <==>
      forall k :: i <= k < |events| ==>
        events[k].eventSequence == expected + (k - i) && ValidEvent(events[k])
    decreases |events| - i
  {
    if i < |events| && events[i].eventSequence == expected && EventProblem(events[i]).None? {
      RunProblemMeans(events, i + 1, expected + 1);
    }
  }

  /** A batch passes exactly when its events are valid and contiguous up to its cursor. */
  lemma {:induction false} BatchProblemMeans(b: Batch)
    ensures BatchProblem(b).None? <==> ValidBatch(b)
  {
    if b.next != 0 && b.events != [] {
      RunProblemMeans(b.events, 0, b.events[0].eventSequence);
      if ValidBatch(b) {
        assert ValidEvent(b.events[0]);
      }
    }
  }

  method ValidateBatch(b: Batch) returns (r: Option<BatchError>)
    ensures r == BatchProblem(b)
    ensures r.None? <==> ValidBatch(b)
  {
    BatchProblemMeans(b);
    if b.next == 0 { return Some(InvalidNextEventSequence); }
    if b.events == [] { return None; }
    var first := b.events[0].eventSequence;
    if first == 0 || first == MAX_U64 { return Some(InvalidEventSequence); }
    var expected: U64 := first;
    var i := 0;
    while i < |b.events|
      invariant i <= |b.events|
      invariant expected == first + i
      invariant RunProblem(b.events, i, expected) == RunProblem(b.events, 0, first)
    {
      var e := b.events[i];
      if e.eventSequence != expected || e.eventSequence == MAX_U64 {
        return Some(NonContiguousEventSequence);
      }
      var problem := EventProblem(e);
      if problem.Some? { return Some(InvalidEvent(problem.value)); }
      expected := expected + 1;
      i := i + 1;
    }
    if expected != b.next { return Some(InvalidNextEventSequence); }
    return None;
  }

  // ---- Text -------------------------------------------------------------

  function Decimal(n: nat): (s: string)
    ensures |s| > 0
  {
    var digit := [('0' as int + n % 10) as char];
    if n < 10 then digit else Decimal(n / 10) + digit
  }

  function Power10(k: nat): (p: nat)
    ensures p > 0
  {
    if k == 0 then 1 else 10 * Power10(k - 1)
  }

  lemma {:induction false} DecimalGrows(a: nat, b: nat)
    requires a <= b
    ensures |Decimal(a)| <= |Decimal(b)|
    decreases b
  {
    if b >= 10 && a >= 10 {
      DecimalGrows(a / 10, b / 10);
    }
  }

  lemma {:induction false} DecimalWidth(n: nat, k: nat)
    requires k > 0 && n < Power10(k)
    ensures |Decimal(n)| <= k
  {
    if n >= 10 && k > 1 {
      DecimalWidth(n / 10, k - 1);
    }
  }

  lemma {:induction false} U64Width(n: U64)
    ensures |Decimal(n)| <= 20
  {
    assert Power10(5) == 100000 by {
      assert Power10(2) == 100;
      assert Power10(4) == 10000;
    }
    assert Power10(10) == 10000000000 by {
      assert Power10(7) == 10000000;
      assert Power10(9) == 1000000000;
    }
    assert Power10(15) == 1000000000000000 by {
      assert Power10(12) == 1000000000000;
      assert Power10(14) == 100000000000000;
    }
    assert Power10(20) == 100000000000000000000 by {
      assert Power10(17) == 100000000000000000;
      assert Power10(19) == 10000000000000000000;
    }
    DecimalWidth(n, 20);
  }

  function OutcomeText(outcome: AuditOutcome): (s: string)
    ensures |s| <= 22
  {
    match outcome
    case Allowed => "allowed"
    case Denied => "denied"
    case Failed => "failed"
    case Cancelled => "cancelled"
    case TimedOut => "timed_out"
    case CancellationRequested => "cancellation_requested"
    case RetryScheduled => "retry_scheduled"
    case Streamed => "streamed"
    case StreamDenied => "stream_denied"
  }

  function RetryText(retry: Option<RetryClass>): (s: string)
    ensures |s| <= 30
  {
    match retry
    case None => ""
    case Some(Transient) => ",\"retry_class\":\"transient\""
    case Some(RateLimited) => ",\"retry_class\":\"rate_limited\""
  }

  function Field(name: string, value: string): (s: string)
    ensures |s| == |name| + |value| + 3
  {
    "\"" + name + "\":" + value
  }

  function Quoted(value: string): (s: string)
    ensures |s| == |value| + 2
  {
    "\"" + value + "\""
  }

  function EventText(e: AuditEvent): (s: string)
    ensures |s| > 0
  {
    "{" + Field("event_sequence", Decimal(e.eventSequence))
    + "," + Field("sequence", Decimal(e.sequence))
    + "," + Field("tool", Quoted(e.tool))
    + "," + Field("input_bytes", Decimal(e.inputBytes))
    + "," + Field("output_bytes", Decimal(e.outputBytes))
    + "," + Field("outcome", Quoted(OutcomeText(e.outcome)))
    + RetryText(e.retryClass) + "}"
  }

  /** The events with a comma between neighbours. */
  function EventsText(events: seq<AuditEvent>): string {
    if events == [] then ""
    else if |events| == 1 then EventText(events[0])
    else EventsText(events[..|events| - 1]) + "," + EventText(events[|events| - 1])
  }

  lemma {:induction false} EventsTextGrows(a: seq<AuditEvent>, b: seq<AuditEvent>)
    ensures |EventsText(a)| <= |EventsText(a + b)|
    decreases |b|
  {
    if b == [] {
      assert a + b == a;
    } else {
      EventsTextGrows(a, b[..|b| - 1]);
      assert (a + b)[..|a + b| - 1] == a + b[..|b| - 1];
    }
  }

  /** The largest text one valid event can have. */
  lemma {:induction false} EventTextWidth(e: AuditEvent)
    requires ValidEvent(e)
    ensures |EventText(e)| <= 400
  {
    U64Width(e.eventSequence);
    U64Width(e.sequence);
    U64Width(e.inputBytes);
    U64Width(e.outputBytes);
    hide Decimal, OutcomeText, RetryText;
  }
}
