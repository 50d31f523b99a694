/** The durable audit journal: appending with exact overlap checks, trimming, validating. */
module AuditJournal {
  import opened AuditEvents

  const FORMAT_VERSION: nat := 1
  const MAX_EVENTS: nat := 1024
  const MAX_BYTES: nat := 192 * 1024

  type Capacity = n: nat | n > 0 witness 1

  datatype Error =
    | CapacityTooLarge(requested: nat)
    | TooManyEvents(actual: nat, maximum: nat)
    | TooLarge(size: nat)
    | UnsupportedFormatVersion(version: nat)
    | InvalidStreamId
    | InvalidSequence
    | EmptyBatch
    | BadBatch(batch: BatchError)
    | BadEvent(event: EventError)
    | SourceSequenceGap(expected: nat, found: nat)
    | ReplayBeforeRetention(supplied: nat, firstRetained: nat)
    | OverlappingEventMismatch(sequence: nat)
    | StreamMismatch(wanted: string, actualStream: string)
    | SegmentStartMismatch(wantedStart: nat, actualStart: nat)

  datatype Result<T> = Ok(value: T) | Err(error: Error)

  datatype Journal = Journal(
    formatVersion: nat, stream: string, segmentStart: U64, first: U64, next: U64, dropped: U64,
    events: seq<AuditEvent>)

  function Fresh(stream: string, segmentStart: U64): Journal {
    Journal(FORMAT_VERSION, stream, segmentStart, segmentStart, segmentStart, 0, [])
  }

  function JournalText(j: Journal): string {
    "{" + Field("format_version", Decimal(j.formatVersion))
    + "," + Field("stream_id", Quoted(j.stream))
    + "," + Field("segment_start_event_sequence", Decimal(j.segmentStart))
    + "," + Field("first_event_sequence", Decimal(j.first))
    + "," + Field("next_event_sequence", Decimal(j.next))
    + "," + Field("dropped_audit_events", Decimal(j.dropped))
    + "," + Field("events", "[" + EventsText(j.events) + "]") + "}"
  }

  predicate Fits(j: Journal, capacity: Capacity) {
    |j.events| <= capacity && |JournalText(j)| <= MAX_BYTES
  }

  // ---- Validation -------------------------------------------------------

  /** A journal is its numbers, its events counted from `first` to `next`, and its limits. */
  ghost predicate ValidJournal(j: Journal, capacity: Capacity) {
    && capacity <= MAX_EVENTS
    && j.formatVersion == FORMAT_VERSION
    && ToolName(j.stream)
    && j.segmentStart > 0
    && j.first == j.segmentStart + j.dropped
    && j.next == j.first + |j.events|
    && Numbered(j.events, j.first)
    && Fits(j, capacity)
  }

  /** The first fault met in the retained events, or a cursor other than the one recorded. */
  function EventsProblem(j: Journal, i: nat, expected: U64): Option<Error>
    requires i <= |j.events|
    decreases |j.events| - i
  {
    if i == |j.events| then
      if expected != j.next then Some(InvalidSequence) else None
    else if expected == MAX_U64 || j.events[i].eventSequence != expected then Some(InvalidSequence)
    else match EventProblem(j.events[i]) {
      case Some(error) => Some(BadEvent(error))
      case None => EventsProblem(j, i + 1, expected + 1)
    }
  }

  function JournalProblem(j: Journal, capacity: Capacity): Option<Error> {
    if capacity > MAX_EVENTS then Some(CapacityTooLarge(capacity))
    else if j.formatVersion != FORMAT_VERSION then Some(UnsupportedFormatVersion(j.formatVersion))
    else if !ToolName(j.stream) then Some(InvalidStreamId)
    else if j.segmentStart == 0 || j.first == 0 || j.next == 0 then Some(InvalidSequence)
    else if j.segmentStart + j.dropped > MAX_U64 || j.first != j.segmentStart + j.dropped then Some(InvalidSequence)
    else if |j.events| > capacity then Some(TooManyEvents(|j.events|, capacity))
    else match EventsProblem(j, 0, j.first) {
      case Some(error) => Some(error)
      case None => if |JournalText(j)| > MAX_BYTES then Some(TooLarge(|JournalText(j)|)) else None
    }
  }

  lemma {:induction false} EventsProblemMeans(j: Journal, i: nat, expected: U64)
    requires i <= |j.events|
    ensures EventsProblem(j, i, expected).None? <==>
      && j.next == expected + |j.events| - i
      && (forall k :: i <= k < |j.events| ==>
            j.events[k].eventSequence == expected + (k - i) && ValidEvent(j.events[k]))
    decreases |j.events| - i
  {
    if i < |j.events| && expected != MAX_U64 && j.events[i].eventSequence == expected &&
      EventProblem(j.events[i]).None? {
      EventsProblemMeans(j, i + 1, expected + 1);
    }
  }

  /** Validation finds no problem exactly in the journals that are well formed. */
  lemma {:induction false} JournalProblemMeans(j: Journal, capacity: Capacity)
    ensures JournalProblem(j, capacity).None? <==> ValidJournal(j, capacity)
  {
    hide JournalText, ToolName, EventsProblem;
    EventsProblemMeans(j, 0, j.first);
  }

  // ---- Appending --------------------------------------------------------

  /** Compares the sequences from `s` on that both the journal and the batch hold. */
  function OverlapProblem(j: Journal, b: Batch, s: nat): Option<Error>
    requires s >= b.First() && s >= j.first
    decreases b.next - s
  {
    if s >= b.next || s >= j.next then None
    else if s - j.first >= |j.events| || s - b.First() >= |b.events| then Some(InvalidSequence)
    else if j.events[s - j.first] != b.events[s - b.First()] then Some(OverlappingEventMismatch(s))
    else OverlapProblem(j, b, s + 1)
  }

  /** The journal with the unseen part of the batch, and how many events that is. */
  function Extended(j: Journal, b: Batch): Result<(Journal, nat)> {
    hide OverlapProblem;
    if b.First() > j.next then Err(SourceSequenceGap(j.next, b.First()))
    else if b.First() < j.first then Err(ReplayBeforeRetention(b.First(), j.first))
    else match OverlapProblem(j, b, b.First()) {
      case Some(error) => Err(error)
      case None =>
        if b.next <= j.next then Ok((j, 0))
        else if j.next - b.First() > |b.events| then Err(InvalidSequence)
        else
          var unseen := b.events[j.next - b.First()..];
          Ok((j.(events := j.events + unseen, next := b.next), |unseen|))
    }
  }

  /** Drops the oldest events one by one until the journal fits. */
  function Trimmed(j: Journal, capacity: Capacity): Result<Journal>
    decreases |j.events|
  {
    hide JournalText;
    if Fits(j, capacity) then Ok(j)
    else if |j.events| == 1 then Err(TooLarge(|JournalText(j)|))
    else if j.events == [] || j.first == MAX_U64 || j.dropped == MAX_U64 then Err(InvalidSequence)
    else Trimmed(j.(events := j.events[1..], first := j.first + 1, dropped := j.dropped + 1), capacity)
  }

  /** The outcome of one append: the journal after it and how many events were new. */
  function Append(j: Journal, b: Batch, capacity: Capacity): Result<(Journal, nat)> {
    if capacity > MAX_EVENTS then Err(CapacityTooLarge(capacity))
    else if BatchProblem(b).Some? then Err(BadBatch(BatchProblem(b).value))
    else if b.events == [] then Err(EmptyBatch)
    else if JournalProblem(j, capacity).Some? then Err(JournalProblem(j, capacity).value)
    else match Extended(j, b) {
      case Err(error) => Err(error)
      case Ok((extended, appended)) =>
        if appended == 0 then Ok((j, 0))
        else match Trimmed(extended, capacity) {
          case Err(error) => Err(error)
          case Ok(trimmed) =>
            if JournalProblem(trimmed, capacity).Some? then Err(JournalProblem(trimmed, capacity).value)
            else Ok((trimmed, appended))
        }
    }
  }

  // ---- The journal object -----------------------------------------------

  class CapabilityAuditJournal {
    var formatVersion: nat
    var stream: string
    var segmentStart: U64
    var first: U64
    var next: U64
    var dropped: U64
    var events: seq<AuditEvent>

    function Value(): Journal
      reads this
    {
      Journal(formatVersion, stream, segmentStart, first, next, dropped, events)
    }

    constructor (stream: string, segmentStart: U64)
      requires ToolName(stream) && segmentStart > 0
      ensures Value() == Fresh(stream, segmentStart)
    {
      formatVersion := FORMAT_VERSION;
      this.stream := stream;
      this.segmentStart := segmentStart;
      first := segmentStart;
      next := segmentStart;
      dropped := 0;
      events := [];
    }

    constructor Clone(from: Journal)
      ensures Value() == from
    {
      formatVersion := from.formatVersion;
      stream := from.stream;
      segmentStart := from.segmentStart;
      first := from.first;
      next := from.next;
      dropped := from.dropped;
      events := from.events;
    }

    method Validate(capacity: Capacity) returns (problem: Option<Error>)
      ensures problem == JournalProblem(Value(), capacity)
      ensures problem.None? <==> ValidJournal(Value(), capacity)
    {
      JournalProblemMeans(Value(), capacity);
      hide JournalText, ValidJournal;
      if capacity > MAX_EVENTS { return Some(CapacityTooLarge(capacity)); }
      if formatVersion != FORMAT_VERSION { return Some(UnsupportedFormatVersion(formatVersion)); }
      if !ToolName(stream) { return Some(InvalidStreamId); }
      if segmentStart == 0 || first == 0 || next == 0 { return Some(InvalidSequence); }
      if segmentStart + dropped > MAX_U64 || first != segmentStart + dropped { return Some(InvalidSequence); }
      if |events| > capacity { return Some(TooManyEvents(|events|, capacity)); }
      var expected := first;
      var i := 0;
      while i < |events|
        invariant i <= |events|
        invariant EventsProblem(Value(), i, expected) == EventsProblem(Value(), 0, first)
      {
        if expected == MAX_U64 { return Some(InvalidSequence); }
        if events[i].eventSequence != expected { return Some(InvalidSequence); }
        var bad := EventProblem(events[i]);
        if bad.Some? { return Some(BadEvent(bad.value)); }
        expected := expected + 1;
        i := i + 1;
      }
      if expected != next { return Some(InvalidSequence); }
      var size := |JournalText(Value())|;
      if size > MAX_BYTES { return Some(TooLarge(size)); }
      return None;
    }

    method AppendBatchInner(b: Batch) returns (r: Result<nat>)
      modifies this
      ensures match Extended(old(Value()), b) {
        case Err(error) => r == Err(error) && Value() == old(Value())
        case Ok((after, appended)) => r == Ok(appended) && Value() == after
      }
    {
      var sourceFirst := b.First();
      if sourceFirst > next { return Err(SourceSequenceGap(next, sourceFirst)); }
      if sourceFirst < first { return Err(ReplayBeforeRetention(sourceFirst, first)); }
      var overlapEnd := if b.next < next then b.next else next;
      var s := sourceFirst;
      while s < overlapEnd
        invariant sourceFirst <= s
        invariant Value() == old(Value())
        invariant OverlapProblem(Value(), b, s) == OverlapProblem(Value(), b, sourceFirst)
      {
        if s - first >= |events| { return Err(InvalidSequence); }
        if s - sourceFirst >= |b.events| { return Err(InvalidSequence); }
        if events[s - first] != b.events[s - sourceFirst] { return Err(OverlappingEventMismatch(s)); }
        s := s + 1;
      }
      if b.next <= next { return Ok(0); }
      var appendFrom := next - sourceFirst;
      if appendFrom > |b.events| { return Err(InvalidSequence); }
      var unseen := b.events[appendFrom..];
      events := events + unseen;
      next := b.next;
      return Ok(|unseen|);
    }

    method TrimToLimits(capacity: Capacity) returns (r: Result<()>)
      modifies this
      ensures match Trimmed(old(Value()), capacity) {
        case Err(error) => r == Err(error)
        case Ok(after) => r == Ok(()) && Value() == after
      }
    {
      hide JournalText;
      while |events| > capacity || |JournalText(Value())| > MAX_BYTES
        invariant Trimmed(Value(), capacity) == Trimmed(old(Value()), capacity)
        decreases |events|
      {
        if |events| == 1 { return Err(TooLarge(|JournalText(Value())|)); }
        if events == [] { return Err(InvalidSequence); }
        if first == MAX_U64 || dropped == MAX_U64 { return Err(InvalidSequence); }
        events := events[1..];
        first := first + 1;
        dropped := dropped + 1;
      }
      return Ok(());
    }

    /** A refused batch leaves the journal as it was; an accepted one is checked on a copy first. */
    method AppendBatch(b: Batch, capacity: Capacity) returns (r: Result<nat>)
      modifies this
      ensures match Append(old(Value()), b, capacity) {
        case Err(error) => r == Err(error) && Value() == old(Value())
        case Ok((after, appended)) => r == Ok(appended) && Value() == after
      }
    {
      hide Extended, Trimmed, JournalProblem, BatchProblem, ValidJournal, ValidBatch;
      if capacity > MAX_EVENTS { return Err(CapacityTooLarge(capacity)); }
      var badBatch := ValidateBatch(b);
      if badBatch.Some? { return Err(BadBatch(badBatch.value)); }
      if b.events == [] { return Err(EmptyBatch); }
      var problem := Validate(capacity);
      if problem.Some? { return Err(problem.value); }
      var candidate := new CapabilityAuditJournal.Clone(Value());
      var appended := candidate.AppendBatchInner(b);
      if appended.Err? { return Err(appended.error); }
      if appended.value == 0 { return Ok(0); }
      var trimmed := candidate.TrimToLimits(capacity);
      if trimmed.Err? { return Err(trimmed.error); }
      problem := candidate.Validate(capacity);
      if problem.Some? { return Err(problem.value); }
      formatVersion := candidate.formatVersion;
      stream := candidate.stream;
      segmentStart := candidate.segmentStart;
      first := candidate.first;
      next := candidate.next;
      dropped := candidate.dropped;
      events := candidate.events;
      return Ok(appended.value);
    }
  }
}
