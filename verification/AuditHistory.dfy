/** Whole runs of appends: one growing log, harmless replays, and no effect of how batches are cut. */
module AuditHistory {
  import opened AuditEvents
  import opened AuditJournal
  import opened AuditLog

  // ---- Replay -----------------------------------------------------------

  /** Every event of the batch is in the log under its own sequence. */
  ghost predicate Inside(l: Log, b: Batch) {
    && l.segmentStart <= b.First()
    && b.next <= l.Next()
    && forall s :: b.First() <= s < b.next ==> SameAt(l, b, s)
  }

  lemma {:induction false} AcceptedIsInside(l: Log, b: Batch)
    requires ValidLog(l) && ValidBatch(b) && b.events != [] && Continues(l, b)
    ensures Inside(Joined(l, b), b)
  {
    if b.next > l.Next() {
      JoinedExtends(l, b);
    }
  }

  lemma {:induction false} InsideLonger(l: Log, m: Log, b: Batch)
    requires Inside(l, b) && l.segmentStart == m.segmentStart && l.events <= m.events
    ensures Inside(m, b)
  {
    forall s | b.First() <= s < b.next ensures SameAt(m, b, s) {
      assert SameAt(l, b, s);
    }
  }

  /** A batch that is already part of the log appends nothing, or is refused as older than what is retained. */
  lemma {:induction false} ReplayIsHarmless(l: Log, d: nat, b: Batch, capacity: Capacity)
    requires ValidLog(l) && d <= |l.events| && ValidJournal(Retained(l, d), capacity)
    requires ValidBatch(b) && b.events != [] && Inside(l, b)
    ensures Append(Retained(l, d), b, capacity) ==
      if b.First() < l.segmentStart + d then Err(ReplayBeforeRetention(b.First(), l.segmentStart + d))
      else Ok((Retained(l, d), 0))
  {
    hide JournalText, JournalProblem, BatchProblem, ValidJournal, OverlapProblem, Trimmed, ValidLog, Fits, SameAt;
    JournalProblemMeans(Retained(l, d), capacity);
    assert capacity <= MAX_EVENTS by {
      JournalProblemCapacity(Retained(l, d), capacity);
    }
    BatchProblemMeans(b);
    if b.First() >= l.segmentStart + d {
      assert b.First() <= l.Next();
      ContinuesIsNoProblem(l, d, b);
    }
  }

  lemma {:induction false} JournalProblemCapacity(j: Journal, capacity: Capacity)
    requires ValidJournal(j, capacity)
    ensures capacity <= MAX_EVENTS
  {
  }

  // ---- Runs -------------------------------------------------------------

  datatype Call = Call(batch: Batch, capacity: Capacity)

  /** A host's appends one after the other; a refused one leaves the journal as it is. */
  function Play(j: Journal, calls: seq<Call>): Journal {
    if calls == [] then j
    else
      var before := Play(j, calls[..|calls| - 1]);
      var call := calls[|calls| - 1];
      match Append(before, call.batch, call.capacity)
      case Ok((after, _)) => after
      case Err(_) => before
  }

  lemma {:induction false} FreshRefines(stream: string, segmentStart: U64, capacity: Capacity)
    requires ToolName(stream) && segmentStart > 0
    ensures Refines(Fresh(stream, segmentStart), Log(stream, segmentStart, []))
    ensures capacity <= MAX_EVENTS ==> ValidJournal(Fresh(stream, segmentStart), capacity)
  {
    ShortTextFits(Fresh(stream, segmentStart), capacity);
    hide JournalText;
  }

  lemma {:induction false} StepRefines(j: Journal, l: Log, call: Call) returns (m: Log)
    requires Refines(j, l)
    ensures m.stream == l.stream && m.segmentStart == l.segmentStart && l.events <= m.events
    ensures match Append(j, call.batch, call.capacity) {
      case Ok((after, appended)) =>
        Refines(after, m) && appended == |m.events| - |l.events| && Inside(m, call.batch)
      case Err(_) => m == l
    }
  {
    JournalProblemMeans(j, call.capacity);
    BatchProblemMeans(call.batch);
    m := l;
    if Append(j, call.batch, call.capacity).Ok? {
      assert ValidJournal(j, call.capacity) && ValidBatch(call.batch) && call.batch.events != [] by {
        hide JournalProblem, BatchProblem, ValidJournal, ValidBatch, Extended, Trimmed;
      }
      AppendRefines(l, j.dropped, call.batch, call.capacity);
      hide Append, ValidJournal, FirstFit, Fits;
      m := Joined(l, call.batch);
      AcceptedIsInside(l, call.batch);
    }
  }

  /**
    Every journal a run of appends reaches is the retained suffix of one contiguous log that only grows, and the
    events it has dropped and the events it keeps add up to the distance its cursor has moved.
  */
  lemma {:induction false} RunRefines(j: Journal, l: Log, calls: seq<Call>) returns (m: Log)
    requires Refines(j, l)
    ensures m.stream == l.stream && m.segmentStart == l.segmentStart && l.events <= m.events
    ensures Refines(Play(j, calls), m)
    ensures Play(j, calls).dropped + |Play(j, calls).events| == Play(j, calls).next - Play(j, calls).segmentStart
    decreases |calls|
  {
    if calls == [] {
      m := l;
    } else {
      var before := RunRefines(j, l, calls[..|calls| - 1]);
      m := StepRefines(Play(j, calls[..|calls| - 1]), before, calls[|calls| - 1]);
      hide Append, ValidLog;
    }
  }

  /** Under one capacity, what a journal keeps depends only on the log: the longest suffix that fits. */
  lemma {:induction false} FixedCapacityKeepsLongest(j: Journal, l: Log, calls: seq<Call>, capacity: Capacity)
      returns (m: Log)
    requires Refines(j, l) && ValidJournal(j, capacity)
    requires j.dropped == FirstFit(l, 0, capacity)
    requires forall k :: 0 <= k < |calls| ==> calls[k].capacity == capacity
    ensures m.stream == l.stream && m.segmentStart == l.segmentStart && l.events <= m.events
    ensures Refines(Play(j, calls), m) && ValidJournal(Play(j, calls), capacity)
    ensures Play(j, calls) == Retained(m, FirstFit(m, 0, capacity))
    decreases |calls|
  {
    hide ValidJournal, FirstFit;
    if calls == [] {
      m := l;
    } else {
      var before := FixedCapacityKeepsLongest(j, l, calls[..|calls| - 1], capacity);
      var call := calls[|calls| - 1];
      m := KeepsLongestStep(Play(j, calls[..|calls| - 1]), before, call);
    }
  }

  lemma {:induction false} KeepsLongestStep(j: Journal, l: Log, call: Call) returns (m: Log)
    requires Refines(j, l) && ValidJournal(j, call.capacity)
    requires j.dropped == FirstFit(l, 0, call.capacity)
    ensures m.stream == l.stream && m.segmentStart == l.segmentStart && l.events <= m.events
    ensures match Append(j, call.batch, call.capacity) {
      case Ok((after, _)) =>
        && Refines(after, m) && ValidJournal(after, call.capacity)
        && after == Retained(m, FirstFit(m, 0, call.capacity))
      case Err(_) => m == l
    }
  {
    AppendRefines(l, j.dropped, call.batch, call.capacity);
    hide Append, ValidJournal, FirstFit;
    m := l;
    if Append(j, call.batch, call.capacity).Ok? {
      m := Joined(l, call.batch);
      FirstFitLater(l, m, 0, call.capacity);
    }
  }

  // ---- Grouping ---------------------------------------------------------

  /** One batch after another as a single batch. */
  function Glued(a: Batch, b: Batch): Batch {
    Batch(a.events + b.events, b.next)
  }

  /** Appends the batches in order and stops at the first that is refused. */
  function AppendAll(j: Journal, batches: seq<Batch>, capacity: Capacity): Result<(Journal, nat)>
    requires batches != []
    decreases |batches|
  {
    match Append(j, batches[0], capacity)
    case Err(error) => Err(error)
    case Ok((after, appended)) =>
      if |batches| == 1 then Ok((after, appended))
      else match AppendAll(after, batches[1..], capacity)
        case Err(error) => Err(error)
        case Ok((last, more)) => Ok((last, appended + more))
  }

  function GluedAll(batches: seq<Batch>): Batch
    requires batches != []
    decreases |batches|
  {
    if |batches| == 1 then batches[0] else Glued(batches[0], GluedAll(batches[1..]))
  }

  /** The pieces of a contiguous stream: each is a batch, and each starts where the one before it ends. */
  ghost predicate Pieces(batches: seq<Batch>) {
    && batches != []
    && (forall k :: 0 <= k < |batches| ==> ValidBatch(batches[k]) && batches[k].events != [])
    && (forall k :: 0 < k < |batches| ==> batches[k].First() == batches[k - 1].next)
  }

  lemma {:induction false} GluedIsValid(a: Batch, b: Batch)
    requires ValidBatch(a) && ValidBatch(b) && a.events != [] && b.events != [] && a.next == b.First()
    ensures ValidBatch(Glued(a, b)) && Glued(a, b).First() == a.First()
  {
  }

  lemma {:induction false} PiecesGlue(batches: seq<Batch>)
    requires Pieces(batches)
    ensures ValidBatch(GluedAll(batches)) && GluedAll(batches).events != []
    ensures GluedAll(batches).First() == batches[0].First()
    decreases |batches|
  {
    if |batches| > 1 {
      PiecesGlue(batches[1..]);
      GluedIsValid(batches[0], GluedAll(batches[1..]));
    }
  }

  ghost predicate Adjacent(a: Batch, b: Batch) {
    ValidBatch(a) && ValidBatch(b) && a.events != [] && b.events != [] && a.next == b.First()
  }

  /** A mismatch in the front piece is the mismatch of the whole. */
  lemma {:induction false} OverlapFront(j: Journal, a: Batch, b: Batch, s: nat)
    requires Adjacent(a, b) && j.next == j.first + |j.events|
    requires a.First() <= s <= a.next && j.first <= s
    ensures OverlapProblem(j, Glued(a, b), s) ==
      if OverlapProblem(j, a, s).Some? then OverlapProblem(j, a, s) else OverlapProblem(j, b, a.next)
    decreases a.next - s
  {
    GluedIsValid(a, b);
    if s == a.next {
      OverlapBack(j, a, b, s);
    } else if s < j.next {
      assert Glued(a, b).events[s - a.First()] == a.events[s - a.First()];
      if j.events[s - j.first] == a.events[s - a.First()] {
        OverlapFront(j, a, b, s + 1);
      }
    }
  }

  lemma {:induction false} OverlapBack(j: Journal, a: Batch, b: Batch, s: nat)
    requires Adjacent(a, b) && j.next == j.first + |j.events|
    requires a.next <= s && j.first <= s
    ensures OverlapProblem(j, Glued(a, b), s) == OverlapProblem(j, b, s)
    decreases b.next - s
  {
    GluedIsValid(a, b);
    if s < b.next && s < j.next {
      assert Glued(a, b).events[s - a.First()] == b.events[s - b.First()];
      OverlapBack(j, a, b, s + 1);
    }
  }

  /** A stand-in for the events a journal no longer has. */
  function Filler(sequence: U64): (e: AuditEvent)
    ensures 0 < sequence < MAX_U64 ==> ValidEvent(e)
  {
    assert ToolName("x");
    AuditEvent(sequence, 0, "x", 0, 0, Denied, None)
  }

  /** Every valid journal is the retained suffix of some contiguous log. */
  lemma {:induction false} SomeHistory(j: Journal, capacity: Capacity) returns (l: Log)
    requires ValidJournal(j, capacity)
    ensures Refines(j, l)
  {
    hide JournalText;
    var forgotten := seq(j.dropped, k requires 0 <= k < j.dropped => Filler(j.segmentStart + k));
    l := Log(j.stream, j.segmentStart, forgotten + j.events);
    forall k | 0 <= k < |l.events|
      ensures l.events[k].eventSequence == l.segmentStart + k && ValidEvent(l.events[k])
    {
      if k >= j.dropped {
        assert l.events[k] == j.events[k - j.dropped];
      } else {
        assert l.events[k] == forgotten[k] == Filler(j.segmentStart + k);
      }
    }
    assert l.events[j.dropped..] == j.events;
  }

  /** A well-formed batch is refused only for where it starts or what it repeats. */
  lemma {:induction false} RefusalIsExtended(j: Journal, b: Batch, capacity: Capacity)
    requires ValidJournal(j, capacity) && ValidBatch(b) && b.events != []
    ensures Append(j, b, capacity).Err? <==> Extended(j, b).Err?
    ensures Extended(j, b).Err? ==> Append(j, b, capacity) == Err(Extended(j, b).error)
    ensures Extended(j, b).Ok? && Extended(j, b).value.1 == 0 ==> Append(j, b, capacity) == Ok((j, 0))
  {
    var l := SomeHistory(j, capacity);
    AppendRefines(l, j.dropped, b, capacity);
    ExtendedIsJoined(l, j.dropped, b);
    JournalProblemMeans(j, capacity);
    JournalProblemCapacity(j, capacity);
    BatchProblemMeans(b);
    hide JournalProblem, BatchProblem, Extended, Trimmed, ValidJournal, ValidBatch, Joined, FirstFit, Continues;
  }

  /** If the front piece brings nothing new, the back piece decides as the whole does. */
  lemma {:induction false} GluedOverlap(j: Journal, a: Batch, b: Batch)
    requires Adjacent(a, b) && j.next == j.first + |j.events|
    ensures Extended(j, a).Err? ==> Extended(j, Glued(a, b)) == Err(Extended(j, a).error)
    ensures Extended(j, a).Ok? && a.next <= j.next ==>
      Extended(j, a) == Ok((j, 0)) && Extended(j, Glued(a, b)) == Extended(j, b)
  {
    GluedIsValid(a, b);
    if j.first <= a.First() {
      OverlapFront(j, a, b, a.First());
    }
    hide OverlapProblem, ValidBatch;
    assert |a.events| == a.next - a.First() && |b.events| == b.next - b.First() by {
      BatchLength(a);
      BatchLength(b);
    }
    if j.first <= a.First() && a.next <= j.next < b.next {
      assert Glued(a, b).events[j.next - a.First()..] == b.events[j.next - b.First()..];
    }
  }

  lemma {:induction false} BatchLength(b: Batch)
    requires ValidBatch(b) && b.events != []
    ensures |b.events| == b.next - b.First()
  {
  }

  lemma {:induction false} GluedLog(l: Log, a: Batch, b: Batch)
    requires ValidLog(l) && Adjacent(a, b) && Continues(l, a) && a.next > l.Next()
    ensures Continues(l, Glued(a, b)) && Continues(Joined(l, a), b)
    ensures Joined(l, Glued(a, b)) == Joined(Joined(l, a), b)
  {
    GluedIsValid(a, b);
    JoinedExtends(l, a);
    var m := Joined(l, a);
    forall s | a.First() <= s < b.next && s < l.Next() ensures SameAt(l, Glued(a, b), s) {
      assert SameAt(l, a, s);
    }
    assert m.events[..b.First() - l.segmentStart] == m.events;
    assert l.events[..a.First() - l.segmentStart] + (a.events + b.events) == m.events + b.events;
  }

  /** Two adjacent batches appended one after the other do what their concatenation does. */
  lemma {:induction false} GluedAppend(j: Journal, a: Batch, b: Batch, capacity: Capacity)
    requires ValidJournal(j, capacity) && Adjacent(a, b)
    ensures match Append(j, a, capacity) {
      case Err(error) => Append(j, Glued(a, b), capacity) == Err(error)
      case Ok((middle, some)) =>
        && ValidJournal(middle, capacity)
        && Append(j, Glued(a, b), capacity) ==
             match Append(middle, b, capacity) {
               case Err(error) => Err(error)
               case Ok((last, more)) => Ok((last, some + more))
             }
    }
  {
    GluedIsValid(a, b);
    RefusalIsExtended(j, a, capacity);
    RefusalIsExtended(j, Glued(a, b), capacity);
    RefusalIsExtended(j, b, capacity);
    GluedOverlap(j, a, b);
    if Extended(j, a).Ok? {
      if a.next <= j.next {
        SameExtension(j, Glued(a, b), b, capacity);
      } else {
        GluedExtends(j, a, b, capacity);
      }
    }
    hide Append, Extended, ValidJournal, ValidBatch;
  }

  lemma {:induction false} SameExtension(j: Journal, a: Batch, b: Batch, capacity: Capacity)
    requires ValidJournal(j, capacity) && ValidBatch(a) && ValidBatch(b) && a.events != [] && b.events != []
    requires Extended(j, a) == Extended(j, b)
    ensures Append(j, a, capacity) == Append(j, b, capacity)
  {
    JournalProblemMeans(j, capacity);
    BatchProblemMeans(a);
    BatchProblemMeans(b);
    hide JournalProblem, BatchProblem, Extended, Trimmed, ValidJournal, ValidBatch;
  }

  lemma {:induction false} GluedExtends(j: Journal, a: Batch, b: Batch, capacity: Capacity)
    requires ValidJournal(j, capacity) && Adjacent(a, b)
    requires Append(j, a, capacity).Ok? && a.next > j.next
    ensures var (middle, some) := Append(j, a, capacity).value;
      && ValidJournal(middle, capacity)
      && Append(middle, b, capacity).Ok?
      && Append(j, Glued(a, b), capacity) ==
           Ok((Append(middle, b, capacity).value.0, some + Append(middle, b, capacity).value.1))
  {
    hide Append, ValidJournal, ValidBatch, FirstFit, Continues, Joined, Fits, JournalText, Numbered;
    var l := SomeHistory(j, capacity);
    var d := j.dropped;
    GluedIsValid(a, b);
    AppendRefines(l, d, a, capacity);
    GluedLog(l, a, b);
    var m := Joined(l, a);
    var e := FirstFit(m, d, capacity);
    JoinedExtends(l, a);
    assert m.segmentStart + e <= b.First();
    AppendRefines(m, e, b, capacity);
    AppendRefines(l, d, Glued(a, b), capacity);
    SameSegment(m, b);
    SameSegment(l, a);
    FirstFitLater(m, Joined(m, b), d, capacity);
  }

  lemma {:induction false} SameSegment(l: Log, b: Batch)
    requires l.segmentStart <= b.First() <= l.Next()
    ensures Joined(l, b).stream == l.stream && Joined(l, b).segmentStart == l.segmentStart
  {
  }

  /**
    How a contiguous stream is cut into batches does not matter: appending the pieces in order gives the same
    journal, the same count of new events and the same refusal as appending the stream at once.
  */
  lemma {:induction false} GroupingDoesNotMatter(j: Journal, batches: seq<Batch>, capacity: Capacity)
    requires ValidJournal(j, capacity) && Pieces(batches)
    ensures AppendAll(j, batches, capacity) == Append(j, GluedAll(batches), capacity)
    decreases |batches|
  {
    hide Append, ValidJournal, ValidBatch;
    if |batches| > 1 {
      var rest := GluedAll(batches[1..]);
      PiecesGlue(batches[1..]);
      GluedAppend(j, batches[0], rest, capacity);
      if Append(j, batches[0], capacity).Ok? {
        GroupingDoesNotMatter(Append(j, batches[0], capacity).value.0, batches[1..], capacity);
      }
    }
  }

  /** Two ways of cutting the same stream end in the same journal. */
  lemma {:induction false} CutsAgree(j: Journal, one: seq<Batch>, other: seq<Batch>, capacity: Capacity)
    requires ValidJournal(j, capacity) && Pieces(one) && Pieces(other) && GluedAll(one) == GluedAll(other)
    ensures AppendAll(j, one, capacity) == AppendAll(j, other, capacity)
  {
    GroupingDoesNotMatter(j, one, capacity);
    GroupingDoesNotMatter(j, other, capacity);
  }
}
