/** The journal against the whole history of its stream: what it keeps, counts and refuses. */
module AuditLog {
  import opened AuditEvents
  import opened AuditJournal

  /** Everything a stream segment ever recorded. */
  datatype Log = Log(stream: string, segmentStart: U64, events: seq<AuditEvent>) {
    function Next(): nat {
      segmentStart + |events|
    }
  }

  ghost predicate ValidLog(l: Log) {
    && ToolName(l.stream)
    && l.segmentStart > 0
    && l.Next() <= MAX_U64
    && Numbered(l.events, l.segmentStart)
  }

  /** The journal that has forgotten the first `d` events of the log. */
  function Retained(l: Log, d: nat): Journal
    requires l.Next() <= MAX_U64 && d <= |l.events|
  {
    Journal(FORMAT_VERSION, l.stream, l.segmentStart, l.segmentStart + d, l.Next(), d, l.events[d..])
  }

  ghost predicate Refines(j: Journal, l: Log) {
    && ValidLog(l)
    && j.dropped <= |l.events|
    && j == Retained(l, j.dropped)
  }

  /** The first place at or after `d` from which the rest of the log fits. */
  function FirstFit(l: Log, d: nat, capacity: Capacity): (e: nat)
    requires l.Next() <= MAX_U64 && d <= |l.events|
    ensures d <= e <= |l.events|
    decreases |l.events| - d
  {
    hide JournalText;
    if d == |l.events| || Fits(Retained(l, d), capacity) then d else FirstFit(l, d + 1, capacity)
  }

  lemma {:induction false} FirstFitMeans(l: Log, d: nat, capacity: Capacity)
    requires l.Next() <= MAX_U64 && d <= |l.events|
    ensures FirstFit(l, d, capacity) == |l.events| || Fits(Retained(l, FirstFit(l, d, capacity)), capacity)
    ensures forall k :: d <= k < FirstFit(l, d, capacity) ==> !Fits(Retained(l, k), capacity)
    decreases |l.events| - d
  {
    hide JournalText, Fits;
    if d < |l.events| && !Fits(Retained(l, d), capacity) {
      FirstFitMeans(l, d + 1, capacity);
    }
  }

  // ---- Sizes ------------------------------------------------------------

  lemma {:induction false} ShortTextFits(j: Journal, capacity: Capacity)
    requires j.formatVersion == FORMAT_VERSION && |j.stream| <= MAX_TOOL_NAME_BYTES
    requires |j.events| <= 1
    requires forall k :: 0 <= k < |j.events| ==> ValidEvent(j.events[k])
    ensures Fits(j, capacity)
  {
    U64Width(j.segmentStart);
    U64Width(j.first);
    U64Width(j.next);
    U64Width(j.dropped);
    U64Width(j.formatVersion);
    if j.events != [] {
      EventTextWidth(j.events[0]);
    }
    assert |EventsText(j.events)| <= 400;
    hide Decimal, EventsText, EventText, ValidEvent;
  }

  /** Appending never makes the text of a journal shorter. */
  lemma {:induction false} TextGrows(l: Log, m: Log, d: nat)
    requires m.Next() <= MAX_U64 && l.stream == m.stream && l.segmentStart == m.segmentStart
    requires l.events <= m.events && d <= |l.events|
    ensures |JournalText(Retained(l, d))| <= |JournalText(Retained(m, d))|
  {
    DecimalGrows(l.Next(), m.Next());
    assert m.events[d..] == l.events[d..] + m.events[|l.events|..];
    EventsTextGrows(l.events[d..], m.events[|l.events|..]);
    hide Decimal, EventsText;
  }

  /** Where an earlier log did not fit, a longer one does not either. */
  lemma {:induction false} FirstFitLater(l: Log, m: Log, d: nat, capacity: Capacity)
    requires m.Next() <= MAX_U64 && l.stream == m.stream && l.segmentStart == m.segmentStart
    requires l.events <= m.events && d <= |l.events|
    ensures FirstFit(m, d, capacity) == FirstFit(m, FirstFit(l, d, capacity), capacity)
    decreases |l.events| - d
  {
    hide JournalText;
    if d < |l.events| && !Fits(Retained(l, d), capacity) {
      TextGrows(l, m, d);
      FirstFitLater(l, m, d + 1, capacity);
    }
  }

  /** One event always fits, so trimming never runs dry. */
  lemma {:induction false} FirstFitKeepsOne(l: Log, d: nat, capacity: Capacity)
    requires ValidLog(l) && d < |l.events|
    ensures FirstFit(l, d, capacity) < |l.events|
    ensures Fits(Retained(l, FirstFit(l, d, capacity)), capacity)
  {
    hide JournalText, FirstFit;
    ShortTextFits(Retained(l, |l.events| - 1), capacity);
    FirstFitMeans(l, d, capacity);
  }

  /** Trimming drops exactly the events before the first suffix that fits. */
  lemma {:induction false} TrimmedIsFirstFit(l: Log, d: nat, capacity: Capacity)
    requires ValidLog(l) && d < |l.events|
    ensures Trimmed(Retained(l, d), capacity) == Ok(Retained(l, FirstFit(l, d, capacity)))
    decreases |l.events| - d
  {
    hide JournalText;
    if !Fits(Retained(l, d), capacity) {
      if d + 1 == |l.events| {
        ShortTextFits(Retained(l, d), capacity);
        assert false;
      } else {
        assert l.events[d..][1..] == l.events[d + 1..];
        TrimmedIsFirstFit(l, d + 1, capacity);
      }
    }
  }

  // ---- Overlap ----------------------------------------------------------

  /** The log and the batch have the same event under one sequence. */
  ghost predicate SameAt(l: Log, b: Batch, s: nat) {
    && 0 <= s - l.segmentStart < |l.events|
    && 0 <= s - b.First() < |b.events|
    && l.events[s - l.segmentStart] == b.events[s - b.First()]
  }

  /** The batch starts inside the log or right after it and repeats what the log already has. */
  ghost predicate Continues(l: Log, b: Batch) {
    && l.segmentStart <= b.First() <= l.Next()
    && (forall s :: b.First() <= s < b.next && s < l.Next() ==> SameAt(l, b, s))
  }

  /** The log with the batch laid over its place. */
  function Joined(l: Log, b: Batch): (m: Log)
    requires l.segmentStart <= b.First() <= l.Next()
  {
    if b.next <= l.Next() then l
    else l.(events := l.events[..b.First() - l.segmentStart] + b.events)
  }

  lemma {:induction false} JoinedExtends(l: Log, b: Batch)
    requires ValidLog(l) && ValidBatch(b) && b.events != [] && Continues(l, b)
    ensures ValidLog(Joined(l, b)) && l.events <= Joined(l, b).events
    ensures b.next > l.Next() ==>
      Joined(l, b).events == l.events + b.events[l.Next() - b.First()..] && Joined(l, b).Next() == b.next
  {
    if b.next > l.Next() {
      var at := b.First() - l.segmentStart;
      var m := Joined(l, b).events;
      forall k | at <= k < |l.events| ensures l.events[k] == b.events[k - at] {
        var s := k + l.segmentStart;
        assert SameAt(l, b, s);
      }
      assert m == l.events + b.events[l.Next() - b.First()..];
    }
  }

  lemma {:induction false} OverlapProblemMeans(l: Log, d: nat, b: Batch, s: nat)
    requires l.Next() <= MAX_U64 && d <= |l.events|
    requires ValidBatch(b) && b.events != []
    requires l.segmentStart + d <= b.First() <= s
    ensures OverlapProblem(Retained(l, d), b, s).None? <==>
      forall t :: s <= t < b.next && t < l.Next() ==> SameAt(l, b, t)
    decreases b.next - s
  {
    if s < b.next && s < l.Next() {
      assert SameAt(l, b, s) <==> Retained(l, d).events[s - l.segmentStart - d] == b.events[s - b.First()];
      if SameAt(l, b, s) {
        OverlapProblemMeans(l, d, b, s + 1);
      }
    }
  }

  lemma {:induction false} ContinuesIsNoProblem(l: Log, d: nat, b: Batch)
    requires l.Next() <= MAX_U64 && d <= |l.events|
    requires ValidBatch(b) && b.events != []
    requires l.segmentStart + d <= b.First() <= l.Next()
    ensures OverlapProblem(Retained(l, d), b, b.First()).None? <==> Continues(l, b)
  {
    hide OverlapProblem;
    OverlapProblemMeans(l, d, b, b.First());
  }

  // ---- One append -------------------------------------------------------

  lemma {:induction false} RetainedIsValid(l: Log, d: nat, capacity: Capacity)
    requires ValidLog(l) && d <= |l.events| && capacity <= MAX_EVENTS
    requires Fits(Retained(l, d), capacity)
    ensures ValidJournal(Retained(l, d), capacity)
  {
    hide JournalText, Fits;
  }

  lemma {:induction false} ExtendedIsJoined(l: Log, d: nat, b: Batch)
    requires ValidLog(l) && d <= |l.events|
    requires ValidBatch(b) && b.events != []
    ensures Extended(Retained(l, d), b).Ok? <==> l.segmentStart + d <= b.First() && Continues(l, b)
    ensures l.segmentStart + d <= b.First() && Continues(l, b) ==>
      ValidLog(Joined(l, b)) && l.events <= Joined(l, b).events
      && Extended(Retained(l, d), b) == Ok((Retained(Joined(l, b), d), |Joined(l, b).events| - |l.events|))
  {
    hide OverlapProblem;
    if l.segmentStart + d <= b.First() <= l.Next() {
      ContinuesIsNoProblem(l, d, b);
      if Continues(l, b) {
        JoinedExtends(l, b);
        hide Continues, ValidLog, ValidBatch;
        if b.next > l.Next() {
          var unseen := b.events[l.Next() - b.First()..];
          assert (l.events + unseen)[d..] == l.events[d..] + unseen;
        }
      }
    }
  }

  /**
    One append to a journal that refines a log: it is refused exactly when the batch is malformed, reaches
    before what is retained, leaves a gap or contradicts the log. Otherwise the new journal is the log with the
    batch in place, cut at the first suffix that fits; neither the size limit nor the last validation refuses.
  */
  lemma {:induction false} AppendRefines(l: Log, d: nat, b: Batch, capacity: Capacity)
    requires ValidLog(l) && d <= |l.events|
    requires ValidJournal(Retained(l, d), capacity)
    ensures Append(Retained(l, d), b, capacity).Ok? <==>
      ValidBatch(b) && b.events != [] && l.segmentStart + d <= b.First() && Continues(l, b)
    ensures Append(Retained(l, d), b, capacity).Ok? ==>
      var m := Joined(l, b);
      var e := FirstFit(m, d, capacity);
      && ValidLog(m) && l.events <= m.events
      && ValidJournal(Retained(m, e), capacity)
      && Append(Retained(l, d), b, capacity) == Ok((Retained(m, e), |m.events| - |l.events|))
  {
    JournalProblemMeans(Retained(l, d), capacity);
    BatchProblemMeans(b);
    if ValidBatch(b) && b.events != [] {
      ExtendedIsJoined(l, d, b);
      if l.segmentStart + d <= b.First() && Continues(l, b) {
        var m := Joined(l, b);
        TrimsToFirstFit(l, m, d, capacity);
        JournalProblemMeans(Retained(m, FirstFit(m, d, capacity)), capacity);
      }
      hide Extended, Trimmed, JournalProblem, BatchProblem, ValidJournal, Joined, FirstFit, Continues, ValidLog,
        ValidBatch, Fits;
    } else {
      hide Extended, Trimmed, JournalProblem, BatchProblem, ValidJournal, Joined, FirstFit, Continues, ValidLog,
        ValidBatch, Fits;
    }
  }

  lemma {:induction false} TrimsToFirstFit(l: Log, m: Log, d: nat, capacity: Capacity)
    requires ValidLog(l) && ValidLog(m) && d <= |l.events| && l.events <= m.events
    requires l.stream == m.stream && l.segmentStart == m.segmentStart
    requires ValidJournal(Retained(l, d), capacity)
    ensures ValidJournal(Retained(m, FirstFit(m, d, capacity)), capacity)
    ensures |m.events| == |l.events| ==> m == l && FirstFit(m, d, capacity) == d
    ensures |m.events| > |l.events| ==>
      Trimmed(Retained(m, d), capacity) == Ok(Retained(m, FirstFit(m, d, capacity)))
  {
    hide JournalText;
    if |m.events| > |l.events| {
      TrimmedIsFirstFit(m, d, capacity);
      FirstFitKeepsOne(m, d, capacity);
      RetainedIsValid(m, FirstFit(m, d, capacity), capacity);
    } else {
      assert m.events == l.events;
    }
  }
}
