/** Appending to a shared journal by compare-and-swap, with any number of writers at once. */
module AuditStore {
  import opened AuditEvents
  import opened AuditJournal
  import opened AuditLog
  import opened AuditHistory

  const RETRIES: nat := 4

  datatype StoreError = Storage | InJournal(error: Error) | Contended(attempts: nat)

  datatype Outcome = Success(revision: nat, journal: Journal) | Failure(error: StoreError)

  /** What a recorder is configured with. */
  datatype Config = Config(stream: string, segmentStart: U64, capacity: Capacity)

  ghost predicate ValidConfig(c: Config) {
    ToolName(c.stream) && c.segmentStart > 0 && c.capacity <= MAX_EVENTS
  }

  datatype LoadReply = LoadFailed | Absent | Present(revision: nat, journal: Journal)
  datatype WriteReply = WriteFailed | Stored(revision: nat) | Conflict

  /** Where one append call stands. */
  datatype Phase =
    | Loading(attempt: nat)
    | Writing(attempt: nat, expected: Option<nat>, journal: Journal)
    | Done(outcome: Outcome)

  // ---- One append call --------------------------------------------------

  /** What decoding and checking a stored journal refuses. */
  function StoredProblem(c: Config, j: Journal): Option<Error> {
    if JournalProblem(j, c.capacity).Some? then JournalProblem(j, c.capacity)
    else if j.stream != c.stream then Some(StreamMismatch(c.stream, j.stream))
    else if j.segmentStart != c.segmentStart then Some(SegmentStartMismatch(c.segmentStart, j.segmentStart))
    else None
  }

  function AppendTo(c: Config, b: Batch, attempt: nat, expected: Option<nat>, j: Journal): Phase {
    match Append(j, b, c.capacity)
    case Err(error) => Done(Failure(InJournal(error)))
    case Ok((after, appended)) =>
      if appended > 0 then Writing(attempt, expected, after)
      else if expected.Some? then Done(Success(expected.value, after))
      else Done(Failure(InJournal(InvalidSequence)))
  }

  function AfterLoad(c: Config, b: Batch, attempt: nat, reply: LoadReply): Phase {
    match reply
    case LoadFailed => Done(Failure(Storage))
    case Absent => AppendTo(c, b, attempt, None, Fresh(c.stream, c.segmentStart))
    case Present(revision, journal) =>
      if StoredProblem(c, journal).Some? then Done(Failure(InJournal(StoredProblem(c, journal).value)))
      else AppendTo(c, b, attempt, Some(revision), journal)
  }

  function AfterWrite(attempt: nat, journal: Journal, reply: WriteReply): Phase {
    match reply
    case WriteFailed => Done(Failure(Storage))
    case Stored(revision) => Done(Success(revision, journal))
    case Conflict => if attempt + 1 < RETRIES then Loading(attempt + 1) else Done(Failure(Contended(RETRIES)))
  }

  function Started(b: Batch): Phase {
    if b.events == [] then Done(Failure(InJournal(EmptyBatch)))
    else if BatchProblem(b).Some? then Done(Failure(InJournal(BadBatch(BatchProblem(b).value))))
    else Loading(0)
  }

  /** The replies storage gives to one attempt: to the load and, if it comes to that, to the write. */
  datatype Reply = Reply(load: LoadReply, write: WriteReply)

  /** How a call in phase `p` ends when storage answers with these replies. */
  function Ends(c: Config, b: Batch, p: Phase, replies: seq<Reply>): Outcome
    requires |replies| == RETRIES
    requires !p.Done? ==> p.attempt < RETRIES
    decreases if p.Done? then 0 else 2 * (RETRIES - p.attempt) + (if p.Loading? then 1 else 0)
  {
    match p
    case Done(outcome) => outcome
    case Loading(attempt) => Ends(c, b, AfterLoad(c, b, attempt, replies[attempt].load), replies)
    case Writing(attempt, _, journal) => Ends(c, b, AfterWrite(attempt, journal, replies[attempt].write), replies)
  }

  /** What `load` hands on after checking the stored journal. */
  method CheckLoaded(c: Config, reply: LoadReply) returns (r: LoadReply, problem: Option<StoreError>)
    ensures problem.None? ==>
      r == reply && !reply.LoadFailed? && (reply.Present? ==> StoredProblem(c, reply.journal).None?)
    ensures reply.LoadFailed? ==> problem == Some(Storage)
    ensures problem.Some? && reply.Present? ==>
      StoredProblem(c, reply.journal).Some? && problem.value == InJournal(StoredProblem(c, reply.journal).value)
    ensures reply.Absent? ==> problem.None?
  {
    hide JournalProblem, ValidJournal;
    r := reply;
    problem := None;
    if reply.LoadFailed? { return reply, Some(Storage); }
    if reply.Present? {
      var stored := reply.journal;
      var journal := new CapabilityAuditJournal.Clone(stored);
      var bad := journal.Validate(c.capacity);
      if bad.Some? { return reply, Some(InJournal(bad.value)); }
      if stored.stream != c.stream { return reply, Some(InJournal(StreamMismatch(c.stream, stored.stream))); }
      if stored.segmentStart != c.segmentStart {
        return reply, Some(InJournal(SegmentStartMismatch(c.segmentStart, stored.segmentStart)));
      }
    }
  }

  /** The retry loop of one call, against whatever storage replies. */
  method AppendBatch(c: Config, b: Batch, replies: seq<Reply>) returns (o: Outcome)
    requires |replies| == RETRIES
    ensures o == Ends(c, b, Started(b), replies)
  {
    hide Append, JournalProblem, ValidBatch, StoredProblem, BatchProblem;
    if b.events == [] { return Failure(InJournal(EmptyBatch)); }
    var problem := ValidateBatch(b);
    if problem.Some? { return Failure(InJournal(BadBatch(problem.value))); }
    var attempt := 0;
    while attempt < RETRIES
      invariant attempt < RETRIES
      invariant Ends(c, b, Loading(attempt), replies) == Ends(c, b, Loading(0), replies)
      decreases RETRIES - attempt
    {
      var loaded, failure := CheckLoaded(c, replies[attempt].load);
      if failure.Some? { return Failure(failure.value); }
      var expected := if loaded.Present? then Some(loaded.revision) else None;
      var value := if loaded.Present? then loaded.journal else Fresh(c.stream, c.segmentStart);
      var journal := new CapabilityAuditJournal.Clone(value);
      var appended := journal.AppendBatch(b, c.capacity);
      ghost var p := AfterLoad(c, b, attempt, replies[attempt].load);
      assert Ends(c, b, Loading(attempt), replies) == Ends(c, b, p, replies);
      if appended.Err? { return Failure(InJournal(appended.error)); }
      if appended.value == 0 {
        if expected.None? { return Failure(InJournal(InvalidSequence)); }
        return Success(expected.value, journal.Value());
      }
      var write := replies[attempt].write;
      assert p == Writing(attempt, expected, journal.Value());
      assert Ends(c, b, p, replies) == Ends(c, b, AfterWrite(attempt, journal.Value(), write), replies);
      if write.Stored? { return Success(write.revision, journal.Value()); }
      if write.WriteFailed? { return Failure(Storage); }
      if attempt + 1 == RETRIES { return Failure(Contended(RETRIES)); }
      attempt := attempt + 1;
    }
  }

  // ---- What a load decides ------------------------------------------------

  /** The journal is of the writer's stream and segment and within its capacity. */
  ghost predicate OfConfig(c: Config, j: Journal) {
    j.stream == c.stream && j.segmentStart == c.segmentStart && ValidJournal(j, c.capacity)
  }

  lemma {:induction false} StoredProblemMeans(c: Config, j: Journal)
    ensures StoredProblem(c, j).None? <==> OfConfig(c, j)
  {
    hide JournalProblem, ValidJournal;
    JournalProblemMeans(j, c.capacity);
  }

  /** Why a well-formed batch is refused by a log of which everything before `first` is forgotten. */
  ghost predicate RefusedFor(l: Log, first: nat, b: Batch, error: Error) {
    || (b.First() > l.Next() && error == SourceSequenceGap(l.Next(), b.First()))
    || (b.First() < first && error == ReplayBeforeRetention(b.First(), first))
    || (exists s :: first <= b.First() <= s < b.next && s < l.Next() && !SameAt(l, b, s) &&
          error == OverlappingEventMismatch(s))
  }

  lemma {:induction false} OverlapNames(l: Log, d: nat, b: Batch, s: nat)
    requires l.Next() <= MAX_U64 && d <= |l.events| && ValidBatch(b) && b.events != []
    requires l.segmentStart + d <= b.First() <= s
    ensures var problem := OverlapProblem(Retained(l, d), b, s);
      problem.Some? ==>
        exists t :: s <= t < b.next && t < l.Next() && !SameAt(l, b, t) && problem.value == OverlappingEventMismatch(t)
    decreases b.next - s
  {
    if s < b.next && s < l.Next() {
      BatchLength(b);
      assert SameAt(l, b, s) <==> Retained(l, d).events[s - l.segmentStart - d] == b.events[s - b.First()];
      if SameAt(l, b, s) {
        OverlapNames(l, d, b, s + 1);
      }
    }
  }

  /** An append refuses a well-formed batch for where it starts or for what it repeats, and for nothing else. */
  lemma {:induction false} RefusalMeans(l: Log, d: nat, b: Batch, capacity: Capacity)
    requires ValidLog(l) && d <= |l.events| && ValidJournal(Retained(l, d), capacity)
    requires ValidBatch(b) && b.events != []
    ensures var r := Append(Retained(l, d), b, capacity);
      r.Err? ==> RefusedFor(l, l.segmentStart + d, b, r.error)
  {
    hide ValidJournal, ValidBatch, Append, OverlapProblem;
    RefusalIsExtended(Retained(l, d), b, capacity);
    if l.segmentStart + d <= b.First() <= l.Next() {
      OverlapNames(l, d, b, b.First());
      BatchLength(b);
    }
  }

  /** The first sequence the loaded register still holds. */
  function FirstKept(c: Config, reply: LoadReply): nat {
    if reply.Present? then reply.journal.first else c.segmentStart
  }

  function RevisionOf(reply: LoadReply): Option<nat> {
    if reply.Present? then Some(reply.revision) else None
  }

  /** The register has a journal the configuration can use, or nothing yet, and the batch continues it. */
  ghost predicate Takes(c: Config, reply: LoadReply, l: Log, b: Batch) {
    && (reply.Present? ==> OfConfig(c, reply.journal))
    && FirstKept(c, reply) <= b.First() && Continues(l, b)
  }

  /**
    What one load leads to, against the log behind the register: a batch the log already has succeeds at the loaded
    revision, a batch that continues the log is written, and everything else is refused with its reason.
  */
  lemma {:induction false} LoadDecides(c: Config, b: Batch, attempt: nat, reply: LoadReply, l: Log)
    requires ValidConfig(c) && ValidBatch(b) && b.events != [] && !reply.LoadFailed?
    requires if reply.Present? then Refines(reply.journal, l) else l == Log(c.stream, c.segmentStart, [])
    ensures ValidLog(l)
    ensures var p := AfterLoad(c, b, attempt, reply);
      if !Takes(c, reply, l, b) then
        && p.Done? && p.outcome.Failure? && p.outcome.error.InJournal?
        && ((reply.Present? && !OfConfig(c, reply.journal)) ||
            RefusedFor(l, FirstKept(c, reply), b, p.outcome.error.error))
      else if Inside(l, b) then
        reply.Present? && p == Done(Success(reply.revision, reply.journal))
      else
        && p.Writing? && p.attempt == attempt && p.expected == RevisionOf(reply)
        && Refines(p.journal, Joined(l, b)) && OfConfig(c, p.journal)
  {
    var j := if reply.Present? then reply.journal else Fresh(c.stream, c.segmentStart);
    if reply.Present? {
      StoredProblemMeans(c, j);
    } else {
      FreshRefines(c.stream, c.segmentStart, c.capacity);
      NothingInside(l, b);
    }
    hide StoredProblem, ValidBatch, ValidConfig, Fresh;
    if reply.Present? ==> OfConfig(c, j) {
      AppendDecides(c, b, attempt, RevisionOf(reply), j, l);
    }
  }

  lemma {:induction false} NothingInside(l: Log, b: Batch)
    requires l.events == [] && ValidBatch(b) && b.events != []
    ensures !Inside(l, b)
  {
    BatchLength(b);
  }

  lemma {:induction false} AppendDecides(c: Config, b: Batch, attempt: nat, expected: Option<nat>, j: Journal, l: Log)
    requires ValidBatch(b) && b.events != [] && Refines(j, l) && OfConfig(c, j)
    requires expected.None? ==> !Inside(l, b)
    ensures var p := AppendTo(c, b, attempt, expected, j);
      if !(j.first <= b.First() && Continues(l, b)) then
        p.Done? && p.outcome.Failure? && p.outcome.error.InJournal? &&
        RefusedFor(l, j.first, b, p.outcome.error.error)
      else if Inside(l, b) then
        expected.Some? && p == Done(Success(expected.value, j))
      else
        && p.Writing? && p.attempt == attempt && p.expected == expected
        && Refines(p.journal, Joined(l, b)) && OfConfig(c, p.journal)
  {
    hide Append, ValidJournal, ValidBatch, ValidLog, FirstFit, Fits, RefusedFor, SameAt, Inside, Continues, Joined;
    var d := j.dropped;
    AppendRefines(l, d, b, c.capacity);
    RefusalMeans(l, d, b, c.capacity);
    if j.first <= b.First() && Continues(l, b) {
      if Inside(l, b) {
        ReplayIsHarmless(l, d, b, c.capacity);
      } else {
        AppendOfConfig(j, b, c.capacity);
        NewEvents(l, b);
        var e := FirstFit(Joined(l, b), d, c.capacity);
        assert Retained(Joined(l, b), e).dropped == e;
      }
    }
  }

  /** A batch that continues the log and is not in it brings something new. */
  lemma {:induction false} NewEvents(l: Log, b: Batch)
    requires ValidLog(l) && ValidBatch(b) && b.events != [] && Continues(l, b) && !Inside(l, b)
    ensures l.segmentStart <= b.First() <= l.Next() < b.next && |Joined(l, b).events| > |l.events|
  {
    hide ValidBatch, ValidLog, SameAt;
    JoinedExtends(l, b);
  }

  /** What an append returns has passed validation under its capacity, in the same stream and segment. */
  lemma {:induction false} AppendOfConfig(j: Journal, b: Batch, capacity: Capacity)
    requires Append(j, b, capacity).Ok?
    ensures var after := Append(j, b, capacity).value.0;
      ValidJournal(after, capacity) && after.stream == j.stream && after.segmentStart == j.segmentStart
  {
    JournalProblemMeans(j, capacity);
    var after := Append(j, b, capacity).value.0;
    JournalProblemMeans(after, capacity);
    match Extended(j, b)
    case Err(_) =>
    case Ok((extended, appended)) =>
      assert extended.stream == j.stream && extended.segmentStart == j.segmentStart;
      TrimKeepsStream(extended, capacity);
      hide Extended, Trimmed, JournalProblem, BatchProblem, ValidJournal;
  }

  lemma {:induction false} TrimKeepsStream(j: Journal, capacity: Capacity)
    ensures Trimmed(j, capacity).Ok? ==>
      Trimmed(j, capacity).value.stream == j.stream && Trimmed(j, capacity).value.segmentStart == j.segmentStart
    decreases |j.events|
  {
    hide JournalText, Fits;
    if !Fits(j, capacity) && |j.events| > 1 && j.first != MAX_U64 && j.dropped != MAX_U64 {
      TrimKeepsStream(j.(events := j.events[1..], first := j.first + 1, dropped := j.dropped + 1), capacity);
    }
  }

  // ---- Many calls at once -----------------------------------------------

  /** One append call: its inputs, how many commits there were when it began, and where it stands. */
  datatype Writer = Writer(config: Config, batch: Batch, since: nat, phase: Phase)

  /** The journals committed so far, the last being what the register holds, and every call ever made. */
  datatype State = State(commits: seq<Journal>, writers: seq<Writer>)

  datatype Step =
    | Begin(config: Config, batch: Batch)
    | Load(w: nat)
    | LoadFails(w: nat)
    | Write(w: nat)
    | WriteFails(w: nat)
    | WriteUnacknowledged(w: nat)

  function Register(s: State): LoadReply {
    if s.commits == [] then Absent else Present(|s.commits|, s.commits[|s.commits| - 1])
  }

  function Expected(s: State): Option<nat> {
    if s.commits == [] then None else Some(|s.commits|)
  }

  function Advance(s: State, w: nat, phase: Phase): State
    requires w < |s.writers|
  {
    s.(writers := s.writers[w := s.writers[w].(phase := phase)])
  }

  ghost predicate Enabled(s: State, step: Step) {
    match step
    case Begin(config, batch) => ValidConfig(config)
    case Load(w) => w < |s.writers| && s.writers[w].phase.Loading?
    case LoadFails(w) => w < |s.writers| && s.writers[w].phase.Loading?
    case Write(w) => w < |s.writers| && s.writers[w].phase.Writing?
    case WriteFails(w) => w < |s.writers| && s.writers[w].phase.Writing?
    case WriteUnacknowledged(w) =>
      w < |s.writers| && s.writers[w].phase.Writing? && s.writers[w].phase.expected == Expected(s)
  }

  /** The state after a step: a write goes through exactly when the register still has the revision that was loaded. */
  function After(s: State, step: Step): State
    requires Enabled(s, step)
  {
    match step
    case Begin(config, batch) => s.(writers := s.writers + [Writer(config, batch, |s.commits|, Started(batch))])
    case Load(w) =>
      var x := s.writers[w];
      Advance(s, w, AfterLoad(x.config, x.batch, x.phase.attempt, Register(s)))
    case LoadFails(w) =>
      var x := s.writers[w];
      Advance(s, w, AfterLoad(x.config, x.batch, x.phase.attempt, LoadFailed))
    case Write(w) =>
      var p := s.writers[w].phase;
      if p.expected == Expected(s) then
        Advance(s, w, AfterWrite(p.attempt, p.journal, Stored(|s.commits| + 1))).(commits := s.commits + [p.journal])
      else
        Advance(s, w, AfterWrite(p.attempt, p.journal, Conflict))
    case WriteFails(w) =>
      var p := s.writers[w].phase;
      Advance(s, w, AfterWrite(p.attempt, p.journal, WriteFailed))
    case WriteUnacknowledged(w) =>
      var p := s.writers[w].phase;
      Advance(s, w, AfterWrite(p.attempt, p.journal, WriteFailed)).(commits := s.commits + [p.journal])
  }

  /** A run from the empty register. */
  ghost predicate IsRun(states: seq<State>, steps: seq<Step>) {
    && |states| == |steps| + 1
    && states[0] == State([], [])
    && (forall i :: 0 <= i < |steps| ==> Enabled(states[i], steps[i]) && states[i + 1] == After(states[i], steps[i]))
  }

  // ---- One chain --------------------------------------------------------

  /** Each committed journal refines a log, and each log strictly extends the one before it. */
  ghost predicate Chain(commits: seq<Journal>, logs: seq<Log>) {
    && |logs| == |commits|
    && (forall k :: 0 <= k < |commits| ==> Refines(commits[k], logs[k]))
    && (forall k :: 0 < k < |logs| ==> Extends(logs[k - 1], logs[k]))
  }

  ghost predicate Extends(l: Log, m: Log) {
    m.stream == l.stream && m.segmentStart == l.segmentStart && l.events < m.events
  }

  /** The log a writer's pending journal would add, given the commits it was built on. */
  ghost predicate Pending(logs: seq<Log>, b: Batch, expected: Option<nat>, j: Journal) {
    exists m: Log ::
      && Refines(j, m) && Inside(m, b)
      && match expected {
        case None => true
        case Some(r) => 0 < r <= |logs| && Extends(logs[r - 1], m)
      }
  }

  /** The log behind revision `r`. */
  function LogAt(logs: seq<Log>, r: nat, c: Config): Log
    requires r <= |logs|
  {
    if r == 0 then Log(c.stream, c.segmentStart, []) else logs[r - 1]
  }

  /** At revision `r` the register has a journal of another configuration, or its log refuses the batch. */
  ghost predicate RefusedAt(commits: seq<Journal>, logs: seq<Log>, r: nat, c: Config, b: Batch, error: Error)
    requires r <= |commits| == |logs|
  {
    || (r > 0 && !OfConfig(c, commits[r - 1]))
    || RefusedFor(LogAt(logs, r, c), if r == 0 then c.segmentStart else commits[r - 1].first, b, error)
  }

  ghost predicate WellFormed(b: Batch) {
    b.events != [] && ValidBatch(b)
  }

  ghost predicate WriterOk(s: State, logs: seq<Log>, x: Writer)
    requires |logs| == |s.commits|
  {
    && ValidConfig(x.config)
    && x.since <= |s.commits|
    && match x.phase {
      case Loading(attempt) => attempt < RETRIES && x.since + attempt <= |s.commits| && WellFormed(x.batch)
      case Writing(attempt, expected, journal) =>
        && attempt < RETRIES && WellFormed(x.batch)
        && OfConfig(x.config, journal)
        && Pending(logs, x.batch, expected, journal)
        && x.since + attempt <= (if expected.Some? then expected.value else 0)
      case Done(Success(revision, journal)) =>
        && 0 < revision <= |s.commits|
        && s.commits[revision - 1] == journal
        && OfConfig(x.config, journal)
        && Inside(logs[revision - 1], x.batch)
      case Done(Failure(Contended(attempts))) => x.since + RETRIES <= |s.commits| && attempts == RETRIES
      case Done(Failure(InJournal(error))) =>
        !WellFormed(x.batch) ||
        exists r :: x.since <= r <= |s.commits| && RefusedAt(s.commits, logs, r, x.config, x.batch, error)
      case Done(Failure(Storage)) => true
    }
  }

  ghost predicate Inv(s: State, logs: seq<Log>) {
    && Chain(s.commits, logs)
    && (forall w :: 0 <= w < |s.writers| ==> WriterOk(s, logs, s.writers[w]))
  }

  /** What an earlier revision refused stays refused there. */
  lemma {:induction false} RefusedLater(commits: seq<Journal>, later: seq<Journal>, logs: seq<Log>, more: seq<Log>,
                                        r: nat, c: Config, b: Batch, error: Error)
    requires r <= |commits| == |logs| && |later| == |more| && commits <= later && logs <= more
    requires RefusedAt(commits, logs, r, c, b, error)
    ensures RefusedAt(later, more, r, c, b, error)
  {
    hide OfConfig, RefusedFor;
  }

  lemma {:induction false} WriterOkGrows(s: State, t: State, logs: seq<Log>, more: seq<Log>, x: Writer)
    requires |logs| == |s.commits| && |more| == |t.commits|
    requires s.commits <= t.commits && logs <= more
    requires WriterOk(s, logs, x)
    ensures WriterOk(t, more, x)
  {
    hide Refines, Inside, ValidConfig, OfConfig, WellFormed, RefusedAt;
    if x.phase.Done? && x.phase.outcome.Failure? && x.phase.outcome.error.InJournal? && WellFormed(x.batch) {
      var r :| x.since <= r <= |s.commits| &&
        RefusedAt(s.commits, logs, r, x.config, x.batch, x.phase.outcome.error.error);
      RefusedLater(s.commits, t.commits, logs, more, r, x.config, x.batch, x.phase.outcome.error.error);
    }
    if x.phase.Writing? {
      var m: Log :| && Refines(x.phase.journal, m) && Inside(m, x.batch)
        && match x.phase.expected {
          case None => true
          case Some(r) => 0 < r <= |logs| && Extends(logs[r - 1], m)
        };
      assert Pending(more, x.batch, x.phase.expected, x.phase.journal);
    }
  }

  /** A load leads to a journal built on the newest commit, or ends the call for a reason. */
  lemma {:induction false} LoadKeeps(s: State, logs: seq<Log>, x: Writer)
    requires Chain(s.commits, logs) && WriterOk(s, logs, x) && x.phase.Loading?
    ensures WriterOk(s, logs, x.(phase := AfterLoad(x.config, x.batch, x.phase.attempt, Register(s))))
  {
    var n := |s.commits|;
    var l := LogAt(logs, n, x.config);
    assert n > 0 ==> Refines(s.commits[n - 1], l);
    var p := AfterLoad(x.config, x.batch, x.phase.attempt, Register(s));
    LoadDecides(x.config, x.batch, x.phase.attempt, Register(s), l);
    hide AfterLoad, Refines, ValidConfig, OfConfig, RefusedFor, ValidBatch, Inside, Extends, FirstFit, Chain;
    if p.Done? && p.outcome.Failure? {
      assert RefusedAt(s.commits, logs, n, x.config, x.batch, p.outcome.error.error);
    } else if p.Writing? {
      LoadedIsPending(logs, n, x.config, x.batch, l, p.journal);
    }
  }

  lemma {:induction false} LoadedIsPending(logs: seq<Log>, n: nat, c: Config, b: Batch, l: Log, j: Journal)
    requires n == |logs| && l == LogAt(logs, n, c) && ValidLog(l)
    requires ValidBatch(b) && b.events != [] && Continues(l, b) && !Inside(l, b) && Refines(j, Joined(l, b))
    ensures Pending(logs, b, if n == 0 then None else Some(n), j)
  {
    hide ValidBatch, ValidLog, Refines;
    JoinedExtends(l, b);
    AcceptedIsInside(l, b);
    NewEvents(l, b);
    assert Pending(logs, b, None, j);
  }

  /** A write that goes through adds one link to the chain. */
  lemma {:induction false} CommitKeeps(s: State, logs: seq<Log>, x: Writer) returns (more: seq<Log>)
    requires Chain(s.commits, logs) && WriterOk(s, logs, x) && x.phase.Writing? && x.phase.expected == Expected(s)
    ensures |more| == |logs| + 1 && logs <= more
    ensures Chain(s.commits + [x.phase.journal], more)
    ensures Inside(more[|logs|], x.batch)
  {
    hide Refines, Inside, OfConfig, ValidConfig;
    var m: Log :| && Refines(x.phase.journal, m) && Inside(m, x.batch)
      && match x.phase.expected {
        case None => true
        case Some(r) => 0 < r <= |logs| && Extends(logs[r - 1], m)
      };
    more := logs + [m];
  }

  /** If one writer moves and the chain only grows, the others keep what they had. */
  lemma {:induction false} OneMoves(s: State, t: State, logs: seq<Log>, more: seq<Log>, w: nat)
    requires Inv(s, logs) && w < |s.writers| && |t.writers| == |s.writers|
    requires forall v :: 0 <= v < |s.writers| && v != w ==> t.writers[v] == s.writers[v]
    requires s.commits <= t.commits && logs <= more
    requires Chain(t.commits, more) && WriterOk(t, more, t.writers[w])
    ensures Inv(t, more)
  {
    forall v | 0 <= v < |t.writers| ensures WriterOk(t, more, t.writers[v]) {
      if v != w {
        WriterOkGrows(s, t, logs, more, s.writers[v]);
      }
    }
  }

  /** A conflict means that some other write went through since the load. */
  lemma {:induction false} ConflictKeeps(s: State, logs: seq<Log>, x: Writer)
    requires |logs| == |s.commits| && WriterOk(s, logs, x) && x.phase.Writing? && x.phase.expected != Expected(s)
    ensures WriterOk(s, logs, x.(phase := AfterWrite(x.phase.attempt, x.phase.journal, Conflict)))
  {
    hide Inside, Refines, ValidConfig, OfConfig;
  }

  lemma {:induction false} WriteKeeps(s: State, logs: seq<Log>, w: nat) returns (more: seq<Log>)
    requires Inv(s, logs) && Enabled(s, Write(w))
    ensures logs <= more && s.commits <= After(s, Write(w)).commits
    ensures Inv(After(s, Write(w)), more)
  {
    var t := After(s, Write(w));
    var x := s.writers[w];
    more := logs;
    if x.phase.expected == Expected(s) {
      more := CommitKeeps(s, logs, x);
    } else {
      ConflictKeeps(s, logs, x);
    }
    hide Chain, Pending, Inside, ValidConfig, OfConfig;
    OneMoves(s, t, logs, more, w);
  }

  lemma {:induction false} UnacknowledgedKeeps(s: State, logs: seq<Log>, w: nat) returns (more: seq<Log>)
    requires Inv(s, logs) && Enabled(s, WriteUnacknowledged(w))
    ensures logs <= more && s.commits <= After(s, WriteUnacknowledged(w)).commits
    ensures Inv(After(s, WriteUnacknowledged(w)), more)
  {
    more := CommitKeeps(s, logs, s.writers[w]);
    hide Chain, Pending, Inside, ValidConfig, OfConfig;
    OneMoves(s, After(s, WriteUnacknowledged(w)), logs, more, w);
  }

  lemma {:induction false} BeginKeeps(s: State, logs: seq<Log>, config: Config, batch: Batch)
    requires Inv(s, logs) && Enabled(s, Begin(config, batch))
    ensures Inv(After(s, Begin(config, batch)), logs)
  {
    hide Pending, Inside, ValidConfig, BatchProblem, Refines, Extends, OfConfig, ValidBatch;
    BatchProblemMeans(batch);
    var t := After(s, Begin(config, batch));
    forall v | 0 <= v < |t.writers| ensures WriterOk(t, logs, t.writers[v]) {
      if v < |s.writers| {
        WriterOkGrows(s, t, logs, logs, s.writers[v]);
      }
    }
  }

  lemma {:induction false} StepKeeps(s: State, logs: seq<Log>, step: Step) returns (more: seq<Log>)
    requires Inv(s, logs) && Enabled(s, step)
    ensures logs <= more && s.commits <= After(s, step).commits
    ensures Inv(After(s, step), more)
  {
    hide Chain, Pending, Inside, ValidConfig, BatchProblem, AfterLoad, OfConfig;
    more := logs;
    match step {
      case Begin(config, batch) =>
        BeginKeeps(s, logs, config, batch);
      case Load(w) =>
        LoadKeeps(s, logs, s.writers[w]);
        hide WriterOk;
        OneMoves(s, After(s, step), logs, logs, w);
      case LoadFails(w) =>
        LoadFailureEnds(s.writers[w]);
        OneMoves(s, After(s, step), logs, logs, w);
      case Write(w) =>
        hide After;
        more := WriteKeeps(s, logs, w);
      case WriteFails(w) =>
        OneMoves(s, After(s, step), logs, logs, w);
      case WriteUnacknowledged(w) =>
        hide After;
        more := UnacknowledgedKeeps(s, logs, w);
    }
  }

  lemma {:induction false} LoadFailureEnds(x: Writer)
    requires x.phase.Loading?
    ensures AfterLoad(x.config, x.batch, x.phase.attempt, LoadFailed) == Done(Failure(Storage))
  {
  }

  /**
    Over every run of any number of writers the committed journals form one chain: each refines a log that
    strictly extends the log before it. A call that succeeded has its whole batch in the log at the revision it
    was given, in its own stream and segment and within its capacity, and a call gives up as contended only after
    four other writes went through.
  */
  lemma {:induction false} WritersShareOneChain(states: seq<State>, steps: seq<Step>) returns (logs: seq<Log>)
    requires IsRun(states, steps)
    ensures Inv(states[|steps|], logs)
    decreases |steps|
  {
    hide Enabled, After, WriterOk, Chain;
    if steps == [] {
      logs := [];
      assert Inv(states[0], logs) by {
        EmptyChain();
      }
    } else {
      var n := |steps| - 1;
      var before := WritersShareOneChain(states[..n + 1], steps[..n]);
      assert Enabled(states[n], steps[n]) && states[n + 1] == After(states[n], steps[n]);
      logs := StepKeeps(states[n], before, steps[n]);
    }
  }

  lemma {:induction false} EmptyChain()
    ensures Chain([], [])
  {
  }

  /** A revision once committed is never taken back or replaced. */
  lemma {:induction false} CommitsOnlyGrow(states: seq<State>, steps: seq<Step>, i: nat, k: nat)
    requires IsRun(states, steps) && i <= k <= |steps|
    ensures states[i].commits <= states[k].commits
    decreases k
  {
    if i < k {
      CommitsOnlyGrow(states, steps, i, k - 1);
      assert states[k] == After(states[k - 1], steps[k - 1]);
    }
  }

  lemma {:induction false} ChainExtends(commits: seq<Journal>, logs: seq<Log>, i: nat, k: nat)
    requires Chain(commits, logs) && i <= k < |logs|
    ensures logs[i].stream == logs[k].stream && logs[i].segmentStart == logs[k].segmentStart
    ensures logs[i].events <= logs[k].events
    decreases k
  {
    if i < k {
      ChainExtends(commits, logs, i, k - 1);
      assert Extends(logs[k - 1], logs[k]);
    }
  }

  /**
    No committed event is lost, reordered or changed: what an earlier revision holds under a sequence, a later
    one holds under the same sequence, unless it has dropped it and counts it as dropped.
  */
  lemma {:induction false} NothingIsLost(commits: seq<Journal>, logs: seq<Log>, i: nat, k: nat, at: nat)
    requires Chain(commits, logs) && i <= k < |commits|
    requires at < |commits[i].events|
    ensures var s := commits[i].first + at;
      || s < commits[k].first == commits[k].segmentStart + commits[k].dropped
      || (s < commits[k].next && commits[k].events[s - commits[k].first] == commits[i].events[at])
  {
    ChainExtends(commits, logs, i, k);
    assert Refines(commits[i], logs[i]) && Refines(commits[k], logs[k]);
    hide ValidLog;
    var g := commits[i].dropped + at;
    assert logs[i].events[g] == logs[k].events[g];
  }

  /** The batch of a successful call stays in the log of every later revision. */
  lemma {:induction false} SuccessIsPermanent(s: State, logs: seq<Log>, w: nat, k: nat)
    requires Inv(s, logs) && w < |s.writers|
    requires s.writers[w].phase.Done? && s.writers[w].phase.outcome.Success?
    requires s.writers[w].phase.outcome.revision <= k <= |s.commits|
    ensures 0 < s.writers[w].phase.outcome.revision
    ensures Inside(logs[k - 1], s.writers[w].batch) && Refines(s.commits[k - 1], logs[k - 1])
  {
    hide OfConfig, ValidLog;
    var r := s.writers[w].phase.outcome.revision;
    assert WriterOk(s, logs, s.writers[w]);
    ChainExtends(s.commits, logs, r - 1, k - 1);
    InsideLonger(logs[r - 1], logs[k - 1], s.writers[w].batch);
  }
}
