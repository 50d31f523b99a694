/** When a call of the shared store succeeds, over every run of any number of writers. */
module AuditOutcomes {
  import opened AuditEvents
  import opened AuditJournal
  import opened AuditLog
  import opened AuditHistory
  import opened AuditStore

  /** The state behind step `i` of a run and its log chain. */
  lemma {:induction false} RunChain(states: seq<State>, steps: seq<Step>, i: nat) returns (logs: seq<Log>)
    requires IsRun(states, steps) && i <= |steps|
    ensures Inv(states[i], logs)
  {
    hide Inv, Enabled, After;
    logs := WritersShareOneChain(states[..i + 1], steps[..i]);
  }

  /** The register can be used under the configuration, still has everything from the batch on, and its log has it. */
  ghost predicate AlreadyStored(s: State, logs: seq<Log>, c: Config, b: Batch)
    requires |logs| == |s.commits|
  {
    && s.commits != []
    && var j := s.commits[|s.commits| - 1];
    OfConfig(c, j) && j.first <= b.First() && Inside(logs[|logs| - 1], b)
  }

  /** The register can be used or is empty, and the batch continues what it holds with something new. */
  ghost predicate Appendable(s: State, logs: seq<Log>, c: Config, b: Batch)
    requires |logs| == |s.commits|
  {
    var l := LogAt(logs, |logs|, c);
    Takes(c, Register(s), l, b) && !Inside(l, b)
  }

  /**
    One load, at any point of a run. It ends the call as a success at the current revision exactly if the batch is
    already stored, it goes on to write exactly if the batch brings something new to a usable register, and it
    refuses the batch in every other case; in none of them does it commit anything.
  */
  lemma {:induction false} LoadOutcome(states: seq<State>, steps: seq<Step>, i: nat, w: nat, logs: seq<Log>)
    requires IsRun(states, steps) && i < |steps| && steps[i] == Load(w) && Inv(states[i], logs)
    ensures w < |states[i].writers| && w < |states[i + 1].writers| && states[i + 1].commits == states[i].commits
    ensures var s, x := states[i], states[i].writers[w]; var p := states[i + 1].writers[w].phase;
      && (AlreadyStored(s, logs, x.config, x.batch) <==> p.Done? && p.outcome.Success?)
      && (AlreadyStored(s, logs, x.config, x.batch) ==>
            p == Done(Success(|s.commits|, s.commits[|s.commits| - 1])))
      && (Appendable(s, logs, x.config, x.batch) <==> p.Writing?)
      && (p.Writing? ==>
            p.expected == Expected(s) && Refines(p.journal, Joined(LogAt(logs, |logs|, x.config), x.batch)))
      && (p.Done? && p.outcome.Failure? ==>
            p.outcome.error.InJournal? &&
            RefusedAt(s.commits, logs, |s.commits|, x.config, x.batch, p.outcome.error.error))
  {
    var s := states[i];
    assert Enabled(s, steps[i]) && states[i + 1] == After(s, steps[i]);
    var x := s.writers[w];
    var n := |s.commits|;
    var l := LogAt(logs, n, x.config);
    assert WriterOk(s, logs, x);
    assert n > 0 ==> Refines(s.commits[n - 1], l);
    LoadDecides(x.config, x.batch, x.phase.attempt, Register(s), l);
    hide AfterLoad, Refines, OfConfig, RefusedFor, ValidBatch, Inside, Continues, Joined, FirstFit, Chain, ValidLog,
      IsRun;
    if Takes(x.config, Register(s), l, x.batch) && Inside(l, x.batch) {
      assert n > 0;
    }
    if AlreadyStored(s, logs, x.config, x.batch) {
      StoredContinues(l, x.batch);
    }
  }

  lemma {:induction false} StoredContinues(l: Log, b: Batch)
    requires Inside(l, b) && ValidBatch(b) && b.events != []
    ensures Continues(l, b)
  {
    BatchLength(b);
  }

  /** The step of another call leaves a call alone. */
  lemma {:induction false} OthersLeaveAlone(s: State, step: Step, w: nat)
    requires Enabled(s, step) && w < |s.writers| && !step.Begin? && step.w != w
    ensures w < |After(s, step).writers| && After(s, step).writers[w] == s.writers[w]
  {
    hide AfterLoad, AfterWrite;
  }

  lemma {:induction false} Untouched(states: seq<State>, steps: seq<Step>, i: nat, k: nat, w: nat)
    requires IsRun(states, steps) && i <= k <= |steps| && w < |states[i].writers|
    requires forall m :: i <= m < k ==> steps[m].Begin? || steps[m].w != w
    ensures w < |states[k].writers| && states[k].writers[w] == states[i].writers[w]
    decreases k
  {
    if i < k {
      Untouched(states, steps, i, k - 1, w);
      assert Enabled(states[k - 1], steps[k - 1]) && states[k] == After(states[k - 1], steps[k - 1]);
      if !steps[k - 1].Begin? {
        OthersLeaveAlone(states[k - 1], steps[k - 1], w);
      }
    }
  }

  /**
    A batch with something new for a usable register, loaded and then written with no commit in between, is
    committed: the call succeeds at the next revision, whose log has the batch.
  */
  lemma {:induction false} WriteSucceeds(states: seq<State>, steps: seq<Step>, i: nat, k: nat, w: nat, logs: seq<Log>)
    requires IsRun(states, steps) && i < k < |steps| && steps[i] == Load(w) && steps[k] == Write(w)
    requires forall m :: i < m < k ==> steps[m].Begin? || steps[m].w != w
    requires states[k].commits == states[i].commits && Inv(states[i], logs)
    requires w < |states[i].writers| ==>
      Appendable(states[i], logs, states[i].writers[w].config, states[i].writers[w].batch)
    ensures w < |states[i].writers| && w < |states[k + 1].writers|
    ensures var s, x := states[i], states[i].writers[w]; var p := states[k + 1].writers[w].phase;
      && p.Done? && p.outcome.Success? && p.outcome.revision == |s.commits| + 1
      && states[k + 1].commits == s.commits + [p.outcome.journal]
      && Refines(p.outcome.journal, Joined(LogAt(logs, |logs|, x.config), x.batch))
      && Inside(Joined(LogAt(logs, |logs|, x.config), x.batch), x.batch)
  {
    LoadOutcome(states, steps, i, w, logs);
    Untouched(states, steps, i + 1, k, w);
    var s, x := states[i], states[i].writers[w];
    assert Enabled(states[i], steps[i]);
    assert WriterOk(s, logs, x);
    var l := LogAt(logs, |logs|, x.config);
    assert |logs| > 0 ==> Refines(s.commits[|logs| - 1], l);
    assert ValidLog(l);
    AcceptedIsInside(l, x.batch);
    assert Enabled(states[k], steps[k]) && states[k + 1] == After(states[k], steps[k]);
    hide Refines, Inside, Joined, Continues, ValidLog, ValidBatch, OfConfig, IsRun, Chain, Inv;
  }

  lemma {:induction false} SuccessIsStored(s: State, logs: seq<Log>, v: nat, c: Config)
    requires Inv(s, logs) && v < |s.writers| && s.writers[v].phase.Done? && s.writers[v].phase.outcome.Success?
    ensures s.commits != [] && |logs| == |s.commits|
    ensures var j := s.commits[|s.commits| - 1];
      OfConfig(c, j) && j.first <= s.writers[v].batch.First() ==> AlreadyStored(s, logs, c, s.writers[v].batch)
  {
    hide OfConfig, Inside, Refines, Extends;
    assert |logs| == |s.commits| && WriterOk(s, logs, s.writers[v]);
    SuccessIsPermanent(s, logs, v, |s.commits|);
  }

  /**
    An exact retry: a batch whose call succeeded is handed in again. As long as the register is of the configuration
    and has not dropped the start of the batch, the retry succeeds at the current revision and commits nothing.
  */
  lemma {:induction false} RetryIsIdempotent(states: seq<State>, steps: seq<Step>, i: nat, v: nat, w: nat)
    requires IsRun(states, steps) && i < |steps| && steps[i] == Load(w)
    requires v < |states[i].writers| && w < |states[i].writers|
    requires states[i].writers[v].phase.Done? && states[i].writers[v].phase.outcome.Success?
    requires states[i].writers[v].batch == states[i].writers[w].batch
    requires states[i].commits != [] ==>
      var j := states[i].commits[|states[i].commits| - 1];
      OfConfig(states[i].writers[w].config, j) && j.first <= states[i].writers[w].batch.First()
    ensures w < |states[i + 1].writers| && states[i + 1].commits == states[i].commits != []
    ensures states[i + 1].writers[w].phase ==
      Done(Success(|states[i].commits|, states[i].commits[|states[i].commits| - 1]))
  {
    assert |states| == |steps| + 1;
    hide IsRun, OfConfig, Inv, AlreadyStored, Appendable, RefusedAt, Refines, Joined;
    var logs := RunChain(states, steps, i);
    LoadOutcome(states, steps, i, w, logs);
    SuccessIsStored(states[i], logs, v, states[i].writers[w].config);
  }

  predicate StorageFault(step: Step, w: nat) {
    step == LoadFails(w) || step == WriteFails(w) || step == WriteUnacknowledged(w)
  }

  ghost predicate Faulted(steps: seq<Step>, n: nat, w: nat)
    requires n <= |steps|
  {
    exists k :: 0 <= k < n && StorageFault(steps[k], w)
  }

  /** A call fails in storage only if storage failed it. */
  lemma {:induction false} StorageFailureHasFault(states: seq<State>, steps: seq<Step>, n: nat, w: nat)
    requires IsRun(states, steps) && n <= |steps| && w < |states[n].writers|
    ensures states[n].writers[w].phase == Done(Failure(Storage)) ==> Faulted(steps, n, w)
    decreases n
  {
    hide AfterLoad, Started;
    if n > 0 {
      var s, step := states[n - 1], steps[n - 1];
      assert Enabled(s, step) && states[n] == After(s, step);
      if w < |s.writers| {
        StorageFailureHasFault(states, steps, n - 1, w);
        if !StorageFault(step, w) {
          HonestStep(s, step, w);
        }
      } else {
        StartIsHonest(step.batch);
      }
    }
  }

  lemma {:induction false} StartIsHonest(b: Batch)
    ensures Started(b) != Done(Failure(Storage))
  {
  }

  lemma {:induction false} HonestStep(s: State, step: Step, w: nat)
    requires Enabled(s, step) && w < |s.writers| && !StorageFault(step, w)
    ensures w < |After(s, step).writers|
    ensures After(s, step).writers[w].phase == Done(Failure(Storage)) ==>
      s.writers[w].phase == Done(Failure(Storage))
  {
    hide Append, StoredProblem;
  }

  /**
    Every failure has its reason: storage failed the call, four other writes went through during it, the batch is
    malformed, or some register it loaded was not of its configuration or refused the batch for where it starts or
    for what it repeats.
  */
  lemma {:induction false} FailureHasReason(states: seq<State>, steps: seq<Step>, w: nat) returns (logs: seq<Log>)
    requires IsRun(states, steps) && w < |states[|steps|].writers|
    requires states[|steps|].writers[w].phase.Done? && states[|steps|].writers[w].phase.outcome.Failure?
    ensures Inv(states[|steps|], logs)
    ensures var s := states[|steps|]; var x := s.writers[w]; var error := x.phase.outcome.error;
      match error {
        case Storage => Faulted(steps, |steps|, w)
        case Contended(attempts) => attempts == RETRIES && x.since + RETRIES <= |s.commits|
        case InJournal(problem) =>
          !WellFormed(x.batch) ||
          exists r :: x.since <= r <= |s.commits| && RefusedAt(s.commits, logs, r, x.config, x.batch, problem)
      }
  {
    logs := WritersShareOneChain(states, steps);
    StorageFailureHasFault(states, steps, |steps|, w);
    hide Chain, RefusedAt, WellFormed, IsRun;
    assert WriterOk(states[|steps|], logs, states[|steps|].writers[w]);
  }
}
