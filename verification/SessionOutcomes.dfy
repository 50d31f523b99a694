/** Why calls and cancellations end the way they do, over every run of a session. */
module SessionOutcomes {
  import opened Coordinator
  import opened SessionInvariant

  // ---- How a step can move a call or a cancellation ----------------------

  /** A validated acknowledgement for the cancellation then pending. */
  ghost predicate AcknowledgedNow(s: State, t: State, k: nat, x: CancellationResult) {
    && IsActive(s, k) && s.active.value.cancel.Some?
    && var c := s.active.value.cancel.value;
      && c < |t.cancels| && t.cancels[c].stage == Resolved(k, x)
      && DispositionValid(c, x) in t.trace
      && x.outcome.Acknowledged?
  }

  /** The only ways in which a call gets an outcome. */
  ghost predicate Earned(s: State, t: State, k: nat, outcome: Outcome) {
    && IsActive(s, k)
    && match outcome {
      case Completed(result) => ResultValid(k, result) in t.trace || s.active.value.completed == Some(result)
      case Cancelled(x) => AcknowledgedNow(s, t, k, x)
      case Failed(_) => Halting(t)
    }
  }

  ghost predicate CallMoves(s: State, t: State, k: nat)
    requires k < |s.calls|
  {
    && k < |t.calls|
    && t.calls[k].request == s.calls[k].request && t.calls[k].tool == s.calls[k].tool
    && match (s.calls[k].stage, t.calls[k].stage) {
      case (Queued, Live) => InvokeSent(k, s.calls[k].request, s.calls[k].tool) in t.trace
      case (Queued, Rejected) => true
      case (Live, Answered(outcome)) => Earned(s, t, k, outcome)
      case (before, after) => before == after
    }
  }

  ghost predicate CancelMoves(s: State, t: State, c: nat)
    requires c < |s.cancels|
  {
    && c < |t.cancels| && t.cancels[c].issuer == s.cancels[c].issuer
    && match (s.cancels[c].stage, t.cancels[c].stage) {
      case (Waiting, Denied) => true
      case (Waiting, Pending(k)) =>
        && IsActive(s, k) && IsActive(t, k) && s.active.value.cancel.None?
        && s.cancels[c].issuer < |s.calls|
        && CancelSent(c, s.calls[s.cancels[c].issuer].request, s.calls[s.cancels[c].issuer].tool) in t.trace
      case (Pending(k), Resolved(h, x)) => h == k && DispositionValid(c, x) in t.trace
      case (Pending(k), Lost(h, _)) => h == k && Halting(t)
      case (Pending(k), Dropped(h)) => h == k && Halting(t)
      case (before, after) => before == after
    }
  }

  /** The active call keeps a stored result that was validated. */
  ghost predicate StoredMoves(s: State, t: State) {
    t.active.Some? && t.active.value.completed.Some? ==>
      || (s.active.Some? && s.active.value.call == t.active.value.call &&
        s.active.value.completed == t.active.value.completed)
      || ResultValid(t.active.value.call, t.active.value.completed.value) in t.trace
  }

  ghost predicate Moves(s: State, t: State) {
    && s.trace <= t.trace
    && |s.calls| <= |t.calls| && |s.cancels| <= |t.cancels|
    && (forall k :: 0 <= k < |s.calls| ==> CallMoves(s, t, k))
    && (forall k :: |s.calls| <= k < |t.calls| ==> t.calls[k].stage.Queued?)
    && (forall c :: 0 <= c < |s.cancels| ==> CancelMoves(s, t, c))
    && (forall c :: |s.cancels| <= c < |t.cancels| ==> t.cancels[c].stage.Waiting?)
    && StoredMoves(s, t)
  }

  lemma {:induction false} FailAllMovesCall(s: State, error: Error, tell: bool, k: nat)
    requires Base(s) && k < |s.calls|
    ensures CallMoves(s, FailAll(s, error, tell), k)
  {
    assert CallOk(s, k);
    hide CallOk, CancelOk, QueueOk, OutboxOk;
  }

  lemma {:induction false} FailAllMovesCancel(s: State, error: Error, tell: bool, c: nat)
    requires Base(s) && c < |s.cancels|
    ensures CancelMoves(s, FailAll(s, error, tell), c)
  {
    assert CancelOk(s, c);
    hide CallOk, CancelOk, QueueOk, OutboxOk;
  }

  lemma {:induction false} FailAllMoves(s: State, error: Error, tell: bool)
    requires Base(s) && Free(s)
    ensures Moves(s, FailAll(s, error, tell))
  {
    var t := FailAll(s, error, tell);
    assert |t.calls| == |s.calls| && |t.cancels| == |s.cancels| && t.active.None? && s.trace <= t.trace;
    hide FailAll, CallMoves, CancelMoves;
    forall k | 0 <= k < |s.calls| ensures CallMoves(s, t, k) {
      FailAllMovesCall(s, error, tell, k);
    }
    forall c | 0 <= c < |s.cancels| ensures CancelMoves(s, t, c) {
      FailAllMovesCancel(s, error, tell, c);
    }
  }

  lemma {:induction false} TakeStartMoves(s: State, k: nat, a: Answers)
    requires k < |s.calls| && s.calls[k].stage.Queued?
    ensures Moves(s, TakeStart(s, k, a))
  {
  }

  lemma {:induction false} DenyMoves(s: State, c: nat, error: Error)
    requires c < |s.cancels| && s.cancels[c].stage.Waiting?
    ensures Moves(s, Deny(s, c, error))
  {
  }

  lemma {:induction false} TakeCancelMoves(s: State, c: nat, a: Answers)
    requires Inv(s) && Free(s) && c < |s.cancels| && s.cancels[c].stage.Waiting? && s.cancels[c].issuer < |s.calls|
    requires CancelCommand(c) !in s.queue
    ensures Moves(s, TakeCancel(s, c, a))
  {
    DenyMoves(s, c, NoActiveInvocation);
    DenyMoves(s, c, TargetMismatch);
    DenyMoves(s, c, CancellationPending);
    DenyMoves(s, c, Protocol);
    DenyKeeps(s, c, Io);
    DenyMoves(s, c, Io);
    var u := Deny(s, c, Io);
    var t := FailAll(u, Io, false);
    FailAllMoves(u, Io, false);
    hide Inv, Base;
    assert s.active.Some? && s.active.value.cancel.None? ==> Moves(s, t) by {
      if s.active.Some? && s.active.value.cancel.None? {
        DenyThenFail(s, u, t, c);
      }
    }
    hide FailAll, Deny;
    var v := TakeCancel(s, c, a);
    if v.active.Some? && s.active.Some? && v.active.value.cancel != s.active.value.cancel {
      assert Moves(s, v);
    }
  }

  lemma {:induction false} DenyThenFail(s: State, u: State, t: State, c: nat)
    requires Moves(u, t) && t.active.None? && t.stopped == s.stopped && Halting(t)
    requires u.active == s.active && u.calls == s.calls && u.trace == s.trace && |u.cancels| == |s.cancels|
    requires c < |s.cancels| && s.cancels[c].stage.Waiting? && u.cancels[c].stage.Denied? &&
      u.cancels[c].issuer == s.cancels[c].issuer
    requires forall d :: 0 <= d < |s.cancels| && d != c ==> u.cancels[d] == s.cancels[d]
    ensures Moves(s, t)
  {
    forall k | 0 <= k < |s.calls| ensures CallMoves(s, t, k) {
      assert CallMoves(u, t, k);
    }
    forall d | 0 <= d < |s.cancels| ensures CancelMoves(s, t, d) {
      assert CancelMoves(u, t, d);
    }
  }

  lemma {:induction false} TakeResultMoves(s: State, result: string, a: Answers)
    requires Inv(s) && Free(s)
    ensures Moves(s, TakeResult(s, result, a))
  {
    FailAllMoves(s, UnexpectedMessage, true);
    FailAllMoves(s, Protocol, true);
    if s.active.Some? {
      assert CallOk(s, s.active.value.call);
    }
    hide Inv, Base, CallOk, FailAll;
  }

  lemma {:induction false} InvalidDispositionMoves(s: State, trace: seq<Traced>, error: Error)
    requires Inv(s) && Free(s) && s.active.Some? && s.active.value.cancel.Some? && s.trace <= trace
    ensures var c := s.active.value.cancel.value;
      var u := WithCancelStage(s.(active := Some(s.active.value.(cancel := None)), trace := trace), c,
        Dropped(s.active.value.call));
      InRange(u) && Moves(s, FailAll(u, error, true))
  {
    var k := s.active.value.call;
    var c := s.active.value.cancel.value;
    var u := WithCancelStage(s.(active := Some(s.active.value.(cancel := None)), trace := trace), c, Dropped(k));
    DroppedKeeps(s, trace);
    FailAllMoves(u, error, true);
    FailAllKeeps(u, error, true);
    assert CancelOk(s, c);
    assert forall d :: 0 <= d < |s.cancels| && d != c ==> !s.cancels[d].stage.Pending? by {
      forall d | 0 <= d < |s.cancels| && d != c ensures !s.cancels[d].stage.Pending? {
        assert CancelOk(s, d);
      }
    }
    hide Inv, Base, CancelOk;
    assert FailAll(u, error, true).active.None?;
    hide FailAll;
    DropThenFail(s, u, FailAll(u, error, true), c, k);
  }

  lemma {:induction false} TakeDispositionMoves(s: State, x: CancellationResult, a: Answers)
    requires Inv(s) && Free(s)
    ensures Moves(s, TakeDisposition(s, x, a))
  {
    FailAllMoves(s, UnexpectedMessage, true);
    if s.active.Some? && s.active.value.cancel.Some? {
      var k := s.active.value.call;
      var c := s.active.value.cancel.value;
      assert CallOk(s, k) && CancelOk(s, c);
      if !a.valid {
        InvalidDispositionMoves(s, s.trace + [CancelOver(c)], Protocol);
        hide Inv, Base, FailAll, Moves;
      } else if x.outcome.TooLate? && s.active.value.completed.None? {
        InvalidDispositionMoves(s, s.trace + [DispositionValid(c, x), CancelOver(c)], UnexpectedMessage);
        hide Inv, Base, FailAll, Moves;
      } else {
        hide Inv, Base, CallOk, CancelOk, FailAll;
      }
    } else {
      hide Inv, Base, FailAll;
    }
  }

  lemma {:induction false} DropThenFail(s: State, u: State, t: State, c: nat, k: nat)
    requires Moves(u, t) && t.active.None? && Halting(t)
    requires IsActive(s, k) && u.active == Some(s.active.value.(cancel := None))
    requires u.calls == s.calls && s.trace <= u.trace && |u.cancels| == |s.cancels|
    requires c < |s.cancels| && s.cancels[c].stage == Pending(k) && u.cancels[c].stage == Dropped(k) &&
      u.cancels[c].issuer == s.cancels[c].issuer
    requires forall d :: 0 <= d < |s.cancels| && d != c ==> u.cancels[d] == s.cancels[d] && !s.cancels[d].stage.Pending?
    ensures Moves(s, t)
  {
    forall j | 0 <= j < |s.calls| ensures CallMoves(s, t, j) {
      assert CallMoves(u, t, j);
    }
    forall d | 0 <= d < |s.cancels| ensures CancelMoves(s, t, d) {
      assert CancelMoves(u, t, d);
    }
  }

  lemma {:induction false} TakeFrameMoves(s: State, frame: Frame, a: Answers)
    requires Inv(s) && Free(s)
    ensures Moves(s, TakeFrame(s, frame, a))
  {
    FailAllMoves(s, Channel, true);
    FailAllMoves(s, Protocol, true);
    FailAllMoves(s, UnexpectedMessage, true);
    if frame.Message? && frame.message.ResultMessage? {
      TakeResultMoves(s, frame.message.payload, a);
      hide Moves;
    } else if frame.Message? && frame.message.CancellationMessage? {
      TakeDispositionMoves(s, frame.message.result, a);
      hide Moves;
    }
    hide Inv, Base, FailAll, TakeResult, TakeDisposition;
  }

  lemma {:induction false} TakeMoves(s: State, a: Answers)
    requires Inv(s) && Enabled(s, Take(a))
    ensures Moves(s, After(s, Take(a)))
  {
    PopKeeps(s);
    var e := s.queue[0];
    var t := s.(queue := s.queue[1..]);
    assert Free(t);
    match e {
      case StartCommand(k) => TakeStartMoves(t, k, a);
      case CancelCommand(c) => TakeCancelMoves(t, c, a);
      case CloseCommand(i) =>
      case AbandonCommand => FailAllMoves(t, Abandoned, true);
      case FrameEvent(frame) => TakeFrameMoves(t, frame, a);
    }
    hide Inv, TakeStart, TakeCancel, TakeFrame, FailAll;
    assert Moves(t, TakeEvent(t, e, a));
    SameMoves(s, t, TakeEvent(t, e, a));
  }

  lemma {:induction false} SameMoves(s: State, t: State, u: State)
    requires t == s.(queue := t.queue) && Moves(t, u)
    ensures Moves(s, u)
  {
    forall k | 0 <= k < |s.calls| ensures CallMoves(s, u, k) {
      assert CallMoves(t, u, k);
    }
    forall d | 0 <= d < |s.cancels| ensures CancelMoves(s, u, d) {
      assert CancelMoves(t, u, d);
    }
  }

  lemma {:induction false} StepMoves(s: State, step: Step)
    requires Inv(s) && Enabled(s, step)
    ensures Moves(s, After(s, step))
  {
    if step.Take? {
      TakeMoves(s, step.answers);
      hide Moves;
    } else if step.Send? && s.outbox.first.None? && s.outbox.second.None? && s.outbox.last.DemandFrame? &&
      s.reader.done {
      FailAllMoves(s, Unavailable, false);
      hide Moves, FailAll;
    } else {
      hide Inv, PollResult, PollCancellation;
      QuietMoves(s, step);
    }
  }

  /** Nothing but channels, readings and new commands changed. */
  ghost predicate Unmoved(s: State, t: State) {
    && t.trace == s.trace && |s.calls| <= |t.calls| && |s.cancels| <= |t.cancels|
    && (forall k :: 0 <= k < |s.calls| ==>
          t.calls[k].stage == s.calls[k].stage && t.calls[k].request == s.calls[k].request &&
            t.calls[k].tool == s.calls[k].tool)
    && (forall k :: |s.calls| <= k < |t.calls| ==> t.calls[k].stage.Queued?)
    && (forall c :: 0 <= c < |s.cancels| ==>
      t.cancels[c].stage == s.cancels[c].stage && t.cancels[c].issuer == s.cancels[c].issuer)
    && (forall c :: |s.cancels| <= c < |t.cancels| ==> t.cancels[c].stage.Waiting?)
    && (t.active == s.active || t.active.None?)
  }

  lemma {:induction false} UnmovedMoves(s: State, t: State)
    requires Unmoved(s, t)
    ensures Moves(s, t)
  {
  }

  lemma {:induction false} PollUnmoved(s: State, step: Step)
    requires Enabled(s, step) && (step.PollFirst? || step.PollSecond? || step.HearAccepted?)
    ensures Unmoved(s, After(s, step))
  {
  }

  lemma {:induction false} QuietMoves(s: State, step: Step)
    requires Enabled(s, step) && !step.Take?
    requires !(step.Send? && s.outbox.first.None? && s.outbox.second.None? && s.outbox.last.DemandFrame? &&
      s.reader.done)
    ensures Moves(s, After(s, step))
  {
    hide Moves;
    var t := After(s, step);
    if step.PollFirst? || step.PollSecond? || step.HearAccepted? {
      PollUnmoved(s, step);
      hide After, Unmoved;
      UnmovedMoves(s, t);
    } else {
      assert Unmoved(s, t);
      UnmovedMoves(s, t);
    }
  }

  // ---- Evidence ---------------------------------------------------------

  ghost predicate CallEvidence(s: State, k: nat)
    requires k < |s.calls|
  {
    var x := s.calls[k];
    && (x.stage.Live? || x.stage.Answered? ==> InvokeSent(k, x.request, x.tool) in s.trace)
    && (x.stage.Answered? && x.stage.outcome.Completed? ==> ResultValid(k, x.stage.outcome.result) in s.trace)
    && (x.stage.Answered? && x.stage.outcome.Cancelled? ==>
      exists c :: AcknowledgedBy(s, k, c, x.stage.outcome.acknowledgement))
  }

  ghost predicate AcknowledgedBy(s: State, k: nat, c: nat, x: CancellationResult) {
    && c < |s.cancels| && s.cancels[c].stage == Resolved(k, x)
    && x.outcome.Acknowledged?
    && DispositionValid(c, x) in s.trace
  }

  ghost predicate CancelEvidence(s: State, c: nat)
    requires c < |s.cancels|
  {
    var x := s.cancels[c];
    && (Hit(x.stage).Some? ==>
          x.issuer < |s.calls| && CancelSent(c, s.calls[x.issuer].request, s.calls[x.issuer].tool) in s.trace)
    && (x.stage.Resolved? ==> DispositionValid(c, x.stage.result) in s.trace)
  }

  ghost predicate StoredEvidence(s: State) {
    s.active.Some? && s.active.value.completed.Some? ==>
      ResultValid(s.active.value.call, s.active.value.completed.value) in s.trace
  }

  ghost predicate Evidence(s: State) {
    && (forall k :: 0 <= k < |s.calls| ==> CallEvidence(s, k))
    && (forall c :: 0 <= c < |s.cancels| ==> CancelEvidence(s, c))
    && StoredEvidence(s)
  }

  lemma {:induction false} CallEvidenceKept(s: State, t: State, k: nat)
    requires Evidence(s) && Moves(s, t) && k < |s.calls|
    ensures CallEvidence(t, k)
  {
    assert CallEvidence(s, k) && CallMoves(s, t, k);
    var x := t.calls[k].stage;
    if x.Answered? && x.outcome.Cancelled? {
      if s.calls[k].stage == x {
        var c :| AcknowledgedBy(s, k, c, x.outcome.acknowledgement);
        assert CancelMoves(s, t, c);
        assert AcknowledgedBy(t, k, c, x.outcome.acknowledgement);
      } else {
        assert AcknowledgedBy(t, k, s.active.value.cancel.value, x.outcome.acknowledgement);
      }
    }
  }

  lemma {:induction false} StepEvidence(s: State, t: State)
    requires Evidence(s) && Moves(s, t)
    ensures Evidence(t)
  {
    forall k | 0 <= k < |t.calls| ensures CallEvidence(t, k) {
      if k < |s.calls| {
        CallEvidenceKept(s, t, k);
      }
    }
    forall c | 0 <= c < |t.cancels| ensures CancelEvidence(t, c) {
      if c < |s.cancels| {
        assert CancelEvidence(s, c) && CancelMoves(s, t, c);
        if s.cancels[c].issuer < |s.calls| {
          assert CallMoves(s, t, s.cancels[c].issuer);
        }
      }
    }
  }

  lemma {:induction false} RunEvidence(states: seq<State>, steps: seq<Step>, i: nat)
    requires IsRun(states, steps) && i <= |steps|
    ensures Inv(states[i]) && Evidence(states[i])
    ensures i > 0 ==> Moves(states[i - 1], states[i])
    decreases i
  {
    RunKeeps(states, steps, i);
    hide Inv, Enabled, After, Moves;
    if i > 0 {
      hide Evidence;
      RunEvidence(states, steps, i - 1);
      assert Enabled(states[i - 1], steps[i - 1]) && states[i] == After(states[i - 1], steps[i - 1]);
      StepMoves(states[i - 1], steps[i - 1]);
      StepEvidence(states[i - 1], states[i]);
    }
  }

  // ---- What holders of handles can rely on -------------------------------

  /**
    Over every run each invocation is sent at most one outcome, and only if its start was accepted. A completed
    outcome carries a validated result, a cancelled outcome the validated acknowledgement of a cancellation that
    was sent for this call, and after a failure the coordinator is on its way out.
  */
  lemma {:induction false} OutcomesAreEarned(states: seq<State>, steps: seq<Step>, i: nat, k: nat)
    requires IsRun(states, steps) && i <= |steps| && k < |states[i].calls|
    ensures var s := states[i]; var x := s.calls[k];
      && |x.sent| <= 1
      && (x.sent != [] ==> x.accepted == [Accepted] && InvokeSent(k, x.request, x.tool) in s.trace)
      && (x.sent != [] && x.sent[0].Completed? ==> ResultValid(k, x.sent[0].result) in s.trace)
      && (x.sent != [] && x.sent[0].Cancelled? ==> exists c :: AcknowledgedBy(s, k, c, x.sent[0].acknowledgement))
      && (x.sent != [] && x.sent[0].Failed? ==> Halting(s))
  {
    RunEvidence(states, steps, i);
    assert CallOk(states[i], k) && CallEvidence(states[i], k);
    hide Enabled, After, OutboxOk, QueueOk;
  }

  /** What a holder was sent is never taken back or followed by something else. */
  lemma {:induction false} OutcomesAreFinal(states: seq<State>, steps: seq<Step>, i: nat, j: nat, k: nat)
    requires IsRun(states, steps) && i <= j <= |steps| && k < |states[i].calls|
    ensures k < |states[j].calls|
    ensures states[i].calls[k].sent != [] ==> states[j].calls[k].sent == states[i].calls[k].sent
    decreases j
  {
    hide Enabled, After;
    if i < j {
      OutcomesAreFinal(states, steps, i, j - 1, k);
      RunEvidence(states, steps, j);
      RunEvidence(states, steps, j - 1);
      var s, t := states[j - 1], states[j];
      assert CallMoves(s, t, k);
      assert CallOk(s, k) && CallOk(t, k);
      if s.calls[k].sent != [] {
        assert states[j] == After(states[j - 1], steps[j - 1]) && Enabled(s, steps[j - 1]);
        SentOnlyGrows(s, steps[j - 1], k);
      }
    }
  }

  /** Handling an event decides; only sending and polling touch the channels and what was read from them. */
  ghost predicate SameChannels(s: State, t: State) {
    && |t.calls| == |s.calls| && |t.cancels| == |s.cancels|
    && (forall k :: 0 <= k < |s.calls| ==>
          t.calls[k].sent == s.calls[k].sent && t.calls[k].read == s.calls[k].read &&
            t.calls[k].binding == s.calls[k].binding)
    && (forall c :: 0 <= c < |s.cancels| ==>
          t.cancels[c].sent == s.cancels[c].sent && t.cancels[c].read == s.cancels[c].read &&
            t.cancels[c].issuer == s.cancels[c].issuer)
  }

  lemma {:induction false} FailAllChannels(s: State, error: Error, tell: bool)
    requires InRange(s)
    ensures SameChannels(s, FailAll(s, error, tell))
  {
  }

  lemma {:induction false} SameChannelsThrough(s: State, t: State, u: State)
    requires SameChannels(s, t) && SameChannels(t, u)
    ensures SameChannels(s, u)
  {
  }

  lemma {:induction false} DroppedChannels(s: State, trace: seq<Traced>, error: Error)
    requires InRange(s) && s.active.Some? && s.active.value.cancel.Some?
    ensures var u := WithCancelStage(s.(active := Some(s.active.value.(cancel := None)), trace := trace),
      s.active.value.cancel.value, Dropped(s.active.value.call));
      InRange(u) && SameChannels(s, FailAll(u, error, true))
  {
    var u := WithCancelStage(s.(active := Some(s.active.value.(cancel := None)), trace := trace),
      s.active.value.cancel.value, Dropped(s.active.value.call));
    FailAllChannels(u, error, true);
    hide FailAll;
    SameChannelsThrough(s, u, FailAll(u, error, true));
  }

  lemma {:induction false} DispositionChannels(s: State, x: CancellationResult, a: Answers)
    requires InRange(s)
    ensures SameChannels(s, TakeDisposition(s, x, a))
  {
    FailAllChannels(s, UnexpectedMessage, true);
    hide FailAll;
    if s.active.Some? && s.active.value.cancel.Some? {
      var c := s.active.value.cancel.value;
      if !a.valid {
        DroppedChannels(s, s.trace + [CancelOver(c)], Protocol);
        hide SameChannels;
      } else if x.outcome.TooLate? && s.active.value.completed.None? {
        DroppedChannels(s, s.trace + [DispositionValid(c, x), CancelOver(c)], UnexpectedMessage);
        hide SameChannels;
      }
    }
  }

  lemma {:induction false} FrameChannels(s: State, frame: Frame, a: Answers)
    requires InRange(s)
    ensures SameChannels(s, TakeFrame(s, frame, a))
  {
    hide FailAll, TakeDisposition;
    if frame.Message? && frame.message.CancellationMessage? {
      DispositionChannels(s, frame.message.result, a);
      FailAllChannels(s, Protocol, true);
      hide SameChannels;
    } else {
      FailAllChannels(s, Channel, true);
      FailAllChannels(s, Protocol, true);
      FailAllChannels(s, UnexpectedMessage, true);
    }
  }

  lemma {:induction false} DenyChannels(s: State, c: nat, error: Error)
    requires c < |s.cancels|
    ensures SameChannels(s, Deny(s, c, error))
  {
  }

  lemma {:induction false} SendCancelChannels(s: State, c: nat, active: Option<Active>, stage: CancelStage,
      accepted: seq<Reply>, trace: seq<Traced>)
    requires c < |s.cancels|
    ensures SameChannels(s, s.(active := active, cancels :=
      s.cancels[c := s.cancels[c].(stage := stage, accepted := accepted)], trace := trace))
  {
  }

  lemma {:induction false} CancelChannels(s: State, c: nat, a: Answers)
    requires CanTake(s, CancelCommand(c))
    ensures SameChannels(s, TakeCancel(s, c, a))
  {
    hide FailAll, SameChannels, Deny;
    var u := Deny(s, c, Io);
    DenyChannels(s, c, NoActiveInvocation);
    DenyChannels(s, c, TargetMismatch);
    DenyChannels(s, c, CancellationPending);
    DenyChannels(s, c, Protocol);
    DenyChannels(s, c, Io);
    DeniedInRange(s, c);
    FailAllChannels(u, Io, false);
    SameChannelsThrough(s, u, FailAll(u, Io, false));
    if s.active.Some? {
      var from := s.calls[s.cancels[c].issuer];
      SendCancelChannels(s, c, Some(s.active.value.(cancel := Some(c))), Pending(s.active.value.call),
        s.cancels[c].accepted + [Accepted],
        s.trace + [CancelSent(c, from.request, from.tool)]);
    }
  }

  lemma {:induction false} DeniedInRange(s: State, c: nat)
    requires InRange(s) && c < |s.cancels|
    ensures InRange(Deny(s, c, Io))
  {
  }

  lemma {:induction false} TakeChannels(s: State, e: Event, a: Answers)
    requires CanTake(s, e)
    ensures SameChannels(s, TakeEvent(s, e, a))
  {
    hide FailAll, TakeFrame, TakeCancel;
    match e
    case StartCommand(_) =>
    case CancelCommand(c) => CancelChannels(s, c, a);
    case CloseCommand(_) =>
    case AbandonCommand => FailAllChannels(s, Abandoned, true);
    case FrameEvent(frame) => FrameChannels(s, frame, a);
  }

  lemma {:induction false} TakeStepChannels(s: State, a: Answers)
    requires Enabled(s, Take(a))
    ensures SameChannels(s, After(s, Take(a)))
  {
    var t := s.(queue := s.queue[1..]);
    assert SameChannels(s, t);
    TakeChannels(t, s.queue[0], a);
    hide TakeEvent, SameChannels;
    SameChannelsThrough(s, t, TakeEvent(t, s.queue[0], a));
  }

  /** A send adds to one channel and touches nothing else that a holder can see. */
  ghost predicate ChannelsGrow(s: State, t: State) {
    && |t.calls| == |s.calls| && |t.cancels| == |s.cancels|
    && (forall k :: 0 <= k < |s.calls| ==>
          s.calls[k].sent <= t.calls[k].sent && t.calls[k].read == s.calls[k].read &&
            t.calls[k].binding == s.calls[k].binding)
    && (forall c :: 0 <= c < |s.cancels| ==>
          s.cancels[c].sent <= t.cancels[c].sent && t.cancels[c].read == s.cancels[c].read &&
            t.cancels[c].issuer == s.cancels[c].issuer)
  }

  lemma {:induction false} SendStepChannels(s: State)
    requires Enabled(s, Send)
    ensures ChannelsGrow(s, After(s, Send))
  {
    if s.outbox.first.None? && s.outbox.second.None? {
      FailAllChannels(s, Unavailable, false);
      hide FailAll;
    }
  }

  lemma {:induction false} SentOnlyGrows(s: State, step: Step, k: nat)
    requires Enabled(s, step) && k < |s.calls|
    ensures k < |After(s, step).calls| && s.calls[k].sent <= After(s, step).calls[k].sent
  {
    if step.Take? {
      TakeStepChannels(s, step.answers);
      hide After;
    } else if step.Send? {
      SendStepChannels(s);
      hide After;
    }
  }

  /** Once it is on its way out the coordinator takes no event, writes nothing and decides nothing more. */
  lemma {:induction false} HaltingIsFinal(s: State, step: Step)
    requires Inv(s) && Halting(s) && Enabled(s, step)
    ensures !step.Take?
    ensures Halting(After(s, step)) && After(s, step).trace == s.trace
    ensures forall k :: 0 <= k < |s.calls| ==>
      k < |After(s, step).calls| && After(s, step).calls[k].stage == s.calls[k].stage
  {
    hide CallOk, CancelOk, QueueOk, EventOk;
  }

  /** A running coordinator is never stuck on a command or a send it cannot perform. */
  lemma {:induction false} NeverStuck(s: State, a: Answers)
    requires Inv(s) && !s.stopped
    ensures s.outbox == IDLE && s.queue != [] ==> Enabled(s, Take(a))
    ensures s.outbox != IDLE ==> Enabled(s, Send)
  {
    if s.queue != [] {
      PopKeeps(s);
    }
    hide CallOk, CancelOk;
  }
}
