/** How a session ends: what every holder has been told once the coordinator has stopped. */
module SessionEnds {
  import opened Coordinator
  import opened SessionInvariant
  import opened SessionOutcomes
  import opened SessionEvidence

  // ---- Lost cancellations -----------------------------------------------

  /** A cancellation that got no disposition belongs to a call that failed, with the same error if one was told. */
  ghost predicate LossOk(s: State, c: nat)
    requires c < |s.cancels|
  {
    var x := s.cancels[c].stage;
    && (x.Lost? ==> x.call < |s.calls| && s.calls[x.call].stage == Answered(Failed(x.error)))
    && (x.Dropped? ==> x.call < |s.calls| && FailedCall(s.calls[x.call].stage))
  }

  ghost predicate LossesOk(s: State) {
    forall c :: 0 <= c < |s.cancels| ==> LossOk(s, c)
  }

  /** Steps that lose no cancellation and leave answered calls answered. */
  lemma {:induction false} LossesKept(s: State, t: State)
    requires LossesOk(s) && |s.calls| <= |t.calls|
    requires forall k :: 0 <= k < |s.calls| && s.calls[k].stage.Answered? ==> t.calls[k].stage == s.calls[k].stage
    requires forall c :: 0 <= c < |t.cancels| && FailedCancel(t.cancels[c].stage) ==>
      c < |s.cancels| && t.cancels[c].stage == s.cancels[c].stage
    ensures LossesOk(t)
  {
    forall c | 0 <= c < |t.cancels| && FailedCancel(t.cancels[c].stage) ensures LossOk(t, c) {
      assert LossOk(s, c);
    }
  }

  /** A failing session; the cancellation of the active call may just have been dropped. */
  lemma {:induction false} FailAllLosses(s: State, error: Error, tell: bool)
    requires InRange(s) && (s.active.Some? ==> s.calls[s.active.value.call].stage.Live?)
    requires forall c :: 0 <= c < |s.cancels| ==>
      LossOk(s, c) || (s.active.Some? && s.cancels[c].stage == Dropped(s.active.value.call))
    ensures LossesOk(FailAll(s, error, tell))
  {
    forall c | 0 <= c < |s.cancels| ensures LossOk(FailAll(s, error, tell), c) {
      assert LossOk(s, c) || (s.active.Some? && s.cancels[c].stage == Dropped(s.active.value.call));
    }
  }

  lemma {:induction false} CancelLosses(s: State, c: nat, a: Answers)
    requires LossesOk(s) && CanTake(s, CancelCommand(c)) &&
      (s.active.Some? ==> s.calls[s.active.value.call].stage.Live?)
    ensures LossesOk(TakeCancel(s, c, a))
  {
    var u, t := Deny(s, c, Io), TakeCancel(s, c, a);
    LossesKept(s, u);
    FailAllLosses(u, Io, false);
    if t != FailAll(u, Io, false) {
      hide FailAll;
      LossesKept(s, t);
    }
  }

  /** A cancellation taken out of the active call and dropped, then the failure of the session. */
  lemma {:induction false} DroppedLosses(s: State, trace: seq<Traced>, error: Error)
    requires LossesOk(s) && InRange(s) && s.active.Some? && s.active.value.cancel.Some?
    requires s.calls[s.active.value.call].stage.Live?
    ensures var u := WithCancelStage(s.(active := Some(s.active.value.(cancel := None)), trace := trace),
      s.active.value.cancel.value, Dropped(s.active.value.call));
      InRange(u) && LossesOk(FailAll(u, error, true))
  {
    var c := s.active.value.cancel.value;
    var u := WithCancelStage(s.(active := Some(s.active.value.(cancel := None)), trace := trace), c,
      Dropped(s.active.value.call));
    forall d | 0 <= d < |u.cancels| && d != c ensures LossOk(u, d) {
      assert LossOk(s, d);
    }
    FailAllLosses(u, error, true);
  }

  lemma {:induction false} DispositionLosses(s: State, x: CancellationResult, a: Answers)
    requires LossesOk(s) && InRange(s) && (s.active.Some? ==> s.calls[s.active.value.call].stage.Live?)
    ensures LossesOk(TakeDisposition(s, x, a))
  {
    hide FailAll;
    if s.active.None? || s.active.value.cancel.None? {
      FailAllLosses(s, UnexpectedMessage, true);
    } else {
      var c := s.active.value.cancel.value;
      if !a.valid {
        DroppedLosses(s, s.trace + [CancelOver(c)], Protocol);
        hide LossesOk;
      } else if x.outcome.TooLate? && s.active.value.completed.None? {
        DroppedLosses(s, s.trace + [DispositionValid(c, x), CancelOver(c)], UnexpectedMessage);
        hide LossesOk;
      } else {
        hide LossesOk;
        LossesKept(s, TakeDisposition(s, x, a));
      }
    }
  }

  lemma {:induction false} FrameLosses(s: State, frame: Frame, a: Answers)
    requires LossesOk(s) && InRange(s) && (s.active.Some? ==> s.calls[s.active.value.call].stage.Live?)
    ensures LossesOk(TakeFrame(s, frame, a))
  {
    FailAllLosses(s, Channel, true);
    FailAllLosses(s, Protocol, true);
    FailAllLosses(s, UnexpectedMessage, true);
    hide FailAll, TakeDisposition, LossesOk;
    if frame.Message? && frame.message.CancellationMessage? {
      DispositionLosses(s, frame.message.result, a);
    } else {
      var t := TakeFrame(s, frame, a);
      if t.cancels == s.cancels && |t.calls| == |s.calls| &&
        forall k :: 0 <= k < |s.calls| && s.calls[k].stage.Answered? ==> t.calls[k].stage == s.calls[k].stage {
        LossesKept(s, t);
      }
    }
  }

  lemma {:induction false} TakeLosses(s: State, a: Answers)
    requires Inv(s) && LossesOk(s) && Enabled(s, Take(a))
    ensures LossesOk(After(s, Take(a)))
  {
    var t := s.(queue := s.queue[1..]);
    LossesKept(s, t);
    PopKeeps(s);
    if s.active.Some? {
      assert CallOk(s, s.active.value.call);
    }
    assert After(s, Take(a)) == TakeEvent(t, s.queue[0], a);
    FailAllLosses(t, Abandoned, true);
    hide Inv, FailAll, Enabled, After, LossesOk, TakeCancel, TakeFrame;
    match s.queue[0]
    case StartCommand(k) => LossesKept(t, TakeStart(t, k, a));
    case CancelCommand(c) => CancelLosses(t, c, a);
    case CloseCommand(i) => LossesKept(t, TakeClose(t, i, a));
    case AbandonCommand =>
    case FrameEvent(frame) => FrameLosses(t, frame, a);
  }

  lemma {:induction false} PollsKeepStage(s: State, step: Step)
    requires Enabled(s, step)
    ensures step.PollFirst? ==> PollResult(s, step.call).stage == s.calls[step.call].stage
    ensures step.PollSecond? ==> PollCancellation(s, step.call).stage == s.calls[step.call].stage
  {
  }

  lemma {:induction false} StepLosses(s: State, step: Step)
    requires Inv(s) && LossesOk(s) && Enabled(s, step)
    ensures LossesOk(After(s, step))
  {
    if step.Take? {
      TakeLosses(s, step.answers);
      hide LossesOk;
    } else if step.Send? && s.outbox.first.None? && s.outbox.second.None? && s.outbox.last.DemandFrame? &&
      s.reader.done {
      if s.active.Some? {
        assert CallOk(s, s.active.value.call);
      }
      FailAllLosses(s, Unavailable, false);
      hide LossesOk, FailAll;
    } else {
      hide Inv, LossesOk, PollResult, PollCancellation;
      PollsKeepStage(s, step);
      LossesKept(s, After(s, step));
    }
  }

  // ---- Closes -----------------------------------------------------------

  /** A close is queued, or waited for, or answered once; the commands left in the queue go unanswered at the end. */
  ghost predicate CloseOk(s: State, n: nat)
    requires n < |s.closes|
  {
    || (|s.closes[n]| == 1 && s.closing != Some(n) && CloseCommand(n) !in s.queue)
    || (s.closes[n] == [] && (s.stopped || s.closing == Some(n) || CloseCommand(n) in s.queue))
  }

  /** A close whose command was taken: it is being waited for or has its one answer. */
  ghost predicate CloseTaken(s: State, n: nat) {
    && n < |s.closes| && CloseCommand(n) !in s.queue
    && |s.closes[n]| == (if s.closing == Some(n) then 0 else 1)
  }

  /** No frame is asked for while a close is waited for. */
  ghost predicate NoDemandWhileClosing(s: State) {
    s.outbox.last.DemandFrame? ==> s.closing.None?
  }

  ghost predicate ClosesOk(s: State) {
    && NoDemandWhileClosing(s)
    && forall n :: 0 <= n < |s.closes| ==> CloseOk(s, n)
  }

  lemma {:induction false} TakeDemandsNotClosing(s: State, a: Answers)
    requires Inv(s) && Enabled(s, Take(a))
    ensures NoDemandWhileClosing(After(s, Take(a)))
  {
    hide CallOk, CancelOk, QueueOk, OutboxOk;
  }

  /** What taking an event does to one close: nothing, or one answer to the close taken or waited for. */
  ghost predicate ClosesStep(s: State, t: State, n: nat, taken: bool) {
    && |t.closes| == |s.closes| && t.queue == s.queue && !t.stopped && n < |s.closes|
    && if t.closing == Some(n) then (taken || s.closing == Some(n)) && t.closes[n] == s.closes[n]
       else if taken || s.closing == Some(n) then |t.closes[n]| == |s.closes[n]| + 1
       else t.closes[n] == s.closes[n]
  }

  lemma {:induction false} FailAllCloses(s: State, error: Error, tell: bool, n: nat)
    requires InRange(s) && !s.stopped && n < |s.closes| && (s.closing.Some? ==> tell)
    ensures ClosesStep(s, FailAll(s, error, tell), n, false)
  {
  }

  lemma {:induction false} FrameCloses(s: State, frame: Frame, a: Answers, n: nat)
    requires InRange(s) && !s.stopped && n < |s.closes| && (s.active.Some? ==> s.closing.None?)
    ensures ClosesStep(s, TakeFrame(s, frame, a), n, false)
  {
    FailAllCloses(s, Channel, true, n);
    FailAllCloses(s, Protocol, true, n);
    FailAllCloses(s, UnexpectedMessage, true, n);
    if s.active.Some? && s.active.value.cancel.Some? && frame.Message? && frame.message.CancellationMessage? {
      var k, c, x := s.active.value.call, s.active.value.cancel.value, frame.message.result;
      var t := s.(active := Some(s.active.value.(cancel := None)), trace := s.trace + [CancelOver(c)]);
      var u := WithCancelStage(t, c, Dropped(k));
      FailAllCloses(u, Protocol, true, n);
      FailAllCloses(u.(trace := s.trace + [DispositionValid(c, x), CancelOver(c)]), UnexpectedMessage, true, n);
    }
    hide FailAll;
  }

  lemma {:induction false} EventCloses(s: State, e: Event, a: Answers, n: nat)
    requires CanTake(s, e) && n < |s.closes| && !s.stopped && (s.active.Some? ==> s.closing.None?)
    requires e == CloseCommand(n) ==> s.closing != Some(n)
    ensures ClosesStep(s, TakeEvent(s, e, a), n, e == CloseCommand(n))
  {
    FailAllCloses(s, Abandoned, true, n);
    match e {
      case StartCommand(_) =>
      case CancelCommand(c) =>
        if s.active.Some? {
          FailAllCloses(Deny(s, c, Io), Io, false, n);
        }
        hide FailAll;
      case CloseCommand(_) =>
      case AbandonCommand =>
      case FrameEvent(frame) => FrameCloses(s, frame, a, n);
    }
    hide TakeFrame;
  }

  lemma {:induction false} TakeCloses(s: State, a: Answers, n: nat)
    requires Inv(s) && Enabled(s, Take(a)) && n < |s.closes|
    ensures n < |After(s, Take(a)).closes|
    ensures CloseOk(s, n) ==> CloseOk(After(s, Take(a)), n)
    ensures CloseTaken(s, n) ==> CloseTaken(After(s, Take(a)), n)
  {
    var t := s.(queue := s.queue[1..]);
    PopKeeps(s);
    var e := s.queue[0];
    assert s.queue == [e] + t.queue;
    assert e == CloseCommand(n) ==> s.closing != Some(n);
    assert s.active.Some? ==> s.closing.None?;
    EventCloses(t, e, a, n);
    hide Inv, TakeEvent;
  }

  lemma {:induction false} SendCloses(s: State, n: nat)
    requires Inv(s) && NoDemandWhileClosing(s) && Enabled(s, Send) && n < |s.closes|
    ensures NoDemandWhileClosing(After(s, Send)) && n < |After(s, Send).closes|
    ensures CloseOk(s, n) ==> CloseOk(After(s, Send), n)
    ensures CloseTaken(s, n) ==> CloseTaken(After(s, Send), n)
  {
    hide CallOk, CancelOk, QueueOk;
  }

  lemma {:induction false} StepCloses(s: State, step: Step, n: nat)
    requires Inv(s) && NoDemandWhileClosing(s) && Enabled(s, step) && n < |s.closes|
    ensures NoDemandWhileClosing(After(s, step)) && n < |After(s, step).closes|
    ensures CloseOk(s, n) ==> CloseOk(After(s, step), n)
    ensures CloseTaken(s, n) ==> CloseTaken(After(s, step), n)
  {
    if step.Take? {
      TakeCloses(s, step.answers, n);
      TakeDemandsNotClosing(s, step.answers);
      hide *;
    } else if step.Send? {
      SendCloses(s, n);
      hide *;
    } else {
      hide Inv;
      var t := After(s, step);
      assert t.closing == s.closing && t.stopped == s.stopped && t.outbox == s.outbox && t.closes[n] == s.closes[n];
      assert s.queue <= t.queue;
      assert |t.queue| <= |s.queue| + 1;
      assert forall i :: |s.queue| <= i < |t.queue| ==> t.queue[i] != CloseCommand(n);
      assert CloseCommand(n) in t.queue <==> CloseCommand(n) in s.queue by {
        assert forall i :: 0 <= i < |s.queue| ==> t.queue[i] == s.queue[i];
      }
    }
  }

  lemma {:induction false} StepEnds(s: State, step: Step)
    requires Inv(s) && ClosesOk(s) && LossesOk(s) && Enabled(s, step)
    ensures ClosesOk(After(s, step)) && LossesOk(After(s, step))
  {
    StepLosses(s, step);
    var t := After(s, step);
    assert |s.closes| <= |t.closes| <= |s.closes| + 1 && NoDemandWhileClosing(t) by {
      NewCloseQueued(s, step);
    }
    forall n | 0 <= n < |t.closes| ensures CloseOk(t, n) {
      NewCloseQueued(s, step);
      if n < |s.closes| {
        StepCloses(s, step, n);
      }
    }
    hide *;
  }

  lemma {:induction false} NewCloseQueued(s: State, step: Step)
    requires Inv(s) && NoDemandWhileClosing(s) && Enabled(s, step)
    ensures |s.closes| <= |After(s, step).closes| <= |s.closes| + 1 && NoDemandWhileClosing(After(s, step))
    ensures |After(s, step).closes| == |s.closes| + 1 ==> CloseOk(After(s, step), |s.closes|)
  {
    if step.Take? {
      TakeDemandsNotClosing(s, step.answers);
    }
    hide CallOk, CancelOk, QueueOk, OutboxOk, PollResult, PollCancellation;
  }

  lemma {:induction false} RunEnds(states: seq<State>, steps: seq<Step>, i: nat)
    requires IsRun(states, steps) && i <= |steps|
    ensures ClosesOk(states[i]) && LossesOk(states[i])
    decreases i
  {
    hide Inv, Enabled, After;
    if i > 0 {
      hide ClosesOk, LossesOk;
      RunEnds(states, steps, i - 1);
      RunKeeps(states, steps, i - 1);
      assert Enabled(states[i - 1], steps[i - 1]) && states[i] == After(states[i - 1], steps[i - 1]);
      StepEnds(states[i - 1], steps[i - 1]);
    }
  }

  lemma {:induction false} TakenStays(states: seq<State>, steps: seq<Step>, i: nat, j: nat, n: nat)
    requires IsRun(states, steps) && i <= j <= |steps| && CloseTaken(states[i], n)
    ensures CloseTaken(states[j], n)
    decreases j
  {
    hide Inv, Enabled, After;
    if i < j {
      TakenStays(states, steps, i, j - 1, n);
      RunEnds(states, steps, j - 1);
      RunKeeps(states, steps, j - 1);
      assert Enabled(states[j - 1], steps[j - 1]) && states[j] == After(states[j - 1], steps[j - 1]);
      StepCloses(states[j - 1], steps[j - 1], n);
    }
  }

  // ---- Once the coordinator has stopped ----------------------------------

  /** Every accepted invocation has exactly one outcome in its channel, every other one has none. */
  lemma {:induction false} StoppedCalls(states: seq<State>, steps: seq<Step>, i: nat, k: nat)
    requires IsRun(states, steps) && i <= |steps| && states[i].stopped && k < |states[i].calls|
    ensures var x := states[i].calls[k];
      && (x.accepted == [Accepted] ==> x.stage.Answered? && x.sent == [x.stage.outcome])
      && (x.accepted != [Accepted] ==> x.sent == [])
      && (x.accepted == [] <==> x.stage.Queued?) && |x.accepted| <= 1
  {
    RunKeeps(states, steps, i);
    assert CallOk(states[i], k);
    hide Enabled, After, CancelOk, QueueOk, OutboxOk;
  }

  /** Every cancellation that was sent has exactly one note in its channel, unless it was dropped together with the
      failure of its call. */
  lemma {:induction false} StoppedCancels(states: seq<State>, steps: seq<Step>, i: nat, c: nat)
    requires IsRun(states, steps) && i <= |steps| && states[i].stopped && c < |states[i].cancels|
    ensures var s := states[i]; var x := s.cancels[c];
      && (x.accepted == [Accepted] <==> Hit(x.stage).Some?)
      && (x.accepted == [Accepted] ==>
            && Hit(x.stage).value < |s.calls|
            && (if x.stage.Dropped? then x.sent == [] && FailedCall(s.calls[x.stage.call].stage)
                else NoteOf(x.stage).Some? && x.sent == [NoteOf(x.stage).value])
            && (x.stage.Lost? ==> s.calls[x.stage.call].stage == Answered(Failed(x.stage.error))))
      && (x.accepted != [Accepted] ==> x.sent == [])
  {
    RunKeeps(states, steps, i);
    RunEnds(states, steps, i);
    assert CancelOk(states[i], c) && LossOk(states[i], c);
    hide Enabled, After, CallOk, QueueOk, OutboxOk, DispositionOk;
  }

  /** Every close whose command was taken has exactly one answer in its channel. */
  lemma {:induction false} StoppedCloses(states: seq<State>, steps: seq<Step>, j: nat, i: nat, n: nat)
    requires IsRun(states, steps) && j <= i <= |steps| && states[i].stopped
    requires !states[j].stopped && n < |states[j].closes| && CloseCommand(n) !in states[j].queue
    ensures n < |states[i].closes| && |states[i].closes[n]| == 1
  {
    RunEnds(states, steps, j);
    assert CloseOk(states[j], n);
    TakenStays(states, steps, j, i, n);
    RunKeeps(states, steps, i);
    hide Enabled, After, CallOk, CancelOk, QueueOk, OutboxOk;
  }

  // ---- Too late ---------------------------------------------------------

  lemma {:induction false} TooLateBreaks(s: State, a: Answers)
    requires Inv(s) && Enabled(s, Take(a)) && a.unsealed && a.valid
    requires s.queue[0].FrameEvent? && s.queue[0].frame.Message? && s.queue[0].frame.message.CancellationMessage?
    requires s.queue[0].frame.message.result.outcome.TooLate?
    requires s.active.Some? && s.active.value.cancel.Some? && s.active.value.completed.None?
    ensures var t := After(s, Take(a));
      && Halting(t) && s.active.value.call < |t.calls| &&
        t.calls[s.active.value.call].stage == Answered(Failed(UnexpectedMessage))
      && s.active.value.cancel.value < |t.cancels| &&
        t.cancels[s.active.value.cancel.value].stage == Dropped(s.active.value.call)
  {
    hide CallOk, CancelOk, QueueOk, OutboxOk;
  }

  lemma {:induction false} HaltingStays(states: seq<State>, steps: seq<Step>, j: nat, i: nat, k: nat, c: nat)
    requires IsRun(states, steps) && j <= i <= |steps| && Halting(states[j]) && k < |states[j].calls| &&
      c < |states[j].cancels|
    requires states[j].calls[k].stage.Answered? && states[j].cancels[c].stage.Dropped?
    ensures Halting(states[i]) && k < |states[i].calls| && c < |states[i].cancels|
    ensures states[i].calls[k].stage == states[j].calls[k].stage &&
      states[i].cancels[c].stage == states[j].cancels[c].stage
    decreases i
  {
    hide Inv, Enabled, After;
    if j < i {
      HaltingStays(states, steps, j, i - 1, k, c);
      RunEvidence(states, steps, i - 1);
      RunEvidence(states, steps, i);
      assert Enabled(states[i - 1], steps[i - 1]) && states[i] == After(states[i - 1], steps[i - 1]);
      HaltingIsFinal(states[i - 1], steps[i - 1]);
      assert CallMoves(states[i - 1], states[i], k) && CancelMoves(states[i - 1], states[i], c);
    }
  }

  /** A cancellation stays with the call it was sent for, and the trace only grows. */
  lemma {:induction false} HitStays(states: seq<State>, steps: seq<Step>, j: nat, i: nat, c: nat)
    requires IsRun(states, steps) && j <= i <= |steps| && c < |states[j].cancels| &&
      Hit(states[j].cancels[c].stage).Some?
    ensures states[j].trace <= states[i].trace
    ensures c < |states[i].cancels| && Hit(states[i].cancels[c].stage) == Hit(states[j].cancels[c].stage)
    decreases i
  {
    hide Inv, Enabled, After;
    if j < i {
      HitStays(states, steps, j, i - 1, c);
      RunEvidence(states, steps, i);
      assert CancelMoves(states[i - 1], states[i], c);
    }
  }

  lemma {:induction false} HitInRange(s: State, c: nat)
    requires Inv(s) && c < |s.cancels| && Hit(s.cancels[c].stage).Some?
    ensures Hit(s.cancels[c].stage).value < |s.calls|
  {
    assert CancelOk(s, c);
  }

  /**
    A validated too-late answer comes after a validated result of the call it was sent for. If it does not, the
    call has failed, the cancellation is dropped and the session is over from then on.
  */
  lemma {:induction false} TooLateBeforeResultEndsSession(states: seq<State>, steps: seq<Step>, i: nat, n: nat)
      returns (k: nat)
    requires IsRun(states, steps) && i <= |steps| && n < |states[i].trace|
    requires states[i].trace[n].DispositionValid? && states[i].trace[n].disposition.outcome.TooLate?
    ensures k < |states[i].calls| && states[i].trace[n].cancel < |states[i].cancels|
    ensures Hit(states[i].cancels[states[i].trace[n].cancel].stage) == Some(k)
    ensures || (exists r :: ResultValid(k, r) in states[i].trace[..n])
            || (&& Halting(states[i]) && states[i].calls[k].stage == Answered(Failed(UnexpectedMessage))
                && states[i].cancels[states[i].trace[n].cancel].stage == Dropped(k))
  {
    var j := TraceIsWarranted(states, steps, i, n);
    var s, c := states[j], states[i].trace[n].cancel;
    assert IsPending(s, c) && Enabled(s, steps[j]) && states[j + 1] == After(s, steps[j]);
    hide Enabled, After, Moves;
    RunEvidence(states, steps, j);
    assert CancelOk(s, c);
    k := s.active.value.call;
    hide Inv;
    HitStays(states, steps, j, i, c);
    RunKeeps(states, steps, i);
    HitInRange(states[i], c);
    if s.active.value.completed.Some? {
      var r := s.active.value.completed.value;
      assert ResultValid(k, r) in s.trace && s.trace <= states[i].trace[..n];
      assert ResultValid(k, r) in states[i].trace[..n];
    } else {
      TooLateBreaks(s, steps[j].answers);
      HaltingStays(states, steps, j + 1, i, k, c);
    }
  }
}
