/** Where the entries of a session's trace come from: what was asked, and what authorizer, writer and opener answered.
    */
module SessionEvidence {
  import opened Coordinator
  import opened SessionInvariant
  import opened SessionOutcomes

  /** What must have happened for an entry to be written while event `e` is handled. */
  ghost predicate Warranted(s: State, e: Event, a: Answers, x: Traced) {
    match x
    case InvokeSent(k, request, tool) =>
      && e == StartCommand(k) && a.authorized && a.written && s.active.None? && s.closing.None?
      && k < |s.calls| && request == s.calls[k].request && tool == s.calls[k].tool
    case CancelSent(c, request, tool) =>
      && e == CancelCommand(c) && a.authorized && a.written && c < |s.cancels| && s.active.Some? &&
        s.active.value.cancel.None?
      && s.active.value.call < |s.calls|
      && request == s.calls[s.active.value.call].request && tool == s.calls[s.active.value.call].tool
    case CloseSent => e.CloseCommand? && a.written && s.active.None? && s.closing.None?
    case ResultValid(k, result) => e == FrameEvent(Message(ResultMessage(result))) && a.unsealed && a.valid &&
      IsActive(s, k)
    case DispositionValid(c, result) =>
      e == FrameEvent(Message(CancellationMessage(result))) && a.unsealed && a.valid && IsPending(s, c)
    case CallOver(k) => IsActive(s, k)
    case CancelOver(c) => IsPending(s, c)
  }

  ghost predicate AllWarranted(s: State, t: State, e: Event, a: Answers) {
    && s.trace <= t.trace
    && forall n :: |s.trace| <= n < |t.trace| ==> Warranted(s, e, a, t.trace[n])
  }

  lemma {:induction false} FailAllWarranted(s: State, error: Error, tell: bool, e: Event, a: Answers)
    requires InRange(s)
    ensures AllWarranted(s, FailAll(s, error, tell), e, a)
  {
  }

  /** A first entry and what follows it. */
  lemma {:induction false} WarrantedThrough(s: State, u: State, t: State, e: Event, a: Answers)
    requires AllWarranted(s, u, e, a) && AllWarranted(u, t, e, a)
    requires forall n :: |u.trace| <= n < |t.trace| ==> t.trace[n].CallOver? || t.trace[n].CancelOver?
    requires u.active.Some? ==> s.active.Some? && s.active.value.call == u.active.value.call
    requires u.active.Some? && u.active.value.cancel.Some? ==> s.active.value.cancel == u.active.value.cancel
    ensures AllWarranted(s, t, e, a)
  {
    forall n | |s.trace| <= n < |t.trace| ensures Warranted(s, e, a, t.trace[n]) {
      if n < |u.trace| {
        assert t.trace[n] == u.trace[n];
      } else {
        assert Warranted(u, e, a, t.trace[n]);
      }
    }
  }

  lemma {:induction false} FailAllOnlyEnds(s: State, error: Error, tell: bool)
    requires InRange(s)
    ensures s.trace <= FailAll(s, error, tell).trace
    ensures forall n :: |s.trace| <= n < |FailAll(s, error, tell).trace| ==>
      FailAll(s, error, tell).trace[n].CallOver? || FailAll(s, error, tell).trace[n].CancelOver?
  {
  }

  lemma {:induction false} DroppedWarranted(s: State, trace: seq<Traced>, error: Error, e: Event, a: Answers)
    requires InRange(s) && s.active.Some? && s.active.value.cancel.Some?
    requires s.trace <= trace && forall n :: |s.trace| <= n < |trace| ==> Warranted(s, e, a, trace[n])
    ensures var u := WithCancelStage(s.(active := Some(s.active.value.(cancel := None)), trace := trace),
      s.active.value.cancel.value, Dropped(s.active.value.call));
      InRange(u) && AllWarranted(s, FailAll(u, error, true), e, a)
  {
    var u := WithCancelStage(s.(active := Some(s.active.value.(cancel := None)), trace := trace),
      s.active.value.cancel.value, Dropped(s.active.value.call));
    FailAllWarranted(u, error, true, e, a);
    FailAllOnlyEnds(u, error, true);
    hide FailAll;
    WarrantedThrough(s, u, FailAll(u, error, true), e, a);
  }

  lemma {:induction false} DispositionWarranted(s: State, x: CancellationResult, a: Answers)
    requires InRange(s) && a.unsealed
    ensures AllWarranted(s, TakeDisposition(s, x, a), FrameEvent(Message(CancellationMessage(x))), a)
  {
    var e := FrameEvent(Message(CancellationMessage(x)));
    FailAllWarranted(s, UnexpectedMessage, true, e, a);
    hide FailAll;
    if s.active.Some? && s.active.value.cancel.Some? {
      var c := s.active.value.cancel.value;
      if !a.valid {
        DroppedWarranted(s, s.trace + [CancelOver(c)], Protocol, e, a);
        hide AllWarranted;
      } else if x.outcome.TooLate? && s.active.value.completed.None? {
        DroppedWarranted(s, s.trace + [DispositionValid(c, x), CancelOver(c)], UnexpectedMessage, e, a);
        hide AllWarranted;
      }
    }
  }

  lemma {:induction false} ResultWarranted(s: State, result: string, a: Answers)
    requires InRange(s) && a.unsealed
    ensures AllWarranted(s, TakeResult(s, result, a), FrameEvent(Message(ResultMessage(result))), a)
  {
    var e := FrameEvent(Message(ResultMessage(result)));
    FailAllWarranted(s, UnexpectedMessage, true, e, a);
    FailAllWarranted(s, Protocol, true, e, a);
    hide FailAll;
  }

  lemma {:induction false} FrameWarranted(s: State, frame: Frame, a: Answers)
    requires InRange(s)
    ensures AllWarranted(s, TakeFrame(s, frame, a), FrameEvent(frame), a)
  {
    var e := FrameEvent(frame);
    FailAllWarranted(s, Channel, true, e, a);
    FailAllWarranted(s, Protocol, true, e, a);
    FailAllWarranted(s, UnexpectedMessage, true, e, a);
    hide FailAll, TakeResult, TakeDisposition;
    if frame.Message? && a.unsealed && frame.message.ResultMessage? {
      ResultWarranted(s, frame.message.payload, a);
      hide AllWarranted;
    } else if frame.Message? && a.unsealed && frame.message.CancellationMessage? {
      DispositionWarranted(s, frame.message.result, a);
      hide AllWarranted;
    }
  }

  lemma {:induction false} CancelWarranted(s: State, c: nat, a: Answers)
    requires CanTake(s, CancelCommand(c))
    ensures AllWarranted(s, TakeCancel(s, c, a), CancelCommand(c), a)
  {
    var u := Deny(s, c, Io);
    FailAllWarranted(u, Io, false, CancelCommand(c), a);
    FailAllOnlyEnds(u, Io, false);
    hide FailAll;
    assert AllWarranted(s, u, CancelCommand(c), a);
    WarrantedThrough(s, u, FailAll(u, Io, false), CancelCommand(c), a);
  }

  /** Handling an event writes only what the event asks for and the answers allow. */
  lemma {:induction false} TakeWarranted(s: State, e: Event, a: Answers)
    requires CanTake(s, e)
    ensures AllWarranted(s, TakeEvent(s, e, a), e, a)
  {
    hide FailAll, TakeFrame, TakeCancel;
    match e
    case StartCommand(_) =>
    case CancelCommand(c) => CancelWarranted(s, c, a);
    case CloseCommand(_) =>
    case AbandonCommand => FailAllWarranted(s, Abandoned, true, e, a);
    case FrameEvent(frame) => FrameWarranted(s, frame, a);
  }

  lemma {:induction false} OtherStepsOnlyEnd(s: State, step: Step)
    requires Enabled(s, step) && !step.Take?
    ensures s.trace <= After(s, step).trace
    ensures forall n :: |s.trace| <= n < |After(s, step).trace| ==>
      After(s, step).trace[n].CallOver? || After(s, step).trace[n].CancelOver?
  {
    if step.Send? {
      FailAllOnlyEnds(s, Unavailable, false);
      hide FailAll;
    }
  }

  /**
    In every run every sent message and every piece of evidence was written while its own event was handled, and
    only because authorizer, writer, opener and validator allowed it then.
  */
  lemma {:induction false} TraceIsWarranted(states: seq<State>, steps: seq<Step>, i: nat, n: nat) returns (j: nat)
    requires IsRun(states, steps) && i <= |steps| && n < |states[i].trace|
    requires !states[i].trace[n].CallOver? && !states[i].trace[n].CancelOver?
    ensures j < i && steps[j].Take? && states[j].queue != []
    ensures |states[j].trace| <= n < |states[j + 1].trace| && states[j + 1].trace[n] == states[i].trace[n]
    ensures Warranted(states[j], states[j].queue[0], steps[j].answers, states[i].trace[n])
    decreases i
  {
    hide Enabled, After, Warranted;
    assert i > 0;
    var s, t := states[i - 1], states[i];
    assert Enabled(s, steps[i - 1]) && t == After(s, steps[i - 1]);
    if steps[i - 1].Take? {
      TakeStepWarranted(s, steps[i - 1].answers);
    } else {
      OtherStepsOnlyEnd(s, steps[i - 1]);
    }
    if n < |s.trace| {
      assert s.trace[n] == t.trace[n];
      j := TraceIsWarranted(states, steps, i - 1, n);
    } else {
      j := i - 1;
    }
  }

  lemma {:induction false} TakeStepWarranted(s: State, a: Answers)
    requires Enabled(s, Take(a))
    ensures s.trace <= After(s, Take(a)).trace && s.queue != []
    ensures forall n :: |s.trace| <= n < |After(s, Take(a)).trace| ==>
      Warranted(s, s.queue[0], a, After(s, Take(a)).trace[n])
  {
    var t := s.(queue := s.queue[1..]);
    TakeWarranted(t, s.queue[0], a);
    hide TakeEvent;
    var u := TakeEvent(t, s.queue[0], a);
    forall n | |s.trace| <= n < |u.trace| ensures Warranted(s, s.queue[0], a, u.trace[n]) {
      assert Warranted(t, s.queue[0], a, u.trace[n]);
    }
  }
}
