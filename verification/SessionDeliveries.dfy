/** What is due is given: every command and frame that fits is answered as it should be, over every run. */
module SessionDeliveries {
  import opened Coordinator
  import opened SessionInvariant
  import opened SessionOutcomes
  import opened SessionWire

  // ---- The reader ---------------------------------------------------------

  predicate EndsReading(e: Event) {
    e.FrameEvent? && !e.frame.Message?
  }

  /** A reader that has stopped has said so, and the coordinator has not forgotten it. */
  ghost predicate ReaderOk(s: State) {
    s.reader.done ==> Halting(s) || exists i :: 0 <= i < |s.queue| && EndsReading(s.queue[i])
  }

  lemma {:induction false} TakeEndsReading(s: State, a: Answers)
    requires Enabled(s, Take(a)) && EndsReading(s.queue[0])
    ensures Halting(After(s, Take(a)))
  {
  }

  lemma {:induction false} TakeReaderOk(s: State, a: Answers)
    requires Inv(s) && Enabled(s, Take(a)) && ReaderOk(s)
    ensures ReaderOk(After(s, Take(a)))
  {
    var t := After(s, Take(a));
    assert t.reader == s.reader && t.queue == s.queue[1..];
    if s.reader.done && !Halting(t) {
      var i :| 0 <= i < |s.queue| && EndsReading(s.queue[i]);
      if i == 0 {
        TakeEndsReading(s, a);
      } else {
        assert t.queue[i - 1] == s.queue[i];
      }
    }
  }

  lemma {:induction false} StepReaderOk(s: State, step: Step)
    requires Inv(s) && Enabled(s, step) && ReaderOk(s)
    ensures ReaderOk(After(s, step))
  {
    var t := After(s, step);
    if Halting(s) {
      HaltingIsFinal(s, step);
    } else if step.Take? {
      TakeReaderOk(s, step.answers);
    } else if step.ReaderDelivers? {
      assert t.queue[|s.queue|] == FrameEvent(step.frame);
      if s.reader.done {
        StaysQueued(s.queue, t.queue);
      }
    } else if step.Send? {
      assert t.queue == s.queue || Halting(t);
    } else {
      hide PollResult, PollCancellation, Inv;
      if s.reader.done {
        StaysQueued(s.queue, t.queue);
      }
    }
  }

  lemma {:induction false} StaysQueued(q: seq<Event>, r: seq<Event>)
    requires q <= r && exists i :: 0 <= i < |q| && EndsReading(q[i])
    ensures exists i :: 0 <= i < |r| && EndsReading(r[i])
  {
    var i :| 0 <= i < |q| && EndsReading(q[i]);
    assert r[i] == q[i];
  }

  lemma {:induction false} RunReaderOk(states: seq<State>, steps: seq<Step>, i: nat)
    requires IsRun(states, steps) && i <= |steps|
    ensures ReaderOk(states[i])
    decreases i
  {
    hide Inv, Enabled, After, ReaderOk;
    if i > 0 {
      RunReaderOk(states, steps, i - 1);
      RunKeeps(states, steps, i - 1);
      assert Enabled(states[i - 1], steps[i - 1]) && states[i] == After(states[i - 1], steps[i - 1]);
      StepReaderOk(states[i - 1], steps[i - 1]);
    } else {
      InitialReaderOk();
    }
  }

  lemma {:induction false} InitialReaderOk()
    ensures ReaderOk(INITIAL)
  {
  }

  lemma {:induction false} NoFrameWaits(queue: seq<Event>, i: nat)
    requires i < |queue| && queue[i].FrameEvent?
    ensures Frames(queue) > 0
    decreases |queue|
  {
    if i > 0 {
      assert queue[1..][i - 1] == queue[i];
      NoFrameWaits(queue[1..], i - 1);
    }
  }

  /** When a frame is about to be asked for, the reader is idle and alive. */
  lemma {:induction false} ReaderWaits(s: State)
    requires ReaderOk(s) && InFlight(s) <= 1 && s.outbox.last.DemandFrame? && !s.stopped
    ensures s.reader == Reader(0, false, false)
  {
    if s.reader.done {
      var i :| 0 <= i < |s.queue| && EndsReading(s.queue[i]);
      NoFrameWaits(s.queue, i);
    }
  }

  // ---- From an event taken to the coordinator's next rest ------------------

  /** Step `i` takes the event `e`, and at `j` all its sends have been made. */
  ghost predicate Handles(states: seq<State>, steps: seq<Step>, i: nat, a: Answers, e: Event, j: nat) {
    && IsRun(states, steps) && i < j <= |steps|
    && steps[i] == Take(a) && states[i].queue != [] && states[i].queue[0] == e
    && states[j].outbox == IDLE && forall m :: i < m < j ==> states[m].outbox != IDLE
  }

  /** Commands keep the answers they had. */
  ghost predicate SameAnswers(s: State, t: State) {
    && |s.calls| <= |t.calls| && |s.cancels| <= |t.cancels| && |s.closes| <= |t.closes|
    && (forall k :: 0 <= k < |s.calls| ==> t.calls[k].accepted == s.calls[k].accepted)
    && (forall c :: 0 <= c < |s.cancels| ==> t.cancels[c].accepted == s.cancels[c].accepted)
    && (forall n :: 0 <= n < |s.closes| ==> t.closes[n] == s.closes[n])
  }

  /** Nothing but channels, readings and new commands changed, and the coordinator goes on where it was. */
  ghost predicate Rests(s: State, t: State) {
    && Unmoved(s, t) && SameAnswers(s, t)
    && (!Halting(s) ==> !Halting(t) && t.active == s.active && t.closing == s.closing)
    && (Halting(s) ==> Halting(t))
  }

  /** One step while sends are due. */
  ghost predicate Proceeds(s: State, t: State) {
    && Rests(s, t)
    && (t.outbox.last == s.outbox.last || t.outbox == IDLE)
    && (t.outbox == IDLE && s.outbox.last.DemandFrame? ==> t.reader == Reader(1, false, false))
    && (t.outbox == IDLE && s.outbox.last.Halt? ==> t.stopped)
  }

  lemma {:induction false} BusyPoll(s: State, step: Step)
    requires Enabled(s, step) && (step.PollFirst? || step.PollSecond? || step.HearAccepted?)
    ensures SameAnswers(s, After(s, step))
  {
    hide CallSenderAlive, CancelSenderAlive;
  }

  lemma {:induction false} DeliveryKeeps(s: State, send: Send, outbox: Outbox)
    requires CanSend(s, send)
    ensures Unmoved(s, Deliver(s, send).(outbox := outbox)) && SameAnswers(s, Deliver(s, send).(outbox := outbox))
  {
  }

  lemma {:induction false} RestsHere(s: State, t: State)
    requires t.calls == s.calls && t.cancels == s.cancels && t.closes == s.closes && t.trace == s.trace
    requires t.active == s.active || t.active.None?
    ensures Unmoved(s, t) && SameAnswers(s, t)
  {
  }

  lemma {:induction false} BusySend(s: State)
    requires OutboxOk(s) && Enabled(s, Send)
    requires s.outbox.last.DemandFrame? ==> s.reader == Reader(0, false, false)
    ensures Proceeds(s, After(s, Send))
  {
    hide Unmoved, SameAnswers;
    var o := s.outbox;
    if o.first.Some? {
      DeliveryKeeps(s, o.first.value, o.(first := None));
    } else if o.second.Some? {
      DeliveryKeeps(s, o.second.value, o.(second := None));
    } else {
      RestsHere(s, After(s, Send));
    }
  }

  lemma {:induction false} BusyStep(s: State, step: Step)
    requires Inv(s) && Enabled(s, step) && s.outbox != IDLE
    requires s.outbox.last.DemandFrame? ==> s.reader == Reader(0, false, false)
    ensures Proceeds(s, After(s, step))
  {
    var t := After(s, step);
    if step.PollFirst? || step.PollSecond? || step.HearAccepted? {
      PollUnmoved(s, step);
      BusyPoll(s, step);
      hide Inv, PollResult, PollCancellation, Unmoved, SameAnswers;
    } else if step.Send? {
      BusySend(s);
      hide Proceeds, After, Inv;
    } else {
      hide Inv;
    }
  }

  lemma {:induction false} RestsTwice(s: State, t: State, u: State)
    requires Rests(s, t) && Rests(t, u)
    ensures Rests(s, u)
  {
  }

  lemma {:induction false} RunBusyStep(states: seq<State>, steps: seq<Step>, m: nat)
    requires IsRun(states, steps) && m < |steps| && states[m].outbox != IDLE
    ensures Proceeds(states[m], states[m + 1])
  {
    hide Inv, Proceeds, ReaderOk, InFlight, WireOk;
    var s := states[m];
    RunKeeps(states, steps, m);
    RunReaderOk(states, steps, m);
    WireDiscipline(states, steps, m);
    assert Enabled(s, steps[m]) && states[m + 1] == After(s, steps[m]);
    hide Enabled, After, IsRun;
    BusyRuns(s);
    if s.outbox.last.DemandFrame? {
      ReaderWaits(s);
    }
    BusyStep(s, steps[m]);
  }

  lemma {:induction false} BusyRuns(s: State)
    requires Inv(s) && s.outbox != IDLE
    ensures !s.stopped
  {
  }

  /** All that happens to a run while sends are due. */
  lemma {:induction false} Rest(states: seq<State>, steps: seq<Step>, i: nat, m: nat)
    requires IsRun(states, steps) && i <= m <= |steps|
    requires forall n :: i <= n < m ==> states[n].outbox != IDLE
    ensures Rests(states[i], states[m])
    ensures states[m].outbox.last == states[i].outbox.last || states[m].outbox == IDLE
    ensures i < m && states[m].outbox == IDLE && states[i].outbox.last.DemandFrame? ==>
      states[m].reader == Reader(1, false, false)
    ensures i < m && states[m].outbox == IDLE && states[i].outbox.last.Halt? ==> states[m].stopped
    decreases m
  {
    hide Enabled, After;
    if i < m {
      assert |states| == |steps| + 1;
      hide IsRun, Rests;
      Rest(states, steps, i, m - 1);
      RunBusyStep(states, steps, m - 1);
      RestsTwice(states[i], states[m - 1], states[m]);
    } else {
      RestsHere(states[i], states[i]);
      hide IsRun, Unmoved, SameAnswers;
    }
  }

  /** At rest every answered call has been told. */
  lemma {:induction false} CallTold(s: State, k: nat)
    requires Inv(s) && s.outbox == IDLE && k < |s.calls|
    ensures s.calls[k].stage.Answered? ==>
      s.calls[k].sent == [s.calls[k].stage.outcome] && s.calls[k].accepted == [Accepted]
    ensures s.calls[k].stage.Live? ==> s.calls[k].sent == [] && s.calls[k].accepted == [Accepted]
  {
    assert CallOk(s, k);
  }

  /** At rest every cancellation that was answered has been told. */
  lemma {:induction false} CancelTold(s: State, c: nat)
    requires Inv(s) && s.outbox == IDLE && c < |s.cancels|
    ensures NoteOf(s.cancels[c].stage).Some? ==> s.cancels[c].sent == [NoteOf(s.cancels[c].stage).value]
    ensures s.cancels[c].stage.Pending? ==> s.cancels[c].sent == [] && s.cancels[c].accepted == [Accepted]
  {
    assert CancelOk(s, c);
    hide Shape, HitOk, DispositionOk;
  }

  /** The state right after an event is taken, and what it is to have rested since. */
  lemma {:induction false} Handled(states: seq<State>, steps: seq<Step>, i: nat, a: Answers, e: Event, j: nat)
    returns (s: State, t: State)
    requires Handles(states, steps, i, a, e, j)
    ensures s == states[i].(queue := states[i].queue[1..]) && CanTake(s, e) && s.outbox == IDLE && !s.stopped
    ensures Inv(states[i])
    ensures t == TakeEvent(s, e, a) && Rests(t, states[j]) && Inv(states[j]) && states[j].outbox == IDLE
    ensures t.outbox.last.DemandFrame? ==> states[j].reader == Reader(1, false, false)
    ensures t.outbox.last.Halt? ==> states[j].stopped
  {
    assert Enabled(states[i], steps[i]) && states[i + 1] == After(states[i], steps[i]);
    s, t := states[i].(queue := states[i].queue[1..]), states[i + 1];
    hide Rests, Inv, TakeEvent;
    RunKeeps(states, steps, i);
    RunKeeps(states, steps, j);
    Rest(states, steps, i + 1, j);
  }

  // ---- Commands -------------------------------------------------------------

  /** The session is at rest, takes events and has a frame on its way. */
  ghost predicate GoesOn(s: State) {
    !s.stopped && s.outbox == IDLE
  }

  /**
    A start is accepted, and its call becomes the active one, exactly if nothing is active or closing, the
    authorizer agrees and the frame is written; otherwise it is refused with its reason, and only a failed write ends
    the session.
  */
  lemma {:induction false} StartIsAnswered(states: seq<State>, steps: seq<Step>, i: nat, a: Answers, k: nat, j: nat)
    requires Handles(states, steps, i, a, StartCommand(k), j)
    ensures k < |states[i].calls| <= |states[j].calls|
    ensures var s, t := states[i], states[j]; var free := s.active.None? && s.closing.None?;
      && (t.calls[k].accepted == [Accepted] <==> free && a.authorized && a.written)
      && (t.calls[k].accepted == [Refused(Busy)] <==> !free)
      && (t.calls[k].accepted == [Refused(Protocol)] <==> free && !a.authorized)
      && (t.calls[k].accepted == [Refused(Io)] <==> free && a.authorized && !a.written)
      && (t.calls[k].accepted == [Accepted] ==>
            && t.active == Some(Active(k, None, None))
            && t.trace == s.trace + [InvokeSent(k, s.calls[k].request, s.calls[k].tool)])
      && (t.calls[k].accepted != [Accepted] ==> t.trace == s.trace)
      && (GoesOn(t) <==> !(free && a.authorized && !a.written))
      && (!free ==> t.active == s.active && t.closing == s.closing)
  {
    var s, t := Handled(states, steps, i, a, StartCommand(k), j);
    assert CallOk(states[i], k);
    assert states[i].calls[k].accepted == [] by {
      assert EventOk(states[i], states[i].queue[0]);
    }
    assert t == TakeStart(s, k, a);
    hide Inv, Handles, TakeEvent, Unmoved;
    assert states[j].calls[k].accepted == [
      if s.active.Some? || s.closing.Some? then Refused(Busy) else if !a.authorized then Refused(Protocol)
      else if !a.written then Refused(Io) else Accepted];
    assert states[j].trace == t.trace;
  }

  /** The cancellation names the request and the tool of the active call. */
  ghost predicate Names(s: State, c: nat) {
    && s.active.Some? && s.active.value.call < |s.calls| && c < |s.cancels| && s.cancels[c].issuer < |s.calls|
    && s.calls[s.active.value.call].request == s.calls[s.cancels[c].issuer].request
    && s.calls[s.active.value.call].tool == s.calls[s.cancels[c].issuer].tool
  }

  /**
    A cancellation is accepted and pending exactly if it names the active call, none is pending, the authorizer
    agrees and the frame is written; otherwise it is refused with its reason, and only a failed write ends the
    session, with the active call.
  */
  lemma {:induction false} CancelIsAnswered(states: seq<State>, steps: seq<Step>, i: nat, a: Answers, c: nat, j: nat)
    requires Handles(states, steps, i, a, CancelCommand(c), j)
    ensures c < |states[i].cancels| <= |states[j].cancels| && states[i].cancels[c].issuer < |states[i].calls|
    ensures var s, t := states[i], states[j]; var from := s.calls[s.cancels[c].issuer];
      var free := Names(s, c) && s.active.value.cancel.None?;
      && (t.cancels[c].accepted == [Accepted] <==> free && a.authorized && a.written)
      && (t.cancels[c].accepted == [Refused(NoActiveInvocation)] <==> s.active.None?)
      && (t.cancels[c].accepted == [Refused(TargetMismatch)] <==> s.active.Some? && !Names(s, c))
      && (t.cancels[c].accepted == [Refused(CancellationPending)] <==> Names(s, c) && !free)
      && (t.cancels[c].accepted == [Refused(Protocol)] <==> free && !a.authorized)
      && (t.cancels[c].accepted == [Refused(Io)] <==> free && a.authorized && !a.written)
      && (t.cancels[c].accepted == [Accepted] ==>
            && t.active == Some(s.active.value.(cancel := Some(c)))
            && t.trace == s.trace + [CancelSent(c, from.request, from.tool)])
      && (GoesOn(t) <==> !(free && a.authorized && !a.written))
      && (GoesOn(t) && t.cancels[c].accepted != [Accepted] ==> t.active == s.active && t.trace == s.trace)
      && (!GoesOn(t) ==> s.active.value.call < |t.calls| && t.calls[s.active.value.call].sent == [Failed(Io)])
  {
    var s, t := Handled(states, steps, i, a, CancelCommand(c), j);
    assert CancelOk(states[i], c) && states[i].cancels[c].accepted == [] by {
      assert EventOk(states[i], states[i].queue[0]);
    }
    assert t == TakeCancel(s, c, a);
    assert InRange(states[i]);
    var free := Names(s, c) && s.active.value.cancel.None?;
    if free && a.authorized && !a.written {
      CallTold(states[j], s.active.value.call);
    }
    hide Inv, Handles, TakeEvent, CancelOk;
    assert states[j].cancels[c].accepted == t.cancels[c].accepted == [
      if s.active.None? then Refused(NoActiveInvocation) else if !Names(s, c) then Refused(TargetMismatch)
      else if s.active.value.cancel.Some? then Refused(CancellationPending) else if !a.authorized then Refused(Protocol)
      else if !a.written then Refused(Io) else Accepted];
    assert states[j].trace == t.trace;
  }

  /** A close is written, and awaited, exactly if nothing is active or closing; only a failed write ends the session. */
  lemma {:induction false} CloseIsAnswered(states: seq<State>, steps: seq<Step>, i: nat, a: Answers, n: nat, j: nat)
    requires Handles(states, steps, i, a, CloseCommand(n), j)
    ensures n < |states[i].closes| <= |states[j].closes|
    ensures var s, t := states[i], states[j]; var free := s.active.None? && s.closing.None?;
      && (t.closes[n] == [] <==> free && a.written)
      && (t.closes[n] == [Refused(Busy)] <==> !free)
      && (t.closes[n] == [Refused(Io)] <==> free && !a.written)
      && (t.closes[n] == [] ==> t.closing == Some(n) && t.trace == s.trace + [CloseSent])
      && (t.closes[n] != [] ==> t.trace == s.trace)
      && (GoesOn(t) <==> !free || a.written)
      && (!free ==> t.active == s.active && t.closing == s.closing)
  {
    var s, t := Handled(states, steps, i, a, CloseCommand(n), j);
    assert states[i].closes[n] == [] by {
      assert EventOk(states[i], states[i].queue[0]);
    }
    assert t == TakeClose(s, n, a);
    hide Inv, Handles, TakeEvent, Unmoved;
    assert states[j].closes[n] ==
      if s.active.Some? || s.closing.Some? then [Refused(Busy)] else if !a.written then [Refused(Io)] else [];
    assert states[j].trace == t.trace;
  }

  // ---- Frames -----------------------------------------------------------------

  /** The frame can be unsealed, is valid and is one the active call waits for. */
  predicate Fitting(s: State, frame: Frame, a: Answers) {
    && frame.Message? && a.unsealed && a.valid && s.active.Some?
    && match frame.message {
      case ResultMessage(_) => s.active.value.completed.None?
      case CancellationMessage(x) =>
        s.active.value.cancel.Some? && (x.outcome.TooLate? ==> s.active.value.completed.Some?)
      case OtherMessage => false
    }
  }

  /** Handled without ending the session: at rest again, with the next frame asked for. */
  ghost predicate AsksAgain(s: State) {
    GoesOn(s) && s.reader == Reader(1, false, false)
  }

  /** A valid result for a call without a pending cancellation completes it. */
  lemma {:induction false} ResultCompletesCall(states: seq<State>, steps: seq<Step>, i: nat, a: Answers, k: nat,
                                               result: string, j: nat)
    requires Handles(states, steps, i, a, FrameEvent(Message(ResultMessage(result))), j)
    requires a.unsealed && a.valid && states[i].active == Some(Active(k, None, None))
    ensures k < |states[j].calls| && states[j].calls[k].sent == [Completed(result)]
    ensures states[j].trace == states[i].trace + [ResultValid(k, result), CallOver(k)]
    ensures states[j].active.None? && AsksAgain(states[j])
  {
    var s, t := Handled(states, steps, i, a, FrameEvent(Message(ResultMessage(result))), j);
    assert t == TakeResult(s, result, a);
    CallTold(states[j], k);
    hide Inv, Handles, TakeEvent;
    assert t.calls[k].stage == Answered(Completed(result));
  }

  /** A valid result that overtakes a pending cancellation is kept for the answer to it. */
  lemma {:induction false} ResultIsKept(states: seq<State>, steps: seq<Step>, i: nat, a: Answers, k: nat, c: nat,
                                        result: string, j: nat)
    requires Handles(states, steps, i, a, FrameEvent(Message(ResultMessage(result))), j)
    requires a.unsealed && a.valid && states[i].active == Some(Active(k, None, Some(c)))
    ensures states[j].active == Some(Active(k, Some(result), Some(c)))
    ensures states[j].trace == states[i].trace + [ResultValid(k, result)]
    ensures k < |states[j].calls| && states[j].calls[k].sent == [] && AsksAgain(states[j])
  {
    var s, t := Handled(states, steps, i, a, FrameEvent(Message(ResultMessage(result))), j);
    assert t == TakeResult(s, result, a);
    assert CallOk(states[i], k);
    CallTold(states[j], k);
    hide Inv, Handles, TakeEvent;
    assert t.calls[k].stage == Live;
  }

  /**
    A valid answer to the pending cancellation is handed on. An acknowledgement cancels the call, too-late completes
    it with the result it came after, and an unsupported cancellation leaves the call as it was.
  */
  lemma {:induction false} AnswerIsHandedOn(states: seq<State>, steps: seq<Step>, i: nat, a: Answers,
                                            x: CancellationResult, j: nat)
    requires Handles(states, steps, i, a, FrameEvent(Message(CancellationMessage(x))), j)
    requires Fitting(states[i], Message(CancellationMessage(x)), a)
    ensures var was := states[i].active.value; var k, c, t := was.call, was.cancel.value, states[j];
      && k < |t.calls| && c < |t.cancels| && t.cancels[c].sent == [Disposed(x)] && AsksAgain(t)
      && states[i].trace + [DispositionValid(c, x), CancelOver(c)] <= t.trace
      && (x.outcome.Acknowledged? ==> t.calls[k].sent == [Cancelled(x)] && t.active.None?)
      && (x.outcome.TooLate? ==> t.calls[k].sent == [Completed(was.completed.value)] && t.active.None?)
      && (x.outcome.Unsupported? ==> t.calls[k].sent == [] && t.active == Some(was.(cancel := None)))
  {
    var s, t := Handled(states, steps, i, a, FrameEvent(Message(CancellationMessage(x))), j);
    var k, c := s.active.value.call, s.active.value.cancel.value;
    assert t == TakeDisposition(s, x, a);
    assert CallOk(states[i], k);
    CallTold(states[j], k);
    CancelTold(states[j], c);
    hide Inv, Handles, TakeEvent, CallOk;
    assert t.cancels[c].stage == Resolved(k, x);
    assert states[j].trace == t.trace;
  }

  /** A close that was written is answered by the end of the stream. */
  lemma {:induction false} CloseCompletes(states: seq<State>, steps: seq<Step>, i: nat, a: Answers, n: nat, j: nat)
    requires Handles(states, steps, i, a, FrameEvent(EndOfStream), j) && states[i].closing == Some(n)
    ensures n < |states[i].closes| <= |states[j].closes| && states[j].closes[n] == states[i].closes[n] + [Accepted]
    ensures states[j].stopped && states[j].trace == states[i].trace
  {
    var s, t := Handled(states, steps, i, a, FrameEvent(EndOfStream), j);
    hide Inv, Handles;
  }

  /** The active call, or its pending cancellation, waits for a message of this kind. */
  predicate Awaited(s: State, message: WorkerMessage) {
    match message
    case ResultMessage(_) => s.active.Some?
    case CancellationMessage(_) => s.active.Some? && s.active.value.cancel.Some?
    case OtherMessage => false
  }

  /** What a frame that does not fit is reported as. */
  function Misfit(s: State, frame: Frame, a: Answers): Error {
    if !frame.Message? then Channel
    else if !a.unsealed || (!a.valid && Awaited(s, frame.message)) then Protocol
    else UnexpectedMessage
  }

  /**
    The session goes on exactly if the frame fits. A frame that does not fit, other than the end of the stream
    behind a close, fails the active call, its pending cancellation unless the frame answers that one, and the close.
  */
  lemma {:induction false} OnlyMisfitsEnd(states: seq<State>, steps: seq<Step>, i: nat, a: Answers, frame: Frame,
                                          j: nat)
    requires Handles(states, steps, i, a, FrameEvent(frame), j)
    ensures GoesOn(states[j]) <==> Fitting(states[i], frame, a)
    ensures !Fitting(states[i], frame, a) ==>
      var s, t, error := states[i], states[j], Misfit(states[i], frame, a);
      && t.stopped
      && (s.active.Some? ==> s.active.value.call < |t.calls| && t.calls[s.active.value.call].sent == [Failed(error)])
      && (s.active.Some? && s.active.value.cancel.Some? ==>
            && s.active.value.cancel.value < |t.cancels|
            && t.cancels[s.active.value.cancel.value].sent ==
               if frame.Message? && a.unsealed && frame.message.CancellationMessage? then []
               else [CancellationFailed(error)])
      && (s.closing.Some? ==>
            && s.closing.value < |s.closes| <= |t.closes|
            && t.closes[s.closing.value] ==
               s.closes[s.closing.value] + [if frame.EndOfStream? then Accepted else Refused(error)])
  {
    var s, t := Handled(states, steps, i, a, FrameEvent(frame), j);
    assert (s.active.Some? ==> s.closing.None?) && t == TakeFrame(s, frame, a);
    SameFit(states[i], s.queue, frame, a);
    hide Handles, TakeFrame, TakeEvent, Misfit, Fitting;
    if Fitting(s, frame, a) {
      hide Inv, Unmoved, SameAnswers;
      FittingTaken(s, frame, a);
    } else {
      MisfitTaken(s, frame, a);
      hide Inv;
      MisfitTold(s, t, states[j], frame, a, Misfit(s, frame, a));
    }
  }

  lemma {:induction false} MisfitTold(s: State, t: State, u: State, frame: Frame, a: Answers, error: Error)
    requires Rests(t, u) && Inv(u) && u.outbox == IDLE && InRange(s)
    requires |t.calls| == |s.calls| && |t.cancels| == |s.cancels|
    requires s.active.Some? ==> t.calls[s.active.value.call].stage == Answered(Failed(error))
    requires s.active.Some? && s.active.value.cancel.Some? ==>
      t.cancels[s.active.value.cancel.value].stage ==
      if frame.Message? && a.unsealed && frame.message.CancellationMessage? then Dropped(s.active.value.call)
      else Lost(s.active.value.call, error)
    ensures s.active.Some? ==>
      s.active.value.call < |u.calls| && u.calls[s.active.value.call].sent == [Failed(error)]
    ensures s.active.Some? && s.active.value.cancel.Some? ==>
      && s.active.value.cancel.value < |u.cancels|
      && u.cancels[s.active.value.cancel.value].sent ==
         if frame.Message? && a.unsealed && frame.message.CancellationMessage? then [] else [CancellationFailed(error)]
  {
    if s.active.Some? {
      CallTold(u, s.active.value.call);
      if s.active.value.cancel.Some? {
        CancelTold(u, s.active.value.cancel.value);
        CancelUntold(u, s.active.value.cancel.value);
      }
    }
    hide Inv, SameAnswers;
  }

  lemma {:induction false} SameFit(s: State, queue: seq<Event>, frame: Frame, a: Answers)
    ensures Misfit(s.(queue := queue), frame, a) == Misfit(s, frame, a)
    ensures Fitting(s.(queue := queue), frame, a) == Fitting(s, frame, a)
  {
  }

  lemma {:induction false} CancelUntold(s: State, c: nat)
    requires Inv(s) && s.outbox == IDLE && c < |s.cancels|
    ensures s.cancels[c].stage.Dropped? ==> s.cancels[c].sent == []
  {
    assert CancelOk(s, c);
    hide Shape, HitOk, DispositionOk;
  }

  lemma {:induction false} FittingTaken(s: State, frame: Frame, a: Answers)
    requires InRange(s) && !s.stopped && Fitting(s, frame, a)
    ensures !Halting(TakeFrame(s, frame, a))
  {
  }

  lemma {:induction false} MisfitTaken(s: State, frame: Frame, a: Answers)
    requires InRange(s) && !s.stopped && (s.active.Some? ==> s.closing.None?) && !Fitting(s, frame, a)
    ensures var t, error := TakeFrame(s, frame, a), Misfit(s, frame, a);
      && t.outbox.last.Halt? && |t.calls| == |s.calls| && |t.cancels| == |s.cancels| && |t.closes| == |s.closes|
      && (s.active.Some? ==> t.calls[s.active.value.call].stage == Answered(Failed(error)))
      && (s.active.Some? && s.active.value.cancel.Some? ==>
            t.cancels[s.active.value.cancel.value].stage ==
            if frame.Message? && a.unsealed && frame.message.CancellationMessage? then Dropped(s.active.value.call)
            else Lost(s.active.value.call, error))
      && (s.closing.Some? ==>
            t.closes[s.closing.value] ==
            s.closes[s.closing.value] + [if frame.EndOfStream? then Accepted else Refused(error)])
  {
  }

  /** Abandoning the session ends it and fails whatever waits. */
  lemma {:induction false} AbandonEnds(states: seq<State>, steps: seq<Step>, i: nat, a: Answers, j: nat)
    requires Handles(states, steps, i, a, AbandonCommand, j)
    ensures states[j].stopped
    ensures var s, t := states[i], states[j];
      && (s.active.Some? ==>
            s.active.value.call < |t.calls| && t.calls[s.active.value.call].sent == [Failed(Abandoned)])
      && (s.closing.Some? ==>
            && s.closing.value < |s.closes| <= |t.closes|
            && t.closes[s.closing.value] == s.closes[s.closing.value] + [Refused(Abandoned)])
  {
    var s, t := Handled(states, steps, i, a, AbandonCommand, j);
    if s.active.Some? {
      CallTold(states[j], s.active.value.call);
    }
    hide Inv, Handles;
  }

  // ---- A whole call -------------------------------------------------------------

  /** While only starts and closes are taken, an active call stays as it is and the coordinator at rest. */
  lemma {:induction false} StaysActive(states: seq<State>, steps: seq<Step>, j: nat, m: nat)
    requires IsRun(states, steps) && j <= m <= |steps| && states[j].active.Some? && states[j].outbox == IDLE
    requires forall x :: j <= x < m && steps[x].Take? ==>
      states[x].queue != [] && (states[x].queue[0].StartCommand? || states[x].queue[0].CloseCommand?)
    ensures states[m].active == states[j].active && states[m].outbox == IDLE
    decreases m
  {
    if j < m {
      StaysActive(states, steps, j, m - 1);
      assert Enabled(states[m - 1], steps[m - 1]) && states[m] == After(states[m - 1], steps[m - 1]);
      hide IsRun, PollResult, PollCancellation;
    }
  }

  /**
    From start to result: a start that is accepted, and then a valid result before any cancellation, other frame or
    abandonment is taken, gives its caller exactly that result, whatever else is started or closed meanwhile.
  */
  lemma {:induction false} StartedCallCompletes(states: seq<State>, steps: seq<Step>, i: nat, a: Answers, k: nat,
                                                j: nat, m: nat, b: Answers, result: string, n: nat)
    requires Handles(states, steps, i, a, StartCommand(k), j)
    requires states[i].active.None? && states[i].closing.None? && a.authorized && a.written
    requires j <= m && Handles(states, steps, m, b, FrameEvent(Message(ResultMessage(result))), n)
    requires b.unsealed && b.valid
    requires forall x :: j <= x < m && steps[x].Take? ==>
      states[x].queue != [] && (states[x].queue[0].StartCommand? || states[x].queue[0].CloseCommand?)
    ensures k < |states[n].calls| && states[n].calls[k].accepted == [Accepted]
    ensures states[n].calls[k].sent == [Completed(result)] && AsksAgain(states[n])
  {
    StartIsAnswered(states, steps, i, a, k, j);
    StaysActive(states, steps, j, m);
    ResultCompletesCall(states, steps, m, b, k, result, n);
    RunKeeps(states, steps, n);
    assert CallOk(states[n], k);
    hide IsRun, Inv;
  }
}
