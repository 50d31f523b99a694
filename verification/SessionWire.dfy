/** What the coordinator writes to the worker, and how much it asks of the reader. */
module SessionWire {
  import opened Coordinator
  import opened SessionInvariant

  // ---- A monitor for the wire -------------------------------------------

  datatype Line = Line(call: nat, request: string, tool: string)

  /** What is unresolved on the wire. */
  datatype Mode = Mode(line: Option<Line>, completed: Option<string>, cancel: Option<nat>, closed: bool)

  const QUIET := Mode(None, None, None, false)

  /** What may follow: the discipline of one invocation, one cancellation of it, and a close that is last. */
  function Follow(m: Mode, e: Traced): Option<Mode> {
    match e
    case InvokeSent(k, request, tool) =>
      if m.line.None? && !m.closed then Some(m.(line := Some(Line(k, request, tool)))) else None
    case CancelSent(c, request, tool) =>
      if m.line.Some? && m.line.value.request == request && m.line.value.tool == tool && m.cancel.None? && !m.closed
      then Some(m.(cancel := Some(c))) else None
    case CloseSent =>
      if m.line.None? && m.cancel.None? && !m.closed then Some(m.(closed := true)) else None
    case ResultValid(k, result) =>
      if m.line.Some? && m.line.value.call == k && m.completed.None? then Some(m.(completed := Some(result))) else None
    case DispositionValid(c, _) => if m.cancel == Some(c) then Some(m) else None
    case CancelOver(c) => if m.cancel == Some(c) then Some(m.(cancel := None)) else None
    case CallOver(k) =>
      if m.line.Some? && m.line.value.call == k && m.cancel.None? then Some(m.(line := None, completed := None))
        else None
  }

  function Track(trace: seq<Traced>): Option<Mode> {
    if trace == [] then Some(QUIET)
    else match Track(trace[..|trace| - 1]) {
      case None => None
      case Some(m) => Follow(m, trace[|trace| - 1])
    }
  }

  lemma {:induction false} TrackOne(trace: seq<Traced>, e: Traced)
    ensures Track(trace + [e]) == match Track(trace) { case None => None case Some(m) => Follow(m, e) }
  {
    assert (trace + [e])[..|trace + [e]| - 1] == trace;
  }

  lemma {:induction false} TrackTwo(trace: seq<Traced>, d: Traced, e: Traced)
    ensures Track(trace + [d, e]) == match Track(trace + [d]) { case None => None case Some(m) => Follow(m, e) }
  {
    assert trace + [d, e] == (trace + [d]) + [e];
    TrackOne(trace + [d], e);
  }

  // ---- What the monitor means -------------------------------------------

  lemma {:induction false} TrackPrefix(trace: seq<Traced>, n: nat)
    requires Track(trace).Some? && n <= |trace|
    ensures Track(trace[..n]).Some?
    decreases |trace|
  {
    if n < |trace| {
      TrackPrefix(trace[..|trace| - 1], n);
      assert trace[..|trace| - 1][..n] == trace[..n];
    } else {
      assert trace[..n] == trace;
    }
  }

  lemma {:induction false} TrackNext(trace: seq<Traced>, n: nat)
    requires Track(trace).Some? && n < |trace|
    ensures Track(trace[..n]).Some? && Track(trace[..n + 1]) == Follow(Track(trace[..n]).value, trace[n])
    ensures Track(trace[..n + 1]).Some?
  {
    TrackPrefix(trace, n);
    TrackPrefix(trace, n + 1);
    assert trace[..n + 1] == trace[..n] + [trace[n]];
    TrackOne(trace[..n], trace[n]);
  }

  /** Nothing is sent after a close. */
  lemma {:induction false} NothingAfterClose(trace: seq<Traced>, i: nat, j: nat)
    requires Track(trace).Some? && i < j < |trace| && trace[i].CloseSent?
    ensures Track(trace[..j]).Some? && Track(trace[..j]).value.closed
    ensures !trace[j].InvokeSent? && !trace[j].CancelSent? && !trace[j].CloseSent?
    decreases j
  {
    hide Track;
    TrackNext(trace, j);
    TrackNext(trace, j - 1);
    if i < j - 1 {
      NothingAfterClose(trace, i, j - 1);
    }
  }

  /** As long as it is not over, an invocation stays the unresolved one. */
  lemma {:induction false} LineStays(trace: seq<Traced>, i: nat, j: nat)
    requires Track(trace).Some? && i < j <= |trace| && trace[i].InvokeSent?
    requires forall m :: i < m < j ==> trace[m] != CallOver(trace[i].call)
    ensures Track(trace[..j]).Some? && Track(trace[..j]).value.line.Some? &&
      Track(trace[..j]).value.line.value.call == trace[i].call
    decreases j
  {
    hide Track;
    TrackNext(trace, j - 1);
    if i < j - 1 {
      LineStays(trace, i, j - 1);
    }
  }

  /** Between two invocations the first is resolved. */
  lemma {:induction false} InvokesAlternate(trace: seq<Traced>, i: nat, j: nat)
    requires Track(trace).Some? && i < j < |trace| && trace[i].InvokeSent? && trace[j].InvokeSent?
    ensures exists m :: i < m < j && trace[m] == CallOver(trace[i].call)
  {
    if forall m :: i < m < j ==> trace[m] != CallOver(trace[i].call) {
      LineStays(trace, i, j);
      TrackNext(trace, j);
      assert false;
    }
  }

  lemma {:induction false} CancelStays(trace: seq<Traced>, i: nat, j: nat)
    requires Track(trace).Some? && i < j <= |trace| && trace[i].CancelSent?
    requires forall m :: i < m < j ==> trace[m] != CancelOver(trace[i].cancel)
    ensures Track(trace[..j]).Some? && Track(trace[..j]).value.cancel == Some(trace[i].cancel)
    decreases j
  {
    hide Track;
    TrackNext(trace, j - 1);
    if i < j - 1 {
      CancelStays(trace, i, j - 1);
    }
  }

  /** Between two cancellations the first is resolved. */
  lemma {:induction false} CancelsAlternate(trace: seq<Traced>, i: nat, j: nat)
    requires Track(trace).Some? && i < j < |trace| && trace[i].CancelSent? && trace[j].CancelSent?
    ensures exists m :: i < m < j && trace[m] == CancelOver(trace[i].cancel)
  {
    if forall m :: i < m < j ==> trace[m] != CancelOver(trace[i].cancel) {
      CancelStays(trace, i, j);
      TrackNext(trace, j);
      assert false;
    }
  }

  /** Where the unresolved invocation was sent. */
  lemma {:induction false} LineOrigin(trace: seq<Traced>) returns (j: nat)
    requires Track(trace).Some? && Track(trace).value.line.Some?
    ensures j < |trace|
    ensures var l := Track(trace).value.line.value; trace[j] == InvokeSent(l.call, l.request, l.tool)
    ensures forall m :: j < m < |trace| ==> trace[m] != CallOver(trace[j].call)
    decreases |trace|
  {
    var n := |trace| - 1;
    if trace[n].InvokeSent? {
      j := n;
    } else {
      j := LineOrigin(trace[..n]);
    }
  }

  /** Every cancellation names the request and tool of an invocation that is not over yet. */
  lemma {:induction false} CancelNamesUnresolved(trace: seq<Traced>, i: nat) returns (j: nat)
    requires Track(trace).Some? && i < |trace| && trace[i].CancelSent?
    ensures j < i && trace[j].InvokeSent?
    ensures trace[j].request == trace[i].request && trace[j].tool == trace[i].tool
    ensures forall m :: j < m < i ==> trace[m] != CallOver(trace[j].call)
  {
    TrackNext(trace, i);
    hide Track;
    j := LineOrigin(trace[..i]);
  }

  // ---- The coordinator obeys it -----------------------------------------

  /** The monitor agrees with the coordinator's own record of what is active. */
  ghost predicate WireOk(s: State) {
    && Track(s.trace).Some?
    && var m := Track(s.trace).value;
      && (s.active.None? ==> m.line.None? && m.cancel.None? && m.completed.None?)
      && (s.active.Some? ==>
            && s.active.value.call < |s.calls|
            && var x := s.calls[s.active.value.call];
              m.line == Some(Line(s.active.value.call, x.request, x.tool)) && m.cancel == s.active.value.cancel &&
                m.completed == s.active.value.completed)
      && (m.closed && !Halting(s) ==> s.closing.Some?)
      && (s.closing.Some? ==> m.closed)
  }

  lemma {:induction false} FailAllWire(s: State, error: Error, tell: bool)
    requires WireOk(s) && InRange(s) && (s.active.Some? ==> s.closing.None?)
    ensures WireOk(FailAll(s, error, tell))
  {
    hide Track;
    if s.active.Some? {
      var k := s.active.value.call;
      match s.active.value.cancel {
        case None => TrackOne(s.trace, CallOver(k));
        case Some(c) =>
          TrackOne(s.trace, CancelOver(c));
          TrackTwo(s.trace, CancelOver(c), CallOver(k));
      }
    }
  }

  lemma {:induction false} StartWire(s: State, k: nat, a: Answers)
    requires WireOk(s) && !Halting(s) && k < |s.calls|
    ensures WireOk(TakeStart(s, k, a))
  {
    hide Track;
    TrackOne(s.trace, InvokeSent(k, s.calls[k].request, s.calls[k].tool));
  }

  lemma {:induction false} CloseWire(s: State, i: nat, a: Answers)
    requires WireOk(s) && !Halting(s) && i < |s.closes|
    ensures WireOk(TakeClose(s, i, a))
  {
    hide Track;
    TrackOne(s.trace, CloseSent);
  }

  lemma {:induction false} CancelWire(s: State, c: nat, a: Answers)
    requires WireOk(s) && InRange(s) && !Halting(s) && (s.active.Some? ==> s.closing.None?)
    requires c < |s.cancels| && s.cancels[c].issuer < |s.calls|
    ensures WireOk(TakeCancel(s, c, a))
  {
    hide Track;
    var from := s.calls[s.cancels[c].issuer];
    TrackOne(s.trace, CancelSent(c, from.request, from.tool));
    FailAllWire(Deny(s, c, Io), Io, false);
    hide FailAll;
  }

  lemma {:induction false} ResultWire(s: State, result: string, a: Answers)
    requires WireOk(s) && InRange(s) && !Halting(s) && (s.active.Some? ==> s.closing.None?)
    ensures WireOk(TakeResult(s, result, a))
  {
    hide Track;
    FailAllWire(s, UnexpectedMessage, true);
    FailAllWire(s, Protocol, true);
    hide FailAll;
    if s.active.Some? {
      var k := s.active.value.call;
      TrackOne(s.trace, ResultValid(k, result));
      TrackTwo(s.trace, ResultValid(k, result), CallOver(k));
    }
  }

  lemma {:induction false} DispositionWire(s: State, x: CancellationResult, a: Answers)
    requires WireOk(s) && InRange(s) && !Halting(s) && (s.active.Some? ==> s.closing.None?)
    ensures WireOk(TakeDisposition(s, x, a))
  {
    hide Track;
    FailAllWire(s, UnexpectedMessage, true);
    if s.active.Some? && s.active.value.cancel.Some? {
      var k := s.active.value.call;
      var c := s.active.value.cancel.value;
      var valid := s.trace + [DispositionValid(c, x), CancelOver(c)];
      TrackOne(s.trace, CancelOver(c));
      TrackOne(s.trace, DispositionValid(c, x));
      TrackTwo(s.trace, DispositionValid(c, x), CancelOver(c));
      TrackOne(valid, CallOver(k));
      var t := s.(active := Some(s.active.value.(cancel := None)), trace := s.trace + [CancelOver(c)]);
      var u := WithCancelStage(t, c, Dropped(k));
      FailAllWire(u, Protocol, true);
      FailAllWire(u.(trace := valid), UnexpectedMessage, true);
    }
    hide FailAll;
  }

  lemma {:induction false} FrameWire(s: State, frame: Frame, a: Answers)
    requires WireOk(s) && InRange(s) && !Halting(s) && (s.active.Some? ==> s.closing.None?)
    ensures WireOk(TakeFrame(s, frame, a))
  {
    FailAllWire(s, Channel, true);
    FailAllWire(s, Protocol, true);
    FailAllWire(s, UnexpectedMessage, true);
    if frame.Message? && frame.message.ResultMessage? {
      ResultWire(s, frame.message.payload, a);
    }
    if frame.Message? && frame.message.CancellationMessage? {
      DispositionWire(s, frame.message.result, a);
    }
    hide Track, FailAll, TakeResult, TakeDisposition;
  }

  lemma {:induction false} TakeWire(s: State, a: Answers)
    requires Inv(s) && WireOk(s) && Enabled(s, Take(a))
    ensures WireOk(After(s, Take(a)))
  {
    var t := s.(queue := s.queue[1..]);
    assert After(s, Take(a)) == TakeEvent(t, s.queue[0], a);
    assert !Halting(t) && CanTake(t, s.queue[0]) && WireOk(t);
    FailAllWire(t, Abandoned, true);
    match s.queue[0] {
      case StartCommand(k) => StartWire(t, k, a);
      case CancelCommand(c) => CancelWire(t, c, a);
      case CloseCommand(i) => CloseWire(t, i, a);
      case AbandonCommand =>
      case FrameEvent(frame) => FrameWire(t, frame, a);
    }
    hide WireOk, Inv, TakeStart, TakeCancel, TakeClose, TakeFrame, FailAll, Enabled, After;
  }

  lemma {:induction false} StepWire(s: State, step: Step)
    requires Inv(s) && WireOk(s) && Enabled(s, step)
    ensures WireOk(After(s, step))
  {
    if step.Take? {
      TakeWire(s, step.answers);
      hide WireOk;
    } else if step.Send? && s.outbox.first.None? && s.outbox.second.None? && s.outbox.last.DemandFrame? &&
      s.reader.done {
      FailAllWire(s, Unavailable, false);
      hide WireOk, FailAll;
    } else {
      var t := After(s, step);
      assert t.trace == s.trace;
      hide Track;
    }
  }

  // ---- Demand -----------------------------------------------------------

  function Frames(queue: seq<Event>): nat {
    if queue == [] then 0 else (if queue[0].FrameEvent? then 1 else 0) + Frames(queue[1..])
  }

  lemma {:induction false} FramesAppend(queue: seq<Event>, e: Event)
    ensures Frames(queue + [e]) == Frames(queue) + (if e.FrameEvent? then 1 else 0)
    decreases |queue|
  {
    if queue == [] {
      assert (queue + [e])[1..] == [];
    } else {
      FramesAppend(queue[1..], e);
      assert (queue + [e])[1..] == queue[1..] + [e];
    }
  }

  /** Frames asked for, being read, waiting to be handled, or about to be asked for. */
  function InFlight(s: State): nat {
    s.reader.requests + (if s.reader.reading then 1 else 0) + Frames(s.queue) + (if s.outbox.last.DemandFrame? then 1
      else 0)
  }

  lemma {:induction false} TakeDemand(s: State, a: Answers)
    requires Enabled(s, Take(a))
    ensures InFlight(After(s, Take(a))) <= InFlight(s)
  {
    var t := After(s, Take(a));
    assert t.reader == s.reader && t.queue == s.queue[1..];
    assert !s.queue[0].FrameEvent? ==> !t.outbox.last.DemandFrame?;
  }

  lemma {:induction false} StepDemand(s: State, step: Step)
    requires Enabled(s, step) && InFlight(s) <= 1
    ensures InFlight(After(s, step)) <= 1
  {
    if step.Take? {
      TakeDemand(s, step.answers);
      hide After;
    } else {
      var t := After(s, step);
      if |t.queue| > |s.queue| {
        assert t.queue == s.queue + [t.queue[|s.queue|]];
        FramesAppend(s.queue, t.queue[|s.queue|]);
      }
      hide Frames, PollResult, PollCancellation;
    }
  }

  // ---- Runs -------------------------------------------------------------

  /**
    In every run at most one invocation and one cancellation are unresolved on the wire, every cancellation names
    the request and tool of the unresolved invocation, a close is sent only when nothing is unresolved and nothing
    is sent after it, and at most one frame is asked for, being read or waiting.
  */
  lemma {:induction false} WireDiscipline(states: seq<State>, steps: seq<Step>, i: nat)
    requires IsRun(states, steps) && i <= |steps|
    ensures WireOk(states[i]) && Track(states[i].trace).Some?
    ensures InFlight(states[i]) <= 1
    decreases i
  {
    hide Enabled, After, Inv;
    if i > 0 {
      WireDiscipline(states, steps, i - 1);
      RunKeeps(states, steps, i - 1);
      assert Enabled(states[i - 1], steps[i - 1]) && states[i] == After(states[i - 1], steps[i - 1]);
      hide WireOk, InFlight;
      StepWire(states[i - 1], steps[i - 1]);
      StepDemand(states[i - 1], steps[i - 1]);
      SomeTrack(states[i]);
    }
  }

  lemma {:induction false} SomeTrack(s: State)
    requires WireOk(s)
    ensures Track(s.trace).Some?
  {
  }
}
