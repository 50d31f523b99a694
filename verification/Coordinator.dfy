/**
  One multiplexed worker session as a machine of small steps: host calls, the coordinator taking one event at a
  time and sending on one channel at a time, the frame reader, and bindings that poll two channels in turn.
*/
module Coordinator {
  datatype Option<T> = None | Some(value: T)

  datatype Error =
    Busy | NoActiveInvocation | TargetMismatch | CancellationPending | Protocol | Io | Abandoned | Channel
    | UnexpectedMessage | Unavailable

  datatype Disposition = Acknowledged | TooLate | Unsupported

  datatype CancellationResult = CancellationResult(outcome: Disposition, detail: string)

  /** What the coordinator sends to the holder of an invocation. */
  datatype Outcome = Completed(result: string) | Cancelled(acknowledgement: CancellationResult) | Failed(error: Error)

  /** What the coordinator sends to the holder of a cancellation. */
  datatype Note = Disposed(result: CancellationResult) | CancellationFailed(failure: Error)

  datatype Reply = Accepted | Refused(error: Error)

  // ---- Messages and events ----------------------------------------------

  datatype WorkerMessage =
    | ResultMessage(payload: string)
    | CancellationMessage(result: CancellationResult)
    | OtherMessage

  datatype Frame = Message(message: WorkerMessage) | EndOfStream | ReadError

  datatype Event =
    | StartCommand(call: nat)
    | CancelCommand(cancel: nat)
    | CloseCommand(close: nat)
    | AbandonCommand
    | FrameEvent(frame: Frame)

  /** What the authorizer, the sealer with the writer, and the opener answer while one event is handled. */
  datatype Answers = Answers(authorized: bool, written: bool, unsealed: bool, valid: bool)

  // ---- Channels and their holders ---------------------------------------

  /** How far the coordinator has got with a start command. */
  datatype CallStage = Queued | Live | Answered(outcome: Outcome) | Rejected

  /** How far it has got with a cancellation; `call` is the invocation the cancellation was sent for. */
  datatype CancelStage = Waiting | Pending(call: nat) | Resolved(call: nat, result: CancellationResult)
    | Lost(call: nat, error: Error) | Dropped(call: nat) | Denied

  datatype Observed = Nothing | TooLateSeen | UnsupportedSeen | Terminal(outcome: Outcome) | Broken(error: Error)

  /** The binding that holds an invocation; `midway` is set between its two channel reads. */
  datatype Binding = Binding(
    terminal: bool, requested: bool, awaiting: Option<nat>, cancellation: Option<nat>, midway: bool, log: seq<Observed>)

  datatype Call = Call(
    request: string, tool: string, stage: CallStage, accepted: seq<Reply>, sent: seq<Outcome>, read: nat,
      binding: Binding)

  datatype Cancel = Cancel(issuer: nat, stage: CancelStage, accepted: seq<Reply>, sent: seq<Note>, read: nat)

  datatype Active = Active(call: nat, completed: Option<string>, cancel: Option<nat>)

  /** Sends still to be made for the event in hand, in order, and what follows them. */
  datatype Send = Settle(call: nat, outcome: Outcome) | Notify(cancel: nat, note: Note)
  datatype Last = Resume | DemandFrame | Halt
  datatype Outbox = Outbox(first: Option<Send>, second: Option<Send>, last: Last)

  const IDLE := Outbox(None, None, Resume)

  datatype Reader = Reader(requests: nat, reading: bool, done: bool)

  datatype Traced =
    | InvokeSent(call: nat, request: string, tool: string)
    | CancelSent(cancel: nat, request: string, tool: string)
    | CloseSent
    | CallOver(call: nat)
    | CancelOver(cancel: nat)
    | ResultValid(call: nat, result: string)
    | DispositionValid(cancel: nat, disposition: CancellationResult)

  datatype State = State(
    active: Option<Active>, closing: Option<nat>, stopped: bool, outbox: Outbox, queue: seq<Event>, reader: Reader,
    calls: seq<Call>, cancels: seq<Cancel>, closes: seq<seq<Reply>>, trace: seq<Traced>)

  const INITIAL := State(None, None, false, IDLE, [], Reader(1, false, false), [], [], [], [])

  // ---- The coordinator --------------------------------------------------

  function WithStage(s: State, k: nat, stage: CallStage): State
    requires k < |s.calls|
  {
    s.(calls := s.calls[k := s.calls[k].(stage := stage)])
  }

  function WithCancelStage(s: State, c: nat, stage: CancelStage): State
    requires c < |s.cancels|
  {
    s.(cancels := s.cancels[c := s.cancels[c].(stage := stage)])
  }

  function Reject(s: State, k: nat, error: Error): State
    requires k < |s.calls|
  {
    s.(calls := s.calls[k := s.calls[k].(stage := Rejected, accepted := s.calls[k].accepted + [Refused(error)])])
  }

  function Deny(s: State, c: nat, error: Error): State
    requires c < |s.cancels|
  {
    s.(cancels := s.cancels[c := s.cancels[c].(stage := Denied, accepted := s.cancels[c].accepted + [Refused(error)])])
  }

  ghost predicate InRange(s: State) {
    && (s.active.Some? ==> s.active.value.call < |s.calls|)
    && (s.active.Some? && s.active.value.cancel.Some? ==> s.active.value.cancel.value < |s.cancels|)
    && (s.closing.Some? ==> s.closing.value < |s.closes|)
  }

  /** Tells everyone who waits on the active invocation and on a close, then stops. */
  function FailAll(s: State, error: Error, tellClose: bool): State
    requires InRange(s)
  {
    var closes := if s.closing.Some? && tellClose then
      s.closes[s.closing.value := s.closes[s.closing.value] + [Refused(error)]] else s.closes;
    var t := s.(active := None, closing := None, closes := closes);
    if s.active.None? then t.(outbox := Outbox(None, None, Halt))
    else
      var k := s.active.value.call;
      var u := WithStage(t, k, Answered(Failed(error)));
      match s.active.value.cancel
      case None => u.(outbox := Outbox(Some(Settle(k, Failed(error))), None, Halt), trace := s.trace + [CallOver(k)])
      case Some(c) =>
        WithCancelStage(u, c, Lost(k, error)).(
          outbox := Outbox(Some(Settle(k, Failed(error))), Some(Notify(c, CancellationFailed(error))), Halt),
          trace := s.trace + [CancelOver(c), CallOver(k)])
  }

  function TakeStart(s: State, k: nat, a: Answers): State
    requires k < |s.calls|
  {
    if s.active.Some? || s.closing.Some? then Reject(s, k, Busy)
    else if !a.authorized then Reject(s, k, Protocol)
    else if !a.written then Reject(s, k, Io).(outbox := Outbox(None, None, Halt))
    else
      s.(active := Some(Active(k, None, None)),
         calls := s.calls[k := s.calls[k].(stage := Live, accepted := s.calls[k].accepted + [Accepted])],
         trace := s.trace + [InvokeSent(k, s.calls[k].request, s.calls[k].tool)])
  }

  function TakeCancel(s: State, c: nat, a: Answers): State
    requires InRange(s) && c < |s.cancels| && s.cancels[c].issuer < |s.calls|
  {
    var from := s.calls[s.cancels[c].issuer];
    if s.active.None? then Deny(s, c, NoActiveInvocation)
    else
      var current := s.calls[s.active.value.call];
      if current.request != from.request || current.tool != from.tool then Deny(s, c, TargetMismatch)
      else if s.active.value.cancel.Some? then Deny(s, c, CancellationPending)
      else if !a.authorized then Deny(s, c, Protocol)
      else if !a.written then FailAll(Deny(s, c, Io), Io, false)
      else
        s.(active := Some(s.active.value.(cancel := Some(c))),
           cancels := s.cancels[c := s.cancels[c].(stage := Pending(s.active.value.call), accepted :=
             s.cancels[c].accepted + [Accepted])],
           trace := s.trace + [CancelSent(c, from.request, from.tool)])
  }

  function TakeClose(s: State, i: nat, a: Answers): State
    requires i < |s.closes|
  {
    if s.active.Some? || s.closing.Some? then s.(closes := s.closes[i := s.closes[i] + [Refused(Busy)]])
    else if !a.written then s.(closes := s.closes[i := s.closes[i] + [Refused(Io)]], outbox := Outbox(None, None, Halt))
    else s.(closing := Some(i), trace := s.trace + [CloseSent])
  }

  function TakeResult(s: State, result: string, a: Answers): State
    requires InRange(s)
  {
    if s.active.None? then FailAll(s, UnexpectedMessage, true)
    else if !a.valid then FailAll(s, Protocol, true)
    else if s.active.value.completed.Some? then FailAll(s, UnexpectedMessage, true)
    else
      var k := s.active.value.call;
      if s.active.value.cancel.Some? then
        s.(active := Some(s.active.value.(completed := Some(result))),
           outbox := Outbox(None, None, DemandFrame),
           trace := s.trace + [ResultValid(k, result)])
      else
        WithStage(s, k, Answered(Completed(result))).(
          active := None,
          outbox := Outbox(Some(Settle(k, Completed(result))), None, DemandFrame),
          trace := s.trace + [ResultValid(k, result), CallOver(k)])
  }

  /** The pending cancellation is taken out before its answer is looked at. */
  function TakeDisposition(s: State, x: CancellationResult, a: Answers): State
    requires InRange(s)
  {
    if s.active.None? || s.active.value.cancel.None? then FailAll(s, UnexpectedMessage, true)
    else
      var k := s.active.value.call;
      var c := s.active.value.cancel.value;
      var t := s.(active := Some(s.active.value.(cancel := None)), trace := s.trace + [CancelOver(c)]);
      if !a.valid then FailAll(WithCancelStage(t, c, Dropped(k)), Protocol, true)
      else
        var u := WithCancelStage(t, c, Resolved(k, x)).(trace := s.trace + [DispositionValid(c, x), CancelOver(c)]);
        match x.outcome
        case Acknowledged =>
          WithStage(u, k, Answered(Cancelled(x))).(
            active := None,
            outbox := Outbox(Some(Notify(c, Disposed(x))), Some(Settle(k, Cancelled(x))), DemandFrame),
            trace := u.trace + [CallOver(k)])
        case TooLate =>
          if s.active.value.completed.None? then
            FailAll(WithCancelStage(t, c, Dropped(k)).(trace := u.trace), UnexpectedMessage, true)
          else
            var result := s.active.value.completed.value;
            WithStage(u, k, Answered(Completed(result))).(
              active := None,
              outbox := Outbox(Some(Settle(k, Completed(result))), Some(Notify(c, Disposed(x))), DemandFrame),
              trace := u.trace + [CallOver(k)])
        case Unsupported =>
          u.(outbox := Outbox(Some(Notify(c, Disposed(x))), None, DemandFrame))
  }

  function TakeFrame(s: State, frame: Frame, a: Answers): State
    requires InRange(s)
  {
    match frame
    case EndOfStream =>
      if s.closing.Some? then
        s.(closing := None,
           closes := s.closes[s.closing.value := s.closes[s.closing.value] + [Accepted]],
           outbox := Outbox(None, None, Halt))
      else FailAll(s, Channel, true)
    case ReadError => FailAll(s, Channel, true)
    case Message(message) =>
      if !a.unsealed then FailAll(s, Protocol, true)
      else match message {
        case ResultMessage(result) => TakeResult(s, result, a)
        case CancellationMessage(result) => TakeDisposition(s, result, a)
        case OtherMessage => FailAll(s, UnexpectedMessage, true)
      }
  }

  ghost predicate CanTake(s: State, e: Event) {
    && InRange(s)
    && match e {
      case StartCommand(k) => k < |s.calls|
      case CancelCommand(c) => c < |s.cancels| && s.cancels[c].issuer < |s.calls|
      case CloseCommand(i) => i < |s.closes|
      case AbandonCommand => true
      case FrameEvent(_) => true
    }
  }

  function TakeEvent(s: State, e: Event, a: Answers): State
    requires CanTake(s, e)
  {
    match e
    case StartCommand(k) => TakeStart(s, k, a)
    case CancelCommand(c) => TakeCancel(s, c, a)
    case CloseCommand(i) => TakeClose(s, i, a)
    case AbandonCommand => FailAll(s, Abandoned, true)
    case FrameEvent(frame) => TakeFrame(s, frame, a)
  }

  // ---- Sending ----------------------------------------------------------

  ghost predicate CanSend(s: State, send: Send) {
    match send
    case Settle(k, _) => k < |s.calls|
    case Notify(c, _) => c < |s.cancels|
  }

  function Deliver(s: State, send: Send): State
    requires CanSend(s, send)
  {
    match send
    case Settle(k, outcome) => s.(calls := s.calls[k := s.calls[k].(sent := s.calls[k].sent + [outcome])])
    case Notify(c, note) => s.(cancels := s.cancels[c := s.cancels[c].(sent := s.cancels[c].sent + [note])])
  }

  /** One send of the event in hand, or what follows the last of them. */
  function Perform(s: State): State
    requires InRange(s) && s.outbox != IDLE
    requires s.outbox.first.Some? ==> CanSend(s, s.outbox.first.value)
    requires s.outbox.first.None? && s.outbox.second.Some? ==> CanSend(s, s.outbox.second.value)
  {
    if s.outbox.first.Some? then Deliver(s, s.outbox.first.value).(outbox := s.outbox.(first := None))
    else if s.outbox.second.Some? then Deliver(s, s.outbox.second.value).(outbox := s.outbox.(second := None))
    else match s.outbox.last {
      case Resume => s
      case DemandFrame =>
        if s.reader.done then FailAll(s, Unavailable, false)
        else s.(reader := s.reader.(requests := s.reader.requests + 1), outbox := IDLE)
      case Halt => s.(stopped := true, active := None, closing := None, queue := [], outbox := IDLE)
    }
  }

  // ---- Bindings ---------------------------------------------------------

  /** Whether some sender for the result of call `k` still exists. */
  ghost predicate CallSenderAlive(s: State, k: nat) {
    || StartCommand(k) in s.queue
    || (s.active.Some? && s.active.value.call == k)
    || SettlePending(s.outbox, k)
  }

  ghost predicate CancelSenderAlive(s: State, c: nat) {
    || CancelCommand(c) in s.queue
    || (s.active.Some? && s.active.value.cancel == Some(c))
    || NotifyPending(s.outbox, c)
  }

  predicate SettlePending(o: Outbox, k: nat) {
    || (o.first.Some? && o.first.value.Settle? && o.first.value.call == k)
    || (o.second.Some? && o.second.value.Settle? && o.second.value.call == k)
  }

  predicate NotifyPending(o: Outbox, c: nat) {
    || (o.first.Some? && o.first.value.Notify? && o.first.value.cancel == c)
    || (o.second.Some? && o.second.value.Notify? && o.second.value.cancel == c)
  }

  function Seen(call: Call, observed: Observed): Call {
    call.(binding := call.binding.(midway := false, log := call.binding.log + [observed]))
  }

  /** The first read of a poll, on the channel of the invocation. */
  ghost function PollResult(s: State, k: nat): Call
    requires k < |s.calls|
  {
    var call := s.calls[k];
    if call.read < |call.sent| then
      var outcome := call.sent[call.read];
      var next := call.(read := call.read + 1);
      if outcome.Failed? then Seen(next, Broken(outcome.error))
      else Seen(next, Terminal(outcome)).(binding := Seen(next, Terminal(outcome)).binding.(terminal := true))
    else if !CallSenderAlive(s, k) then Seen(call, Broken(Unavailable))
    else if call.binding.cancellation.None? then Seen(call, Nothing)
    else call.(binding := call.binding.(midway := true))
  }

  /** The second read of a poll, on the channel of the cancellation. */
  ghost function PollCancellation(s: State, k: nat): Call
    requires k < |s.calls| && s.calls[k].binding.cancellation.Some?
    requires s.calls[k].binding.cancellation.value < |s.cancels|
  {
    var call := s.calls[k];
    var c := call.binding.cancellation.value;
    var cancel := s.cancels[c];
    if cancel.read < |cancel.sent| then
      match cancel.sent[cancel.read]
      case CancellationFailed(error) => Seen(call, Broken(error))
      case Disposed(x) =>
        var next := call.(binding := call.binding.(cancellation := None));
        match x.outcome {
          case Acknowledged => Seen(next, Terminal(Cancelled(x))).(binding :=
            Seen(next, Terminal(Cancelled(x))).binding.(terminal := true))
          case TooLate => Seen(next, TooLateSeen)
          case Unsupported => Seen(next, UnsupportedSeen)
        }
    else if !CancelSenderAlive(s, c) then Seen(call, Broken(Unavailable))
    else Seen(call, Nothing)
  }

  // ---- Steps ------------------------------------------------------------

  datatype Step =
    | IssueStart(request: string, tool: string)
    | IssueCancel(call: nat, bound: bool)
    | HearAccepted(call: nat)
    | IssueClose
    | IssueAbandon
    | Take(answers: Answers)
    | Send
    | ReaderTakes
    | ReaderDelivers(frame: Frame)
    | PollFirst(call: nat)
    | PollSecond(call: nat)

  /** The handle of a call exists once its start command was accepted. */
  predicate HasHandle(s: State, k: nat) {
    k < |s.calls| && s.calls[k].accepted == [Accepted]
  }

  ghost predicate Enabled(s: State, step: Step) {
    match step
    case IssueStart(_, _) => !s.stopped
    case IssueCancel(k, bound) =>
      && !s.stopped && HasHandle(s, k)
      && (bound ==> var b := s.calls[k].binding; !b.terminal && !b.requested && !b.midway && b.awaiting.None?)
    case HearAccepted(k) =>
      && k < |s.calls| && s.calls[k].binding.awaiting.Some? && !s.calls[k].binding.midway
      && var c := s.calls[k].binding.awaiting.value; c < |s.cancels| && s.cancels[c].accepted != []
    case IssueClose => !s.stopped
    case IssueAbandon => !s.stopped
    case Take(_) => !s.stopped && s.outbox == IDLE && s.queue != [] && CanTake(s, s.queue[0])
    case Send =>
      && !s.stopped && s.outbox != IDLE && InRange(s)
      && (s.outbox.first.Some? ==> CanSend(s, s.outbox.first.value))
      && (s.outbox.first.None? && s.outbox.second.Some? ==> CanSend(s, s.outbox.second.value))
    case ReaderTakes => s.reader.requests > 0 && !s.reader.reading && !s.reader.done
    case ReaderDelivers(_) => s.reader.reading
    case PollFirst(k) => HasHandle(s, k) && !s.calls[k].binding.terminal && !s.calls[k].binding.midway
    case PollSecond(k) =>
      && HasHandle(s, k) && s.calls[k].binding.midway && s.calls[k].binding.cancellation.Some?
      && s.calls[k].binding.cancellation.value < |s.cancels|
  }

  ghost function After(s: State, step: Step): State
    requires Enabled(s, step)
  {
    match step
    case IssueStart(request, tool) =>
      var call := Call(request, tool, Queued, [], [], 0, Binding(false, false, None, None, false, []));
      s.(calls := s.calls + [call], queue := s.queue + [StartCommand(|s.calls|)])
    case IssueCancel(k, bound) =>
      var c := |s.cancels|;
      var t := s.(cancels := s.cancels + [Cancel(k, Waiting, [], [], 0)], queue := s.queue + [CancelCommand(c)]);
      if bound then t.(calls := s.calls[k := s.calls[k].(binding := s.calls[k].binding.(awaiting := Some(c)))]) else t
    case HearAccepted(k) =>
      var b := s.calls[k].binding;
      var c := b.awaiting.value;
      var heard := if s.cancels[c].accepted[0].Accepted? then
        b.(awaiting := None, cancellation := Some(c), requested := true) else b.(awaiting := None);
      s.(calls := s.calls[k := s.calls[k].(binding := heard)])
    case IssueClose => s.(closes := s.closes + [[]], queue := s.queue + [CloseCommand(|s.closes|)])
    case IssueAbandon => s.(queue := s.queue + [AbandonCommand])
    case Take(answers) => TakeEvent(s.(queue := s.queue[1..]), s.queue[0], answers)
    case Send => Perform(s)
    case ReaderTakes => s.(reader := s.reader.(requests := s.reader.requests - 1, reading := true))
    case ReaderDelivers(frame) =>
      if s.stopped then s.(reader := s.reader.(reading := false, done := true))
      else s.(reader := s.reader.(reading := false, done := !frame.Message?), queue := s.queue + [FrameEvent(frame)])
    case PollFirst(k) => s.(calls := s.calls[k := PollResult(s, k)])
    case PollSecond(k) =>
      var c := s.calls[k].binding.cancellation.value;
      var cancel := s.cancels[c];
      s.(calls := s.calls[k := PollCancellation(s, k)],
         cancels := s.cancels[c := cancel.(read := if cancel.read < |cancel.sent| then cancel.read + 1
           else cancel.read)])
  }

  /** A run of the session from its start. */
  ghost predicate IsRun(states: seq<State>, steps: seq<Step>) {
    && |states| == |steps| + 1
    && states[0] == INITIAL
    && (forall i :: 0 <= i < |steps| ==> Enabled(states[i], steps[i]) && states[i + 1] == After(states[i], steps[i]))
  }
}
