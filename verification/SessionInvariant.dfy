/** What every step of a worker session keeps about calls, cancellations and pending sends. */
module SessionInvariant {
  import opened Coordinator

  ghost predicate Halting(s: State) {
    s.stopped || s.outbox.last.Halt?
  }

  /** The note a cancellation is owed at its stage. */
  function NoteOf(stage: CancelStage): Option<Note> {
    match stage
    case Resolved(_, x) => Some(Disposed(x))
    case Lost(_, error) => Some(CancellationFailed(error))
    case Waiting => None
    case Pending(_) => None
    case Dropped(_) => None
    case Denied => None
  }

  /** The call a cancellation was sent for, if it was sent. */
  function Hit(stage: CancelStage): Option<nat> {
    match stage
    case Pending(k) => Some(k)
    case Resolved(k, _) => Some(k)
    case Lost(k, _) => Some(k)
    case Dropped(k) => Some(k)
    case Waiting => None
    case Denied => None
  }

  predicate IsActive(s: State, k: nat) {
    s.active.Some? && s.active.value.call == k
  }

  predicate IsPending(s: State, c: nat) {
    s.active.Some? && s.active.value.cancel == Some(c)
  }

  /** A call is live exactly while it is the active one, and what it was sent is what its stage says. */
  ghost predicate CallOk(s: State, k: nat)
    requires k < |s.calls|
  {
    var x := s.calls[k];
    && (x.stage.Live? <==> IsActive(s, k))
    && x.sent == (if x.stage.Answered? && !SettlePending(s.outbox, k) then [x.stage.outcome] else [])
    && (x.stage.Queued? ==> x.accepted == [])
    && (x.stage.Rejected? ==> |x.accepted| == 1 && x.accepted[0].Refused?)
    && (x.stage.Live? || x.stage.Answered? ==> x.accepted == [Accepted])
  }

  ghost predicate CancelOk(s: State, c: nat)
    requires c < |s.cancels|
  {
    var x := s.cancels[c];
    && x.issuer < |s.calls|
    && (s.calls[x.issuer].stage.Live? || s.calls[x.issuer].stage.Answered?)
    && (x.stage.Pending? <==> IsPending(s, c))
    && (x.stage.Pending? ==> IsActive(s, x.stage.call))
    && x.sent == (if NoteOf(x.stage).Some? && !NotifyPending(s.outbox, c) then [NoteOf(x.stage).value] else [])
    && (x.stage.Waiting? ==> x.accepted == [])
    && (x.stage.Denied? ==> |x.accepted| == 1 && x.accepted[0].Refused?)
    && (Hit(x.stage).Some? ==> x.accepted == [Accepted] && HitOk(s, c, Hit(x.stage).value))
    && (x.stage.Resolved? ==> DispositionOk(s, c))
  }

  /** A cancellation that struck another call than its issuer's came after the issuer had its outcome. */
  ghost predicate HitOk(s: State, c: nat, h: nat)
    requires c < |s.cancels| && s.cancels[c].issuer < |s.calls|
  {
    var x := s.calls[s.cancels[c].issuer];
    && h < |s.calls|
    && (h != s.cancels[c].issuer ==> x.stage.Answered? && !x.stage.outcome.Failed? && x.sent == [x.stage.outcome])
  }

  /** A disposition agrees with the outcome of its call; too-late is only sent after the result. */
  ghost predicate DispositionOk(s: State, c: nat)
    requires c < |s.cancels| && s.cancels[c].stage.Resolved?
  {
    var x := s.cancels[c].stage.result;
    var h := s.cancels[c].stage.call;
    && h < |s.calls|
    && (x.outcome.Acknowledged? ==> s.calls[h].stage == Answered(Cancelled(x)))
    && (x.outcome.TooLate? ==>
          && s.calls[h].stage.Answered? && s.calls[h].stage.outcome.Completed?
          && (s.cancels[c].sent != [] ==> !SettlePending(s.outbox, h)))
  }

  ghost predicate SendOk(s: State, send: Send) {
    match send
    case Settle(k, outcome) => k < |s.calls| && s.calls[k].stage == Answered(outcome)
    case Notify(c, note) => c < |s.cancels| && NoteOf(s.cancels[c].stage) == Some(note)
  }

  predicate TooLateNote(send: Send) {
    send.Notify? && send.note.Disposed? && send.note.result.outcome.TooLate?
  }

  ghost predicate OutboxOk(s: State) {
    var o := s.outbox;
    && (o.first.Some? ==> SendOk(s, o.first.value))
    && (o.second.Some? ==> SendOk(s, o.second.value))
    && (o.first.Some? && o.second.Some? ==>
      (o.first.value.Settle? <==> o.second.value.Notify?) && !TooLateNote(o.first.value))
    && (o.last.Resume? ==> o.first.None? && o.second.None?)
    && (o.last.Halt? ==> s.active.None? && s.closing.None?)
  }

  ghost predicate EventOk(s: State, e: Event) {
    match e
    case StartCommand(k) => k < |s.calls| && s.calls[k].stage.Queued?
    case CancelCommand(c) => c < |s.cancels| && s.cancels[c].stage.Waiting?
    case CloseCommand(i) => i < |s.closes| && s.closes[i] == [] && s.closing != Some(i)
    case AbandonCommand => true
    case FrameEvent(_) => true
  }

  ghost predicate QueueOk(s: State) {
    && (forall i :: 0 <= i < |s.queue| ==> EventOk(s, s.queue[i]))
    && (forall i, j :: 0 <= i < j < |s.queue| && !s.queue[i].AbandonCommand? && !s.queue[i].FrameEvent? ==>
      s.queue[i] != s.queue[j])
  }

  ghost predicate Shape(s: State) {
    && InRange(s)
    && (s.active.Some? ==> s.closing.None?)
    && (s.stopped ==> s.active.None? && s.closing.None? && s.queue == [] && s.outbox == IDLE)
    && OutboxOk(s)
    && QueueOk(s)
  }

  ghost predicate Base(s: State) {
    && Shape(s)
    && (forall k :: 0 <= k < |s.calls| ==> CallOk(s, k))
    && (forall c :: 0 <= c < |s.cancels| ==> CancelOk(s, c))
  }

  predicate FailedCall(stage: CallStage) {
    stage.Answered? && stage.outcome.Failed?
  }

  predicate FailedCancel(stage: CancelStage) {
    stage.Lost? || stage.Dropped?
  }

  /** Failures are told only on the way out. */
  ghost predicate EndsOnFailure(s: State) {
    || Halting(s)
    || (&& (forall k :: 0 <= k < |s.calls| ==> !FailedCall(s.calls[k].stage))
        && (forall c :: 0 <= c < |s.cancels| ==> !FailedCancel(s.cancels[c].stage)))
  }

  ghost predicate Inv(s: State) {
    Base(s) && EndsOnFailure(s)
  }

  lemma {:induction false} InitialOk()
    ensures Inv(INITIAL)
  {
  }

  // ---- Host calls and the reader ----------------------------------------

  lemma {:induction false} IssueStartKeeps(s: State, request: string, tool: string)
    requires Inv(s) && Enabled(s, IssueStart(request, tool))
    ensures Inv(After(s, IssueStart(request, tool)))
  {
    var t := After(s, IssueStart(request, tool));
    assert forall k :: 0 <= k < |s.calls| ==> t.calls[k] == s.calls[k];
    assert forall i :: 0 <= i < |s.queue| ==> t.queue[i] == s.queue[i] && EventOk(t, t.queue[i]);
    forall k | 0 <= k < |t.calls| ensures CallOk(t, k) {
      if k < |s.calls| {
        assert CallOk(s, k);
      }
    }
    forall c | 0 <= c < |t.cancels| ensures CancelOk(t, c) {
      assert CancelOk(s, c);
    }
  }

  lemma {:induction false} IssueCancelKeeps(s: State, k: nat, bound: bool)
    requires Inv(s) && Enabled(s, IssueCancel(k, bound))
    ensures Inv(After(s, IssueCancel(k, bound)))
  {
    var t := After(s, IssueCancel(k, bound));
    assert CallOk(s, k);
    assert |t.calls| == |s.calls| && forall j :: 0 <= j < |s.calls| ==>
      t.calls[j].stage == s.calls[j].stage && t.calls[j].sent == s.calls[j].sent &&
        t.calls[j].accepted == s.calls[j].accepted;
    assert t.cancels == s.cancels + [Cancel(k, Waiting, [], [], 0)];
    assert t.queue == s.queue + [CancelCommand(|s.cancels|)];
    assert t.active == s.active && t.closing == s.closing && t.outbox == s.outbox && t.stopped == s.stopped &&
      t.closes == s.closes;
    hide Enabled, After;
    NewCancelQueue(s, t);
    hide EventOk, QueueOk;
    forall j | 0 <= j < |t.calls| ensures CallOk(t, j) {
      assert CallOk(s, j);
    }
    forall c | 0 <= c < |t.cancels| ensures CancelOk(t, c) {
      if c < |s.cancels| {
        assert CancelOk(s, c);
      }
    }
  }

  lemma {:induction false} NewCancelQueue(s: State, t: State)
    requires QueueOk(s) && |t.calls| == |s.calls| && forall j :: 0 <= j < |s.calls| ==>
      t.calls[j].stage == s.calls[j].stage
    requires |t.cancels| == |s.cancels| + 1 && s.cancels <= t.cancels && t.cancels[|s.cancels|].stage.Waiting?
    requires t.queue == s.queue + [CancelCommand(|s.cancels|)] && t.closes == s.closes && t.closing == s.closing
    ensures QueueOk(t)
  {
    assert forall i :: 0 <= i < |s.queue| ==>
      t.queue[i] == s.queue[i] && EventOk(s, s.queue[i]) && EventOk(t, t.queue[i]);
  }

  /** Steps that leave calls, cancellations and the coordinator's own state alone. */
  ghost predicate SameCore(s: State, t: State) {
    && t.active == s.active && t.closing == s.closing && t.stopped == s.stopped && t.outbox == s.outbox
    && |t.calls| == |s.calls| && |t.cancels| == |s.cancels|
    && (forall k :: 0 <= k < |s.calls| ==>
          t.calls[k].stage == s.calls[k].stage && t.calls[k].sent == s.calls[k].sent &&
            t.calls[k].accepted == s.calls[k].accepted)
    && (forall c :: 0 <= c < |s.cancels| ==>
          && t.cancels[c].stage == s.cancels[c].stage && t.cancels[c].sent == s.cancels[c].sent
          && t.cancels[c].accepted == s.cancels[c].accepted && t.cancels[c].issuer == s.cancels[c].issuer)
  }

  lemma {:induction false} SameCoreKeeps(s: State, t: State)
    requires Inv(s) && SameCore(s, t) && InRange(t) && QueueOk(t) && (t.stopped ==> t.queue == [])
    ensures Inv(t)
  {
    forall k | 0 <= k < |t.calls| ensures CallOk(t, k) {
      assert CallOk(s, k);
    }
    forall c | 0 <= c < |t.cancels| ensures CancelOk(t, c) {
      assert CancelOk(s, c);
    }
  }

  lemma {:induction false} HostKeeps(s: State, step: Step)
    requires Inv(s) && Enabled(s, step)
    requires step.IssueClose? || step.IssueAbandon? || step.ReaderTakes? || step.ReaderDelivers?
    ensures Inv(After(s, step))
  {
    hide CallOk, CancelOk, OutboxOk;
    var t := After(s, step);
    assert forall i :: 0 <= i < |s.queue| ==> t.queue[i] == s.queue[i] && EventOk(t, t.queue[i]);
    SameCoreKeeps(s, t);
  }

  lemma {:induction false} SameQueue(s: State, t: State)
    requires QueueOk(s) && t.queue == s.queue && t.closes == s.closes && t.closing == s.closing
    requires |t.calls| == |s.calls| && |t.cancels| == |s.cancels|
    requires forall k :: 0 <= k < |s.calls| ==> t.calls[k].stage == s.calls[k].stage
    requires forall c :: 0 <= c < |s.cancels| ==> t.cancels[c].stage == s.cancels[c].stage
    ensures QueueOk(t)
  {
    assert forall i :: 0 <= i < |s.queue| ==> EventOk(s, s.queue[i]) && EventOk(t, t.queue[i]);
  }

  lemma {:induction false} PollKeeps(s: State, step: Step)
    requires Inv(s) && Enabled(s, step)
    requires step.HearAccepted? || step.PollFirst? || step.PollSecond?
    ensures Inv(After(s, step))
  {
    hide CallOk, CancelOk, OutboxOk, EventOk, QueueOk;
    var t := After(s, step);
    assert InRange(t);
    assert SameCore(s, t);
    SameQueue(s, t);
    SameCoreKeeps(s, t);
  }

  // ---- Sending ----------------------------------------------------------

  lemma {:induction false} SettleKeeps(s: State, t: State, k: nat, outcome: Outcome)
    requires Inv(s) && !s.stopped && k < |s.calls| && s.calls[k].stage == Answered(outcome) &&
      SettlePending(s.outbox, k)
    requires t == s.(calls := s.calls[k := s.calls[k].(sent := s.calls[k].sent + [outcome])], outbox := t.outbox)
    requires OutboxOk(t) && t.outbox.last == s.outbox.last && !t.outbox.last.Resume?
    requires forall j :: SettlePending(t.outbox, j) <==> SettlePending(s.outbox, j) && j != k
    requires forall c :: NotifyPending(t.outbox, c) <==> NotifyPending(s.outbox, c)
    ensures Inv(t)
  {
    hide OutboxOk, SettlePending, NotifyPending;
    forall j | 0 <= j < |t.calls| ensures CallOk(t, j) {
      assert CallOk(s, j);
    }
    assert CallOk(s, k);
    forall c | 0 <= c < |t.cancels| ensures CancelOk(t, c) {
      assert CancelOk(s, c);
    }
    SameQueue(s, t);
  }

  lemma {:induction false} NotifyKeeps(s: State, t: State, c: nat, note: Note)
    requires Inv(s) && !s.stopped && c < |s.cancels| && NoteOf(s.cancels[c].stage) == Some(note) &&
      NotifyPending(s.outbox, c)
    requires t == s.(cancels := s.cancels[c := s.cancels[c].(sent := s.cancels[c].sent + [note])], outbox := t.outbox)
    requires OutboxOk(t) && t.outbox.last == s.outbox.last && !t.outbox.last.Resume?
    requires forall j :: SettlePending(t.outbox, j) <==> SettlePending(s.outbox, j)
    requires forall d :: NotifyPending(t.outbox, d) <==> NotifyPending(s.outbox, d) && d != c
    requires TooLateNote(Notify(c, note)) ==> forall j :: !SettlePending(t.outbox, j)
    ensures Inv(t)
  {
    hide OutboxOk, SettlePending, NotifyPending;
    forall j | 0 <= j < |t.calls| ensures CallOk(t, j) {
      assert CallOk(s, j);
    }
    forall d | 0 <= d < |t.cancels| ensures CancelOk(t, d) {
      assert CancelOk(s, d);
    }
    SameQueue(s, t);
  }

  lemma {:induction false} DeliverKeeps(s: State)
    requires Inv(s) && Enabled(s, Send) && (s.outbox.first.Some? || s.outbox.second.Some?)
    ensures Inv(Perform(s))
  {
    hide CallOk, CancelOk, QueueOk;
    var t := Perform(s);
    var send := if s.outbox.first.Some? then s.outbox.first.value else s.outbox.second.value;
    assert SendOk(s, send);
    match send
    case Settle(k, outcome) => SettleKeeps(s, t, k, outcome);
    case Notify(c, note) => NotifyKeeps(s, t, c, note);
  }

  lemma {:induction false} HaltKeeps(s: State)
    requires Inv(s) && Enabled(s, Send) && s.outbox == Outbox(None, None, Halt)
    ensures Inv(Perform(s)) && Perform(s).stopped
  {
    var t := Perform(s);
    forall k | 0 <= k < |t.calls| ensures CallOk(t, k) {
      assert CallOk(s, k);
    }
    forall c | 0 <= c < |t.cancels| ensures CancelOk(t, c) {
      assert CancelOk(s, c);
    }
  }

  // ---- Taking events ----------------------------------------------------

  /** The next event is out of the queue and nothing else in the queue is about the same command. */
  lemma {:induction false} PopKeeps(s: State)
    requires Inv(s) && !s.stopped && s.queue != []
    ensures Inv(s.(queue := s.queue[1..])) && CanTake(s.(queue := s.queue[1..]), s.queue[0])
    ensures EventOk(s, s.queue[0])
    ensures s.queue[0].AbandonCommand? || s.queue[0].FrameEvent? || s.queue[0] !in s.queue[1..]
  {
    var t := s.(queue := s.queue[1..]);
    assert EventOk(s, s.queue[0]);
    forall i | 0 <= i < |t.queue| ensures EventOk(t, t.queue[i]) && t.queue[i] == s.queue[i + 1] {
      assert EventOk(s, s.queue[i + 1]);
    }
    if s.queue[0].CancelCommand? {
      assert CancelOk(s, s.queue[0].cancel);
    }
    hide CallOk, CancelOk, OutboxOk;
    SameCoreKeepsBase(s, t);
  }

  lemma {:induction false} SameCoreKeepsBase(s: State, t: State)
    requires Inv(s) && t == s.(queue := t.queue) && QueueOk(t) && !t.stopped
    ensures Inv(t)
  {
    hide QueueOk, EventOk;
    SameCoreKeeps(s, t);
  }

  /** No send of the last event is outstanding. */
  predicate Free(s: State) {
    !s.stopped && s.outbox.first.None? && s.outbox.second.None? && !s.outbox.last.Halt?
  }

  /** The queue only cares about stages of queued commands and about unanswered closes. */
  lemma {:induction false} QueueUnaffected(s: State, t: State)
    requires QueueOk(s) && t.queue == s.queue
    requires |t.calls| == |s.calls| && |t.cancels| == |s.cancels| && |t.closes| == |s.closes|
    requires forall k :: 0 <= k < |s.calls| && s.calls[k].stage.Queued? && StartCommand(k) in s.queue ==>
      t.calls[k].stage.Queued?
    requires forall c :: 0 <= c < |s.cancels| && s.cancels[c].stage.Waiting? && CancelCommand(c) in s.queue ==>
      t.cancels[c].stage.Waiting?
    requires forall i ::
      0 <= i < |s.closes| && CloseCommand(i) in s.queue && s.closes[i] == [] && s.closing != Some(i) ==>
      t.closes[i] == [] && t.closing != Some(i)
    ensures QueueOk(t)
  {
    forall i | 0 <= i < |t.queue| ensures EventOk(t, t.queue[i]) {
      assert EventOk(s, s.queue[i]) && s.queue[i] in s.queue;
    }
  }

  lemma {:induction false} FailAllQueue(s: State, error: Error, tell: bool)
    requires Base(s) && Free(s)
    ensures QueueOk(FailAll(s, error, tell))
  {
    if s.active.Some? {
      assert CallOk(s, s.active.value.call);
      if s.active.value.cancel.Some? {
        assert CancelOk(s, s.active.value.cancel.value);
      }
    }
    hide CallOk, CancelOk, QueueOk, EventOk, OutboxOk;
    QueueUnaffected(s, FailAll(s, error, tell));
  }

  lemma {:induction false} FailAllCall(s: State, error: Error, tell: bool, k: nat)
    requires Base(s) && Free(s) && k < |s.calls|
    ensures CallOk(FailAll(s, error, tell), k)
  {
    hide QueueOk, CancelOk;
    assert CallOk(s, k);
  }

  lemma {:induction false} FailAllCancel(s: State, error: Error, tell: bool, c: nat)
    requires Base(s) && Free(s) && c < |s.cancels|
    ensures CancelOk(FailAll(s, error, tell), c)
  {
    hide QueueOk;
    assert CancelOk(s, c);
    assert CallOk(s, s.cancels[c].issuer);
    if s.cancels[c].stage.Resolved? {
      assert CallOk(s, s.cancels[c].stage.call);
    }
    hide CallOk;
  }

  lemma {:induction false} FailAllKeeps(s: State, error: Error, tell: bool)
    requires Base(s) && Free(s)
    ensures Inv(FailAll(s, error, tell)) && Halting(FailAll(s, error, tell))
  {
    FailAllQueue(s, error, tell);
    if s.active.Some? && s.active.value.cancel.Some? {
      assert CancelOk(s, s.active.value.cancel.value);
    }
    hide QueueOk, CallOk, CancelOk;
    var t := FailAll(s, error, tell);
    forall k | 0 <= k < |t.calls| ensures CallOk(t, k) {
      FailAllCall(s, error, tell, k);
    }
    forall c | 0 <= c < |t.cancels| ensures CancelOk(t, c) {
      FailAllCancel(s, error, tell, c);
    }
  }

  lemma {:induction false} TakeStartKeeps(s: State, k: nat, a: Answers)
    requires Inv(s) && Free(s) && s.outbox == IDLE
    requires k < |s.calls| && s.calls[k].stage.Queued? && StartCommand(k) !in s.queue
    ensures Inv(TakeStart(s, k, a))
  {
    var t := TakeStart(s, k, a);
    assert CallOk(s, k);
    QueueUnaffected(s, t);
    hide QueueOk, EventOk;
    forall j | 0 <= j < |t.calls| ensures CallOk(t, j) {
      assert CallOk(s, j);
    }
    forall c | 0 <= c < |t.cancels| ensures CancelOk(t, c) {
      assert CancelOk(s, c);
    }
  }

  lemma {:induction false} TakeCloseKeeps(s: State, i: nat, a: Answers)
    requires Inv(s) && Free(s) && s.outbox == IDLE
    requires i < |s.closes| && s.closes[i] == [] && s.closing != Some(i) && CloseCommand(i) !in s.queue
    ensures Inv(TakeClose(s, i, a))
  {
    var t := TakeClose(s, i, a);
    QueueUnaffected(s, t);
    hide QueueOk, EventOk;
    forall j | 0 <= j < |t.calls| ensures CallOk(t, j) {
      assert CallOk(s, j);
    }
    forall c | 0 <= c < |t.cancels| ensures CancelOk(t, c) {
      assert CancelOk(s, c);
    }
  }

  lemma {:induction false} DenyKeeps(s: State, c: nat, error: Error)
    requires Inv(s) && Free(s) && c < |s.cancels| && s.cancels[c].stage.Waiting? && CancelCommand(c) !in s.queue
    ensures Inv(Deny(s, c, error)) && Free(Deny(s, c, error))
  {
    var t := Deny(s, c, error);
    QueueUnaffected(s, t);
    hide QueueOk, EventOk;
    forall j | 0 <= j < |t.calls| ensures CallOk(t, j) {
      assert CallOk(s, j);
    }
    forall d | 0 <= d < |t.cancels| ensures CancelOk(t, d) {
      assert CancelOk(s, d);
    }
  }

  /** A cancellation is sent for the active call, or for one that answered to the same names before. */
  lemma {:induction false} SendCancelKeeps(s: State, c: nat, trace: seq<Traced>)
    requires Inv(s) && Free(s) && s.outbox == IDLE
    requires c < |s.cancels| && s.cancels[c].stage.Waiting? && CancelCommand(c) !in s.queue &&
      s.cancels[c].issuer < |s.calls|
    requires s.active.Some? && s.active.value.cancel.None?
    ensures Inv(s.(
      active := Some(s.active.value.(cancel := Some(c))),
      cancels := s.cancels[c := s.cancels[c].(stage := Pending(s.active.value.call), accepted :=
        s.cancels[c].accepted + [Accepted])],
      trace := trace))
  {
    var t := s.(
      active := Some(s.active.value.(cancel := Some(c))),
      cancels := s.cancels[c := s.cancels[c].(stage := Pending(s.active.value.call), accepted :=
        s.cancels[c].accepted + [Accepted])],
      trace := trace);
    QueueUnaffected(s, t);
    hide QueueOk, EventOk;
    forall j | 0 <= j < |t.calls| ensures CallOk(t, j) {
      assert CallOk(s, j);
    }
    assert CallOk(s, s.cancels[c].issuer);
    forall d | 0 <= d < |t.cancels| ensures CancelOk(t, d) {
      assert CancelOk(s, d);
    }
  }

  lemma {:induction false} TakeCancelKeeps(s: State, c: nat, a: Answers)
    requires Inv(s) && Free(s) && s.outbox == IDLE
    requires c < |s.cancels| && s.cancels[c].stage.Waiting? && CancelCommand(c) !in s.queue &&
      s.cancels[c].issuer < |s.calls|
    ensures Inv(TakeCancel(s, c, a))
  {
    DenyKeeps(s, c, NoActiveInvocation);
    DenyKeeps(s, c, TargetMismatch);
    DenyKeeps(s, c, CancellationPending);
    DenyKeeps(s, c, Protocol);
    DenyKeeps(s, c, Io);
    FailAllKeeps(Deny(s, c, Io), Io, false);
    if s.active.Some? && s.active.value.cancel.None? {
      var from := s.calls[s.cancels[c].issuer];
      SendCancelKeeps(s, c, s.trace + [CancelSent(c, from.request, from.tool)]);
    }
    hide Inv, FailAll, Deny;
  }

  /** The active call gets its outcome and is active no more. */
  ghost predicate Concluded(s: State, t: State, k: nat, outcome: Outcome) {
    && IsActive(s, k) && k < |s.calls|
    && t.calls == s.calls[k := s.calls[k].(stage := Answered(outcome))]
    && t.active.None? && t.closing == s.closing && !t.stopped && t.queue == s.queue && t.closes == s.closes
    && SettlePending(t.outbox, k)
    && (forall j :: SettlePending(t.outbox, j) ==> j == k)
    && OutboxOk(t) && t.outbox.last.DemandFrame?
    && !outcome.Failed?
  }

  lemma {:induction false} ConcludedCalls(s: State, t: State, k: nat, outcome: Outcome)
    requires Base(s) && Free(s) && Concluded(s, t, k, outcome)
    ensures forall j :: 0 <= j < |t.calls| ==> CallOk(t, j)
  {
    hide QueueOk, OutboxOk, CancelOk;
    forall j | 0 <= j < |t.calls| ensures CallOk(t, j) {
      assert CallOk(s, j);
    }
  }

  /** A cancellation that is not the one being answered keeps its standing. */
  lemma {:induction false} ConcludedCancel(s: State, t: State, k: nat, outcome: Outcome, d: nat)
    requires Base(s) && Free(s) && Concluded(s, t, k, outcome)
    requires d < |s.cancels| && d < |t.cancels| && t.cancels[d] == s.cancels[d]
    requires !IsPending(s, d) && !NotifyPending(t.outbox, d)
    ensures CancelOk(t, d)
  {
    hide QueueOk, OutboxOk;
    assert CancelOk(s, d);
    assert CallOk(s, s.cancels[d].issuer);
    if s.cancels[d].stage.Resolved? {
      assert CallOk(s, s.cancels[d].stage.call);
    }
    assert CallOk(s, k);
  }

  lemma {:induction false} ConcludedQueue(s: State, t: State, k: nat, outcome: Outcome)
    requires Base(s) && Concluded(s, t, k, outcome)
    requires |t.cancels| == |s.cancels|
    requires forall d :: 0 <= d < |s.cancels| && s.cancels[d].stage.Waiting? ==> t.cancels[d].stage.Waiting?
    ensures QueueOk(t)
  {
    assert CallOk(s, k);
    hide CallOk, CancelOk, OutboxOk, QueueOk;
    QueueUnaffected(s, t);
  }

  lemma {:induction false} ResultConcludes(s: State, result: string, trace: seq<Traced>)
    requires Inv(s) && Free(s) && s.active.Some? && s.active.value.cancel.None?
    ensures var k := s.active.value.call;
      Inv(WithStage(s, k, Answered(Completed(result))).(
        active := None, outbox := Outbox(Some(Settle(k, Completed(result))), None, DemandFrame), trace := trace))
  {
    var k := s.active.value.call;
    var t := WithStage(s, k, Answered(Completed(result))).(
        active := None, outbox := Outbox(Some(Settle(k, Completed(result))), None, DemandFrame), trace := trace);
    assert Concluded(s, t, k, Completed(result));
    ConcludedCalls(s, t, k, Completed(result));
    ConcludedQueue(s, t, k, Completed(result));
    hide CallOk, CancelOk, QueueOk;
    forall d | 0 <= d < |t.cancels| ensures CancelOk(t, d) {
      ConcludedCancel(s, t, k, Completed(result), d);
    }
  }

  lemma {:induction false} ResultStored(s: State, result: string, trace: seq<Traced>)
    requires Inv(s) && Free(s) && s.active.Some?
    ensures Inv(s.(active := Some(s.active.value.(completed := Some(result))), outbox :=
      Outbox(None, None, DemandFrame), trace := trace))
  {
    var t := s.(active := Some(s.active.value.(completed := Some(result))), outbox :=
      Outbox(None, None, DemandFrame), trace := trace);
    QueueUnaffected(s, t);
    hide QueueOk, EventOk;
    forall j | 0 <= j < |t.calls| ensures CallOk(t, j) {
      assert CallOk(s, j);
    }
    forall d | 0 <= d < |t.cancels| ensures CancelOk(t, d) {
      assert CancelOk(s, d);
    }
  }

  lemma {:induction false} TakeResultKeeps(s: State, result: string, a: Answers)
    requires Inv(s) && Free(s)
    ensures Inv(TakeResult(s, result, a))
  {
    FailAllKeeps(s, UnexpectedMessage, true);
    FailAllKeeps(s, Protocol, true);
    if s.active.Some? {
      var k := s.active.value.call;
      ResultStored(s, result, s.trace + [ResultValid(k, result)]);
      if s.active.value.cancel.None? {
        ResultConcludes(s, result, s.trace + [ResultValid(k, result), CallOver(k)]);
      }
    }
    hide Inv, FailAll, WithStage;
  }

  // ---- Dispositions -----------------------------------------------------

  /** The pending cancellation is out and its sender gone. */
  lemma {:induction false} DroppedKeeps(s: State, trace: seq<Traced>)
    requires Inv(s) && Free(s) && s.active.Some? && s.active.value.cancel.Some?
    ensures var c := s.active.value.cancel.value;
      var t := WithCancelStage(s.(active := Some(s.active.value.(cancel := None)), trace := trace), c,
        Dropped(s.active.value.call));
      Base(t) && Free(t)
  {
    var c := s.active.value.cancel.value;
    var t := WithCancelStage(s.(active := Some(s.active.value.(cancel := None)), trace := trace), c,
      Dropped(s.active.value.call));
    assert CancelOk(s, c);
    QueueUnaffected(s, t);
    hide QueueOk, EventOk;
    forall j | 0 <= j < |t.calls| ensures CallOk(t, j) {
      assert CallOk(s, j);
    }
    forall d | 0 <= d < |t.cancels| ensures CancelOk(t, d) {
      assert CancelOk(s, d);
    }
  }

  lemma {:induction false} UnsupportedKeeps(s: State, x: CancellationResult, trace: seq<Traced>)
    requires Inv(s) && Free(s) && s.active.Some? && s.active.value.cancel.Some? && x.outcome.Unsupported?
    ensures var c := s.active.value.cancel.value;
      Inv(WithCancelStage(s.(active := Some(s.active.value.(cancel := None))), c, Resolved(s.active.value.call, x)).(
        trace := trace, outbox := Outbox(Some(Notify(c, Disposed(x))), None, DemandFrame)))
  {
    var c := s.active.value.cancel.value;
    var t := WithCancelStage(s.(active := Some(s.active.value.(cancel := None))), c, Resolved(s.active.value.call, x)).(
        trace := trace, outbox := Outbox(Some(Notify(c, Disposed(x))), None, DemandFrame));
    assert CancelOk(s, c);
    QueueUnaffected(s, t);
    hide QueueOk, EventOk;
    forall j | 0 <= j < |t.calls| ensures CallOk(t, j) {
      assert CallOk(s, j);
    }
    forall d | 0 <= d < |t.cancels| ensures CancelOk(t, d) {
      assert CancelOk(s, d);
    }
  }

  /** Call and cancellation are answered together, in either order of sending that the outbox allows. */
  lemma {:induction false} DispositionConcludes(s: State, t: State, x: CancellationResult, outcome: Outcome)
    requires Inv(s) && Free(s) && s.active.Some? && s.active.value.cancel.Some?
    requires Concluded(s, t, s.active.value.call, outcome)
    requires var c := s.active.value.cancel.value;
      && t.cancels == s.cancels[c := s.cancels[c].(stage := Resolved(s.active.value.call, x))]
      && NotifyPending(t.outbox, c)
      && (forall d :: NotifyPending(t.outbox, d) ==> d == c)
    requires x.outcome.Acknowledged? ==> outcome == Cancelled(x)
    requires x.outcome.TooLate? ==> outcome.Completed?
    ensures Inv(t)
  {
    var k := s.active.value.call;
    var c := s.active.value.cancel.value;
    assert CancelOk(s, c) && CallOk(s, s.cancels[c].issuer) && CallOk(s, k);
    ConcludedCalls(s, t, k, outcome);
    ConcludedQueue(s, t, k, outcome);
    hide OutboxOk, QueueOk;
    forall d | 0 <= d < |t.cancels| ensures CancelOk(t, d) {
      if d != c {
        assert CancelOk(s, d);
        ConcludedCancel(s, t, k, outcome, d);
      }
    }
  }

  lemma {:induction false} TakeDispositionKeeps(s: State, x: CancellationResult, a: Answers)
    requires Inv(s) && Free(s)
    ensures Inv(TakeDisposition(s, x, a))
  {
    FailAllKeeps(s, UnexpectedMessage, true);
    if s.active.Some? && s.active.value.cancel.Some? {
      var k := s.active.value.call;
      var c := s.active.value.cancel.value;
      var before := s.trace + [CancelOver(c)];
      var valid := s.trace + [DispositionValid(c, x), CancelOver(c)];
      var t := TakeDisposition(s, x, a);
      if !a.valid || (x.outcome.TooLate? && s.active.value.completed.None?) {
        var trace := if a.valid then valid else before;
        DroppedKeeps(s, trace);
        var u := WithCancelStage(s.(active := Some(s.active.value.(cancel := None)), trace := trace), c, Dropped(k));
        FailAllKeeps(u, if a.valid then UnexpectedMessage else Protocol, true);
        assert t == FailAll(u, if a.valid then UnexpectedMessage else Protocol, true) by {
          hide Inv, FailAll;
        }
      } else if x.outcome.Unsupported? {
        UnsupportedKeeps(s, x, valid);
        hide Inv;
      } else {
        var outcome := if x.outcome.Acknowledged? then Cancelled(x) else Completed(s.active.value.completed.value);
        assert Concluded(s, t, k, outcome) by {
          hide Inv;
        }
        DispositionConcludes(s, t, x, outcome);
      }
    } else {
      hide Inv, FailAll;
    }
  }

  lemma {:induction false} EndOfStreamKeeps(s: State)
    requires Inv(s) && Free(s) && s.closing.Some?
    ensures Inv(s.(closing := None, closes :=
      s.closes[s.closing.value := s.closes[s.closing.value] + [Accepted]], outbox := Outbox(None, None, Halt)))
  {
    var t := s.(closing := None, closes := s.closes[s.closing.value := s.closes[s.closing.value] + [Accepted]],
      outbox := Outbox(None, None, Halt));
    QueueUnaffected(s, t);
    hide QueueOk, EventOk;
    forall j | 0 <= j < |t.calls| ensures CallOk(t, j) {
      assert CallOk(s, j);
    }
    forall d | 0 <= d < |t.cancels| ensures CancelOk(t, d) {
      assert CancelOk(s, d);
    }
  }

  lemma {:induction false} TakeFrameKeeps(s: State, frame: Frame, a: Answers)
    requires Inv(s) && Free(s)
    ensures Inv(TakeFrame(s, frame, a))
  {
    FailAllKeeps(s, Channel, true);
    FailAllKeeps(s, Protocol, true);
    FailAllKeeps(s, UnexpectedMessage, true);
    if s.closing.Some? {
      EndOfStreamKeeps(s);
    }
    if frame.Message? && frame.message.ResultMessage? {
      TakeResultKeeps(s, frame.message.payload, a);
    }
    if frame.Message? && frame.message.CancellationMessage? {
      TakeDispositionKeeps(s, frame.message.result, a);
    }
    hide Inv, FailAll, TakeResult, TakeDisposition;
  }

  lemma {:induction false} TakeKeeps(s: State, a: Answers)
    requires Inv(s) && Enabled(s, Take(a))
    ensures Inv(After(s, Take(a)))
  {
    PopKeeps(s);
    var t := s.(queue := s.queue[1..]);
    assert Free(t) && t.outbox == IDLE;
    assert After(s, Take(a)) == TakeEvent(t, s.queue[0], a);
    hide Inv, TakeStart, TakeCancel, TakeClose, TakeFrame, FailAll, Enabled, After;
    match s.queue[0]
    case StartCommand(k) => TakeStartKeeps(t, k, a);
    case CancelCommand(c) => TakeCancelKeeps(t, c, a);
    case CloseCommand(i) => TakeCloseKeeps(t, i, a);
    case AbandonCommand => AbandonKeeps(t);
    case FrameEvent(frame) => TakeFrameKeeps(t, frame, a);
  }

  lemma {:induction false} AbandonKeeps(s: State)
    requires Inv(s) && Free(s)
    ensures CanTake(s, AbandonCommand) && Inv(FailAll(s, Abandoned, true))
  {
    FailAllKeeps(s, Abandoned, true);
  }

  lemma {:induction false} DemandKeeps(s: State)
    requires Inv(s) && Enabled(s, Send) && s.outbox == Outbox(None, None, DemandFrame)
    ensures Inv(Perform(s))
  {
    var t := Perform(s);
    if s.reader.done {
      FailAllKeeps(s, Unavailable, false);
    } else {
      SameQueue(s, t);
      hide QueueOk;
      forall j | 0 <= j < |t.calls| ensures CallOk(t, j) {
        assert CallOk(s, j);
      }
      forall d | 0 <= d < |t.cancels| ensures CancelOk(t, d) {
        assert CancelOk(s, d);
      }
    }
  }

  lemma {:induction false} SendKeeps(s: State)
    requires Inv(s) && Enabled(s, Send)
    ensures Inv(After(s, Send))
  {
    if s.outbox.first.Some? || s.outbox.second.Some? {
      DeliverKeeps(s);
    } else if s.outbox.last.Halt? {
      HaltKeeps(s);
    } else {
      assert s.outbox == Outbox(None, None, DemandFrame);
      DemandKeeps(s);
    }
    hide Inv, Perform;
  }

  lemma {:induction false} StepKeeps(s: State, step: Step)
    requires Inv(s) && Enabled(s, step)
    ensures Inv(After(s, step))
  {
    hide Inv, Enabled, After;
    match step
    case IssueStart(request, tool) => IssueStartKeeps(s, request, tool);
    case IssueCancel(k, bound) => IssueCancelKeeps(s, k, bound);
    case HearAccepted(_) => PollKeeps(s, step);
    case IssueClose => HostKeeps(s, step);
    case IssueAbandon => HostKeeps(s, step);
    case Take(a) => TakeKeeps(s, a);
    case Send => SendKeeps(s);
    case ReaderTakes => HostKeeps(s, step);
    case ReaderDelivers(_) => HostKeeps(s, step);
    case PollFirst(_) => PollKeeps(s, step);
    case PollSecond(_) => PollKeeps(s, step);
  }

  lemma {:induction false} RunKeeps(states: seq<State>, steps: seq<Step>, i: nat)
    requires IsRun(states, steps) && i <= |steps|
    ensures Inv(states[i])
    decreases i
  {
    hide Inv, Enabled, After;
    if i == 0 {
      InitialOk();
    } else {
      RunKeeps(states, steps, i - 1);
      assert Enabled(states[i - 1], steps[i - 1]) && states[i] == After(states[i - 1], steps[i - 1]);
      StepKeeps(states[i - 1], steps[i - 1]);
    }
  }
}
