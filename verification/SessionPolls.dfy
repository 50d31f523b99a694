/** What a binding observes by polling two channels while the coordinator sends on them one at a time. */
module SessionPolls {
  import opened Coordinator
  import opened SessionInvariant
  import opened SessionOutcomes

  /** Right after a too-late observation the result is waiting in the other channel. */
  ghost predicate ResultWaits(x: Call) {
    !x.binding.midway && !x.binding.terminal && x.read == 0 && |x.sent| == 1 && x.sent[0].Completed?
  }

  ghost predicate LogOk(x: Call) {
    var b := x.binding;
    && (b.terminal ==>
          && b.log != [] && b.log[|b.log| - 1].Terminal? && !b.midway
          && x.stage == Answered(b.log[|b.log| - 1].outcome) && !x.stage.outcome.Failed?)
    && (forall i :: 0 <= i < |b.log| && b.log[i].Terminal? ==> b.terminal && i == |b.log| - 1)
    && (forall i :: 0 <= i < |b.log| - 1 && b.log[i].TooLateSeen? ==>
      b.log[i + 1].Terminal? && b.log[i + 1].outcome.Completed?)
    && (b.log != [] && b.log[|b.log| - 1].TooLateSeen? ==> ResultWaits(x))
    && (!b.terminal && x.read > 0 ==> FailedCall(x.stage))
    && x.read <= |x.sent|
  }

  ghost predicate Issued(s: State, k: nat, c: nat) {
    c < |s.cancels| && s.cancels[c].issuer == k && s.cancels[c].read <= |s.cancels[c].sent|
  }

  ghost predicate Holds(s: State, k: nat, c: nat) {
    Issued(s, k, c) && Hit(s.cancels[c].stage).Some?
  }

  ghost predicate BindingOk(s: State, k: nat)
    requires k < |s.calls|
  {
    var b := s.calls[k].binding;
    && LogOk(s.calls[k])
    && (b.awaiting.Some? ==> Issued(s, k, b.awaiting.value))
    && (b.cancellation.Some? ==> Holds(s, k, b.cancellation.value))
    && (b.midway ==> !b.terminal && b.cancellation.Some? && Hit(s.cancels[b.cancellation.value].stage) == Some(k))
  }

  ghost predicate Bindings(s: State) {
    forall k :: 0 <= k < |s.calls| ==> BindingOk(s, k)
  }

  /** Steps of others leave what a binding has seen, and what it was sent, in place. */
  lemma {:induction false} OthersKeepBinding(s: State, t: State, k: nat)
    requires Inv(s) && Inv(t) && Moves(s, t)
    requires k < |s.calls| && BindingOk(s, k)
    requires k < |t.calls| && t.calls[k].binding == s.calls[k].binding && t.calls[k].read == s.calls[k].read
    requires s.calls[k].sent <= t.calls[k].sent
    requires forall c :: 0 <= c < |s.cancels| && s.cancels[c].issuer == k ==>
      c < |t.cancels| && t.cancels[c].read == s.cancels[c].read && |s.cancels[c].sent| <= |t.cancels[c].sent|
    ensures BindingOk(t, k)
  {
    assert CallMoves(s, t, k);
    assert CallOk(s, k) && CallOk(t, k);
    var b := s.calls[k].binding;
    if b.cancellation.Some? {
      assert CancelMoves(s, t, b.cancellation.value);
    }
    if b.awaiting.Some? {
      assert CancelMoves(s, t, b.awaiting.value);
    }
    hide Shape, CancelOk;
  }

  predicate LastIsTooLate(log: seq<Observed>) {
    log != [] && log[|log| - 1].TooLateSeen?
  }

  lemma {:induction false} LogEnds(x: Call, y: Call, outcome: Outcome)
    requires LogOk(x) && !x.binding.terminal && y.binding.log == x.binding.log + [Terminal(outcome)]
    requires y.binding.terminal && !y.binding.midway && y.stage == Answered(outcome) && !outcome.Failed? &&
      y.read <= |y.sent|
    requires LastIsTooLate(x.binding.log) ==> outcome.Completed?
    ensures LogOk(y)
  {
    assert forall i :: 0 <= i < |x.binding.log| ==> y.binding.log[i] == x.binding.log[i];
  }

  lemma {:induction false} LogGoesOn(x: Call, y: Call, e: Observed)
    requires LogOk(x) && !x.binding.terminal && y.binding.log == x.binding.log + [e] && !e.Terminal?
    requires !y.binding.terminal && y.read <= |y.sent| && (y.read > 0 ==> FailedCall(y.stage))
    requires e.TooLateSeen? ==> ResultWaits(y)
    requires !LastIsTooLate(x.binding.log)
    ensures LogOk(y)
  {
    assert forall i :: 0 <= i < |x.binding.log| ==> y.binding.log[i] == x.binding.log[i];
  }

  lemma {:induction false} LogWaits(x: Call)
    requires LogOk(x)
    ensures LastIsTooLate(x.binding.log) ==> ResultWaits(x)
    ensures !x.binding.terminal && !FailedCall(x.stage) ==> x.read == 0
    ensures x.read <= |x.sent|
  {
  }

  /** What the invariant says of a call's channel. */
  lemma {:induction false} ChannelFacts(s: State, k: nat)
    requires Inv(s) && k < |s.calls|
    ensures var x := s.calls[k]; x.sent != [] ==> x.stage.Answered? && x.sent == [x.stage.outcome]
  {
    assert CallOk(s, k);
    hide Shape, CancelOk;
  }

  lemma {:induction false} FirstReadLog(s: State, k: nat)
    requires Inv(s) && k < |s.calls| && LogOk(s.calls[k]) && !s.calls[k].binding.terminal && !s.calls[k].binding.midway
    ensures LogOk(PollResult(s, k))
  {
    var x := s.calls[k];
    ChannelFacts(s, k);
    LogWaits(x);
    hide Inv, CallSenderAlive;
    var y := PollResult(s, k);
    if x.read < |x.sent| {
      if x.sent[0].Failed? {
        LogGoesOn(x, y, Broken(x.sent[0].error));
      } else {
        LogEnds(x, y, x.sent[0]);
      }
    } else if !CallSenderAlive(s, k) {
      LogGoesOn(x, y, Broken(Unavailable));
    } else if x.binding.cancellation.None? {
      LogGoesOn(x, y, Nothing);
    }
  }

  /** A binding goes on to the cancellation's channel only if that cancellation was sent for its own call. */
  lemma {:induction false} MidwayIsOwn(s: State, k: nat)
    requires Inv(s) && Enabled(s, PollFirst(k)) && BindingOk(s, k) && PollResult(s, k).binding.midway
    ensures Hit(s.cancels[s.calls[k].binding.cancellation.value].stage) == Some(k)
  {
    var x := s.calls[k];
    var c := x.binding.cancellation.value;
    assert CancelOk(s, c);
    LogWaits(x);
    ChannelFacts(s, k);
    hide Shape, CallOk, CallSenderAlive, LogOk;
  }

  /** Reading the invocation's channel. */
  lemma {:induction false} PollFirstKeeps(s: State, k: nat)
    requires Inv(s) && Enabled(s, PollFirst(k)) && BindingOk(s, k)
    ensures BindingOk(After(s, PollFirst(k)), k)
  {
    var y := PollResult(s, k);
    FirstReadLog(s, k);
    if y.binding.midway {
      MidwayIsOwn(s, k);
    }
    hide Inv, LogOk, CallSenderAlive;
    assert After(s, PollFirst(k)).calls[k] == y;
  }

  /** What the invariant says of a cancellation's channel. */
  lemma {:induction false} NoteFacts(s: State, k: nat, c: nat)
    requires Inv(s) && k < |s.calls| && c < |s.cancels| && Hit(s.cancels[c].stage) == Some(k) && s.cancels[c].sent != []
    ensures |s.cancels[c].sent| == 1
    ensures s.cancels[c].sent[0].Disposed? ==>
      var x := s.cancels[c].sent[0].result;
      && (x.outcome.Acknowledged? ==> s.calls[k].stage == Answered(Cancelled(x)))
      && (x.outcome.TooLate? ==>
        |s.calls[k].sent| == 1 && s.calls[k].sent[0].Completed? && !FailedCall(s.calls[k].stage))
  {
    assert CallOk(s, k) && CancelOk(s, c);
    hide Shape;
  }

  lemma {:induction false} SecondReadLog(s: State, k: nat)
    requires Inv(s) && k < |s.calls| && BindingOk(s, k) && s.calls[k].binding.midway
    ensures LogOk(PollCancellation(s, k))
  {
    var x := s.calls[k];
    var c := x.binding.cancellation.value;
    var cancel := s.cancels[c];
    LogWaits(x);
    if cancel.sent != [] {
      NoteFacts(s, k, c);
    }
    hide Inv, CancelSenderAlive;
    var y := PollCancellation(s, k);
    assert x.read > 0 ==> FailedCall(x.stage);
    hide LogOk;
    if cancel.read < |cancel.sent| {
      match cancel.sent[0] {
        case CancellationFailed(error) => LogGoesOn(x, y, Broken(error));
        case Disposed(d) =>
          if d.outcome.Acknowledged? {
            LogEnds(x, y, Cancelled(d));
          } else if d.outcome.TooLate? {
            LogGoesOn(x, y, TooLateSeen);
          } else {
            LogGoesOn(x, y, UnsupportedSeen);
          }
      }
    } else if !CancelSenderAlive(s, c) {
      LogGoesOn(x, y, Broken(Unavailable));
    } else {
      LogGoesOn(x, y, Nothing);
    }
  }

  /** Reading the cancellation's channel. */
  lemma {:induction false} PollSecondKeeps(s: State, k: nat)
    requires Inv(s) && Enabled(s, PollSecond(k)) && BindingOk(s, k)
    ensures BindingOk(After(s, PollSecond(k)), k)
  {
    var c := s.calls[k].binding.cancellation.value;
    SecondReadLog(s, k);
    hide Inv, CancelSenderAlive, LogOk;
    var t := After(s, PollSecond(k));
    assert t.calls[k] == PollCancellation(s, k);
    assert |t.cancels| == |s.cancels|;
    assert forall d :: 0 <= d < |s.cancels| ==>
      t.cancels[d].stage == s.cancels[d].stage && t.cancels[d].issuer == s.cancels[d].issuer &&
      t.cancels[d].sent == s.cancels[d].sent;
  }

  lemma {:induction false} HearKeeps(s: State, k: nat)
    requires Inv(s) && Enabled(s, HearAccepted(k)) && BindingOk(s, k)
    ensures BindingOk(After(s, HearAccepted(k)), k)
  {
    assert CancelOk(s, s.calls[k].binding.awaiting.value);
    hide Inv, LogOk, HitOk, DispositionOk;
    HeardLog(s.calls[k], After(s, HearAccepted(k)).calls[k]);
  }

  lemma {:induction false} HeardLog(x: Call, y: Call)
    requires LogOk(x)
    requires y == x.(binding := x.binding.(awaiting := y.binding.awaiting, cancellation :=
      y.binding.cancellation, requested := y.binding.requested))
    ensures LogOk(y)
  {
  }

  lemma {:induction false} IssueBoundKeeps(s: State, k: nat, bound: bool)
    requires Inv(s) && Enabled(s, IssueCancel(k, bound)) && BindingOk(s, k)
    ensures BindingOk(After(s, IssueCancel(k, bound)), k)
  {
    hide Inv, LogOk;
    var x, y := s.calls[k], After(s, IssueCancel(k, bound)).calls[k];
    SameLog(x, y);
  }

  lemma {:induction false} SameLog(x: Call, y: Call)
    requires LogOk(x) && y == x.(binding := x.binding.(awaiting := y.binding.awaiting))
    ensures LogOk(y)
  {
  }

  /** The binding a step belongs to, if any. */
  predicate Owns(step: Step, k: nat) {
    match step
    case HearAccepted(j) => j == k
    case PollFirst(j) => j == k
    case PollSecond(j) => j == k
    case IssueCancel(j, _) => j == k
    case _ => false
  }

  lemma {:induction false} OwnKeeps(s: State, step: Step, k: nat)
    requires Inv(s) && Enabled(s, step) && k < |s.calls| && BindingOk(s, k) && Owns(step, k)
    ensures k < |After(s, step).calls| && BindingOk(After(s, step), k)
  {
    hide Inv, BindingOk, Enabled, After;
    if step.PollFirst? {
      PollFirstKeeps(s, k);
    } else if step.PollSecond? {
      PollSecondKeeps(s, k);
    } else if step.HearAccepted? {
      HearKeeps(s, k);
    } else {
      IssueBoundKeeps(s, k, step.bound);
    }
    assert k < |After(s, step).calls| by {
      SentOnlyGrows(s, step, k);
    }
  }

  // ---- Everybody else ---------------------------------------------------

  /** A step that is not the binding's own leaves its record alone and at most adds to its channels. */
  ghost predicate Undisturbed(s: State, t: State, k: nat)
    requires k < |s.calls|
  {
    && k < |t.calls| && t.calls[k].binding == s.calls[k].binding && t.calls[k].read == s.calls[k].read
    && s.calls[k].sent <= t.calls[k].sent
    && (forall c :: 0 <= c < |s.cancels| && s.cancels[c].issuer == k ==>
          c < |t.cancels| && t.cancels[c].read == s.cancels[c].read && |s.cancels[c].sent| <= |t.cancels[c].sent|)
  }

  lemma {:induction false} TakeOrSendUndisturbed(s: State, step: Step, k: nat)
    requires Enabled(s, step) && k < |s.calls| && (step.Take? || step.Send?)
    ensures Undisturbed(s, After(s, step), k)
  {
    hide After;
    if step.Take? {
      TakeStepChannels(s, step.answers);
    } else {
      SendStepChannels(s);
    }
  }

  lemma {:induction false} PollUndisturbed(s: State, step: Step, k: nat)
    requires Inv(s) && Enabled(s, step) && k < |s.calls| && !Owns(step, k)
    requires step.PollFirst? || step.PollSecond? || step.HearAccepted?
    requires Bindings(s)
    ensures Undisturbed(s, After(s, step), k)
  {
    hide Inv, LogOk;
    assert BindingOk(s, step.call);
  }

  lemma {:induction false} OthersUndisturbed(s: State, step: Step, k: nat)
    requires Inv(s) && Enabled(s, step) && k < |s.calls| && !Owns(step, k)
    requires Bindings(s)
    ensures Undisturbed(s, After(s, step), k)
  {
    if step.Take? || step.Send? {
      TakeOrSendUndisturbed(s, step, k);
      hide Undisturbed;
    } else if step.PollFirst? || step.PollSecond? || step.HearAccepted? {
      PollUndisturbed(s, step, k);
      hide Undisturbed;
    } else {
      hide Inv, Bindings;
    }
  }

  lemma {:induction false} StepBinding(s: State, step: Step, k: nat)
    requires Inv(s) && Enabled(s, step) && Bindings(s) && k < |After(s, step).calls|
    ensures BindingOk(After(s, step), k)
  {
    var t := After(s, step);
    if k < |s.calls| {
      hide After, Inv, Enabled, Moves;
      if Owns(step, k) {
        assert BindingOk(s, k);
        OwnKeeps(s, step, k);
      } else {
        OthersUndisturbed(s, step, k);
        StepKeeps(s, step);
        StepMoves(s, step);
        assert BindingOk(s, k);
        OthersKeepBinding(s, t, k);
      }
    } else {
      NewBinding(s, step, k);
    }
  }

  lemma {:induction false} NewBinding(s: State, step: Step, k: nat)
    requires Inv(s) && Enabled(s, step) && |s.calls| <= k < |After(s, step).calls|
    ensures BindingOk(After(s, step), k)
  {
    if step.Take? {
      TakeStepChannels(s, step.answers);
      hide After;
      assert false;
    } else if step.Send? {
      SendStepChannels(s);
      hide After;
      assert false;
    } else {
      hide Inv;
      assert step.IssueStart?;
    }
  }

  lemma {:induction false} RunBindings(states: seq<State>, steps: seq<Step>, i: nat)
    requires IsRun(states, steps) && i <= |steps|
    ensures Inv(states[i]) && Bindings(states[i])
    decreases i
  {
    RunKeeps(states, steps, i);
    hide Inv, Enabled, After;
    if i > 0 {
      hide BindingOk;
      RunBindings(states, steps, i - 1);
      assert Enabled(states[i - 1], steps[i - 1]) && states[i] == After(states[i - 1], steps[i - 1]);
      forall k | 0 <= k < |states[i].calls| ensures BindingOk(states[i], k) {
        StepBinding(states[i - 1], steps[i - 1], k);
      }
    }
  }

  /**
    Whatever the interleaving of sends and polls, a binding reports at most one terminal event, as its last; that
    event is the outcome the coordinator decided, whichever of the two channels showed it first; and a too-late
    report is followed by the completed result.
  */
  lemma {:induction false} ObservationIsConfluent(states: seq<State>, steps: seq<Step>, i: nat, k: nat)
    requires IsRun(states, steps) && i <= |steps| && k < |states[i].calls|
    ensures var x := states[i].calls[k]; var log := x.binding.log;
      && (forall n :: 0 <= n < |log| && log[n].Terminal? ==> n == |log| - 1 && x.stage == Answered(log[n].outcome))
      && (forall n :: 0 <= n < |log| - 1 && log[n].TooLateSeen? ==>
        log[n + 1].Terminal? && log[n + 1].outcome.Completed?)
  {
    RunBindings(states, steps, i);
    hide Inv, Enabled, After;
    assert BindingOk(states[i], k);
  }

  /** The poll after a too-late report gives the completed result. */
  lemma {:induction false} CompletedFollowsTooLate(s: State, k: nat)
    requires k < |s.calls| && Bindings(s) && LastIsTooLate(s.calls[k].binding.log)
    requires Enabled(s, PollFirst(k)) || Enabled(s, PollSecond(k))
    ensures Enabled(s, PollFirst(k)) && !Enabled(s, PollSecond(k))
    ensures var x := After(s, PollFirst(k)).calls[k];
      x.binding.terminal && x.binding.log == s.calls[k].binding.log + [Terminal(s.calls[k].sent[0])] &&
        s.calls[k].sent[0].Completed?
  {
    assert BindingOk(s, k);
    LogWaits(s.calls[k]);
    hide Bindings, LogOk;
  }

  /** What the first read of a poll reports of an outcome. */
  function Report(outcome: Outcome): Observed {
    if outcome.Failed? then Broken(outcome.error) else Terminal(outcome)
  }

  /**
    The first read of a poll, at any point of a run: an outcome that was sent is reported by the next poll, and as
    long as none was sent the poll reports nothing, or looks at the cancellation it holds.
  */
  lemma {:induction false} OutcomeIsReported(states: seq<State>, steps: seq<Step>, i: nat, k: nat)
    requires IsRun(states, steps) && i < |steps| && steps[i] == PollFirst(k)
    ensures k < |states[i].calls| && k < |states[i + 1].calls|
    ensures var x, y := states[i].calls[k], states[i + 1].calls[k];
      && (x.sent != [] && x.read == 0 ==> y.binding.log == x.binding.log + [Report(x.sent[0])])
      && (x.sent != [] && x.read > 0 ==> x.sent[0].Failed? && y.binding.log == x.binding.log + [Broken(Unavailable)])
      && (x.sent == [] && x.binding.cancellation.None? ==> y.binding.log == x.binding.log + [Nothing])
      && (x.sent == [] && x.binding.cancellation.Some? ==> y.binding.midway && y.binding.log == x.binding.log)
  {
    var s := states[i];
    RunBindings(states, steps, i);
    RunKeeps(states, steps, i);
    assert Enabled(s, steps[i]) && states[i + 1] == After(s, steps[i]);
    assert BindingOk(s, k);
    LogWaits(s.calls[k]);
    ChannelFacts(s, k);
    SenderLives(s, k);
    hide IsRun, Inv, BindingOk, LogOk, CallSenderAlive;
  }

  /** Until a call with a handle has been told, somebody can still tell it; afterwards nobody can. */
  lemma {:induction false} SenderLives(s: State, k: nat)
    requires Inv(s) && HasHandle(s, k)
    ensures CallSenderAlive(s, k) <==> s.calls[k].sent == []
  {
    assert CallOk(s, k);
    assert forall i :: 0 <= i < |s.queue| ==> EventOk(s, s.queue[i]);
    hide CancelOk;
  }

  /** What the second read of a poll reports of a note. */
  function NoteReport(note: Note): Observed {
    match note
    case CancellationFailed(error) => Broken(error)
    case Disposed(x) =>
      match x.outcome {
        case Acknowledged => Terminal(Cancelled(x))
        case TooLate => TooLateSeen
        case Unsupported => UnsupportedSeen
      }
  }

  /** The second read of a poll reports a note that was sent, and nothing as long as none was. */
  lemma {:induction false} NoteIsReported(states: seq<State>, steps: seq<Step>, i: nat, k: nat)
    requires IsRun(states, steps) && i < |steps| && steps[i] == PollSecond(k)
    ensures k < |states[i].calls| && k < |states[i + 1].calls| && states[i].calls[k].binding.cancellation.Some?
    ensures var c := states[i].calls[k].binding.cancellation.value;
      var x, y := states[i].calls[k], states[i + 1].calls[k];
      && c < |states[i].cancels| && var z := states[i].cancels[c];
      && (z.read < |z.sent| ==> z.read == 0 && y.binding.log == x.binding.log + [NoteReport(z.sent[0])])
      && (z.sent == [] && z.stage.Pending? ==> y.binding.log == x.binding.log + [Nothing])
  {
    var s := states[i];
    RunKeeps(states, steps, i);
    assert Enabled(s, steps[i]) && states[i + 1] == After(s, steps[i]);
    var c := s.calls[k].binding.cancellation.value;
    assert CancelOk(s, c);
    hide IsRun, Inv, HitOk, DispositionOk;
  }

  /** Two terminal observations of one call in different states are the same. */
  lemma {:induction false} DecisionIsStable(states: seq<State>, steps: seq<Step>, i: nat, j: nat, k: nat)
    requires IsRun(states, steps) && i <= j <= |steps| && k < |states[i].calls|
    ensures k < |states[j].calls|
    ensures states[i].calls[k].stage.Answered? ==> states[j].calls[k].stage == states[i].calls[k].stage
    decreases j
  {
    hide Enabled, After;
    if i < j {
      DecisionIsStable(states, steps, i, j - 1, k);
      RunEvidence(states, steps, j);
      assert CallMoves(states[j - 1], states[j], k);
    }
  }
}
