/** The coordinator's handling of one frame, in place: senders are taken, the active call is cleared, frames are
    demanded. */
module CoordinatorLoop {
  import opened Coordinator

  /** The sends an outbox holds, in order. */
  function Sends(o: Outbox): seq<Send> {
    (if o.first.Some? then [o.first.value] else []) + (if o.second.Some? then [o.second.value] else [])
  }

  datatype CloseAnswer = CloseAnswer(close: nat, reply: Reply)

  class CoordinatorLoop {
    var active: Option<Active>
    var closing: Option<nat>
    var sends: seq<Send>
    var closeAnswers: seq<CloseAnswer>
    var demands: nat

    constructor ()
      ensures active.None? && closing.None? && sends == [] && closeAnswers == [] && demands == 0
    {
      active, closing, sends, closeAnswers, demands := None, None, [], [], 0;
    }

    /** The part of a session state that the loop holds itself. */
    ghost predicate Mirrors(s: State)
      reads this
    {
      active == s.active && closing == s.closing && InRange(s)
    }

    /** Both holders of the active call are told, the invocation's first. */
    method FailActive(error: Error, ghost s: State)
      requires Mirrors(s)
      modifies this`active, this`sends
      ensures active.None?
      ensures sends == old(sends) + Sends(FailAll(s, error, true).outbox)
    {
      if active.Some? {
        var current := active.value;
        active := None;
        sends := sends + [Settle(current.call, Failed(error))];
        if current.cancel.Some? {
          sends := sends + [Notify(current.cancel.value, CancellationFailed(error))];
        }
      }
    }

    /** A message either leads to sends and a further demand, or is an error that leaves the call to be failed. */
    method HandleWorkerMessage(message: WorkerMessage, a: Answers, ghost s: State) returns (error: Option<Error>)
      requires Mirrors(s) && a.unsealed
      modifies this`active, this`sends
      ensures InRange(s.(active := active))
      ensures var t := TakeFrame(s, Message(message), a);
        && (error.None? ==>
              && t.active == active && t.closing == s.closing && t.outbox.last.DemandFrame?
              && sends == old(sends) + Sends(t.outbox))
        && (error.Some? ==>
              var u := FailAll(s.(active := active), error.value, true);
              && t.active.None? && t.closing.None? && t.closes == u.closes && t.outbox.last.Halt?
              && Sends(t.outbox) == Sends(u.outbox) && sends == old(sends))
    {
      if message.ResultMessage? {
        if active.None? { return Some(UnexpectedMessage); }
        if !a.valid { return Some(Protocol); }
        var current := active.value;
        if current.completed.Some? { return Some(UnexpectedMessage); }
        if current.cancel.Some? {
          active := Some(current.(completed := Some(message.payload)));
        } else {
          sends := sends + [Settle(current.call, Completed(message.payload))];
          active := None;
        }
        return None;
      }
      if message.CancellationMessage? {
        if active.None? { return Some(UnexpectedMessage); }
        if active.value.cancel.None? { return Some(UnexpectedMessage); }
        var cancel := active.value.cancel.value;
        active := Some(active.value.(cancel := None));
        var current := active.value;
        if !a.valid { return Some(Protocol); }
        var result := message.result;
        if result.outcome.Acknowledged? {
          sends := sends + [Notify(cancel, Disposed(result))];
          sends := sends + [Settle(current.call, Cancelled(result))];
          active := None;
        } else if result.outcome.TooLate? {
          if current.completed.None? { return Some(UnexpectedMessage); }
          sends := sends + [Settle(current.call, Completed(current.completed.value))];
          sends := sends + [Notify(cancel, Disposed(result))];
          active := None;
        } else {
          sends := sends + [Notify(cancel, Disposed(result))];
        }
        return None;
      }
      return Some(UnexpectedMessage);
    }

    /** Handles one frame as the step machine does, and says whether the loop stops. */
    method HandleFrame(frame: Frame, a: Answers, ghost s: State) returns (stops: bool)
      requires Mirrors(s) && s.outbox == IDLE
      modifies this
      ensures var t := TakeFrame(s, frame, a);
        && active == t.active
        && closing == t.closing
        && sends == old(sends) + Sends(t.outbox)
        && stops == t.outbox.last.Halt?
        && demands == old(demands) + (if t.outbox.last.DemandFrame? then 1 else 0)
      ensures stops && old(closing).Some? ==>
        && |closeAnswers| == |old(closeAnswers)| + 1
        && var last := closeAnswers[|closeAnswers| - 1];
           last.close == old(closing).value && TakeFrame(s, frame, a).closes[last.close] ==
             s.closes[last.close] + [last.reply]
    {
      if frame.EndOfStream? && closing.Some? {
        closeAnswers := closeAnswers + [CloseAnswer(closing.value, Accepted)];
        closing := None;
        return true;
      }
      var error: Option<Error> := None;
      ghost var rest := s;
      if !frame.Message? {
        error := Some(Channel);
      } else if !a.unsealed {
        error := Some(Protocol);
      } else {
        error := HandleWorkerMessage(frame.message, a, s);
        rest := s.(active := active);
        hide TakeResult, TakeDisposition;
      }
      if error.Some? {
        FailActive(error.value, rest);
        if closing.Some? {
          closeAnswers := closeAnswers + [CloseAnswer(closing.value, Refused(error.value))];
          closing := None;
        }
        return true;
      }
      demands := demands + 1;
      return false;
    }
  }
}
