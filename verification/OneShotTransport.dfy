/** One authenticated durable-operation exchange: a transport that is used once and never again. */
module OneShotTransport {
  datatype State = Ready | Done | Poisoned

  /** The three exchanges: what is asked and which answer belongs to it. */
  datatype Operation = Dispatch | Reconcile | Compensate

  datatype Message = OperationResult | ReconciledOperation | CompensationResult | OtherMessage

  function Answering(operation: Operation): Message {
    match operation
    case Dispatch => OperationResult
    case Reconcile => ReconciledOperation
    case Compensate => CompensationResult
  }

  datatype Error = Protocol | Channel | UnexpectedResponse | Consumed | IsPoisoned

  datatype Result = Ok | Err(error: Error)

  /** What the authorizer, sealer, channel and opener answer during one exchange. */
  datatype Answers = Answers(authorized: bool, sealed: bool, sends: bool, receives: bool, unsealed: bool,
      message: Message, valid: bool)

  /** Every check of the exchange passed and the answer is of the kind asked for. */
  predicate Verified(operation: Operation, a: Answers) {
    a.authorized && a.sealed && a.sends && a.receives && a.unsealed && a.message == Answering(operation) && a.valid
  }

  class OneShotOperationTransport {
    var state: State
    /** The operations whose frame was handed to the channel. */
    ghost var attempted: seq<Operation>
    ghost var verified: seq<Operation>

    constructor ()
      ensures Valid() && state == Ready && attempted == [] && verified == []
    {
      state := Ready;
      attempted := [];
      verified := [];
    }

    /** Over its whole life a transport hands the channel at most one frame, and only while it is ready. */
    ghost predicate Valid()
      reads this
    {
      && |attempted| <= 1
      && (state.Ready? ==> attempted == [] && verified == [])
      && (state.Done? ==> |attempted| == 1 && verified == attempted)
      && (verified == [] || verified == attempted)
    }

    /** Runs one exchange; whatever its outcome, there is no second one. */
    method Run(operation: Operation, a: Answers) returns (r: Result)
      requires Valid()
      modifies this
      ensures Valid() && !state.Ready?
      ensures old(state).Ready? ==>
        && (r.Ok? <==> Verified(operation, a))
        && state == (if r.Ok? then Done else Poisoned)
        && attempted == (if a.authorized && a.sealed then [operation] else [])
        && verified == (if r.Ok? then [operation] else [])
      ensures !old(state).Ready? ==>
        && r == Err(if old(state).Done? then Consumed else IsPoisoned)
        && state == old(state) && attempted == old(attempted) && verified == old(verified)
    {
      if state.Done? { return Err(Consumed); }
      if state.Poisoned? { return Err(IsPoisoned); }
      r := Exchange(operation, a);
      if r.Ok? {
        verified := [operation];
        state := Done;
      } else {
        state := Poisoned;
      }
    }

    method Exchange(operation: Operation, a: Answers) returns (r: Result)
      requires attempted == []
      modifies this`attempted
      ensures attempted == (if a.authorized && a.sealed then [operation] else [])
      ensures r.Ok? <==> Verified(operation, a)
    {
      if !a.authorized { return Err(Protocol); }
      if !a.sealed { return Err(Protocol); }
      attempted := [operation];
      if !a.sends { return Err(Channel); }
      if !a.receives { return Err(Channel); }
      if !a.unsealed { return Err(Protocol); }
      if a.message != Answering(operation) { return Err(UnexpectedResponse); }
      if !a.valid { return Err(Protocol); }
      return Ok;
    }

    method Discard()
      requires Valid()
      modifies this`state
      ensures Valid() && state == Poisoned
    {
      state := Poisoned;
    }
  }
}
