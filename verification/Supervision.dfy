/** Process supervision around worker calls: every arming is disarmed, every poisoning explains itself once. */
module Supervision {
  datatype Option<T> = None | Some(value: T)

  /** What came of stopping the worker process: an observation, or a failure to stop it. */
  datatype Termination = Stopped(observation: nat) | NotStopped(failure: nat)

  datatype Cause = DeadlineElapsed | SessionDeadlineElapsed | WorkerTerminated

  /** How the supervisor answers when an invocation is ended. */
  datatype Finish = Completed | Ended(cause: Cause, observation: nat) | FinishFailed

  /** The supervisor's side of one host call: whether arming works, how disarming ends, how stopping ends. */
  datatype Answers = Answers(arms: bool, finish: Finish, terminate: Termination)

  // ---- The supervisor and its ledger -------------------------------------

  class Supervisor {
    ghost var begins: nat
    ghost var finishes: nat
    ghost var outstanding: set<nat>
    /** Tokens whose invocation ended without the process having been stopped. */
    ghost var clean: set<nat>
    /** Every termination observation, in order. */
    ghost var reports: seq<Termination>
    var tokens: nat

    constructor ()
      ensures Valid() && begins == 0 && finishes == 0 && outstanding == {} && clean == {} && reports == []
    {
      begins, finishes, outstanding, clean, reports := 0, 0, {}, {}, [];
      tokens := 0;
    }

    ghost predicate Valid()
      reads this
    {
      && (forall t :: t in outstanding ==> t < tokens)
      && (forall t :: t in clean ==> t < tokens && t !in outstanding)
    }

    method BeginInvocation(arms: bool) returns (token: Option<nat>)
      requires Valid()
      modifies this
      ensures Valid() && finishes == old(finishes) && clean == old(clean) && reports == old(reports)
      ensures arms <==> token.Some?
      ensures token.Some? ==>
        && begins == old(begins) + 1 && outstanding == old(outstanding) + {token.value}
        && token.value !in old(outstanding) && token.value !in clean && old(tokens) <= token.value < tokens
      ensures token.None? ==> begins == old(begins) && outstanding == old(outstanding) && tokens == old(tokens)
      ensures old(tokens) <= tokens
    {
      if !arms { return None; }
      token := Some(tokens);
      outstanding := outstanding + {tokens};
      begins := begins + 1;
      tokens := tokens + 1;
    }

    /** Ends one invocation; a supervisor that stopped the process says so with its observation. */
    method FinishInvocation(token: nat, finish: Finish)
      requires Valid() && token in outstanding
      modifies this
      ensures Valid() && begins == old(begins) && finishes == old(finishes) + 1 && tokens == old(tokens)
      ensures outstanding == old(outstanding) - {token}
      ensures clean == if finish.Completed? then old(clean) + {token} else old(clean)
      ensures reports == if finish.Ended? then old(reports) + [Stopped(finish.observation)] else old(reports)
    {
      outstanding := outstanding - {token};
      finishes := finishes + 1;
      if finish.Completed? { clean := clean + {token}; }
      if finish.Ended? { reports := reports + [Stopped(finish.observation)]; }
    }

    method Terminate(answer: Termination) returns (termination: Termination)
      requires Valid()
      modifies this
      ensures Valid() && begins == old(begins) && finishes == old(finishes) && outstanding == old(outstanding)
      ensures clean == old(clean) && tokens == old(tokens)
      ensures termination == answer && reports == old(reports) + [termination]
    {
      reports := reports + [answer];
      return answer;
    }
  }

  datatype Error =
    | Bridge
    | Transport(termination: Termination)
    | SupervisorFailed(termination: Termination)
    | Indeterminate(cause: Cause, observation: nat)
    | Busy
    | NoActiveInvocation
    | Poisoned

  /** The termination observations an error carries. */
  function Carried(e: Error): seq<Termination> {
    match e
    case Transport(termination) => [termination]
    case SupervisorFailed(termination) => [termination]
    case Indeterminate(_, observation) => [Stopped(observation)]
    case Bridge => []
    case Busy => []
    case NoActiveInvocation => []
    case Poisoned => []
  }

  datatype Result<T> = Ok(value: T) | Err(error: Error)

  // ---- Supervised multiplexed sessions ------------------------------------

  datatype QuietEvent = Pending | CancellationTooLate | CancellationUnsupported
  datatype TerminalEvent = CallCompleted | CallCancelled

  datatype WorkerEvent = Still(quiet: QuietEvent) | Over(terminal: TerminalEvent)

  /** What polling the binding gives: a transport error or an observation, which may fail to convert. */
  datatype Observation = Broken | Quiet(quiet: QuietEvent) | Terminal(terminal: TerminalEvent, converts: bool)

  datatype SessionEvent = Worker(event: WorkerEvent) | Undecided(cause: Cause, observation: nat)

  function CarriedBy(r: Result<SessionEvent>): seq<Termination> {
    match r
    case Ok(Worker(_)) => []
    case Ok(Undecided(_, observation)) => [Stopped(observation)]
    case Err(e) => Carried(e)
  }

  /** What a broken transport leads to, by how the invocation ended. */
  function FailureOf(answers: Answers): (e: Error)
    ensures |Carried(e)| == 1
  {
    match answers.finish
    case Completed => Transport(answers.terminate)
    case Ended(cause, observation) => Indeterminate(cause, observation)
    case FinishFailed => SupervisorFailed(answers.terminate)
  }

  /** An outcome given to the runtime, with the supervision token of its call. */
  datatype Applied = Applied(token: nat, terminal: TerminalEvent)

  class Runtime {
    /** The outcomes given to it, in order. */
    ghost var applied: seq<Applied>

    constructor ()
      ensures applied == []
    {
      applied := [];
    }

    method Apply(ghost token: nat, terminal: TerminalEvent, accepts: bool) returns (ok: bool)
      modifies this
      ensures applied == old(applied) + [Applied(token, terminal)] && ok == accepts
    {
      applied := applied + [Applied(token, terminal)];
      ok := accepts;
    }
  }

  class SupervisedSession {
    const supervisor: Supervisor
    const runtime: Runtime
    var active: Option<nat>
    var poisoned: bool

    constructor ()
      ensures Valid() && !poisoned && active.None? && fresh(supervisor) && fresh(runtime)
    {
      supervisor := new Supervisor();
      runtime := new Runtime();
      active := None;
      poisoned := false;
    }

    /**
      Successful begins are finishes plus the active call; a poisoned session has no active call and has reported
      one termination; the runtime was changed at most once per call, after the call ended cleanly.
    */
    ghost predicate Valid()
      reads this, supervisor, runtime
    {
      && supervisor.Valid()
      && supervisor.outstanding == (if active.Some? then {active.value} else {})
      && supervisor.begins == supervisor.finishes + (if active.Some? then 1 else 0)
      && (poisoned ==> active.None?)
      && |supervisor.reports| == (if poisoned then 1 else 0)
      && (forall i :: 0 <= i < |runtime.applied| ==> runtime.applied[i].token in supervisor.clean)
      && (forall i, j :: 0 <= i < j < |runtime.applied| ==> runtime.applied[i].token != runtime.applied[j].token)
    }

    /** One call of a session method: poisoned for good, and every new report is in what it returns. */
    twostate predicate Accounted(carried: seq<Termination>)
      reads this, supervisor, runtime
    {
      && Valid()
      && (old(poisoned) ==> poisoned)
      && (poisoned && !old(poisoned) <==> carried != [])
      && supervisor.reports == old(supervisor.reports) + carried
    }

    method FailTransport(token: nat, answers: Answers) returns (e: Error)
      requires supervisor.Valid() && supervisor.outstanding == {token} && active.None? && !poisoned
      requires supervisor.reports == []
      requires supervisor.begins == supervisor.finishes + 1
      requires forall i :: 0 <= i < |runtime.applied| ==> runtime.applied[i].token in supervisor.clean
      requires forall i, j :: 0 <= i < j < |runtime.applied| ==> runtime.applied[i].token != runtime.applied[j].token
      modifies this`poisoned, supervisor
      ensures Valid() && poisoned && runtime.applied == old(runtime.applied)
      ensures supervisor.begins == old(supervisor.begins) && old(supervisor.clean) <= supervisor.clean
      ensures supervisor.reports == Carried(e) && e == FailureOf(answers)
    {
      poisoned := true;
      supervisor.FinishInvocation(token, answers.finish);
      if answers.finish.Completed? {
        var termination := supervisor.Terminate(answers.terminate);
        return Transport(termination);
      }
      if answers.finish.FinishFailed? {
        var termination := supervisor.Terminate(answers.terminate);
        return SupervisorFailed(termination);
      }
      return Indeterminate(answers.finish.cause, answers.finish.observation);
    }

    /** Arms supervision, then dispatches. */
    method StartExternalTool(prepared: bool, dispatched: bool, answers: Answers) returns (r: Result<()>)
      requires Valid()
      modifies this, supervisor
      ensures Accounted(if r.Err? then Carried(r.error) else [])
      ensures runtime.applied == old(runtime.applied)
      ensures old(poisoned) ==> r == Err(Poisoned)
      ensures !old(poisoned) && old(active).Some? ==> r == Err(Busy) && active == old(active)
      ensures !old(poisoned) && old(active).None? && !prepared ==> r == Err(Bridge)
      ensures !old(poisoned) && old(active).None? && prepared && !answers.arms ==>
        r == Err(SupervisorFailed(answers.terminate))
      ensures !old(poisoned) && old(active).None? && prepared && answers.arms && !dispatched ==>
        r == Err(FailureOf(answers))
      ensures r.Ok? <==> !old(poisoned) && old(active).None? && prepared && answers.arms && dispatched
      ensures r.Ok? ==>
        active.Some? && active.value !in old(supervisor.clean) && active.value !in old(supervisor.outstanding)
      ensures supervisor.begins == old(supervisor.begins) +
        (if !old(poisoned) && old(active).None? && prepared && answers.arms then 1 else 0)
    {
      if poisoned { return Err(Poisoned); }
      if active.Some? { return Err(Busy); }
      if !prepared { return Err(Bridge); }
      var token := supervisor.BeginInvocation(answers.arms);
      if token.None? {
        poisoned := true;
        var termination := supervisor.Terminate(answers.terminate);
        return Err(SupervisorFailed(termination));
      }
      if dispatched {
        active := token;
        return Ok(());
      }
      var e := FailTransport(token.value, answers);
      return Err(e);
    }

    /** `sent` is none when the bridge refuses the request itself, and false when the transport fails. */
    method RequestCancellation(sent: Option<bool>, answers: Answers) returns (r: Result<()>)
      requires Valid()
      modifies this, supervisor
      ensures Accounted(if r.Err? then Carried(r.error) else [])
      ensures runtime.applied == old(runtime.applied)
      ensures old(poisoned) ==> r == Err(Poisoned)
      ensures !old(poisoned) && old(active).None? ==> r == Err(NoActiveInvocation)
      ensures old(active).Some? && sent.None? ==> r == Err(Bridge)
      ensures old(active).Some? && sent == Some(false) ==> r == Err(FailureOf(answers))
      ensures r.Ok? <==> !old(poisoned) && old(active).Some? && sent == Some(true)
      ensures sent != Some(false) ==> active == old(active) && poisoned == old(poisoned)
      ensures sent == Some(false) && old(active).Some? ==> active.None? && poisoned
    {
      if poisoned { return Err(Poisoned); }
      if active.None? { return Err(NoActiveInvocation); }
      if sent.None? { return Err(Bridge); }
      if sent.value { return Ok(()); }
      var token := active.value;
      active := None;
      var e := FailTransport(token, answers);
      return Err(e);
    }

    /** A terminal observation is handed on only if the supervisor says the call ended in time. */
    method PollEvent(observation: Observation, answers: Answers) returns (r: Result<SessionEvent>)
      requires Valid()
      modifies this, supervisor
      ensures Accounted(CarriedBy(r))
      ensures runtime.applied == old(runtime.applied)
      ensures old(poisoned) ==> r == Err(Poisoned)
      ensures !old(poisoned) && old(active).None? ==> r == Err(NoActiveInvocation)
      ensures old(active).Some? && observation.Quiet? ==>
        r == Ok(Worker(Still(observation.quiet))) && active == old(active)
      ensures old(active).Some? && !observation.Quiet? ==> active.None?
      ensures old(active).Some? && observation.Broken? ==> r == Err(FailureOf(answers))
      ensures old(active).Some? && observation.Terminal? ==>
        && (r == Ok(Worker(Over(observation.terminal))) <==> observation.converts && answers.finish.Completed?)
        && (r == Err(Bridge) <==> !observation.converts && answers.finish.Completed?)
        && (forall cause, stopped :: r == Ok(Undecided(cause, stopped)) <==> answers.finish == Ended(cause, stopped))
        && (r == Err(SupervisorFailed(answers.terminate)) <==> answers.finish.FinishFailed?)
      ensures r.Ok? && r.value.Worker? && r.value.event.Over? ==>
        && observation.Terminal? && r.value.event.terminal == observation.terminal
        && old(active).Some? && old(active).value in supervisor.clean && old(active).value !in old(supervisor.clean)
      ensures old(supervisor.clean) <= supervisor.clean
    {
      if poisoned { return Err(Poisoned); }
      if active.None? { return Err(NoActiveInvocation); }
      var token := active.value;
      if observation.Broken? {
        active := None;
        var e := FailTransport(token, answers);
        return Err(e);
      }
      if observation.Quiet? { return Ok(Worker(Still(observation.quiet))); }
      active := None;
      supervisor.FinishInvocation(token, answers.finish);
      if answers.finish.Completed? {
        if !observation.converts { return Err(Bridge); }
        return Ok(Worker(Over(observation.terminal)));
      }
      poisoned := true;
      if answers.finish.FinishFailed? {
        var termination := supervisor.Terminate(answers.terminate);
        return Err(SupervisorFailed(termination));
      }
      return Ok(Undecided(answers.finish.cause, answers.finish.observation));
    }

    /** Applies at most one event to the runtime. */
    method Poll(observation: Observation, answers: Answers, accepts: bool) returns (r: Result<SessionEvent>)
      requires Valid()
      modifies this, supervisor, runtime
      ensures Accounted(CarriedBy(r))
      ensures old(active).Some? && observation.Terminal? && observation.converts && answers.finish.Completed? ==>
        && runtime.applied == old(runtime.applied) + [Applied(old(active).value, observation.terminal)]
        && old(active).value in supervisor.clean && active.None? && !poisoned
        && r == if accepts then Ok(Worker(Over(observation.terminal))) else Err(Bridge)
      ensures !(old(active).Some? && observation.Terminal? && observation.converts && answers.finish.Completed?) ==>
        runtime.applied == old(runtime.applied)
      ensures old(active).Some? && observation.Terminal? ==>
        && (forall cause, stopped :: r == Ok(Undecided(cause, stopped)) <==> answers.finish == Ended(cause, stopped))
        && (r == Err(SupervisorFailed(answers.terminate)) <==> answers.finish.FinishFailed?)
      ensures old(active).Some? && observation.Broken? ==> r == Err(FailureOf(answers))
      ensures old(active).Some? && observation.Quiet? ==>
        r == Ok(Worker(Still(observation.quiet))) && active == old(active)
      ensures old(poisoned) ==> r == Err(Poisoned)
      ensures !old(poisoned) && old(active).None? ==> r == Err(NoActiveInvocation)
    {
      ghost var token := if active.Some? then active.value else 0;
      r := PollEvent(observation, answers);
      if r.Ok? && r.value.Worker? && r.value.event.Over? {
        var ok := runtime.Apply(token, r.value.event.terminal, accepts);
        if !ok { return Err(Bridge); }
      }
    }
  }

  // ---- Bounded synchronous dispatch ---------------------------------------

  class BoundedWorkerTransport {
    const supervisor: Supervisor
    var poisoned: bool
    /** How often the inner transport was discarded. */
    ghost var discards: nat
    ghost var failures: nat
    ghost var requests: nat

    constructor ()
      ensures Valid() && !poisoned && fresh(supervisor)
    {
      supervisor := new Supervisor();
      poisoned := false;
      discards, failures, requests := 0, 0, 0;
    }

    /**
      Between calls nothing is armed. At most one dispatch fails the session; that failure and every discard the
      host asks for come with one discard of the inner transport and one termination report each.
    */
    ghost predicate Valid()
      reads this, supervisor
    {
      && supervisor.Valid()
      && supervisor.outstanding == {} && supervisor.begins == supervisor.finishes
      && failures <= 1
      && (poisoned <==> failures + requests > 0)
      && discards == failures + requests
      && |supervisor.reports| == failures + requests
    }

    /** `answered` is what the inner transport returns while the deadline is armed. */
    method Dispatch(answered: Option<nat>, answers: Answers) returns (r: Result<nat>)
      requires Valid()
      modifies this, supervisor
      ensures Valid() && requests == old(requests)
      ensures old(poisoned) ==> r == Err(Poisoned) && poisoned && supervisor.begins == old(supervisor.begins)
      ensures !old(poisoned) ==>
        && (r.Ok? <==> answers.arms && answers.finish.Completed? && answered.Some?)
        && (r.Ok? ==> r.value == answered.value)
        && (poisoned <==> r.Err?)
        && (!answers.arms ==> r == Err(SupervisorFailed(answers.terminate)))
        && (answers.arms && r.Err? ==> r == Err(FailureOf(answers)))
      ensures supervisor.reports == old(supervisor.reports) + (if r.Err? then Carried(r.error) else [])
      ensures poisoned && !old(poisoned) <==> r.Err? && |Carried(r.error)| == 1
    {
      if poisoned { return Err(Poisoned); }
      var token := supervisor.BeginInvocation(answers.arms);
      if token.None? {
        Poison();
        var termination := supervisor.Terminate(answers.terminate);
        return Err(SupervisorFailed(termination));
      }
      supervisor.FinishInvocation(token.value, answers.finish);
      match answers.finish {
        case Completed =>
          if answered.Some? { return Ok(answered.value); }
          Poison();
          var termination := supervisor.Terminate(answers.terminate);
          return Err(Transport(termination));
        case Ended(cause, observation) =>
          Poison();
          return Err(Indeterminate(cause, observation));
        case FinishFailed =>
          Poison();
          var termination := supervisor.Terminate(answers.terminate);
          return Err(SupervisorFailed(termination));
      }
    }

    method Poison()
      modifies this`poisoned, this`discards, this`failures
      ensures poisoned && discards == old(discards) + 1 && failures == old(failures) + 1
    {
      poisoned := true;
      discards := discards + 1;
      failures := failures + 1;
    }

    method Discard(answers: Answers)
      requires Valid()
      modifies this, supervisor
      ensures Valid() && poisoned && requests == old(requests) + 1 && failures == old(failures)
    {
      poisoned := true;
      discards := discards + 1;
      requests := requests + 1;
      var _ := supervisor.Terminate(answers.terminate);
    }
  }
}
