/** The worker's program: one run over its durable journal, each statement one step of the machine. */
module Runner {
  import opened Base
  import opened Contracts
  import opened Tables
  import opened Worker
  import opened Acceptance

  datatype Trouble =
    | IsolationLost | JournalIdentityMismatch | RecoveryRequired | ScopeMismatch | InvalidResponse
    | JournalAttemptMismatch | BackendUnavailable | ExecutorCrashed

  datatype Ending = NothingToRecover | Idle | Ended(state: State)

  /** What the surroundings do during one run: each call answers or fails, each guard passes or stops the run. */
  datatype Surroundings = Surroundings(
    isolated: bool, claim: Option<Response>, first: Option<Status>, mayExecute: bool, executed: Option<Outcome>,
    second: Option<Status>, mayReport: bool, acknowledged: Option<Id>)

  /** The states that a machine passes through under some signals. */
  ghost predicate Path(states: seq<Machine>, signals: seq<Signal>) {
    && |states| == |signals| + 1
    && forall k | 0 <= k < |signals| :: After(states[k], signals[k]) == Some(states[k + 1])
  }

  /** How often the executor was called, whether or not it returned. */
  ghost function Calls(signals: seq<Signal>): nat {
    if signals == [] then 0
    else Calls(signals[..|signals| - 1]) + (if signals[|signals| - 1].Called? then 1 else 0)
  }

  lemma OneMore(states: seq<Machine>, signals: seq<Signal>, signal: Signal, next: Machine)
    requires Path(states, signals) && After(states[|states| - 1], signal) == Some(next)
    ensures Path(states + [next], signals + [signal])
    ensures Calls(signals + [signal]) == Calls(signals) + (if signal.Called? then 1 else 0)
  {
    assert (signals + [signal])[..|signals|] == signals;
  }

  /** Every answer that the run heard is one that its surroundings gave. */
  ghost predicate HeardFrom(s: Surroundings, p: Principal, recover: bool, claim: Id, signal: Signal) {
    match signal
    case Begin(q, r, c) => q == p && r == recover && c == claim
    case Claimed(response) => s.claim == Some(response)
    case Checked(status) => s.first == Some(status)
    case Executed(outcome) => s.executed == Some(outcome)
    case Observed(status) => s.second == Some(status)
    case Acknowledged(mission) => s.acknowledged == Some(mission)
    case _ => true
  }

  // ----- What a run must do with what it hears -----

  /** A result without outputs, for this attempt under this lease. */
  predicate Bare(request: Request, result: ExecutionResult, status: State, error: Option<ErrorCode>) {
    && result.attempt == request.attempt && result.generation == request.generation
    && result.status == status && result.outputs == [] && result.error == error
  }

  /** A look at the attempt that showed it, in a state that a leased attempt can have. */
  predicate Shows(status: Option<Status>, request: Request) {
    && status.Some? && status.value.deadline == request.deadline
    && status.value.state in {Running, CancelRequested, Completed, Failed, Cancelled, Interrupted}
  }

  predicate Over(status: Status) {
    status.state in {Completed, Failed, Cancelled, Interrupted}
  }

  /** What an execution that ended in this way leaves in the journal. */
  predicate LeftBy(request: Request, outcome: Outcome, result: ExecutionResult) {
    match outcome
    case Returned(returned) => result == returned
    case Interruption => Bare(request, result, State.Interrupted, Some(CpuInterrupted))
    case Refusal => Bare(request, result, Failed, Some(CpuExecutionFailed))
  }

  /**
   * The result of a run whose first look showed the attempt still active: cancelled on demand; else the journalled one,
   * if it is well formed and of this lease; else interrupted, in a recovery; else what the executor left.
   */
  ghost predicate Accounts(
    s: Surroundings, request: Request, before: Option<ExecutionResult>, recover: bool, result: ExecutionResult) {
    && Shows(s.first, request) && !Over(s.first.value)
    && if s.first.value.state == CancelRequested then Bare(request, result, Cancelled, None)
       else if before.Some? then
         result == before.value && WellFormed(result) && result.attempt == request.attempt
         && result.generation == request.generation
       else if recover then Bare(request, result, State.Interrupted, Some(CpuInterrupted))
       else s.mayExecute && s.executed.Some? && LeftBy(request, s.executed.value, result)
  }

  /** The result that the run may report: cancelled when the second look demands it. */
  ghost predicate Reports(
    s: Surroundings, request: Request, before: Option<ExecutionResult>, recover: bool, result: ExecutionResult) {
    && Shows(s.second, request) && !Over(s.second.value)
    && (exists made :: Accounts(s, request, before, recover, made)
                       && if s.second.value.state == CancelRequested && made.status != Cancelled
                          then Bare(request, result, Cancelled, None) else result == made)
  }

  /** A run with this request ends in this state, with this result in its journal. */
  ghost predicate EndsIn(
    s: Surroundings, request: Request, before: Option<ExecutionResult>, recover: bool, state: State,
    result: Option<ExecutionResult>) {
    Shows(s.first, request)
    && if Over(s.first.value) then state == s.first.value.state && result == before
       else
         && result.Some? && Shows(s.second, request)
         && if Over(s.second.value) then
              state == s.second.value.state && Accounts(s, request, before, recover, result.value)
            else
              && Reports(s, request, before, recover, result.value) && state == result.value.status
              && s.mayReport && s.acknowledged == Some(request.mission)
  }

  /** A journalled result that the run replaced accounts for what it heard. */
  ghost predicate Kept(
    s: Surroundings, request: Request, before: Option<ExecutionResult>, recover: bool,
    result: Option<ExecutionResult>) {
    || result == before
    || (result.Some? && (Accounts(s, request, before, recover, result.value)
                         || Reports(s, request, before, recover, result.value)))
  }

  /** The journal that a run goes on with: one that is not marked done. */
  function Pending(journal: Option<Journal>): Option<Journal> {
    if journal.Some? && journal.value.done then None else journal
  }

  /** A pending run of this machine under this credential is recovered; a new one is begun where nothing is pending. */
  predicate MayRun(journal: Option<Journal>, worker: Id, p: Principal, recover: bool) {
    && (journal.Some? ==> journal.value.worker == worker)
    && match Pending(journal)
       case None => !recover
       case Some(pending) => recover && pending.credential == p
  }

  /** What the pending journal already says, or what the control plane answers to the claim. */
  predicate Answers(s: Surroundings, journal: Option<Journal>, response: Response) {
    if Pending(journal).Some? && Pending(journal).value.request.Some? then
      response == Work(Pending(journal).value.request.value)
    else s.claim == Some(response)
  }

  /** The run has this request to work on. */
  predicate Works(s: Surroundings, journal: Option<Journal>, worker: Id, request: Request) {
    Answers(s, journal, Work(request)) && RequestFits(worker, request)
  }

  function Journalled(journal: Option<Journal>): Option<ExecutionResult> {
    if Pending(journal).Some? then Pending(journal).value.result else None
  }

  /** What a run hears leaves it no choice of its result. */
  lemma AccountsOnce(
    s: Surroundings, request: Request, before: Option<ExecutionResult>, recover: bool, result: ExecutionResult)
    requires Accounts(s, request, before, recover, result)
    ensures Shows(s.first, request) && !Over(s.first.value)
    ensures forall other | Accounts(s, request, before, recover, other) :: other == result
  {
    hide WellFormed, Shows, Over;
  }

  /** Without a result that accounts for what it heard, a run only ends where its first look found the attempt over. */
  lemma FirstLook(s: Surroundings, request: Request, before: Option<ExecutionResult>, recover: bool)
    ensures Kept(s, request, before, recover, before)
    ensures Shows(s.first, request) && Over(s.first.value) ==>
              EndsIn(s, request, before, recover, s.first.value.state, before)
    ensures !(Shows(s.first, request) && Over(s.first.value))
            && (forall made :: !Accounts(s, request, before, recover, made)) ==>
              forall state, result :: !EndsIn(s, request, before, recover, state, result)
  {
    hide Accounts, Shows, Over, Bare;
  }

  /** With a result that must not be reported as it is the run does not end in any state. */
  lemma NoEnd(
    s: Surroundings, request: Request, before: Option<ExecutionResult>, recover: bool, made: ExecutionResult)
    requires Accounts(s, request, before, recover, made)
    requires !Shows(s.second, request)
             || (!Over(s.second.value) && !(s.mayReport && s.acknowledged == Some(request.mission)))
    ensures forall state, result :: !EndsIn(s, request, before, recover, state, result)
  {
    hide Accounts, Shows, Over, Reports;
    AccountsOnce(s, request, before, recover, made);
  }

  /** The result that a run has after its second look, and the ends that it then may come to. */
  lemma SecondLook(
    s: Surroundings, request: Request, before: Option<ExecutionResult>, recover: bool, made: ExecutionResult,
    result: ExecutionResult)
    requires Accounts(s, request, before, recover, made) && Shows(s.second, request)
    requires !Over(s.second.value) && s.second.value.state == CancelRequested && made.status != Cancelled ==>
               Bare(request, result, Cancelled, None)
    requires Over(s.second.value) || s.second.value.state != CancelRequested || made.status == Cancelled ==>
               result == made
    ensures Kept(s, request, before, recover, Some(result))
    ensures Over(s.second.value) || (s.mayReport && s.acknowledged == Some(request.mission)) ==>
              EndsIn(s, request, before, recover, if Over(s.second.value) then s.second.value.state else result.status,
                     Some(result))
  {
    hide Accounts, Bare;
    AccountsOnce(s, request, before, recover, made);
  }

  lemma KeptMade(
    s: Surroundings, request: Request, before: Option<ExecutionResult>, recover: bool, made: ExecutionResult)
    requires Accounts(s, request, before, recover, made)
    ensures Kept(s, request, before, recover, Some(made))
  {
    hide Accounts, Reports;
  }

  /** A well-formed result is one that passes the checks on decoding. */
  lemma ReplayableIs(request: Request, result: ExecutionResult)
    ensures Replayable(request, result) <==>
            WellFormed(result) && result.attempt == request.attempt && result.generation == request.generation
  {
  }

  class IndependentRunner {
    const worker: Id
    var journal: Option<Journal>
    ghost var states: seq<Machine>
    ghost var signals: seq<Signal>

    constructor (worker: Id, journal: Option<Journal>)
      ensures this.worker == worker && this.journal == journal && Valid() && Now().pc == Off && signals == []
    {
      this.worker, this.journal := worker, journal;
      states, signals := [Machine(worker, journal, Off)], [];
    }

    /** The trace is a path of the machine, and its last state has the durable journal. */
    ghost predicate Valid()
      reads this
    {
      Path(states, signals) && Now().worker == worker && Now().disk == journal
    }

    ghost function Now(): Machine
      reads this
      requires |states| > 0
    {
      states[|states| - 1]
    }

    /** Let a signal happen; the durable journal becomes what the machine then has on its disk. */
    ghost method Step(signal: Signal)
      requires Path(states, signals) && After(Now(), signal).Some? && Now().worker == worker
      requires After(Now(), signal).value.disk == journal
      modifies this`states, this`signals
      ensures Valid() && Now() == After(old(Now()), signal).value
      ensures signals == old(signals) + [signal]
      ensures Calls(signals) == Calls(old(signals)) + (if signal.Called? then 1 else 0)
    {
      OneMore(states, signals, signal, After(Now(), signal).value);
      WorkerKept(Now(), signal);
      states, signals := states + [After(Now(), signal).value], signals + [signal];
    }

    static lemma WorkerKept(m: Machine, signal: Signal)
      requires After(m, signal).Some?
      ensures After(m, signal).value.worker == m.worker
    {
      hide RequestFits, Replayable;
    }

    /**
     * One manual run. Whatever the surroundings do, it is a path of the machine that starts and ends at rest, hears
     * only what it was told, and calls the executor at most once, never when it recovers.
     */
    method RunOnce(p: Principal, recover: bool, claim: Id, s: Surroundings) returns (r: Result<Ending, Trouble>)
      requires Valid() && Now().pc == Off
      modifies this
      ensures Valid() && Now().pc == Off
      ensures old(signals) <= signals
      ensures forall k | |old(signals)| <= k < |signals| :: HeardFrom(s, p, recover, claim, signals[k])
      ensures Calls(signals) <= Calls(old(signals)) + (if recover then 0 else 1)
      ensures r.Ok? && r.value != NothingToRecover ==> journal.Some? && journal.value.done
      ensures r == Ok(Idle) <==>
              s.isolated && MayRun(old(journal), worker, p, recover) && Answers(s, old(journal), NoWork)
      ensures r == Ok(Idle) ==> journal.value.request == None
      ensures r == Ok(NothingToRecover) <==>
              && s.isolated && recover && Pending(old(journal)) == None
              && (old(journal).Some? ==> old(journal).value.worker == worker)
      ensures r == Ok(NothingToRecover) ==> journal == old(journal)
      ensures r == Refused(RecoveryRequired) ==> journal == old(journal) && !recover
      ensures r.Ok? && r.value.Ended? ==>
                && s.isolated && MayRun(old(journal), worker, p, recover) && journal.value.request.Some?
                && Works(s, old(journal), worker, journal.value.request.value)
                && EndsIn(s, journal.value.request.value, Journalled(old(journal)), recover, r.value.state,
                          journal.value.result)
      ensures r.Refused? && s.isolated && MayRun(old(journal), worker, p, recover) ==>
                forall request, state, result | Works(s, old(journal), worker, request) ::
                  !EndsIn(s, request, Journalled(old(journal)), recover, state, result)
      ensures s.isolated && MayRun(old(journal), worker, p, recover) ==>
                forall request | Works(s, old(journal), worker, request) ::
                  && journal.Some? && journal.value.request == Some(request)
                  && Kept(s, request, Journalled(old(journal)), recover, journal.value.result)
    {
      hide Path, RequestFits, Replayable, Calls, EndsIn, Kept, Accounts, Reports;
      if !s.isolated {
        return Refused(IsolationLost);
      }
      var pending := journal.Some?;
      if pending {
        if journal.value.worker != worker {
          return Refused(JournalIdentityMismatch);
        }
        pending := !journal.value.done;
        if pending && journal.value.credential != p {
          return Refused(JournalIdentityMismatch);
        }
      }
      if pending && !recover {
        return Refused(RecoveryRequired);
      }
      if !pending {
        if recover {
          return Ok(NothingToRecover);
        }
        journal := Some(Journal(worker, p, claim, None, None, false));
      }
      Step(Begin(p, recover, claim));
      if journal.value.request == None {
        var ended := ClaimWork(p, recover, claim, s);
        if ended.Some? {
          return ended.value;
        }
      } else if !RequestFits(worker, journal.value.request.value) {
        return Refused(ScopeMismatch);
      }
      r := Conclude(p, recover, claim, s, journal.value.request.value, pending);
    }

    /** Ask for work under the journalled claim; None when a fitting request is in the journal. */
    method ClaimWork(p: Principal, recover: bool, claim: Id, s: Surroundings)
      returns (r: Option<Result<Ending, Trouble>>)
      requires Valid() && Now().pc == AtClaim(recover)
      requires journal.Some? && journal.value.request == None && !journal.value.done
      modifies this
      ensures Valid() && old(signals) <= signals
      ensures forall k | |old(signals)| <= k < |signals| :: HeardFrom(s, p, recover, claim, signals[k])
      ensures Calls(signals) == Calls(old(signals))
      ensures r == None <==> s.claim.Some? && s.claim.value.Work? && RequestFits(worker, s.claim.value.request)
      ensures r == None ==>
                && Now().pc == AtCheck(recover)
                && journal == Some(old(journal).value.(request := Some(s.claim.value.request)))
      ensures r == Some(Ok(Idle)) <==> s.claim == Some(NoWork)
      ensures r.Some? ==> Now().pc == Off && r.value != Refused(RecoveryRequired) && r.value != Ok(NothingToRecover)
      ensures r.Some? && r.value.Ok? ==>
                r.value == Ok(Idle) && journal.Some? && journal.value.done && journal.value.request == None
                && s.claim == Some(NoWork)
    {
      hide Path, RequestFits, Replayable, Calls;
      if s.claim == None {
        Step(Stop);
        return Some(Refused(BackendUnavailable));
      }
      var response := s.claim.value;
      if response == NoWork {
        journal := Some(journal.value.(done := true));
        Step(Claimed(response));
        return Some(Ok(Idle));
      }
      if !response.Work? {
        Step(Claimed(response));
        return Some(Refused(InvalidResponse));
      }
      if !RequestFits(worker, response.request) {
        Step(Claimed(response));
        return Some(Refused(ScopeMismatch));
      }
      journal := Some(journal.value.(request := Some(response.request)));
      Step(Claimed(response));
      return None;
    }

    /** Call the executor, then journal what came of it. */
    method ExecuteOnce(p: Principal, recover: bool, claim: Id, s: Surroundings, request: Request)
      returns (trouble: Option<Trouble>)
      requires Valid() && Now().pc == AtExecute
      requires journal.Some? && journal.value.request == Some(request) && !journal.value.done
      modifies this
      ensures Valid() && old(signals) <= signals
      ensures forall k | |old(signals)| <= k < |signals| :: HeardFrom(s, p, recover, claim, signals[k])
      ensures Calls(signals) <= Calls(old(signals)) + 1
      ensures trouble.Some? ==> Now().pc == Off && trouble.value != RecoveryRequired
      ensures trouble == None <==> s.mayExecute && s.executed.Some?
      ensures trouble.Some? ==> journal == old(journal)
      ensures trouble == None ==>
                && Now().pc == AtObserve
                && journal.Some? && journal.value.result.Some?
                && journal == Some(old(journal).value.(result := journal.value.result))
                && LeftBy(request, s.executed.value, journal.value.result.value)
    {
      hide Path, RequestFits, Replayable, Calls;
      if !s.mayExecute {
        Step(Stop);
        return Some(IsolationLost);
      }
      Step(Called);
      if s.executed == None {
        Step(Stop);
        return Some(ExecutorCrashed);
      }
      var result := ResultOf(request, s.executed.value);
      Step(Executed(s.executed.value));
      journal := Some(journal.value.(result := Some(result)));
      Step(Saved);
      return None;
    }

    /** The run from its first look at the attempt on, up to the journalled result that it wants to report. */
    method Obtain(p: Principal, recover: bool, claim: Id, s: Surroundings, request: Request, pending: bool)
      returns (ended: Option<Result<Ending, Trouble>>)
      requires Valid() && Now().pc == AtCheck(pending) && pending == recover
      requires journal.Some? && journal.value.request == Some(request) && !journal.value.done
      modifies this
      ensures Valid() && old(signals) <= signals
      ensures forall k | |old(signals)| <= k < |signals| :: HeardFrom(s, p, recover, claim, signals[k])
      ensures Calls(signals) <= Calls(old(signals)) + (if recover then 0 else 1)
      ensures journal.Some?
      ensures journal == Some(old(journal).value.(done := journal.value.done, result := journal.value.result))
      ensures ended.Some? ==>
                && Now().pc == Off && ended.value != Refused(RecoveryRequired)
                && journal.value.result == old(journal).value.result
                && (journal.value.done <==> ended.value.Ok?)
                && (ended.value.Ok? <==> Shows(s.first, request) && Over(s.first.value))
                && (ended.value.Ok? ==> ended.value == Ok(Ended(s.first.value.state)))
                && (forall made :: !Accounts(s, request, old(journal).value.result, recover, made))
      ensures ended == None ==>
                && Now().pc == AtObserve && !journal.value.done && journal.value.result.Some?
                && Accounts(s, request, old(journal).value.result, recover, journal.value.result.value)
    {
      hide Path, RequestFits, Replayable, Calls, WellFormed;
      if s.first == None {
        Step(Stop);
        return Some(Refused(BackendUnavailable));
      }
      var first := s.first.value;
      if first.deadline != request.deadline || !Known(first.state) {
        Step(Checked(first));
        return Some(Refused(InvalidResponse));
      }
      if !Active(first.state) {
        journal := Some(journal.value.(done := true));
        Step(Checked(first));
        return Some(Ok(Ended(first.state)));
      }
      if first.state == CancelRequested {
        journal := Some(journal.value.(result := Some(CancelledResult(request))));
        Step(Checked(first));
      } else if journal.value.result.Some? {
        Step(Checked(first));
        ReplayableIs(request, journal.value.result.value);
        if !Replayable(request, journal.value.result.value) {
          return Some(Refused(JournalAttemptMismatch));
        }
      } else if pending {
        journal := Some(journal.value.(result := Some(InterruptedResult(request))));
        Step(Checked(first));
      } else {
        Step(Checked(first));
        var trouble := ExecuteOnce(p, recover, claim, s, request);
        if trouble.Some? {
          return Some(Refused(trouble.value));
        }
      }
      return None;
    }

    /** The run from its first look at the attempt on. */
    method Conclude(p: Principal, recover: bool, claim: Id, s: Surroundings, request: Request, pending: bool)
      returns (r: Result<Ending, Trouble>)
      requires Valid() && Now().pc == AtCheck(pending) && pending == recover
      requires journal.Some? && journal.value.request == Some(request) && !journal.value.done
      modifies this
      ensures Valid() && Now().pc == Off
      ensures old(signals) <= signals
      ensures forall k | |old(signals)| <= k < |signals| :: HeardFrom(s, p, recover, claim, signals[k])
      ensures Calls(signals) <= Calls(old(signals)) + (if recover then 0 else 1)
      ensures journal.Some? && journal.value.request == Some(request)
      ensures r.Ok? ==> r.value.Ended? && journal.value.done
      ensures r != Refused(RecoveryRequired)
      ensures r.Ok? ==> EndsIn(s, request, old(journal).value.result, recover, r.value.state, journal.value.result)
      ensures r.Refused? ==>
                forall state, result :: !EndsIn(s, request, old(journal).value.result, recover, state, result)
      ensures Kept(s, request, old(journal).value.result, recover, journal.value.result)
    {
      hide Path, RequestFits, Replayable, Calls, Accounts, EndsIn, Kept, Reports;
      FirstLook(s, request, journal.value.result, recover);
      var ended := Obtain(p, recover, claim, s, request, pending);
      if ended.Some? {
        return ended.value;
      }
      r := Report(p, recover, claim, s, request, old(journal).value.result);
    }

    /** The run from its second look at the attempt on, with a result in the journal. */
    method Report(
      p: Principal, recover: bool, claim: Id, s: Surroundings, request: Request, ghost before: Option<ExecutionResult>)
      returns (r: Result<Ending, Trouble>)
      requires Valid() && Now().pc == AtObserve
      requires journal.Some? && journal.value.request == Some(request) && journal.value.result.Some?
      requires !journal.value.done
      requires Accounts(s, request, before, recover, journal.value.result.value)
      modifies this
      ensures Valid() && Now().pc == Off
      ensures old(signals) <= signals
      ensures forall k | |old(signals)| <= k < |signals| :: HeardFrom(s, p, recover, claim, signals[k])
      ensures Calls(signals) == Calls(old(signals))
      ensures journal.Some? && journal.value.request == Some(request)
      ensures r.Ok? ==> r.value.Ended? && journal.value.done
      ensures r != Refused(RecoveryRequired)
      ensures r.Ok? ==> EndsIn(s, request, before, recover, r.value.state, journal.value.result)
      ensures r.Refused? ==> forall state, result :: !EndsIn(s, request, before, recover, state, result)
      ensures Kept(s, request, before, recover, journal.value.result)
    {
      hide Path, RequestFits, Replayable, Calls, Accounts, Kept, EndsIn, Reports;
      KeptMade(s, request, before, recover, journal.value.result.value);
      if s.second == None {
        NoEnd(s, request, before, recover, journal.value.result.value);
        Step(Stop);
        return Refused(BackendUnavailable);
      }
      var second := s.second.value;
      if second.deadline != request.deadline || !Known(second.state) {
        NoEnd(s, request, before, recover, journal.value.result.value);
        Step(Observed(second));
        return Refused(InvalidResponse);
      }
      if !Active(second.state) {
        SecondLook(s, request, before, recover, journal.value.result.value, journal.value.result.value);
        journal := Some(journal.value.(done := true));
        Step(Observed(second));
        return Ok(Ended(second.state));
      }
      ghost var made := journal.value.result.value;
      if second.state == CancelRequested && journal.value.result.value.status != Cancelled {
        journal := Some(journal.value.(result := Some(CancelledResult(request))));
      }
      Step(Observed(second));
      SecondLook(s, request, before, recover, made, journal.value.result.value);
      if !s.mayReport || s.acknowledged != Some(request.mission) {
        NoEnd(s, request, before, recover, made);
      }
      if !s.mayReport {
        Step(Stop);
        return Refused(IsolationLost);
      }
      if s.acknowledged == None {
        Step(Stop);
        return Refused(BackendUnavailable);
      }
      var mission := s.acknowledged.value;
      if mission != request.mission {
        Step(Acknowledged(mission));
        return Refused(InvalidResponse);
      }
      journal := Some(journal.value.(done := true));
      Step(Acknowledged(mission));
      return Ok(Ended(journal.value.result.value.status));
    }
  }
}
