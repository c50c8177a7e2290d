/** One worker machine: a durable journal, and a run that may stop between any two saves or calls. */
module Worker {
  import opened Base
  import opened Contracts
  import opened Tables
  import opened Transactions

  /** What the machine keeps across crashes. */
  datatype Journal = Journal(
    worker: Id, credential: Principal, claim: Id, request: Option<Request>, result: Option<ExecutionResult>, done: bool)

  /** Where a run stands; a crash forgets it. At work its executor has been called and has not returned. */
  datatype Pc =
    | Off
    | AtClaim(recovering: bool)
    | AtCheck(recovering: bool)
    | AtExecute
    | AtWork
    | AtSave(result: ExecutionResult)
    | AtObserve
    | AtFinish

  datatype Machine = Machine(worker: Id, disk: Option<Journal>, pc: Pc)

  datatype Status = Status(state: State, deadline: real)

  datatype Message =
    | ClaimMessage(p: Principal, claim: Id)
    | StateMessage(p: Principal, a: Id)
    | FinishMessage(p: Principal, a: Id, result: ExecutionResult)

  /** How the executor ended: with a result, by an interruption, or by a refusal. */
  datatype Outcome = Returned(result: ExecutionResult) | Interruption | Refusal

  datatype Signal =
    | Begin(p: Principal, recover: bool, claim: Id)
    | Claimed(response: Response)
    | Checked(status: Status)
    | Called
    | Executed(outcome: Outcome)
    | Saved
    | Observed(status: Status)
    | Acknowledged(mission: Id)
    | Stop

  function CancelledResult(r: Request): ExecutionResult {
    ExecutionResult(r.attempt, r.generation, Cancelled, [], None)
  }

  function InterruptedResult(r: Request): ExecutionResult {
    ExecutionResult(r.attempt, r.generation, State.Interrupted, [], Some(CpuInterrupted))
  }

  function FailedResult(r: Request): ExecutionResult {
    ExecutionResult(r.attempt, r.generation, Failed, [], Some(CpuExecutionFailed))
  }

  function ResultOf(r: Request, outcome: Outcome): ExecutionResult {
    match outcome
    case Returned(result) => result
    case Interruption => InterruptedResult(r)
    case Refusal => FailedResult(r)
  }

  /** The requests that this machine accepts: its own worker's, for its only capability, without files. */
  predicate RequestFits(worker: Id, r: Request) {
    && r.capability == CpuDigest && r.worker == worker && r.files == []
    && CleanText(r.title, 160) && CleanText(r.objective, 4000)
    && 0.0 < r.deadline <= 253402300799.0
  }

  predicate Known(state: State) {
    Active(state) || Settled(state)
  }

  /** A journalled result can be replayed when it is well formed and belongs to the journalled request. */
  predicate Replayable(r: Request, result: ExecutionResult) {
    CheckResult(result).Ok? && result.attempt == r.attempt && result.generation == r.generation
  }

  function NewJournal(m: Machine, p: Principal, claim: Id): Journal {
    Journal(m.worker, p, claim, None, None, false)
  }

  function Stopped(m: Machine): Machine {
    m.(pc := Off)
  }

  /** Save a journal; the run goes on from pc. */
  function Save(m: Machine, j: Journal, pc: Pc): Machine {
    m.(disk := Some(j), pc := pc)
  }

  function Started(m: Machine, p: Principal, recover: bool, claim: Id): Machine {
    if m.disk == None || (m.disk.value.worker == m.worker && m.disk.value.done) then
      if recover then m else Save(m, NewJournal(m, p, claim), AtClaim(false))
    else
      var j := m.disk.value;
      if j.worker != m.worker || j.credential != p || !recover then m
      else if j.request == None then m.(pc := AtClaim(true))
      else if RequestFits(m.worker, j.request.value) then m.(pc := AtCheck(true))
      else m
  }

  function AfterClaim(m: Machine, j: Journal, recovering: bool, response: Response): Machine {
    match response
    case NoWork => Save(m, j.(done := true), Off)
    case Work(r) => if RequestFits(m.worker, r) then Save(m, j.(request := Some(r)), AtCheck(recovering)) else Stopped(m)
    case _ => Stopped(m)
  }

  function AfterCheck(m: Machine, j: Journal, r: Request, recovering: bool, status: Status): Machine {
    if status.deadline != r.deadline || !Known(status.state) then Stopped(m)
    else if !Active(status.state) then Save(m, j.(done := true), Off)
    else if status.state == CancelRequested then Save(m, j.(result := Some(CancelledResult(r))), AtObserve)
    else if j.result.Some? then (if Replayable(r, j.result.value) then m.(pc := AtObserve) else Stopped(m))
    else if recovering then Save(m, j.(result := Some(InterruptedResult(r))), AtObserve)
    else m.(pc := AtExecute)
  }

  function AfterObserve(m: Machine, j: Journal, r: Request, status: Status): Machine {
    if status.deadline != r.deadline || !Known(status.state) then Stopped(m)
    else if !Active(status.state) then Save(m, j.(done := true), Off)
    else if status.state == CancelRequested && j.result.Some? && j.result.value.status != Cancelled then
      Save(m, j.(result := Some(CancelledResult(r))), AtFinish)
    else m.(pc := AtFinish)
  }

  /** The machine after a signal; None when the signal cannot happen here. */
  function After(m: Machine, e: Signal): Option<Machine> {
    if e.Stop? then Some(Stopped(m))
    else if m.pc == Off then (if e.Begin? then Some(Started(m, e.p, e.recover, e.claim)) else None)
    else if m.disk == None then None
    else
      var j := m.disk.value;
      if m.pc.AtClaim? then (if e.Claimed? then Some(AfterClaim(m, j, m.pc.recovering, e.response)) else None)
      else if j.request == None then None
      else
        var r := j.request.value;
        match m.pc
        case AtCheck(recovering) => if e.Checked? then Some(AfterCheck(m, j, r, recovering, e.status)) else None
        case AtExecute => if e.Called? then Some(m.(pc := AtWork)) else None
        case AtWork => if e.Executed? then Some(m.(pc := AtSave(ResultOf(r, e.outcome)))) else None
        case AtSave(result) => if e.Saved? then Some(Save(m, j.(result := Some(result)), AtObserve)) else None
        case AtObserve => if e.Observed? then Some(AfterObserve(m, j, r, e.status)) else None
        case AtFinish =>
          if e.Acknowledged? then
            Some(if e.mission == r.mission then Save(m, j.(done := true), Off) else Stopped(m))
          else None
        case _ => None
  }

  /** The request that a run waits for an answer to. */
  function Outgoing(m: Machine): Option<Message> {
    if m.disk == None then None
    else
      var j := m.disk.value;
      match m.pc
      case AtClaim(_) => Some(ClaimMessage(j.credential, j.claim))
      case AtCheck(_) => if j.request == None then None else Some(StateMessage(j.credential, j.request.value.attempt))
      case AtObserve => if j.request == None then None else Some(StateMessage(j.credential, j.request.value.attempt))
      case AtFinish =>
        if j.request == None || j.result == None then None
        else Some(FinishMessage(j.credential, j.request.value.attempt, j.result.value))
      case _ => None
  }
}
