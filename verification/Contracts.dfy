/** The versioned contracts of the control plane: lifecycle, identities, results and file names. */
module Contracts {
  import opened Base

  /** A random identifier; two calls never give the same one. */
  type Id = nat

  /** SHA-256 is a free constructor: equal digests have equal contents. */
  datatype Digest = Sha256(content: Bytes)

  datatype State =
    Draft | Approved | Queued | Running | Completed | Failed | CancelRequested | Cancelled | Interrupted

  /** The lifecycle table. */
  function Successors(state: State): set<State> {
    match state
    case Draft => {Approved, Cancelled}
    case Approved => {Queued, Cancelled}
    case Queued => {Running, Cancelled}
    case Running => {Completed, Failed, CancelRequested, Interrupted}
    case CancelRequested => {Cancelled, Interrupted}
    case Failed => {Queued}
    case Interrupted => {Queued, Cancelled}
    case Completed => {}
    case Cancelled => {}
  }

  predicate Allowed(from: State, to: State) {
    to in Successors(from)
  }

  /** A leased attempt is working, or was asked to stop and has not answered yet. */
  predicate Active(state: State) {
    state == Running || state == CancelRequested
  }

  /** The states an attempt never leaves. */
  predicate Settled(state: State) {
    state == Completed || state == Failed || state == Cancelled || state == Interrupted
  }

  datatype Capability = Demo | CpuDigest

  /** The closed execution contract that a plan must repeat for its capability. */
  datatype Spec = Spec(role: string, instruction: string, simulated: bool)

  function SpecOf(capability: Capability): Spec {
    match capability
    case Demo => Spec("demo-report", "produce_deterministic_report", true)
    case CpuDigest => Spec("cpu-text-digest", "hash_authorized_objective_utf8", false)
  }

  const PLAN_SCHEMA := "pepeuch.control-plane/plan/v1"
  const RESULT_FILE := "resultat.md"

  datatype Plan = Plan(schema: string, spec: Spec, capability: Capability, worker: Id, outputs: seq<string>)

  datatype Role = AdminRole | WorkerRole

  datatype Principal = Principal(identity: Id, role: Role, epoch: Option<nat>)

  datatype ErrorCode =
    | BackendRestart | AttemptExpired | WorkerRevoked
    | SimulatedFailure | SimulatedInterruption
    | CpuExecutionFailed | CpuInterrupted | CpuDeadlineExceeded

  datatype Output = Output(name: string, content: Bytes, size: int, digest: Digest, expected: Option<Id>)

  datatype ExecutionResult = ExecutionResult(
    attempt: Id, generation: Id, status: State, outputs: seq<Output>, error: Option<ErrorCode>)

  datatype Problem =
    | AccessDenied | NotFound | InvalidTransition | InvalidPlan | OperationConflict
    | WorkerRevokedOrRotated | UnsupportedWorkerLimits | ExplicitReactivationRequired
    | AttemptMismatch | StaleAttempt | ResultConflict | CancellationPending
    | InvalidResultState | InvalidOutputs | InvalidErrorCode | InvalidFailureResult | ResultContractMismatch
    | VersionConflict | WorkspaceQuotaExceeded | FileCountLimit | VersionCountLimit
    | UnsafeFileName | InvalidFileSize | FileTooLarge | FileIntegrityMismatch | ObjectCorrupted
    | InvalidText | InvalidFileReferences | UnsupportedCpuInputs | InvalidMissionContract | InvalidClock

  /** The checks that a decoded execution result has passed. */
  function CheckResult(result: ExecutionResult): Result<ExecutionResult, Problem> {
    if !Settled(result.status) then Refused(InvalidResultState)
    else if |result.outputs| > 1 then Refused(InvalidOutputs)
    else if result.error in {Some(BackendRestart), Some(AttemptExpired), Some(WorkerRevoked)} then
      Refused(InvalidErrorCode)
    else Ok(result)
  }

  /** The error codes that a worker of this capability may report with an unsuccessful status. */
  predicate FailureAllowed(capability: Capability, status: State, error: Option<ErrorCode>) {
    match status
    case Failed => error == Some(if capability == Demo then SimulatedFailure else CpuExecutionFailed)
    case Interrupted =>
      if capability == Demo then error == Some(SimulatedInterruption)
      else error == Some(CpuInterrupted) || error == Some(CpuDeadlineExceeded)
    case Cancelled => error == None
    case _ => false
  }

  predicate Letter(c: char) {
    'a' <= c <= 'z' || 'A' <= c <= 'Z'
  }

  predicate Digit(c: char) {
    '0' <= c <= '9'
  }

  function LowerChar(c: char): char {
    if 'A' <= c <= 'Z' then c + ' ' else c
  }

  /** Names compare without ASCII case in the index. */
  function Fold(name: string): string {
    seq(|name|, i requires 0 <= i < |name| => LowerChar(name[i]))
  }

  /** The part of a name before its first dot. */
  function Stem(name: string): string {
    if name == "" || name[0] == '.' then "" else [name[0]] + Stem(name[1..])
  }

  /** Device names that no portable directory may hold, with or without an extension. */
  predicate ReservedStem(stem: string) {
    stem in {"con", "prn", "aux", "nul"}
    || (|stem| == 4 && stem[..3] in {"com", "lpt"} && '1' <= stem[3] <= '9')
  }

  predicate SafeFileName(name: string) {
    && 1 <= |name| <= 120
    && (Letter(name[0]) || Digit(name[0]))
    && (forall i | 0 <= i < |name| :: Letter(name[i]) || Digit(name[i]) || name[i] in "._-")
    && name[|name| - 1] != '.'
    && !ReservedStem(Fold(Stem(name)))
  }

  /** What an uploaded or produced file must satisfy before it may be published. */
  function CheckOutput(output: Output, limit: int): Result<Output, Problem> {
    if !SafeFileName(output.name) then Refused(UnsafeFileName)
    else if output.size < 0 then Refused(InvalidFileSize)
    else if output.size > limit then Refused(FileTooLarge)
    else if |output.content| != output.size || Sha256(output.content) != output.digest then
      Refused(FileIntegrityMismatch)
    else Ok(output)
  }

  datatype Settings = Settings(maxFileBytes: int, quotaBytes: int, attemptSeconds: int)

  predicate ValidSettings(s: Settings) {
    && 0 < s.maxFileBytes <= 1_048_576
    && 0 < s.quotaBytes <= 1_073_741_824
    && 0 < s.attemptSeconds <= 3600
  }
}
