/** The rows of the private index, and the object directory beside it. */
module Tables {
  import opened Base
  import opened Contracts

  datatype Mission = Mission(
    owner: Id, workspace: Id, title: string, objective: string, state: State, createdAt: real, files: seq<Id>)

  datatype Task = Task(mission: Id, capability: Capability, worker: Id, state: State)

  datatype Attempt = Attempt(
    task: Id, number: nat, worker: Id, state: State, generation: Id, startedAt: real, deadline: real,
    expected: Option<Id>, result: Option<ExecutionResult>, error: Option<ErrorCode>)

  datatype File = File(workspace: Id, name: string)

  datatype Version = Version(
    id: Id, file: Id, number: nat, size: nat, digest: Digest, mission: Option<Id>, attempt: Option<Id>)

  datatype ResultRow = ResultRow(attempt: Id, version: Id)

  datatype Worker = Worker(active: bool, epoch: nat, capability: Capability, lease: int, maxOutput: int)

  datatype Actor = Person(id: Id) | LocalSystem | LocalMaintenance

  datatype EventKind =
    | MissionCreated
    | ExecutionContract(capability: Capability)
    | MissionState(state: State, reason: string)
    | AttemptStarted(attempt: Id, task: Id, worker: Id)
    | FilePublished(file: Id, version: Id)
    | WorkerRevokedEvent(worker: Id)
    | WorkerIdentity(worker: Id, reason: string)

  datatype Event = Event(mission: Option<Id>, workspace: Id, actor: Actor, kind: EventKind)

  /** An operation is recorded under its actor; a worker's actor includes the credential epoch. */
  datatype OperationKey = AdminOperation(actor: Id, operation: Id) | WorkerOperation(actor: Id, epoch: nat, operation: Id)

  datatype MissionDraft = MissionDraft(title: string, objective: string, workspace: Id, files: seq<Id>)

  /** The action and payload of an operation; it stands for their digest, which is injective. */
  datatype Intent =
    | CreateIntent(capability: Capability, draft: MissionDraft)
    | ApproveIntent(mission: Id)
    | CancelIntent(mission: Id)
    | RetryIntent(mission: Id)
    | ClaimIntent
    | UploadIntent(workspace: Id, data: Output)
    | RevokeIntent(worker: Id)

  datatype Request = Request(
    attempt: Id, generation: Id, task: Id, mission: Id, worker: Id, capability: Capability,
    title: string, objective: string, files: seq<Id>, deadline: real, expected: Option<Id>)

  datatype Response =
    | NoWork
    | Work(request: Request)
    | MissionView(mission: Id, state: State)
    | Published(file: Id, version: Id, digest: Digest, size: nat)
    | WorkerView(worker: Id, active: bool, epoch: nat)

  datatype Operation = Operation(intent: Intent, response: Response)

  datatype Db = Db(
    settings: Settings,
    workspaces: map<Id, Id>,
    missions: map<Id, Mission>,
    tasks: map<Id, Task>,
    attempts: map<Id, Attempt>,
    epochs: map<Id, nat>,
    files: map<Id, File>,
    versions: seq<Version>,
    results: map<Id, ResultRow>,
    events: seq<Event>,
    operations: map<OperationKey, Operation>,
    workers: map<Id, Worker>,
    objects: map<Digest, Bytes>)
}
