/** Each committed or refused transaction of the control plane, as a function of the index it starts from. */
module Transactions {
  import opened Base
  import opened Contracts
  import opened Tables

  type Step<T> = Result<(Db, T), Problem>

  // ----- Lifecycle -----

  /** Append one row to the audit ledger. */
  ghost function Audit(db: Db, actor: Actor, workspace: Id, mission: Option<Id>, kind: EventKind): Db {
    db.(events := db.events + [Event(mission, workspace, actor, kind)])
  }

  /** Move a mission along the lifecycle table and record the move, or refuse. */
  ghost function Transition(db: Db, actor: Actor, m: Id, target: State, reason: string): Result<Db, Problem>
    requires m in db.missions
  {
    var row := db.missions[m];
    if !Allowed(row.state, target) then Refused(InvalidTransition)
    else
      Ok(Audit(db.(missions := db.missions[m := row.(state := target)]),
               actor, row.workspace, Some(m), MissionState(target, reason)))
  }

  /** Every referenced row exists. */
  ghost predicate Linked(db: Db) {
    && (forall t <- db.tasks :: db.tasks[t].mission in db.missions)
    && (forall a <- db.attempts :: db.attempts[a].task in db.tasks)
  }

  function MissionOf(db: Db, a: Id): Id
    requires Linked(db) && a in db.attempts
  {
    db.tasks[db.attempts[a].task].mission
  }

  /** Write an attempt's new row, its task's state and its mission's state, in that order. */
  ghost function Settle(db: Db, actor: Actor, a: Id, row: Attempt, reason: string): Result<Db, Problem>
    requires Linked(db) && a in db.attempts && row.task == db.attempts[a].task
  {
    var t := row.task;
    Transition(
      db.(attempts := db.attempts[a := row], tasks := db.tasks[t := db.tasks[t].(state := row.state)]),
      actor, db.tasks[t].mission, row.state, reason)
  }

  function ReasonText(reason: ErrorCode): string {
    match reason
    case BackendRestart => "backend_restart"
    case AttemptExpired => "attempt_expired"
    case WorkerRevoked => "worker_revoked"
    case _ => ""
  }

  /** Interrupt one leased attempt. */
  ghost function FenceOne(db: Db, a: Id, reason: ErrorCode): Result<Db, Problem>
    requires Linked(db) && a in db.attempts
  {
    Settle(db, LocalSystem, a, db.attempts[a].(state := Interrupted, error := Some(reason)), ReasonText(reason))
  }

  /** The rows that a fence reads: every leased attempt, or every leased attempt of one worker, once each. */
  ghost predicate LeasedRows(db: Db, worker: Option<Id>, rows: seq<Id>) {
    && (forall a :: a in rows <==>
          a in db.attempts && Active(db.attempts[a].state) && (worker == None || worker == Some(db.attempts[a].worker)))
    && (forall i, j | 0 <= i < j < |rows| :: rows[i] != rows[j])
  }

  function RowSet(rows: seq<Id>): set<Id> {
    set a | a in rows
  }

  /** Interrupt, row by row, the rows that are due. */
  ghost function FenceRows(db: Db, rows: seq<Id>, due: set<Id>, reason: ErrorCode): Result<Db, Problem>
    requires Linked(db) && (forall a <- rows :: a in db.attempts)
    decreases |rows|
  {
    if rows == [] then Ok(db)
    else if rows[0] !in due then FenceRows(db, rows[1..], due, reason)
    else
      match FenceOne(db, rows[0], reason)
      case Refused(p) => Refused(p)
      case Ok(next) => FenceRows(next, rows[1..], due, reason)
  }

  /** A clock that is read again for every row; it may jump either way. */
  type Clock = Id -> real

  /** The attempts whose lease is over when their row is examined. */
  ghost function Overdue(db: Db, rows: seq<Id>, clock: Clock): set<Id>
    requires forall a <- rows :: a in db.attempts
  {
    set a | a in rows && db.attempts[a].deadline <= clock(a)
  }

  ghost function ExpireTx(db: Db, rows: seq<Id>, clock: Clock): Result<Db, Problem>
    requires Linked(db) && (forall a <- rows :: a in db.attempts)
  {
    FenceRows(db, rows, Overdue(db, rows, clock), AttemptExpired)
  }

  ghost function RecoverTx(db: Db, rows: seq<Id>): Result<Db, Problem>
    requires Linked(db) && (forall a <- rows :: a in db.attempts)
  {
    FenceRows(db, rows, RowSet(rows), BackendRestart)
  }

  // ----- Workers -----

  predicate Policy(w: Worker, settings: Settings) {
    && 1 <= w.lease <= settings.attemptSeconds
    && 1 <= w.maxOutput <= Min(65536, settings.maxFileBytes)
  }

  /** A worker acts only under the current epoch of an active identity. */
  function Authorize(db: Db, p: Principal): Result<Worker, Problem> {
    if p.role != WorkerRole then Refused(AccessDenied)
    else if p.identity !in db.workers || !db.workers[p.identity].active
            || p.epoch != Some(db.workers[p.identity].epoch) then Refused(WorkerRevokedOrRotated)
    else if !Policy(db.workers[p.identity], db.settings) then Refused(UnsupportedWorkerLimits)
    else Ok(db.workers[p.identity])
  }

  ghost function EnrollTx(db: Db, identity: Id, w: Worker, workspace: Id): Result<Db, Problem> {
    if !Policy(w, db.settings) then Refused(UnsupportedWorkerLimits)
    else
      Ok(Audit(db.(workers := db.workers[identity := w.(active := true, epoch := 1)]),
               LocalMaintenance, workspace, None, WorkerIdentity(identity, "explicit_enrollment")))
  }

  ghost function RotateTx(db: Db, w: Id, reactivate: bool, workspace: Id): Result<Db, Problem> {
    if w !in db.workers then Refused(NotFound)
    else if !db.workers[w].active && !reactivate then Refused(ExplicitReactivationRequired)
    else
      var row := db.workers[w];
      Ok(Audit(db.(workers := db.workers[w := row.(active := true, epoch := row.epoch + 1)]),
               LocalMaintenance, workspace, None,
               WorkerIdentity(w, if reactivate then "explicit_reactivation" else "credential_rotation")))
  }

  /** Every worker revoked, each under a new epoch. */
  function RetireAll(workers: map<Id, Worker>): map<Id, Worker> {
    map w | w in workers :: workers[w].(active := false, epoch := workers[w].epoch + 1)
  }

  /** The objects that some version refers to. */
  function Referenced(versions: seq<Version>, objects: map<Digest, Bytes>): map<Digest, Bytes> {
    map d | d in objects && (exists v <- versions :: v.digest == d) :: objects[d]
  }

  /** What a restored installation starts from: the saved index without usable credentials, and its objects. */
  function Reinstated(db: Db): Db {
    db.(workers := RetireAll(db.workers), objects := Referenced(db.versions, db.objects))
  }

  ghost function RevokeEffect(db: Db, p: Principal, w: Id, rows: seq<Id>, workspace: Id): Step<Response>
    requires Linked(db) && (forall a <- rows :: a in db.attempts)
  {
    if w !in db.workers then Refused(NotFound)
    else
      var row := db.workers[w];
      var next := if row.active then row.(active := false, epoch := row.epoch + 1) else row;
      match FenceRows(db.(workers := db.workers[w := next]), rows, RowSet(rows), WorkerRevoked)
      case Refused(problem) => Refused(problem)
      case Ok(fenced) =>
        Ok((Audit(fenced, Person(p.identity), workspace, None, WorkerRevokedEvent(w)),
            WorkerView(w, next.active, next.epoch)))
  }

  // ----- Idempotent operations -----

  /** Run an effect once per key: replay its recorded response, or refuse another payload under the same key. */
  ghost function Operate(db: Db, key: OperationKey, intent: Intent, effect: Step<Response>): (Db, Result<Response,
      Problem>) {
    if key in db.operations then
      (db, if db.operations[key].intent != intent then Refused(OperationConflict) else Ok(db.operations[key].response))
    else
      match effect
      case Refused(p) => (db, Refused(p))
      case Ok((next, response)) =>
        (next.(operations := next.operations[key := Operation(intent, response)]), Ok(response))
  }

  // ----- Missions -----

  /** The characters that trimming removes. */
  predicate Blank(c: char) {
    var n := c as int;
    9 <= n <= 13 || 28 <= n <= 32 || n in {133, 160, 5760, 8232, 8233, 8239, 8287, 12288} || 8192 <= n <= 8202
  }

  predicate CleanText(value: string, maximum: nat) {
    && (exists i | 0 <= i < |value| :: !Blank(value[i]))
    && |value| <= maximum
    && '\0' !in value
  }

  predicate DistinctIds(ids: seq<Id>) {
    forall i, j | 0 <= i < j < |ids| :: ids[i] != ids[j]
  }

  /** The published versions that a mission may read from its workspace. */
  predicate Readable(db: Db, workspace: Id, version: Id) {
    exists i | 0 <= i < |db.versions| ::
      db.versions[i].id == version && db.versions[i].file in db.files
      && db.files[db.versions[i].file].workspace == workspace
  }

  ghost function CreateEffect(
    db: Db, p: Principal, capability: Capability, draft: MissionDraft, identity: Id, now: real): Step<Response>
  {
    if draft.workspace !in db.workspaces || db.workspaces[draft.workspace] != p.identity then Refused(NotFound)
    else if exists i | 0 <= i < |draft.files| :: !Readable(db, draft.workspace, draft.files[i]) then Refused(NotFound)
    else if now < 0.0 then Refused(InvalidClock)
    else
      var row := Mission(p.identity, draft.workspace, draft.title, draft.objective, Draft, now, draft.files);
      var actor := Person(p.identity);
      var created := Audit(db.(missions := db.missions[identity := row]), actor, draft.workspace, Some(identity),
          MissionCreated);
      var declared :=
        if capability == Demo then created
        else Audit(created, actor, draft.workspace, Some(identity), ExecutionContract(capability));
      Ok((declared, MissionView(identity, Draft)))
  }

  function CheckDraft(capability: Capability, draft: MissionDraft): Result<MissionDraft, Problem> {
    if !CleanText(draft.title, 160) || !CleanText(draft.objective, 4000) then Refused(InvalidText)
    else if |draft.files| > 32 || !DistinctIds(draft.files) then Refused(InvalidFileReferences)
    else if capability == CpuDigest && draft.files != [] then Refused(UnsupportedCpuInputs)
    else Ok(draft)
  }

  /** The execution contracts that the ledger declares for a mission, oldest first. */
  function DeclaredContracts(events: seq<Event>, m: Id): seq<Capability> {
    if events == [] then []
    else
      var last := events[|events| - 1];
      DeclaredContracts(events[..|events| - 1], m)
      + (if last.mission == Some(m) && last.kind.ExecutionContract? then [last.kind.capability] else [])
  }

  /** The capability that a mission needs; silence means the historical demonstration contract. */
  function RequiredCapability(events: seq<Event>, m: Id): Result<Capability, Problem> {
    var declared := DeclaredContracts(events, m);
    if declared == [] then Ok(Demo)
    else if declared != [CpuDigest] then Refused(InvalidMissionContract)
    else Ok(CpuDigest)
  }

  function FindMission(db: Db, p: Principal, m: Id): Result<Mission, Problem> {
    if m !in db.missions || db.missions[m].owner != p.identity then Refused(NotFound) else Ok(db.missions[m])
  }

  predicate PlanAccepted(db: Db, capability: Capability, plan: Plan) {
    && plan.schema == PLAN_SCHEMA
    && plan.capability == capability
    && plan.spec == SpecOf(capability)
    && plan.outputs == [RESULT_FILE]
    && plan.worker in db.workers && db.workers[plan.worker].active
    && db.workers[plan.worker].capability == plan.capability
  }

  ghost function ApproveEffect(db: Db, p: Principal, m: Id, plan: Plan, identity: Id): Step<Response> {
    var found := FindMission(db, p, m);
    if found.Refused? then Refused(found.error)
    else if db.missions[m].state != Draft then Refused(InvalidTransition)
    else
      match RequiredCapability(db.events, m)
      case Refused(problem) => Refused(problem)
      case Ok(capability) =>
        if !PlanAccepted(db, capability, plan) then Refused(InvalidPlan)
        else
          match Transition(db, Person(p.identity), m, Approved, "")
          case Refused(problem) => Refused(problem)
          case Ok(approved) =>
            var planned := approved.(tasks := approved.tasks[identity := Task(m, plan.capability, plan.worker, Queued)]);
            match Transition(planned, Person(p.identity), m, Queued, "")
            case Refused(problem) => Refused(problem)
            case Ok(queued) => Ok((queued, MissionView(m, Queued)))
  }

  /** Give every task of a mission one state. */
  function TasksTo(tasks: map<Id, Task>, m: Id, target: State): map<Id, Task> {
    map t | t in tasks :: if tasks[t].mission == m then tasks[t].(state := target) else tasks[t]
  }

  /** Give every running attempt of a mission one state. */
  function AttemptsTo(tasks: map<Id, Task>, attempts: map<Id, Attempt>, m: Id, target: State): map<Id, Attempt> {
    map a | a in attempts ::
      if attempts[a].task in tasks && tasks[attempts[a].task].mission == m && attempts[a].state == Running
      then attempts[a].(state := target) else attempts[a]
  }

  ghost function CancelEffect(db: Db, p: Principal, m: Id): Step<Response> {
    var found := FindMission(db, p, m);
    if found.Refused? then Refused(found.error)
    else if db.missions[m].state == CancelRequested then Ok((db, MissionView(m, CancelRequested)))
    else
      var target := if db.missions[m].state == Running then CancelRequested else Cancelled;
      match Transition(db, Person(p.identity), m, target, "")
      case Refused(problem) => Refused(problem)
      case Ok(moved) =>
        Ok((moved.(tasks := TasksTo(moved.tasks, m, target),
                   attempts := AttemptsTo(moved.tasks, moved.attempts, m, target)),
            MissionView(m, target)))
  }

  ghost function RetryEffect(db: Db, p: Principal, m: Id): Step<Response> {
    var found := FindMission(db, p, m);
    if found.Refused? then Refused(found.error)
    else if db.missions[m].state !in {Failed, Interrupted} then Refused(InvalidTransition)
    else
      match Transition(db, Person(p.identity), m, Queued, "explicit_retry")
      case Refused(problem) => Refused(problem)
      case Ok(moved) => Ok((moved.(tasks := TasksTo(moved.tasks, m, Queued)), MissionView(m, Queued)))
  }

  // ----- Files -----

  /** The file of this name, ignoring case, in a workspace. */
  predicate Named(files: map<Id, File>, f: Id, workspace: Id, name: string) {
    f in files && files[f].workspace == workspace && Fold(files[f].name) == Fold(name)
  }

  ghost function FindFile(files: map<Id, File>, workspace: Id, name: string): Option<Id> {
    if exists f :: Named(files, f, workspace, name) then
      var f :| Named(files, f, workspace, name);
      Some(f)
    else None
  }

  /** The highest-numbered version of a file. */
  function Newest(versions: seq<Version>, f: Id): Option<Version> {
    if versions == [] then None
    else
      var last := versions[|versions| - 1];
      var best := Newest(versions[..|versions| - 1], f);
      if last.file == f && (best == None || best.value.number <= last.number) then Some(last) else best
  }

  function VersionId(version: Option<Version>): Option<Id> {
    if version == None then None else Some(version.value.id)
  }

  /** The current version of a named file, if there is one. */
  ghost function Current(db: Db, workspace: Id, name: string): Option<Id> {
    match FindFile(db.files, workspace, name)
    case None => None
    case Some(f) => VersionId(Newest(db.versions, f))
  }

  /** The bytes that all versions in a workspace count against its quota. */
  function Used(versions: seq<Version>, files: map<Id, File>, workspace: Id): nat {
    if versions == [] then 0
    else
      var last := versions[|versions| - 1];
      Used(versions[..|versions| - 1], files, workspace)
      + (if last.file in files && files[last.file].workspace == workspace then last.size else 0)
  }

  function FilesOf(files: map<Id, File>, workspace: Id): set<Id> {
    set f | f in files && files[f].workspace == workspace
  }

  /** Identifiers drawn before a publication. */
  datatype FreshIds = FreshIds(file: Id, version: Id, result: Id)

  /** Store content under its digest, then append the next version of the named file. */
  ghost function Publish(
    db: Db, actor: Actor, workspace: Id, name: string, raw: Bytes, expected: Option<Id>,
    mission: Option<Id>, attempt: Option<Id>, ids: FreshIds): Step<Response>
  {
    var file := FindFile(db.files, workspace, name);
    var previous := if file == None then None else Newest(db.versions, file.value);
    var digest := Sha256(raw);
    if expected != VersionId(previous) then Refused(VersionConflict)
    else if Used(db.versions, db.files, workspace) + |raw| > db.settings.quotaBytes then Refused(WorkspaceQuotaExceeded)
    else if file == None && |FilesOf(db.files, workspace)| >= 100 then Refused(FileCountLimit)
    else if previous != None && previous.value.number >= 100 then Refused(VersionCountLimit)
    else if digest in db.objects && db.objects[digest] != raw then Refused(ObjectCorrupted)
    else
      var f := if file == None then ids.file else file.value;
      var number := if previous == None then 1 else previous.value.number + 1;
      var row := Version(ids.version, f, number, |raw|, digest, mission, attempt);
      var stored := db.(
        objects := db.objects[digest := raw],
        files := if file == None then db.files[f := File(workspace, name)] else db.files,
        versions := db.versions + [row]);
      Ok((Audit(stored, actor, workspace, mission, FilePublished(f, ids.version)),
          Published(f, ids.version, digest, |raw|)))
  }

  ghost function UploadEffect(db: Db, p: Principal, workspace: Id, data: Output, ids: FreshIds): Step<Response> {
    if workspace !in db.workspaces || db.workspaces[workspace] != p.identity then Refused(NotFound)
    else Publish(db, Person(p.identity), workspace, data.name, data.content, data.expected, None, None, ids)
  }

  // ----- Claim -----

  /** The worker holds no lease. */
  predicate Idle(attempts: map<Id, Attempt>, w: Id) {
    forall a <- attempts :: attempts[a].worker == w ==> !Active(attempts[a].state)
  }

  predicate Queueable(db: Db, t: Id, w: Id)
    requires Linked(db)
  {
    && t in db.tasks
    && db.tasks[t].state == Queued
    && db.missions[db.tasks[t].mission].state == Queued
    && db.tasks[t].worker == w
  }

  /** Oldest mission first, then by identifier. */
  predicate Before(db: Db, t: Id, u: Id)
    requires Linked(db) && t in db.tasks && u in db.tasks
  {
    var m, n := db.tasks[t].mission, db.tasks[u].mission;
    db.missions[m].createdAt < db.missions[n].createdAt
    || (db.missions[m].createdAt == db.missions[n].createdAt && m <= n)
  }

  predicate NextTask(db: Db, w: Id, t: Id)
    requires Linked(db)
  {
    Queueable(db, t, w) && forall u <- db.tasks | Queueable(db, u, w) :: Before(db, t, u)
  }

  /** The task that a claim takes. */
  ghost function PickTask(db: Db, w: Id): Option<Id>
    requires Linked(db)
  {
    if exists t :: NextTask(db, w, t) then
      var t :| NextTask(db, w, t);
      Some(t)
    else None
  }

  /** The highest attempt number of a task, or zero. */
  ghost predicate TopNumber(attempts: map<Id, Attempt>, t: Id, n: nat) {
    && (forall a <- attempts | attempts[a].task == t :: attempts[a].number <= n)
    && (n == 0 || exists a <- attempts :: attempts[a].task == t && attempts[a].number == n)
  }

  ghost function Top(attempts: map<Id, Attempt>, t: Id): nat {
    if exists n: nat :: TopNumber(attempts, t, n) then
      var n: nat :| TopNumber(attempts, t, n);
      n
    else 0
  }

  /** The choices that a claim reads from the index or draws at random. */
  datatype ClaimInputs = ClaimInputs(rows: seq<Id>, clock: Clock, now: real, attempt: Id, generation: Id)

  ghost function StartAttempt(db: Db, p: Principal, w: Worker, t: Id, top: nat, c: ClaimInputs): Step<Response>
    requires Linked(db) && t in db.tasks
    requires p.epoch.Some?
  {
    if c.now < 0.0 then Refused(InvalidClock)
    else
      var task := db.tasks[t];
      var mission := db.missions[task.mission];
      var expected := Current(db, mission.workspace, RESULT_FILE);
      var deadline := c.now + Min(db.settings.attemptSeconds, w.lease) as real;
      var row := Attempt(t, top + 1, p.identity, Running, c.generation, c.now, deadline, expected, None, None);
      var leased := db.(
        attempts := db.attempts[c.attempt := row],
        epochs := db.epochs[c.attempt := p.epoch.value],
        tasks := db.tasks[t := task.(state := Running)]);
      match Transition(leased, Person(p.identity), task.mission, Running, "")
      case Refused(problem) => Refused(problem)
      case Ok(running) =>
        var request := Request(c.attempt, c.generation, t, task.mission, p.identity, task.capability,
                               mission.title, mission.objective, mission.files, deadline, expected);
        Ok((Audit(running, Person(p.identity), mission.workspace, Some(task.mission),
                  AttemptStarted(c.attempt, t, p.identity)),
            Work(request)))
  }

  lemma FencedLinked(db: Db, rows: seq<Id>, due: set<Id>, reason: ErrorCode)
    requires Linked(db) && (forall a <- rows :: a in db.attempts)
    ensures FenceRows(db, rows, due, reason).Ok? ==> Linked(FenceRows(db, rows, due, reason).value)
    decreases |rows|
  {
    if rows != [] {
      if rows[0] !in due {
        FencedLinked(db, rows[1..], due, reason);
      } else if FenceOne(db, rows[0], reason).Ok? {
        FencedLinked(FenceOne(db, rows[0], reason).value, rows[1..], due, reason);
      }
    }
  }

  ghost function ClaimEffect(db: Db, p: Principal, c: ClaimInputs): Step<Response>
    requires Linked(db) && (forall a <- c.rows :: a in db.attempts)
  {
    match Authorize(db, p)
    case Refused(problem) => Refused(problem)
    case Ok(w) =>
      match ExpireTx(db, c.rows, c.clock)
      case Refused(problem) => Refused(problem)
      case Ok(swept) =>
        FencedLinked(db, c.rows, Overdue(db, c.rows, c.clock), AttemptExpired);
        if !Idle(swept.attempts, p.identity) then Ok((swept, NoWork))
        else
          match PickTask(swept, p.identity)
          case None => Ok((swept, NoWork))
          case Some(t) => StartAttempt(swept, p, w, t, Top(swept.attempts, t), c)
  }

  // ----- Finish -----

  datatype Acknowledgement = Acknowledgement(mission: Id, duplicate: bool)

  /** Publish a completed attempt's only output and tie the new version to the attempt. */
  ghost function PublishResult(db: Db, p: Principal, a: Id, output: Output, ids: FreshIds): Result<Db, Problem>
    requires Linked(db) && a in db.attempts
  {
    var m := MissionOf(db, a);
    var row := db.attempts[a];
    match Authorize(db, p)
    case Refused(problem) => Refused(problem)
    case Ok(w) =>
      match CheckOutput(output, Min(65536, Min(db.settings.maxFileBytes, w.maxOutput)))
      case Refused(problem) => Refused(problem)
      case Ok(_) =>
        if output.name != RESULT_FILE || output.expected != row.expected then Refused(ResultContractMismatch)
        else
          match Publish(db, Person(p.identity), db.missions[m].workspace, output.name, output.content, row.expected,
                        Some(m), Some(a), ids)
          case Refused(problem) => Refused(problem)
          case Ok((stored, _)) => Ok(stored.(results := stored.results[ids.result := ResultRow(a, ids.version)]))
  }

  /** Every check between authorization and publication, in order; Ok(true) is an exact duplicate. */
  ghost function FinishChecks(db: Db, p: Principal, a: Id, result: ExecutionResult): Result<bool, Problem>
    requires Linked(db)
  {
    if Authorize(db, p).Refused? then Refused(Authorize(db, p).error)
    else if a !in db.attempts || db.attempts[a].worker != p.identity then Refused(NotFound)
    else
      var row := db.attempts[a];
      var state := db.missions[MissionOf(db, a)].state;
      if row.generation != result.generation then Refused(StaleAttempt)
      else if a !in db.epochs || Some(db.epochs[a]) != p.epoch then Refused(StaleAttempt)
      else if row.result != None then
        (if row.result != Some(result) then Refused(ResultConflict) else Ok(true))
      else if !Active(row.state) then Refused(StaleAttempt)
      else if state == CancelRequested && (result.status != Cancelled || result.outputs != [] || result.error != None) then
        Refused(CancellationPending)
      else if state != CancelRequested && result.status == Cancelled then Refused(InvalidTransition)
      else Ok(false)
  }

  /** The index after a finish call's second transaction, and its reply; `now` is its last clock reading. */
  ghost function FinishTx(db: Db, p: Principal, a: Id, result: ExecutionResult, ids: FreshIds, now: real):
    (Db, Result<Acknowledgement, Problem>)
    requires Linked(db)
  {
    var checked := CheckResult(result);
    var verdict := FinishChecks(db, p, a, result);
    if p.role != WorkerRole then (db, Refused(AccessDenied))
    else if checked.Refused? then (db, Refused(checked.error))
    else if result.attempt != a then (db, Refused(AttemptMismatch))
    else if verdict.Refused? then (db, Refused(verdict.error))
    else if verdict.value then (db, Ok(Acknowledgement(MissionOf(db, a), true)))
    else
      var row := db.attempts[a];
      var published :=
        if result.status == Completed then
          (if result.error != None || |result.outputs| != 1 then Refused(InvalidOutputs)
           else PublishResult(db, p, a, result.outputs[0], ids))
        else if result.outputs != [] || !FailureAllowed(db.tasks[row.task].capability, result.status, result.error) then
          Refused(InvalidFailureResult)
        else Ok(db);
      match published
      case Refused(problem) => (db, Refused(problem))
      case Ok(stored) =>
        // A refusal from here on rolls the index back, but not the object directory.
        var undone := db.(objects := stored.objects);
        if now >= row.deadline then (undone, Refused(StaleAttempt))
        else
          match Settle(stored, Person(p.identity), a, row.(state := result.status, result := Some(result),
              error := result.error), "")
          case Refused(problem) => (undone, Refused(problem))
          case Ok(settled) => (settled, Ok(Acknowledgement(MissionOf(db, a), false)))
  }

  /** What a worker may read about its own attempt. */
  ghost function AttemptState(db: Db, p: Principal, a: Id): Result<State, Problem> {
    if Authorize(db, p).Refused? then Refused(Authorize(db, p).error)
    else if a !in db.attempts || db.attempts[a].worker != p.identity then Refused(NotFound)
    else if a !in db.epochs || Some(db.epochs[a]) != p.epoch then Refused(StaleAttempt)
    else Ok(db.attempts[a].state)
  }
}
