/** The control plane's program, statement by statement; every call takes only steps of the transition system. */
module ControlPlane {
  import opened Base
  import opened Contracts
  import opened Tables
  import opened Transactions
  import opened Lifecycle
  import opened Ledger
  import opened Attempts
  import opened Files
  import opened Growth
  import opened Invariant
  import opened Effects
  import opened Planning
  import opened Runs

  /** An effect that went through, or the problem that rolls its transaction back. */
  type Done = Result<bool, Problem>

  ghost predicate Meets(after: Db, r: Done, spec: Result<Db, Problem>) {
    match spec
    case Ok(next) => r == Ok(true) && after == next
    case Refused(p) => r == Refused(p)
  }

  /** The same for an effect with a response. */
  ghost predicate Answers(after: Db, r: Reply, spec: Step<Response>) {
    match spec
    case Ok((next, response)) => r == Ok(response) && after == next
    case Refused(p) => r == Refused(p)
  }

  function Answered(done: Done, response: Response): Reply {
    if done.Refused? then Refused(done.error) else Ok(response)
  }

  class ControlPlane {
    var db: Db

    constructor (db: Db)
      ensures this.db == db
    {
      this.db := db;
    }

    // ----- Statements shared by the transactions -----

    method Record(actor: Actor, workspace: Id, mission: Option<Id>, kind: EventKind)
      modifies this
      ensures db == Audit(old(db), actor, workspace, mission, kind)
    {
      db := db.(events := db.events + [Event(mission, workspace, actor, kind)]);
    }

    method Move(actor: Actor, m: Id, target: State, reason: string) returns (r: Done)
      requires m in db.missions
      modifies this
      ensures Meets(db, r, Transition(old(db), actor, m, target, reason))
      ensures db.objects == old(db).objects && (r.Refused? ==> db == old(db))
    {
      var row := db.missions[m];
      if target !in Successors(row.state) {
        return Refused(InvalidTransition);
      }
      db := db.(missions := db.missions[m := row.(state := target)]);
      Record(actor, row.workspace, Some(m), MissionState(target, reason));
      return Ok(true);
    }

    /** SELECT the leased attempts, in whatever order the engine gives them. */
    method SelectLeased(worker: Option<Id>) returns (rows: seq<Id>)
      ensures LeasedRows(db, worker, rows)
    {
      var found := set a | a in db.attempts && Active(db.attempts[a].state)
                           && (worker == None || worker == Some(db.attempts[a].worker));
      rows := [];
      var left := found;
      while left != {}
        invariant left <= found
        invariant forall a :: a in rows <==> a in found - left
        invariant forall i, j | 0 <= i < j < |rows| :: rows[i] != rows[j]
        decreases |left|
      {
        var a :| a in left;
        assert a !in rows;
        assert forall i | 0 <= i < |rows| :: rows[i] in rows;
        rows, left := rows + [a], left - {a};
      }
    }

    method Interrupt(a: Id, reason: ErrorCode) returns (r: Done)
      requires Linked(db) && a in db.attempts
      modifies this
      ensures Meets(db, r, FenceOne(old(db), a, reason))
      ensures db.objects == old(db).objects && (r.Ok? ==> Linked(db) && db.attempts.Keys == old(db).attempts.Keys)
    {
      var t := db.attempts[a].task;
      db := db.(attempts := db.attempts[a := db.attempts[a].(state := State.Interrupted, error := Some(reason))]);
      db := db.(tasks := db.tasks[t := db.tasks[t].(state := State.Interrupted)]);
      r := Move(LocalSystem, db.tasks[t].mission, State.Interrupted, ReasonText(reason));
    }

    /** Interrupt the selected leases one by one; an expiry sweep leaves those that are not yet over. */
    method Fence(rows: seq<Id>, expiredOnly: bool, clock: Clock, reason: ErrorCode) returns (r: Done)
      requires Linked(db) && forall a <- rows :: a in db.attempts
      modifies this
      ensures Meets(db, r, FenceRows(old(db), rows, if expiredOnly then Overdue(old(db), rows,
          clock) else RowSet(rows), reason))
      ensures db.objects == old(db).objects
    {
      hide FenceOne, Linked;
      var selected := db.attempts;
      ghost var due := if expiredOnly then Overdue(db, rows, clock) else RowSet(rows);
      for i := 0 to |rows|
        invariant Linked(db) && db.attempts.Keys == old(db).attempts.Keys && db.objects == old(db).objects
        invariant FenceRows(old(db), rows, due, reason) == FenceRows(db, rows[i..], due, reason)
      {
        var a := rows[i];
        assert a in rows && rows[i..][1..] == rows[i + 1..];
        if expiredOnly && selected[a].deadline > clock(a) {
          assert a !in due;
          continue;
        }
        assert a in due;
        r := Interrupt(a, reason);
        if r.Refused? {
          return r;
        }
      }
      return Ok(true);
    }

    // ----- Idempotent operations -----

    /** What an earlier call under this key answered, or the conflict with its payload. */
    method Recall(key: OperationKey, intent: Intent) returns (r: Option<Reply>)
      ensures r.Some? <==> key in db.operations
      ensures forall effect :: r.Some? ==> Operate(db, key, intent, effect) == (db, r.value)
    {
      if key !in db.operations {
        return None;
      }
      if db.operations[key].intent != intent {
        return Some(Refused(OperationConflict));
      }
      return Some(Ok(db.operations[key].response));
    }

    /** End a transaction: record the response of its effect, or roll the tables back. */
    method Commit(saved: Db, key: OperationKey, intent: Intent, r: Reply, ghost effect: Step<Response>)
      requires key !in saved.operations && Answers(db, r, effect)
      requires r.Refused? ==> db.objects == saved.objects
      modifies this
      ensures (db, r) == Operate(saved, key, intent, effect)
    {
      if r.Refused? {
        db := saved.(objects := db.objects);
      } else {
        db := db.(operations := db.operations[key := Operation(intent, r.value)]);
      }
    }

    /** End a transaction without a response; a rollback does not reach the object directory. */
    method Close(saved: Db, r: Done)
      modifies this
      ensures db == if r.Ok? then old(db) else saved.(objects := old(db).objects)
    {
      if r.Refused? {
        db := saved.(objects := db.objects);
      }
    }

    // ----- Sweeps -----

    method ExpireLeases(clock: Clock) returns (rows: seq<Id>)
      requires Inv(db)
      modifies this
      ensures Inv(db) && StepsTo(old(db), Action.Expire(rows, clock), db)
    {
      hide Inv, Linked, LeasedRows, FenceRows, FenceDone, Kept, Overdue, RowSet;
      InvLinked(db);
      rows := SelectLeased(None);
      ExpireKept(db, rows, clock);
      StepKept(db, Action.Expire(rows, clock));
      ghost var before := db;
      var saved := db;
      var r := Fence(rows, true, clock, AttemptExpired);
      Close(saved, r);
      KeptMeans(before, db);
    }

    method RecoverLeases() returns (rows: seq<Id>)
      requires Inv(db)
      modifies this
      ensures Inv(db) && StepsTo(old(db), Restart(rows), db)
    {
      hide Inv, Linked, LeasedRows, FenceRows, FenceDone, Kept, Overdue, RowSet;
      InvLinked(db);
      rows := SelectLeased(None);
      ExpireKept(db, rows, _ => 0.0);
      StepKept(db, Restart(rows));
      ghost var before := db;
      var saved := db;
      var r := Fence(rows, false, _ => 0.0, BackendRestart);
      Close(saved, r);
      KeptMeans(before, db);
    }

    // ----- Missions -----

    method CreateIn(p: Principal, capability: Capability, draft: MissionDraft, identity: Id, now: real) returns (r: Reply)
      modifies this
      ensures Answers(db, r, CreateEffect(old(db), p, capability, draft, identity, now))
      ensures r.Refused? ==> db.objects == old(db).objects
    {
      if draft.workspace !in db.workspaces || db.workspaces[draft.workspace] != p.identity {
        return Refused(NotFound);
      }
      for i := 0 to |draft.files|
        invariant forall k | 0 <= k < i :: Readable(db, draft.workspace, draft.files[k])
      {
        if !Readable(db, draft.workspace, draft.files[i]) {
          return Refused(NotFound);
        }
      }
      if now < 0.0 {
        return Refused(InvalidClock);
      }
      var row := Mission(p.identity, draft.workspace, draft.title, draft.objective, Draft, now, draft.files);
      db := db.(missions := db.missions[identity := row]);
      Record(Person(p.identity), draft.workspace, Some(identity), MissionCreated);
      if capability != Demo {
        Record(Person(p.identity), draft.workspace, Some(identity), ExecutionContract(capability));
      }
      return Ok(MissionView(identity, Draft));
    }

    method CreateMission(p: Principal, operation: Id, capability: Capability, draft: MissionDraft, identity: Id, now: real)
      returns (r: Reply)
      requires Inv(db) && identity !in db.missions
      modifies this
      ensures StepsTo(old(db), Create(p, operation, capability, draft, identity, now), db)
      ensures r == CreateCall(old(db), p, operation, capability, draft, identity, now).1
      ensures Inv(db)
    {
      hide Inv, Linked, Kept, CreateEffect, Operate, CheckDraft;
      InvLinked(db);
      StepKept(db, Create(p, operation, capability, draft, identity, now));
      KeptMeans(db, Apply(db, Create(p, operation, capability, draft, identity, now)));
      var checked := CheckDraft(capability, draft);
      if checked.Refused? {
        return Refused(checked.error);
      }
      if p.role != AdminRole {
        return Refused(AccessDenied);
      }
      var key, intent := AdminOperation(p.identity, operation), CreateIntent(capability, draft);
      ghost var effect := CreateEffect(db, p, capability, draft, identity, now);
      var recalled := Recall(key, intent);
      if recalled.Some? {
        assert Operate(db, key, intent, effect) == (db, recalled.value);
        return recalled.value;
      }
      var saved := db;
      r := CreateIn(p, capability, draft, identity, now);
      Commit(saved, key, intent, r, effect);
    }

    method ApproveIn(p: Principal, m: Id, plan: Plan, identity: Id) returns (r: Reply)
      modifies this
      ensures Answers(db, r, ApproveEffect(old(db), p, m, plan, identity))
      ensures r.Refused? ==> db.objects == old(db).objects
    {
      hide RequiredCapability;
      var found := FindMission(db, p, m);
      if found.Refused? {
        return Refused(found.error);
      }
      if found.value.state != Draft {
        return Refused(InvalidTransition);
      }
      var capability := RequiredCapability(db.events, m);
      if capability.Refused? {
        return Refused(capability.error);
      }
      if !PlanAccepted(db, capability.value, plan) {
        return Refused(InvalidPlan);
      }
      var moved := Move(Person(p.identity), m, Approved, "");
      if moved.Ok? {
        db := db.(tasks := db.tasks[identity := Task(m, plan.capability, plan.worker, Queued)]);
        moved := Move(Person(p.identity), m, Queued, "");
      }
      return Answered(moved, MissionView(m, Queued));
    }

    method CancelIn(p: Principal, m: Id) returns (r: Reply)
      modifies this
      ensures Answers(db, r, CancelEffect(old(db), p, m))
      ensures r.Refused? ==> db.objects == old(db).objects
    {
      var found := FindMission(db, p, m);
      if found.Refused? {
        return Refused(found.error);
      }
      if found.value.state == CancelRequested {
        return Ok(MissionView(m, CancelRequested));
      }
      var target := if found.value.state == Running then CancelRequested else Cancelled;
      var moved := Move(Person(p.identity), m, target, "");
      if moved.Refused? {
        return Refused(moved.error);
      }
      db := db.(tasks := TasksTo(db.tasks, m, target));
      db := db.(attempts := AttemptsTo(db.tasks, db.attempts, m, target));
      return Ok(MissionView(m, target));
    }

    method RetryIn(p: Principal, m: Id) returns (r: Reply)
      modifies this
      ensures Answers(db, r, RetryEffect(old(db), p, m))
      ensures r.Refused? ==> db.objects == old(db).objects
    {
      var found := FindMission(db, p, m);
      if found.Refused? {
        return Refused(found.error);
      }
      if found.value.state !in {Failed, State.Interrupted} {
        return Refused(InvalidTransition);
      }
      var moved := Move(Person(p.identity), m, Queued, "explicit_retry");
      if moved.Refused? {
        return Refused(moved.error);
      }
      db := db.(tasks := TasksTo(db.tasks, m, Queued));
      return Ok(MissionView(m, Queued));
    }

    method ApproveMission(p: Principal, operation: Id, m: Id, plan: Plan, identity: Id) returns (r: Reply)
      requires Inv(db) && identity !in db.tasks
      modifies this
      ensures StepsTo(old(db), Approve(p, operation, m, plan, identity), db)
      ensures r == ApproveCall(old(db), p, operation, m, plan, identity).1
      ensures Inv(db)
    {
      hide Inv, Linked, Kept, ApproveEffect, Operate;
      InvLinked(db);
      StepKept(db, Approve(p, operation, m, plan, identity));
      KeptMeans(db, Apply(db, Approve(p, operation, m, plan, identity)));
      if p.role != AdminRole {
        return Refused(AccessDenied);
      }
      var key, intent := AdminOperation(p.identity, operation), ApproveIntent(m);
      ghost var effect := ApproveEffect(db, p, m, plan, identity);
      var recalled := Recall(key, intent);
      if recalled.Some? {
        assert Operate(db, key, intent, effect) == (db, recalled.value);
        return recalled.value;
      }
      var saved := db;
      r := ApproveIn(p, m, plan, identity);
      Commit(saved, key, intent, r, effect);
    }

    /** A cancellation sweeps expired leases in a first transaction, and takes effect in a second one. */
    method CancelMission(p: Principal, operation: Id, m: Id, clock: Clock)
      returns (r: Reply, rows: seq<Id>, ghost swept: Db)
      requires Inv(db)
      modifies this
      ensures if p.role == AdminRole then StepsTo(old(db), Action.Expire(rows, clock), swept) else swept == old(db)
      ensures StepsTo(swept, Cancel(p, operation, m), db)
      ensures r == CancelCall(swept, p, operation, m).1
      ensures Inv(db)
    {
      hide Inv, Linked, Kept, CancelEffect, Operate, LeasedRows, ExpireTx;
      InvLinked(db);
      rows, swept := [], db;
      if p.role != AdminRole {
        return Refused(AccessDenied), rows, swept;
      }
      rows := ExpireLeases(clock);
      swept := db;
      InvLinked(db);
      StepKept(db, Cancel(p, operation, m));
      KeptMeans(db, Apply(db, Cancel(p, operation, m)));
      var key, intent := AdminOperation(p.identity, operation), CancelIntent(m);
      ghost var effect := CancelEffect(db, p, m);
      var recalled := Recall(key, intent);
      if recalled.Some? {
        assert Operate(db, key, intent, effect) == (db, recalled.value);
        return recalled.value, rows, swept;
      }
      var saved := db;
      r := CancelIn(p, m);
      Commit(saved, key, intent, r, effect);
    }

    method RetryMission(p: Principal, operation: Id, m: Id, clock: Clock)
      returns (r: Reply, rows: seq<Id>, ghost swept: Db)
      requires Inv(db)
      modifies this
      ensures if p.role == AdminRole then StepsTo(old(db), Action.Expire(rows, clock), swept) else swept == old(db)
      ensures StepsTo(swept, Retry(p, operation, m), db)
      ensures r == RetryCall(swept, p, operation, m).1
      ensures Inv(db)
    {
      hide Inv, Linked, Kept, RetryEffect, Operate, LeasedRows, ExpireTx;
      InvLinked(db);
      rows, swept := [], db;
      if p.role != AdminRole {
        return Refused(AccessDenied), rows, swept;
      }
      rows := ExpireLeases(clock);
      swept := db;
      InvLinked(db);
      StepKept(db, Retry(p, operation, m));
      KeptMeans(db, Apply(db, Retry(p, operation, m)));
      var key, intent := AdminOperation(p.identity, operation), RetryIntent(m);
      ghost var effect := RetryEffect(db, p, m);
      var recalled := Recall(key, intent);
      if recalled.Some? {
        assert Operate(db, key, intent, effect) == (db, recalled.value);
        return recalled.value, rows, swept;
      }
      var saved := db;
      r := RetryIn(p, m);
      Commit(saved, key, intent, r, effect);
    }

    // ----- Workers -----

    method EnrollWorker(identity: Id, w: Worker, workspace: Id) returns (r: Done)
      requires Inv(db) && identity !in db.workers && workspace in db.workspaces
      modifies this
      ensures StepsTo(old(db), Enroll(identity, w, workspace), db)
      ensures r.Ok? <==> EnrollTx(old(db), identity, w, workspace).Ok?
      ensures Inv(db)
    {
      hide Inv, Linked, Kept, Policy;
      InvLinked(db);
      StepKept(db, Enroll(identity, w, workspace));
      KeptMeans(db, Apply(db, Enroll(identity, w, workspace)));
      if !Policy(w, db.settings) {
        return Refused(UnsupportedWorkerLimits);
      }
      db := db.(workers := db.workers[identity := w.(active := true, epoch := 1)]);
      Record(LocalMaintenance, workspace, None, WorkerIdentity(identity, "explicit_enrollment"));
      return Ok(true);
    }

    method RotateWorker(w: Id, reactivate: bool, workspace: Id) returns (r: Done)
      requires Inv(db) && workspace in db.workspaces
      modifies this
      ensures StepsTo(old(db), Rotate(w, reactivate, workspace), db)
      ensures r.Ok? <==> RotateTx(old(db), w, reactivate, workspace).Ok?
      ensures Inv(db)
    {
      hide Inv, Linked, Kept;
      InvLinked(db);
      StepKept(db, Rotate(w, reactivate, workspace));
      KeptMeans(db, Apply(db, Rotate(w, reactivate, workspace)));
      if w !in db.workers {
        return Refused(NotFound);
      }
      var row := db.workers[w];
      if !row.active && !reactivate {
        return Refused(ExplicitReactivationRequired);
      }
      db := db.(workers := db.workers[w := row.(active := true, epoch := row.epoch + 1)]);
      Record(LocalMaintenance, workspace, None,
             WorkerIdentity(w, if reactivate then "explicit_reactivation" else "credential_rotation"));
      return Ok(true);
    }

    method RevokeIn(p: Principal, w: Id, rows: seq<Id>, workspace: Id) returns (r: Reply)
      requires Linked(db) && forall a <- rows :: a in db.attempts
      modifies this
      ensures Answers(db, r, RevokeEffect(old(db), p, w, rows, workspace))
      ensures r.Refused? ==> db.objects == old(db).objects
    {
      hide FenceRows;
      if w !in db.workers {
        return Refused(NotFound);
      }
      var row := db.workers[w];
      if row.active {
        db := db.(workers := db.workers[w := row.(active := false, epoch := row.epoch + 1)]);
      }
      var view := WorkerView(w, db.workers[w].active, db.workers[w].epoch);
      assert db.workers == db.workers[w := db.workers[w]];
      var fenced := Fence(rows, false, _ => 0.0, WorkerRevoked);
      if fenced.Refused? {
        return Refused(fenced.error);
      }
      Record(Person(p.identity), workspace, None, WorkerRevokedEvent(w));
      return Ok(view);
    }

    /** A revocation also interrupts every lease of the worker, in the same transaction. */
    method RevokeWorker(p: Principal, operation: Id, w: Id, workspace: Id) returns (r: Reply, rows: seq<Id>)
      requires Inv(db) && workspace in db.workspaces
      modifies this
      ensures StepsTo(old(db), Revoke(p, operation, w, rows, workspace), db)
      ensures r == RevokeCall(old(db), p, operation, w, rows, workspace).1
      ensures Inv(db)
    {
      hide Inv, Linked, Kept, RevokeEffect, Operate, LeasedRows;
      InvLinked(db);
      rows := SelectLeased(Some(w));
      LeasedRowsKnown(db, Some(w), rows);
      StepKept(db, Revoke(p, operation, w, rows, workspace));
      KeptMeans(db, Apply(db, Revoke(p, operation, w, rows, workspace)));
      if p.role != AdminRole {
        return Refused(AccessDenied), rows;
      }
      var key, intent := AdminOperation(p.identity, operation), RevokeIntent(w);
      ghost var effect := RevokeEffect(db, p, w, rows, workspace);
      var recalled := Recall(key, intent);
      if recalled.Some? {
        assert Operate(db, key, intent, effect) == (db, recalled.value);
        return recalled.value, rows;
      }
      var saved := db;
      r := RevokeIn(p, w, rows, workspace);
      Commit(saved, key, intent, r, effect);
    }

    // ----- Files -----

    /** SELECT the file of this name. */
    method FindNamed(workspace: Id, name: string) returns (file: Option<Id>)
      requires NamesOk(db.workspaces, db.files)
      ensures file == FindFile(db.files, workspace, name)
    {
      hide NamesOk, Named, FindFile;
      FoundIsNamed(db, workspace, name);
      NamedIsKnown(db.files, workspace, name);
      if f :| f in db.files && Named(db.files, f, workspace, name) {
        return Some(f);
      }
      return None;
    }

    /** Store content, then write the rows of the version that holds it. */
    method Append(
      actor: Actor, workspace: Id, name: string, raw: Bytes, file: Option<Id>, number: nat, mission: Option<Id>,
      attempt: Option<Id>, ids: FreshIds) returns (r: Response)
      modifies this
      ensures var f := if file == None then ids.file else file.value;
              db == Audit(old(db).(
                            objects := old(db).objects[Sha256(raw) := raw],
                            files := if file == None then old(db).files[f := File(workspace, name)] else old(db).files,
                            versions := old(db).versions + [Version(ids.version, f, number, |raw|, Sha256(raw),
                                mission, attempt)]),
                          actor, workspace, mission, FilePublished(f, ids.version))
              && r == Published(f, ids.version, Sha256(raw), |raw|)
    {
      db := db.(objects := db.objects[Sha256(raw) := raw]);
      var f := if file == None then ids.file else file.value;
      if file == None {
        db := db.(files := db.files[f := File(workspace, name)]);
      }
      db := db.(versions := db.versions + [Version(ids.version, f, number, |raw|, Sha256(raw), mission, attempt)]);
      Record(actor, workspace, mission, FilePublished(f, ids.version));
      return Published(f, ids.version, Sha256(raw), |raw|);
    }

    /** Append the next version of a named file, if the caller names the current one and the limits allow. */
    method PublishIn(
      actor: Actor, workspace: Id, name: string, raw: Bytes, expected: Option<Id>, mission: Option<Id>, attempt: Option<Id>,
      ids: FreshIds) returns (r: Reply)
      requires NamesOk(db.workspaces, db.files)
      modifies this
      ensures Answers(db, r, Publish(old(db), actor, workspace, name, raw, expected, mission, attempt, ids))
      ensures r.Refused? ==> db.objects == old(db).objects
    {
      hide NamesOk, Named, Newest, Used, FilesOf, FindFile, Audit;
      var file := FindNamed(workspace, name);
      var previous := if file == None then None else Newest(db.versions, file.value);
      if expected != VersionId(previous) {
        return Refused(VersionConflict);
      }
      if Used(db.versions, db.files, workspace) + |raw| > db.settings.quotaBytes {
        return Refused(WorkspaceQuotaExceeded);
      }
      if file == None && |FilesOf(db.files, workspace)| >= 100 {
        return Refused(FileCountLimit);
      }
      if previous != None && previous.value.number >= 100 {
        return Refused(VersionCountLimit);
      }
      if Sha256(raw) in db.objects && db.objects[Sha256(raw)] != raw {
        return Refused(ObjectCorrupted);
      }
      var number := if previous == None then 1 else previous.value.number + 1;
      var published := Append(actor, workspace, name, raw, file, number, mission, attempt, ids);
      return Ok(published);
    }

    static lemma NamedIsKnown(files: map<Id, File>, workspace: Id, name: string)
      ensures forall f: Id :: Named(files, f, workspace, name) ==> f in files
    {
    }

    method UploadIn(p: Principal, workspace: Id, data: Output, ids: FreshIds) returns (r: Reply)
      requires NamesOk(db.workspaces, db.files)
      modifies this
      ensures Answers(db, r, UploadEffect(old(db), p, workspace, data, ids))
      ensures r.Refused? ==> db.objects == old(db).objects
    {
      hide NamesOk, Publish;
      if workspace !in db.workspaces || db.workspaces[workspace] != p.identity {
        return Refused(NotFound);
      }
      r := PublishIn(Person(p.identity), workspace, data.name, data.content, data.expected, None, None, ids);
    }

    method UploadFile(p: Principal, operation: Id, workspace: Id, data: Output, ids: FreshIds) returns (r: Reply)
      requires Inv(db) && NewIds(db, ids)
      modifies this
      ensures StepsTo(old(db), Upload(p, operation, workspace, data, ids), db)
      ensures r == UploadCall(old(db), p, operation, workspace, data, ids).1
      ensures Inv(db)
    {
      hide Inv, Linked, Kept, UploadEffect, Operate, NewIds, CheckOutput, NamesOk;
      InvLinked(db);
      NamesOfInv(db);
      StepKept(db, Upload(p, operation, workspace, data, ids));
      KeptMeans(db, Apply(db, Upload(p, operation, workspace, data, ids)));
      if p.role != AdminRole {
        return Refused(AccessDenied);
      }
      var checked := CheckOutput(data, db.settings.maxFileBytes);
      if checked.Refused? {
        return Refused(checked.error);
      }
      var key, intent := AdminOperation(p.identity, operation), UploadIntent(workspace, data);
      ghost var effect := UploadEffect(db, p, workspace, data, ids);
      var recalled := Recall(key, intent);
      if recalled.Some? {
        assert Operate(db, key, intent, effect) == (db, recalled.value);
        return recalled.value;
      }
      var saved := db;
      r := UploadIn(p, workspace, data, ids);
      Commit(saved, key, intent, r, effect);
    }

    static lemma NamesOfInv(db: Db)
      requires Inv(db)
      ensures NamesOk(db.workspaces, db.files)
    {
      hide Life, LedgerOk, LeasesOk, ClaimsOk, OriginsOk, ResultsOk, NamesOk, DistinctVersions, Linear, VersionsLinked;
      hide Stored, WithinLimits;
    }

    // ----- Leases -----

    /** Sweep expired leases inside another transaction; on a sound index no move is refused. */
    method Sweep(rows: seq<Id>, clock: Clock)
      requires Inv(db) && Linked(db) && LeasedRows(db, None, rows)
      modifies this
      ensures forall a <- rows :: a in old(db).attempts
      ensures ExpireTx(old(db), rows, clock) == Ok(db) && Inv(db)
      ensures FenceDone(old(db), rows, Overdue(old(db), rows, clock), AttemptExpired, db)
    {
      hide Inv, Linked, LeasedRows, FenceRows, FenceDone, Kept, Overdue, RowSet;
      ExpireKept(db, rows, clock);
      DoneIsKept(db, rows, Overdue(db, rows, clock), AttemptExpired, ExpireTx(db, rows, clock).value);
      KeptMeans(db, ExpireTx(db, rows, clock).value);
      var _ := Fence(rows, true, clock, AttemptExpired);
    }

    /** SELECT the oldest queued task of a worker. */
    method SelectTask(w: Id) returns (t: Option<Id>)
      requires Linked(db) && TasksMatch(db.missions, db.tasks)
      ensures t == PickTask(db, w)
    {
      if u :| u in db.tasks && NextTask(db, w, u) {
        NextIsPicked(db, w, u);
        return Some(u);
      }
      return None;
    }

    static lemma NextIsPicked(db: Db, w: Id, t: Id)
      requires Linked(db) && TasksMatch(db.missions, db.tasks) && NextTask(db, w, t)
      ensures PickTask(db, w) == Some(t)
    {
      var u := PickTask(db, w).value;
      assert NextTask(db, w, u);
      assert Before(db, t, u) && Before(db, u, t);
    }

    /** SELECT the highest attempt number of a task, or zero. */
    method SelectTop(t: Id) returns (top: nat)
      ensures top == Top(db.attempts, t)
    {
      top := 0;
      var left := db.attempts.Keys;
      while left != {}
        invariant left <= db.attempts.Keys
        invariant HighestIn(db.attempts, t, db.attempts.Keys - left, top)
        decreases |left|
      {
        var a :| a in left;
        ghost var seen := db.attempts.Keys - left;
        assert db.attempts.Keys - (left - {a}) == seen + {a};
        if db.attempts[a].task == t && db.attempts[a].number > top {
          top := db.attempts[a].number;
        }
        left := left - {a};
      }
      assert db.attempts.Keys - left == db.attempts.Keys;
      assert TopNumber(db.attempts, t, top);
      TopIsTopNumber(db.attempts, t);
    }

    method StartIn(p: Principal, w: Worker, t: Id, top: nat, c: ClaimInputs) returns (r: Reply)
      requires Linked(db) && t in db.tasks && p.epoch.Some? && NamesOk(db.workspaces, db.files)
      modifies this
      ensures Answers(db, r, StartAttempt(old(db), p, w, t, top, c))
      ensures r.Refused? ==> db.objects == old(db).objects
    {
      hide NamesOk, FindFile, Newest;
      if c.now < 0.0 {
        return Refused(InvalidClock);
      }
      var task := db.tasks[t];
      var mission := db.missions[task.mission];
      var file := FindNamed(mission.workspace, RESULT_FILE);
      var expected := if file == None then None else VersionId(Newest(db.versions, file.value));
      assert expected == Current(db, mission.workspace, RESULT_FILE);
      hide Current;
      var deadline := c.now + Min(db.settings.attemptSeconds, w.lease) as real;
      var row := Attempt(t, top + 1, p.identity, Running, c.generation, c.now, deadline, expected, None, None);
      db := db.(attempts := db.attempts[c.attempt := row]);
      db := db.(epochs := db.epochs[c.attempt := p.epoch.value]);
      db := db.(tasks := db.tasks[t := task.(state := Running)]);
      var moved := Move(Person(p.identity), task.mission, Running, "");
      if moved.Refused? {
        return Refused(moved.error);
      }
      Record(Person(p.identity), mission.workspace, Some(task.mission), AttemptStarted(c.attempt, t, p.identity));
      return Ok(Work(Request(c.attempt, c.generation, t, task.mission, p.identity, task.capability,
                             mission.title, mission.objective, mission.files, deadline, expected)));
    }

    method ClaimIn(p: Principal, c: ClaimInputs) returns (r: Reply)
      requires Inv(db) && Linked(db) && LeasedRows(db, None, c.rows)
      modifies this
      ensures forall a <- c.rows :: a in old(db).attempts
      ensures Answers(db, r, ClaimEffect(old(db), p, c))
      ensures r.Refused? ==> db.objects == old(db).objects
    {
      hide Inv, Linked, LeasedRows, FenceDone, Idle, PickTask, Top, StartAttempt, Policy, NamesOk, TasksMatch, ExpireTx;
      LeasedRowsKnown(db, None, c.rows);
      var authorized := Authorize(db, p);
      if authorized.Refused? {
        return Refused(authorized.error);
      }
      ghost var before := db;
      Sweep(c.rows, c.clock);
      SweptObjects(before, c.rows, Overdue(before, c.rows, c.clock), AttemptExpired, db);
      InvLinked(db);
      if !Idle(db.attempts, p.identity) {
        return Ok(NoWork);
      }
      TasksOfInv(db);
      NamesOfInv(db);
      var picked := SelectTask(p.identity);
      if picked == None {
        return Ok(NoWork);
      }
      PickedIsQueueable(db, p.identity);
      QueueableKnown(db, picked.value, p.identity);
      var top := SelectTop(picked.value);
      r := StartIn(p, authorized.value, picked.value, top, c);
    }

    static lemma SweptObjects(db: Db, rows: seq<Id>, due: set<Id>, reason: ErrorCode, after: Db)
      requires FenceDone(db, rows, due, reason, after)
      ensures after.objects == db.objects && after.files == db.files && after.versions == db.versions
      ensures after.results == db.results && after.workers == db.workers && after.settings == db.settings
    {
      hide Inv, Grows;
    }

    static lemma TasksOfInv(db: Db)
      requires Inv(db)
      ensures TasksMatch(db.missions, db.tasks)
    {
      hide LedgerOk, LeasesOk, ClaimsOk, FilesOk, OriginsOk, ResultsOk, TasksMatch, Planned, AttemptsMatch,
          OneActive, ActiveCovered;
    }

    static lemma QueueableKnown(db: Db, t: Id, w: Id)
      requires Linked(db) && Queueable(db, t, w)
      ensures t in db.tasks
    {
    }

    /** A worker's claim: replayed under its own epoch, or one lease taken after a sweep. */
    method ClaimWork(p: Principal, operation: Id, clock: Clock, now: real, attempt: Id, generation: Id)
      returns (r: Reply, rows: seq<Id>)
      requires Inv(db) && NewLease(db, ClaimInputs([], clock, now, attempt, generation))
      modifies this
      ensures StepsTo(old(db), Claim(p, operation, ClaimInputs(rows, clock, now, attempt, generation)), db)
      ensures r == ClaimCall(old(db), p, operation, ClaimInputs(rows, clock, now, attempt, generation)).1
      ensures Inv(db)
    {
      hide Inv, Linked, Kept, ClaimEffect, Operate, LeasedRows, Policy;
      InvLinked(db);
      rows := SelectLeased(None);
      LeasedRowsKnown(db, None, rows);
      var c := ClaimInputs(rows, clock, now, attempt, generation);
      StepKept(db, Claim(p, operation, c));
      KeptMeans(db, Apply(db, Claim(p, operation, c)));
      var authorized := Authorize(db, p);
      if authorized.Refused? {
        return Refused(authorized.error), rows;
      }
      var key := WorkerOperation(p.identity, p.epoch.value, operation);
      ghost var effect := ClaimEffect(db, p, c);
      var recalled := Recall(key, ClaimIntent);
      if recalled.Some? {
        assert Operate(db, key, ClaimIntent, effect) == (db, recalled.value);
        return recalled.value, rows;
      }
      var saved := db;
      r := ClaimIn(p, c);
      Commit(saved, key, ClaimIntent, r, effect);
    }

    // ----- Reports -----

    /** Every check of a report between its authorization and its publication; true for an exact duplicate. */
    method CheckReport(p: Principal, a: Id, result: ExecutionResult) returns (r: Done)
      requires Linked(db)
      ensures r == FinishChecks(db, p, a, result)
    {
      hide Policy, Linked;
      InvLinkedRows(db, a);
      var authorized := Authorize(db, p);
      if authorized.Refused? {
        return Refused(authorized.error);
      }
      if a !in db.attempts || db.attempts[a].worker != p.identity {
        return Refused(NotFound);
      }
      var row := db.attempts[a];
      if row.generation != result.generation {
        return Refused(StaleAttempt);
      }
      if a !in db.epochs || p.epoch != Some(db.epochs[a]) {
        return Refused(StaleAttempt);
      }
      if row.result.Some? {
        if row.result.value != result {
          return Refused(ResultConflict);
        }
        return Ok(true);
      }
      if !Active(row.state) {
        return Refused(StaleAttempt);
      }
      if db.missions[MissionOf(db, a)].state == CancelRequested {
        if result.status != Cancelled || result.outputs != [] || result.error != None {
          return Refused(CancellationPending);
        }
      } else if result.status == Cancelled {
        return Refused(InvalidTransition);
      }
      return Ok(false);
    }

    static lemma InvLinkedRows(db: Db, a: Id)
      requires Linked(db)
      ensures a in db.attempts ==> db.attempts[a].task in db.tasks && MissionOf(db, a) in db.missions
    {
    }

    method PublishResultIn(p: Principal, a: Id, output: Output, ids: FreshIds) returns (r: Done)
      requires Linked(db) && a in db.attempts && NamesOk(db.workspaces, db.files)
      modifies this
      ensures Meets(db, r, PublishResult(old(db), p, a, output, ids))
      ensures r.Refused? ==> db.objects == old(db).objects
    {
      hide Policy, Linked, NamesOk, Publish, CheckOutput;
      InvLinkedRows(db, a);
      var m := MissionOf(db, a);
      var row := db.attempts[a];
      var authorized := Authorize(db, p);
      if authorized.Refused? {
        return Refused(authorized.error);
      }
      var checked := CheckOutput(output, Min(65536, Min(db.settings.maxFileBytes, authorized.value.maxOutput)));
      if checked.Refused? {
        return Refused(checked.error);
      }
      if output.name != RESULT_FILE || output.expected != row.expected {
        return Refused(ResultContractMismatch);
      }
      var published := PublishIn(Person(p.identity), db.missions[m].workspace, output.name, output.content, row.expected,
                                 Some(m), Some(a), ids);
      if published.Refused? {
        return Refused(published.error);
      }
      db := db.(results := db.results[ids.result := ResultRow(a, ids.version)]);
      return Ok(true);
    }

    /** Write a report's outcome into its attempt, its task and its mission. */
    method SettleIn(p: Principal, a: Id, row: Attempt) returns (r: Done)
      requires Linked(db) && a in db.attempts && row.task == db.attempts[a].task
      modifies this
      ensures Meets(db, r, Settle(old(db), Person(p.identity), a, row, ""))
      ensures db.objects == old(db).objects
    {
      InvLinkedRows(db, a);
      db := db.(attempts := db.attempts[a := row]);
      db := db.(tasks := db.tasks[row.task := db.tasks[row.task].(state := row.state)]);
      r := Move(Person(p.identity), db.tasks[row.task].mission, row.state, "");
    }

    /** The second transaction of a report; a refusal after publication leaves its object behind. */
    method FinishIn(p: Principal, a: Id, result: ExecutionResult, ids: FreshIds, now: real)
      returns (r: Result<Acknowledgement, Problem>)
      requires Linked(db) && NamesOk(db.workspaces, db.files)
      requires p.role == WorkerRole && CheckResult(result).Ok? && result.attempt == a
      modifies this
      ensures (db, r) == FinishTx(old(db), p, a, result, ids, now)
    {
      hide Linked, NamesOk, FinishChecks, PublishResult, Settle, CheckResult, Publish;
      var checked := CheckReport(p, a, result);
      if checked.Refused? {
        return Refused(checked.error);
      }
      ChecksFound(db, p, a, result);
      InvLinkedRows(db, a);
      var mission := MissionOf(db, a);
      if checked.value {
        return Ok(Acknowledgement(mission, true));
      }
      var saved := db;
      var row := db.attempts[a];
      if result.status == Completed {
        if result.error != None || |result.outputs| != 1 {
          return Refused(InvalidOutputs);
        }
        var published := PublishResultIn(p, a, result.outputs[0], ids);
        if published.Refused? {
          db := saved.(objects := db.objects);
          return Refused(published.error);
        }
        PublishedFrame(saved, p, a, result.outputs[0], ids);
      } else if result.outputs != [] || !FailureAllowed(db.tasks[row.task].capability, result.status, result.error) {
        return Refused(InvalidFailureResult);
      }
      var stored := db.objects;
      if now >= row.deadline {
        db := saved.(objects := stored);
        return Refused(StaleAttempt);
      }
      var settled := SettleIn(p, a, row.(state := result.status, result := Some(result), error := result.error));
      if settled.Refused? {
        db := saved.(objects := stored);
        return Refused(settled.error);
      }
      return Ok(Acknowledgement(mission, false));
    }

    static lemma ChecksFound(db: Db, p: Principal, a: Id, result: ExecutionResult)
      requires Linked(db) && FinishChecks(db, p, a, result).Ok?
      ensures a in db.attempts
    {
      hide Linked, Policy;
    }

    static lemma PublishedFrame(db: Db, p: Principal, a: Id, output: Output, ids: FreshIds)
      requires Linked(db) && a in db.attempts && PublishResult(db, p, a, output, ids).Ok?
      ensures var stored := PublishResult(db, p, a, output, ids).value;
              Linked(stored) && stored.attempts == db.attempts && stored.tasks == db.tasks
    {
      hide FindFile, Newest, Used, FilesOf, CheckOutput, Policy;
    }

    /** A worker's report: checked, then a sweep in a first transaction, and the verdict in a second one. */
    method FinishAttempt(p: Principal, a: Id, result: ExecutionResult, ids: FreshIds, clock: Clock, now: real)
      returns (r: Result<Acknowledgement, Problem>, rows: seq<Id>, ghost swept: Db)
      requires Inv(db) && NewIds(db, ids)
      modifies this
      ensures if p.role == WorkerRole && CheckResult(result).Ok? && result.attempt == a then
                StepsTo(old(db), Action.Expire(rows, clock), swept)
              else swept == old(db)
      ensures StepsTo(swept, Finish(p, a, result, ids, now), db)
      ensures r == FinishTx(swept, p, a, result, ids, now).1
      ensures Inv(db)
    {
      hide Inv, Linked, Kept, FinishTx, NewIds, CheckResult, LeasedRows, ExpireTx, NamesOk;
      InvLinked(db);
      rows, swept := [], db;
      FinishRefusals(db, p, a, result, ids, now);
      if p.role != WorkerRole {
        return Refused(AccessDenied), rows, swept;
      }
      var checked := CheckResult(result);
      if checked.Refused? {
        return Refused(checked.error), rows, swept;
      }
      if result.attempt != a {
        return Refused(AttemptMismatch), rows, swept;
      }
      rows := ExpireLeases(clock);
      swept := db;
      IdsStillNew(old(db), rows, clock, db, ids);
      InvLinked(db);
      NamesOfInv(db);
      StepKept(db, Finish(p, a, result, ids, now));
      KeptMeans(db, Apply(db, Finish(p, a, result, ids, now)));
      r := FinishIn(p, a, result, ids, now);
    }

    static lemma FinishRefusals(db: Db, p: Principal, a: Id, result: ExecutionResult, ids: FreshIds, now: real)
      requires Linked(db)
      ensures p.role != WorkerRole ==> FinishTx(db, p, a, result, ids, now) == (db, Refused(AccessDenied))
      ensures p.role == WorkerRole && CheckResult(result).Refused? ==>
                FinishTx(db, p, a, result, ids, now) == (db, Refused(CheckResult(result).error))
      ensures p.role == WorkerRole && CheckResult(result).Ok? && result.attempt != a ==>
                FinishTx(db, p, a, result, ids, now) == (db, Refused(AttemptMismatch))
    {
      hide FinishChecks, PublishResult, Settle, FailureAllowed;
    }

    static lemma IdsStillNew(db: Db, rows: seq<Id>, clock: Clock, after: Db, ids: FreshIds)
      requires Inv(db) && StepsTo(db, Action.Expire(rows, clock), after) && NewIds(db, ids)
      ensures NewIds(after, ids)
    {
      hide Inv, Linked, LeasedRows, FenceDone, ExpireTx;
      ExpireKept(db, rows, clock);
      SweptObjects(db, rows, Overdue(db, rows, clock), AttemptExpired, ExpireTx(db, rows, clock).value);
    }

    /** What a worker reads about its attempt, after a sweep. */
    method ReadState(p: Principal, a: Id, clock: Clock) returns (r: Result<State, Problem>, rows: seq<Id>)
      requires Inv(db)
      modifies this
      ensures if p.role == WorkerRole then StepsTo(old(db), Action.Expire(rows, clock), db) else db == old(db)
      ensures Inv(db) && r == AttemptState(db, p, a)
    {
      hide Inv, Linked, LeasedRows, ExpireTx, Policy;
      rows := [];
      if p.role != WorkerRole {
        return Refused(AccessDenied), rows;
      }
      rows := ExpireLeases(clock);
      var authorized := Authorize(db, p);
      if authorized.Refused? {
        return Refused(authorized.error), rows;
      }
      if a !in db.attempts || db.attempts[a].worker != p.identity {
        return Refused(NotFound), rows;
      }
      if a !in db.epochs || p.epoch != Some(db.epochs[a]) {
        return Refused(StaleAttempt), rows;
      }
      return Ok(db.attempts[a].state), rows;
    }

    // ----- Downloads -----

    /** The version that a download means: the named one, or the newest. */
    ghost predicate Wanted(v: Version, f: Id, version: Option<Id>)
      reads this
    {
      v in db.versions && v.file == f
      && (if version.Some? then v.id == version.value else Newest(db.versions, f) == Some(v))
    }

    /** On a sound index every published version can be read back, whole and under its own digest. */
    method Download(p: Principal, workspace: Id, f: Id, version: Option<Id>) returns (r: Result<Bytes, Problem>)
      requires Inv(db)
      ensures r.Ok? <==>
                && p.role == AdminRole && workspace in db.workspaces && db.workspaces[workspace] == p.identity
                && f in db.files && db.files[f].workspace == workspace && exists v :: Wanted(v, f, version)
      ensures r.Ok? ==> exists v :: Wanted(v, f, version) && Sha256(r.value) == v.digest && |r.value| == v.size
      ensures r.Refused? ==> r.error in {AccessDenied, NotFound}
    {
      hide Inv, Newest;
      if p.role != AdminRole {
        return Refused(AccessDenied);
      }
      if workspace !in db.workspaces || db.workspaces[workspace] != p.identity {
        return Refused(NotFound);
      }
      if f !in db.files || db.files[f].workspace != workspace {
        return Refused(NotFound);
      }
      var found: Option<Version> := None;
      NewestIsThere(db, f);
      if version == None {
        found := Newest(db.versions, f);
      } else if v :| v in db.versions && v.file == f && v.id == version.value {
        found := Some(v);
      }
      if found == None {
        return Refused(NotFound);
      }
      assert Wanted(found.value, f, version);
      VersionIsStored(db, found.value);
      return Ok(db.objects[found.value.digest]);
    }

    static lemma NewestIsThere(db: Db, f: Id)
      requires Inv(db)
      ensures Newest(db.versions, f).Some? ==> Newest(db.versions, f).value in db.versions && Newest(db.versions, f).value.file == f
    {
      hide Inv, Linear;
      WorkspaceFacts(db);
      NewestIsLast(db.versions, f);
    }

    static lemma WorkspaceFacts(db: Db)
      requires Inv(db)
      ensures Linear(db.versions) && Stored(db.settings, db.versions, db.objects)
    {
      hide Life, LedgerOk, LeasesOk, ClaimsOk, OriginsOk, ResultsOk, NamesOk, DistinctVersions, Linear, VersionsLinked;
      hide Stored, WithinLimits;
    }

    static lemma VersionIsStored(db: Db, v: Version)
      requires Inv(db) && v in db.versions
      ensures v.digest in db.objects && Sha256(db.objects[v.digest]) == v.digest && |db.objects[v.digest]| == v.size
      ensures v.size <= db.settings.maxFileBytes
    {
      hide Inv;
      WorkspaceFacts(db);
    }

    static lemma KeptMeans(before: Db, after: Db)
      requires Kept(before, after)
      ensures Inv(after)
    {
      hide Inv;
    }
  }
}
