/** Whole runs of the control plane: any interleaving of its transactions, from a new installation on. */
module Runs {
  import opened Base
  import opened Contracts
  import opened Tables
  import opened Transactions
  import opened Files
  import opened Growth
  import opened Invariant
  import opened Effects
  import opened Planning
  import opened Delivery
  import opened Identities

  // ----- The calls, with the checks that precede their transactions -----

  type Reply = Result<Response, Problem>

  ghost function CreateCall(
    db: Db, p: Principal, operation: Id, capability: Capability, draft: MissionDraft, identity: Id, now: real): (Db, Reply)
  {
    if CheckDraft(capability, draft).Refused? then (db, Refused(CheckDraft(capability, draft).error))
    else if p.role != AdminRole then (db, Refused(AccessDenied))
    else
      Operate(db, AdminOperation(p.identity, operation), CreateIntent(capability, draft),
              CreateEffect(db, p, capability, draft, identity, now))
  }

  ghost function ApproveCall(db: Db, p: Principal, operation: Id, m: Id, plan: Plan, identity: Id): (Db, Reply) {
    if p.role != AdminRole then (db, Refused(AccessDenied))
    else
      Operate(db, AdminOperation(p.identity, operation), ApproveIntent(m), ApproveEffect(db, p, m, plan, identity))
  }

  ghost function CancelCall(db: Db, p: Principal, operation: Id, m: Id): (Db, Reply) {
    if p.role != AdminRole then (db, Refused(AccessDenied))
    else Operate(db, AdminOperation(p.identity, operation), CancelIntent(m), CancelEffect(db, p, m))
  }

  ghost function RetryCall(db: Db, p: Principal, operation: Id, m: Id): (Db, Reply) {
    if p.role != AdminRole then (db, Refused(AccessDenied))
    else Operate(db, AdminOperation(p.identity, operation), RetryIntent(m), RetryEffect(db, p, m))
  }

  ghost function UploadCall(db: Db, p: Principal, operation: Id, workspace: Id, data: Output, ids: FreshIds): (Db, Reply) {
    if p.role != AdminRole then (db, Refused(AccessDenied))
    else if CheckOutput(data, db.settings.maxFileBytes).Refused? then
      (db, Refused(CheckOutput(data, db.settings.maxFileBytes).error))
    else
      Operate(db, AdminOperation(p.identity, operation), UploadIntent(workspace, data),
              UploadEffect(db, p, workspace, data, ids))
  }

  ghost function RevokeCall(db: Db, p: Principal, operation: Id, w: Id, rows: seq<Id>, workspace: Id): (Db, Reply)
    requires Linked(db) && (forall a <- rows :: a in db.attempts)
  {
    if p.role != AdminRole then (db, Refused(AccessDenied))
    else
      Operate(db, AdminOperation(p.identity, operation), RevokeIntent(w), RevokeEffect(db, p, w, rows, workspace))
  }

  /** A claim is authorized before its record is looked up, under the epoch that it presents. */
  ghost function ClaimCall(db: Db, p: Principal, operation: Id, c: ClaimInputs): (Db, Reply)
    requires Linked(db) && (forall a <- c.rows :: a in db.attempts)
  {
    if Authorize(db, p).Refused? then (db, Refused(Authorize(db, p).error))
    else Operate(db, WorkerOperation(p.identity, p.epoch.value, operation), ClaimIntent, ClaimEffect(db, p, c))
  }

  // ----- Runs -----

  datatype Action =
    | Create(p: Principal, operation: Id, capability: Capability, draft: MissionDraft, identity: Id, now: real)
    | Approve(p: Principal, operation: Id, m: Id, plan: Plan, identity: Id)
    | Cancel(p: Principal, operation: Id, m: Id)
    | Retry(p: Principal, operation: Id, m: Id)
    | Upload(p: Principal, operation: Id, workspace: Id, data: Output, ids: FreshIds)
    | Revoke(p: Principal, operation: Id, w: Id, rows: seq<Id>, workspace: Id)
    | Enroll(identity: Id, worker: Worker, workspace: Id)
    | Rotate(w: Id, reactivate: bool, workspace: Id)
    | Expire(rows: seq<Id>, clock: Clock)
    | Restart(rows: seq<Id>)
    | Claim(p: Principal, operation: Id, inputs: ClaimInputs)
    | Finish(p: Principal, a: Id, result: ExecutionResult, ids: FreshIds, now: real)
    | Crash(content: Bytes)

  /** The choices in an action are possible: identifiers are new, and a fence reads every leased row. */
  ghost predicate Enabled(db: Db, action: Action) {
    match action
    case Create(_, _, _, _, identity, _) => identity !in db.missions
    case Approve(_, _, _, _, identity) => identity !in db.tasks
    case Cancel(_, _, _) => true
    case Retry(_, _, _) => true
    case Upload(_, _, _, _, ids) => NewIds(db, ids)
    case Revoke(_, _, w, rows, workspace) => LeasedRows(db, Some(w), rows) && workspace in db.workspaces
    case Enroll(identity, _, workspace) => identity !in db.workers && workspace in db.workspaces
    case Rotate(_, _, workspace) => workspace in db.workspaces
    case Expire(rows, _) => LeasedRows(db, None, rows)
    case Restart(rows) => LeasedRows(db, None, rows)
    case Claim(_, _, inputs) => LeasedRows(db, None, inputs.rows) && NewLease(db, inputs)
    case Finish(_, _, _, ids, _) => NewIds(db, ids)
    case Crash(_) => true
  }

  /** The committed index after a transaction, or the index it was rolled back to. */
  ghost function Committed(db: Db, outcome: Result<Db, Problem>): Db {
    if outcome.Ok? then outcome.value else db
  }

  ghost function Apply(db: Db, action: Action): Db
    requires Linked(db) && Enabled(db, action)
  {
    match action
    case Create(p, operation, capability, draft, identity, now) =>
      CreateCall(db, p, operation, capability, draft, identity, now).0
    case Approve(p, operation, m, plan, identity) => ApproveCall(db, p, operation, m, plan, identity).0
    case Cancel(p, operation, m) => CancelCall(db, p, operation, m).0
    case Retry(p, operation, m) => RetryCall(db, p, operation, m).0
    case Upload(p, operation, workspace, data, ids) => UploadCall(db, p, operation, workspace, data, ids).0
    case Revoke(p, operation, w, rows, workspace) => RevokeCall(db, p, operation, w, rows, workspace).0
    case Enroll(identity, worker, workspace) => Committed(db, EnrollTx(db, identity, worker, workspace))
    case Rotate(w, reactivate, workspace) => Committed(db, RotateTx(db, w, reactivate, workspace))
    case Expire(rows, clock) => Committed(db, ExpireTx(db, rows, clock))
    case Restart(rows) => Committed(db, RecoverTx(db, rows))
    case Claim(p, operation, inputs) => ClaimCall(db, p, operation, inputs).0
    case Finish(p, a, result, ids, now) => FinishTx(db, p, a, result, ids, now).0
    // A crash between storing an object and committing leaves the object behind.
    case Crash(content) => db.(objects := db.objects[Sha256(content) := content])
  }

  ghost predicate StepsTo(db: Db, action: Action, next: Db) {
    Linked(db) && Enabled(db, action) && next == Apply(db, action)
  }

  /** A new installation: known workspaces, perhaps a first worker, no work yet. */
  ghost predicate Installed(db: Db) {
    && ValidSettings(db.settings)
    && db.missions == map[] && db.tasks == map[] && db.attempts == map[] && db.epochs == map[]
    && db.files == map[] && db.versions == [] && db.results == map[] && db.events == []
    && db.operations == map[] && db.objects == map[]
    && (forall w <- db.workers :: Policy(db.workers[w], db.settings) && db.workers[w].epoch >= 1)
  }

  /** A run begins with a new installation, or with one restored from a backup of a sound index. */
  ghost predicate Begins(db: Db) {
    Installed(db) || exists saved :: Inv(saved) && db == Reinstated(saved)
  }

  ghost predicate Run(states: seq<Db>, actions: seq<Action>) {
    && |states| == |actions| + 1
    && Begins(states[0])
    && forall i | 0 <= i < |actions| :: StepsTo(states[i], actions[i], states[i + 1])
  }

  // ----- One step -----

  lemma OperateKept(db: Db, key: OperationKey, intent: Intent, effect: Step<Response>)
    requires Inv(db)
    requires effect.Ok? ==> Kept(db, effect.value.0) && effect.value.0.operations == db.operations && !effect.value.1.Work?
    ensures Kept(db, Operate(db, key, intent, effect).0)
  {
    hide Inv, Grows;
    GrowsNothing(db);
    if key !in db.operations && effect.Ok? {
      var operation := Operation(intent, effect.value.1);
      RecordKeepsInv(effect.value.0, key, operation);
      GrowsTransitive(db, effect.value.0, effect.value.0.(operations := effect.value.0.operations[key := operation]));
    }
  }

  lemma AdminFrames(db: Db, p: Principal, m: Id)
    ensures CancelEffect(db, p, m).Ok? ==>
              CancelEffect(db, p, m).value.0.operations == db.operations && !CancelEffect(db, p, m).value.1.Work?
    ensures RetryEffect(db, p, m).Ok? ==>
              RetryEffect(db, p, m).value.0.operations == db.operations && !RetryEffect(db, p, m).value.1.Work?
  {
  }

  lemma ApproveFrame(db: Db, p: Principal, m: Id, plan: Plan, identity: Id)
    ensures ApproveEffect(db, p, m, plan, identity).Ok? ==>
              ApproveEffect(db, p, m, plan, identity).value.0.operations == db.operations
              && !ApproveEffect(db, p, m, plan, identity).value.1.Work?
  {
    hide RequiredCapability;
  }

  lemma CreateFrame(db: Db, p: Principal, capability: Capability, draft: MissionDraft, identity: Id, now: real)
    ensures var outcome := CreateEffect(db, p, capability, draft, identity, now);
            outcome.Ok? ==> outcome.value.0.operations == db.operations && !outcome.value.1.Work?
  {
    hide Readable;
  }

  lemma UploadFrame(db: Db, p: Principal, workspace: Id, data: Output, ids: FreshIds)
    ensures UploadEffect(db, p, workspace, data, ids).Ok? ==>
              UploadEffect(db, p, workspace, data, ids).value.0.operations == db.operations
              && !UploadEffect(db, p, workspace, data, ids).value.1.Work?
  {
    hide FindFile, Newest, Used, FilesOf;
  }

  lemma LeasedRowsKnown(db: Db, worker: Option<Id>, rows: seq<Id>)
    requires LeasedRows(db, worker, rows)
    ensures forall a <- rows :: a in db.attempts
  {
  }

  lemma RevokeRefused(db: Db, p: Principal, w: Id, rows: seq<Id>, workspace: Id)
    requires Linked(db) && (forall a <- rows :: a in db.attempts) && w !in db.workers
    ensures RevokeEffect(db, p, w, rows, workspace) == Refused(NotFound)
  {
  }

  lemma RevokeCallKept(db: Db, p: Principal, operation: Id, w: Id, rows: seq<Id>, workspace: Id)
    requires Inv(db) && Linked(db) && LeasedRows(db, Some(w), rows) && workspace in db.workspaces
    ensures forall a <- rows :: a in db.attempts
    ensures Kept(db, RevokeCall(db, p, operation, w, rows, workspace).0)
  {
    hide Inv, Linked, Kept, RevokeEffect, Operate, LeasedRows, Idle;
    LeasedRowsKnown(db, Some(w), rows);
    if w in db.workers {
      RevokeKeepsInv(db, p, w, rows, workspace);
    } else {
      RevokeRefused(db, p, w, rows, workspace);
    }
    OperateKept(db, AdminOperation(p.identity, operation), RevokeIntent(w), RevokeEffect(db, p, w, rows, workspace));
    KeptItself(db);
  }

  lemma KeptItself(db: Db)
    requires Inv(db)
    ensures Kept(db, db)
  {
    hide Inv;
  }

  lemma ClaimCallKept(db: Db, p: Principal, operation: Id, c: ClaimInputs)
    requires Inv(db) && Linked(db) && LeasedRows(db, None, c.rows) && NewLease(db, c)
    ensures forall a <- c.rows :: a in db.attempts
    ensures Kept(db, ClaimCall(db, p, operation, c).0)
  {
    hide Inv, Linked, Kept, LeasedRows, NewLease, ClaimEffect, ClaimDone, Policy;
    LeasedRowsKnown(db, None, c.rows);
    KeptItself(db);
    if Authorize(db, p).Ok? && WorkerOperation(p.identity, p.epoch.value, operation) !in db.operations {
      ClaimKeepsInv(db, p, c);
      var effect := ClaimEffect(db, p, c);
      if effect.Ok? {
        RecordClaimKeepsInv(db, p, c, effect.value.0, effect.value.1, operation);
      }
    }
  }

  lemma ExpireKept(db: Db, rows: seq<Id>, clock: Clock)
    requires Inv(db) && Linked(db) && LeasedRows(db, None, rows)
    ensures forall a <- rows :: a in db.attempts
    ensures ExpireTx(db, rows, clock).Ok? && RecoverTx(db, rows).Ok?
    ensures FenceDone(db, rows, Overdue(db, rows, clock), AttemptExpired, ExpireTx(db, rows, clock).value)
    ensures FenceDone(db, rows, RowSet(rows), BackendRestart, RecoverTx(db, rows).value)
  {
    hide Inv, Linked, LeasedRows, FenceRows, FenceDone, Overdue, RowSet;
    LeasedRowsKnown(db, None, rows);
    RowsActive(db, None, rows);
    FenceKeepsInv(db, rows, Overdue(db, rows, clock), AttemptExpired);
    FenceKeepsInv(db, rows, RowSet(rows), BackendRestart);
  }

  lemma DoneIsKept(db: Db, rows: seq<Id>, due: set<Id>, reason: ErrorCode, after: Db)
    requires FenceDone(db, rows, due, reason, after)
    ensures Kept(db, after)
  {
    hide Inv, Grows;
  }

  lemma FenceKept(db: Db, action: Action)
    requires Inv(db) && Linked(db) && Enabled(db, action) && (action.Expire? || action.Restart?)
    ensures Kept(db, Apply(db, action))
  {
    hide Inv, Linked, LeasedRows, FenceRows, FenceDone, Kept, Overdue, RowSet, ExpireTx, RecoverTx;
    match action
    case Expire(rows, clock) =>
      ExpireKept(db, rows, clock);
      DoneIsKept(db, rows, Overdue(db, rows, clock), AttemptExpired, ExpireTx(db, rows, clock).value);
    case Restart(rows) =>
      ExpireKept(db, rows, _ => 0.0);
      DoneIsKept(db, rows, RowSet(rows), BackendRestart, RecoverTx(db, rows).value);
  }

  lemma AdminKept(db: Db, action: Action)
    requires Inv(db) && Linked(db) && Enabled(db, action)
    requires action.Create? || action.Approve? || action.Cancel? || action.Retry? || action.Upload?
    ensures Kept(db, Apply(db, action))
  {
    hide Inv, Linked, Kept, Operate, CreateEffect, ApproveEffect, CancelEffect, RetryEffect, UploadEffect;
    hide CheckDraft, CheckOutput, NewIds;
    KeptItself(db);
    match action
    case Create(p, operation, capability, draft, identity, now) =>
      CreateKeepsInv(db, p, capability, draft, identity, now);
      CreateFrame(db, p, capability, draft, identity, now);
      OperateKept(db, AdminOperation(p.identity, operation), CreateIntent(capability, draft),
                  CreateEffect(db, p, capability, draft, identity, now));
    case Approve(p, operation, m, plan, identity) =>
      ApproveKeepsInv(db, p, m, plan, identity);
      ApproveFrame(db, p, m, plan, identity);
      OperateKept(db, AdminOperation(p.identity, operation), ApproveIntent(m), ApproveEffect(db, p, m, plan, identity));
    case Cancel(p, operation, m) =>
      CancelKeepsInv(db, p, m);
      AdminFrames(db, p, m);
      OperateKept(db, AdminOperation(p.identity, operation), CancelIntent(m), CancelEffect(db, p, m));
    case Retry(p, operation, m) =>
      RetryKeepsInv(db, p, m);
      AdminFrames(db, p, m);
      OperateKept(db, AdminOperation(p.identity, operation), RetryIntent(m), RetryEffect(db, p, m));
    case Upload(p, operation, workspace, data, ids) =>
      if CheckOutput(data, db.settings.maxFileBytes).Ok? {
        UploadKeepsInv(db, p, workspace, data, ids);
        UploadFrame(db, p, workspace, data, ids);
        OperateKept(db, AdminOperation(p.identity, operation), UploadIntent(workspace, data),
                    UploadEffect(db, p, workspace, data, ids));
      }
  }

  /** Every action keeps the invariant and only lets the index grow. */
  lemma StepKept(db: Db, action: Action)
    requires Inv(db) && Linked(db) && Enabled(db, action)
    ensures Kept(db, Apply(db, action))
  {
    hide Inv, Linked, Kept, ClaimCall, RevokeCall, EnrollTx, RotateTx, FinishTx, NewIds, NewLease, LeasedRows;
    match action
    case Revoke(p, operation, w, rows, workspace) => RevokeCallKept(db, p, operation, w, rows, workspace);
    case Enroll(identity, worker, workspace) =>
      EnrollKeepsInv(db, identity, worker, workspace);
      KeptItself(db);
    case Rotate(w, reactivate, workspace) =>
      RotateKeepsInv(db, w, reactivate, workspace);
      KeptItself(db);
    case Expire(_, _) => FenceKept(db, action);
    case Restart(_) => FenceKept(db, action);
    case Claim(p, operation, inputs) => ClaimCallKept(db, p, operation, inputs);
    case Finish(p, a, result, ids, now) => FinishKeepsInv(db, p, a, result, ids, now);
    case Crash(content) => OrphanKeepsInv(db, content);
    case _ => AdminKept(db, action);
  }

  // ----- Whole runs -----

  lemma {:induction false} EmptyHasNoCount(versions: seq<Version>, workspace: Id)
    requires versions == []
    ensures Used(versions, map[], workspace) == 0 && |FilesOf(map[], workspace)| == 0
  {
    assert FilesOf(map[], workspace) == {};
  }

  lemma InstalledInv(db: Db)
    requires Installed(db)
    ensures Inv(db)
  {
    forall workspace: Id
      ensures Used(db.versions, db.files, workspace) == 0 && |FilesOf(db.files, workspace)| == 0
    {
      EmptyHasNoCount(db.versions, workspace);
    }
  }

  lemma BeginsInv(db: Db)
    requires Begins(db)
    ensures Inv(db)
  {
    hide Inv, Installed, Reinstated;
    if Installed(db) {
      InstalledInv(db);
    } else {
      var saved :| Inv(saved) && db == Reinstated(saved);
      ReinstatedInv(saved);
    }
  }

  /** In every state of every run, all the tables agree. */
  lemma {:induction false} RunKeepsInv(states: seq<Db>, actions: seq<Action>, i: nat)
    requires Run(states, actions) && i < |states|
    ensures Inv(states[i])
  {
    hide Inv, Kept, Begins, Linked, Enabled, Apply;
    if i == 0 {
      BeginsInv(states[0]);
    } else {
      RunKeepsInv(states, actions, i - 1);
      assert StepsTo(states[i - 1], actions[i - 1], states[i]);
      StepKept(states[i - 1], actions[i - 1]);
      KeptFactsOf(states[i - 1], states[i]);
    }
  }

  /** Between any two moments of a run the index only grows. */
  lemma {:induction false} RunGrows(states: seq<Db>, actions: seq<Action>, i: nat, j: nat)
    requires Run(states, actions) && i <= j < |states|
    ensures Grows(states[i], states[j])
    decreases j - i
  {
    hide Inv, Grows, Begins, Linked, Enabled, Apply;
    if i == j {
      GrowsNothing(states[i]);
    } else {
      RunGrows(states, actions, i, j - 1);
      RunKeepsInv(states, actions, j - 1);
      assert StepsTo(states[j - 1], actions[j - 1], states[j]);
      StepKept(states[j - 1], actions[j - 1]);
      GrowsTransitive(states[i], states[j - 1], states[j]);
    }
  }
}
