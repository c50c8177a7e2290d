/** The way of a mission's words: what its owner drafted is what every leased request asks a worker to do. */
module Requests {
  import opened Base
  import opened Contracts
  import opened Tables
  import opened Transactions
  import opened Lifecycle
  import opened Ledger
  import opened Attempts
  import opened Growth
  import opened Invariant
  import opened Effects
  import opened Planning
  import opened Delivery
  import opened Files
  import opened Identities
  import opened Runs
  import opened Safety

  // ----- What a lease says -----

  /**
   * In every state of a run, a recorded lease repeats its attempt and, word for word, the mission and the task that the
   * attempt is for.
   */
  lemma LeasesSayTheirWork(states: seq<Db>, actions: seq<Action>, i: nat, key: OperationKey)
    requires Run(states, actions) && i < |states|
    requires key in states[i].operations && states[i].operations[key].response.Work?
    ensures var db, r := states[i], states[i].operations[key].response.request;
            && r.task in db.tasks && r.mission in db.missions && r.attempt in db.attempts && r.attempt in db.epochs
            && db.tasks[r.task].mission == r.mission
            && r.capability == db.tasks[r.task].capability
            && r.title == db.missions[r.mission].title
            && r.objective == db.missions[r.mission].objective
            && r.files == db.missions[r.mission].files
            && db.attempts[r.attempt].task == r.task
            && db.attempts[r.attempt].worker == r.worker == db.tasks[r.task].worker
            && db.attempts[r.attempt].generation == r.generation
            && db.attempts[r.attempt].deadline == r.deadline
            && db.attempts[r.attempt].expected == r.expected
            && key == WorkerOperation(r.worker, db.epochs[r.attempt], key.operation)
  {
    hide Run, LedgerOk, LeasesOk, ResultsOk, OriginsOk;
    RunKeepsInv(states, actions, i);
    assert ClaimRecorded(states[i].operations, key);
    var r := states[i].operations[key].response.request;
    assert r.attempt in states[i].attempts;
  }

  /** Whatever a claim answers, now or replayed, stands in the record that the claim is kept under. */
  lemma AnswersAreRecorded(states: seq<Db>, actions: seq<Action>, i: nat, j: nat, r: Request)
    requires Run(states, actions) && i < |actions| && i < j < |states|
    requires actions[i].Claim? && actions[i].p.epoch.Some?
    requires Linked(states[i]) && Enabled(states[i], actions[i]) && AnswerTo(states[i], actions[i]) == Ok(Work(r))
    ensures var key := WorkerOperation(actions[i].p.identity, actions[i].p.epoch.value, actions[i].operation);
            key in states[j].operations && states[j].operations[key] == Operation(ClaimIntent, Work(r))
  {
    hide Linked, Enabled, Apply, AnswerTo, Begins, Permitted;
    assert StepsTo(states[i], actions[i], states[i + 1]);
    CallOnceOrReplayed(states[i], actions[i]);
    RecordedForever(states, actions, i + 1, j, KeyOf(actions[i]).value);
  }

  // ----- What a draft becomes -----

  /** The mission that a draft makes, but for its state. */
  ghost predicate Made(row: Mission, owner: Id, draft: MissionDraft, now: real) {
    && row.owner == owner && row.workspace == draft.workspace && row.createdAt == now
    && row.title == draft.title && row.objective == draft.objective && row.files == draft.files
  }

  /** A call created this mission from this draft in this step. */
  ghost predicate Created(before: Db, action: Action, after: Db) {
    && action.Create? && StepsTo(before, action, after)
    && action.identity !in before.missions && action.identity in after.missions
  }

  /** Some declared contracts were added, for no known mission. */
  ghost predicate QuietFor(before: seq<Event>, after: seq<Event>, missions: set<Id>) {
    && before <= after
    && forall i | |before| <= i < |after| ::
         after[i].kind.ExecutionContract? ==> after[i].mission.Some? && after[i].mission.value !in missions
  }

  lemma {:induction false} QuietKeepsContract(before: seq<Event>, after: seq<Event>, missions: set<Id>, m: Id)
    requires QuietFor(before, after, missions) && m in missions
    ensures DeclaredContracts(after, m) == DeclaredContracts(before, m)
    decreases |after|
  {
    if |before| < |after| {
      QuietKeepsContract(before, after[..|after| - 1], missions, m);
    } else {
      assert before == after;
    }
  }

  lemma FenceOneQuiet(db: Db, a: Id, reason: ErrorCode, missions: set<Id>)
    requires Linked(db) && a in db.attempts && FenceOne(db, a, reason).Ok?
    ensures QuietFor(db.events, FenceOne(db, a, reason).value.events, missions)
    ensures Linked(FenceOne(db, a, reason).value)
    ensures FenceOne(db, a, reason).value.attempts.Keys == db.attempts.Keys
  {
  }

  lemma {:induction false} FenceQuiet(db: Db, rows: seq<Id>, due: set<Id>, reason: ErrorCode, missions: set<Id>)
    requires Linked(db) && (forall a <- rows :: a in db.attempts)
    ensures FenceRows(db, rows, due, reason).Ok? ==>
              QuietFor(db.events, FenceRows(db, rows, due, reason).value.events, missions)
    decreases |rows|
  {
    hide Linked, QuietFor, FenceOne;
    QuietItself(db.events, missions);
    if rows != [] {
      if rows[0] !in due {
        FenceQuiet(db, rows[1..], due, reason, missions);
      } else if FenceOne(db, rows[0], reason).Ok? {
        var next := FenceOne(db, rows[0], reason).value;
        FenceOneQuiet(db, rows[0], reason, missions);
        FenceQuiet(next, rows[1..], due, reason, missions);
        if FenceRows(next, rows[1..], due, reason).Ok? {
          QuietTransitive(db.events, next.events, FenceRows(next, rows[1..], due, reason).value.events, missions);
        }
      }
    }
  }

  lemma QuietTransitive(x: seq<Event>, y: seq<Event>, z: seq<Event>, missions: set<Id>)
    requires QuietFor(x, y, missions) && QuietFor(y, z, missions)
    ensures QuietFor(x, z, missions)
  {
  }

  lemma TransitionQuiet(db: Db, actor: Actor, m: Id, target: State, reason: string, missions: set<Id>)
    requires m in db.missions
    ensures Transition(db, actor, m, target, reason).Ok? ==>
              QuietFor(db.events, Transition(db, actor, m, target, reason).value.events, missions)
  {
  }

  lemma MovesQuiet(db: Db, p: Principal, m: Id, missions: set<Id>)
    ensures CancelEffect(db, p, m).Ok? ==> QuietFor(db.events, CancelEffect(db, p, m).value.0.events, missions)
    ensures RetryEffect(db, p, m).Ok? ==> QuietFor(db.events, RetryEffect(db, p, m).value.0.events, missions)
  {
    hide QuietFor, Transition, TasksTo, AttemptsTo;
    if m in db.missions {
      QuietItself(db.events, missions);
      TransitionQuiet(db, Person(p.identity), m, if db.missions[m].state == Running then CancelRequested else Cancelled, "",
                      missions);
      TransitionQuiet(db, Person(p.identity), m, Queued, "explicit_retry", missions);
    }
  }

  lemma QuietItself(events: seq<Event>, missions: set<Id>)
    ensures QuietFor(events, events, missions)
  {
  }

  lemma ApproveQuiet(db: Db, p: Principal, m: Id, plan: Plan, identity: Id, missions: set<Id>)
    ensures ApproveEffect(db, p, m, plan, identity).Ok? ==>
              QuietFor(db.events, ApproveEffect(db, p, m, plan, identity).value.0.events, missions)
  {
    hide ApproveEffect, RequiredCapability;
    if ApproveEffect(db, p, m, plan, identity).Ok? {
      ApproveMoves(db, p, m, plan, identity);
    }
  }

  lemma CreateQuiet(
    db: Db, p: Principal, capability: Capability, draft: MissionDraft, identity: Id, now: real, missions: set<Id>)
    requires identity !in missions
    ensures var outcome := CreateEffect(db, p, capability, draft, identity, now);
            outcome.Ok? ==> QuietFor(db.events, outcome.value.0.events, missions)
  {
    hide Readable;
  }

  lemma PublishQuiet(
    db: Db, actor: Actor, workspace: Id, name: string, raw: Bytes, expected: Option<Id>,
    mission: Option<Id>, attempt: Option<Id>, ids: FreshIds, missions: set<Id>)
    ensures var outcome := Publish(db, actor, workspace, name, raw, expected, mission, attempt, ids);
            outcome.Ok? ==> QuietFor(db.events, outcome.value.0.events, missions)
  {
    hide FindFile, Newest, Used, FilesOf;
  }

  lemma StartQuiet(db: Db, p: Principal, w: Worker, t: Id, top: nat, c: ClaimInputs, missions: set<Id>)
    requires Linked(db) && t in db.tasks && p.epoch.Some?
    ensures StartAttempt(db, p, w, t, top, c).Ok? ==>
              QuietFor(db.events, StartAttempt(db, p, w, t, top, c).value.0.events, missions)
  {
    hide Current;
  }

  lemma ClaimQuiet(db: Db, p: Principal, c: ClaimInputs, missions: set<Id>)
    requires Linked(db) && (forall a <- c.rows :: a in db.attempts)
    ensures ClaimEffect(db, p, c).Ok? ==> QuietFor(db.events, ClaimEffect(db, p, c).value.0.events, missions)
  {
    hide Linked, FenceRows, Idle, StartAttempt, Top, QuietFor, Overdue;
    if Authorize(db, p).Ok? && ExpireTx(db, c.rows, c.clock).Ok? {
      var swept := ExpireTx(db, c.rows, c.clock).value;
      FenceQuiet(db, c.rows, Overdue(db, c.rows, c.clock), AttemptExpired, missions);
      FencedLinked(db, c.rows, Overdue(db, c.rows, c.clock), AttemptExpired);
      PickedIsQueueable(swept, p.identity);
      if PickTask(swept, p.identity).Some? {
        var t := PickTask(swept, p.identity).value;
        StartQuiet(swept, p, Authorize(db, p).value, t, Top(swept.attempts, t), c, missions);
        if StartAttempt(swept, p, Authorize(db, p).value, t, Top(swept.attempts, t), c).Ok? {
          QuietTransitive(db.events, swept.events,
                          StartAttempt(swept, p, Authorize(db, p).value, t, Top(swept.attempts, t), c).value.0.events, missions);
        }
      }
    }
  }

  lemma RevokeQuiet(db: Db, p: Principal, w: Id, rows: seq<Id>, workspace: Id, missions: set<Id>)
    requires Linked(db) && (forall a <- rows :: a in db.attempts)
    ensures RevokeEffect(db, p, w, rows, workspace).Ok? ==>
              QuietFor(db.events, RevokeEffect(db, p, w, rows, workspace).value.0.events, missions)
  {
    if w in db.workers {
      FenceQuiet(Marked(db, w), rows, RowSet(rows), WorkerRevoked, missions);
    }
  }

  lemma SettleQuiet(db: Db, actor: Actor, a: Id, row: Attempt, missions: set<Id>)
    requires Linked(db) && a in db.attempts && row.task == db.attempts[a].task
    ensures Settle(db, actor, a, row, "").Ok? ==> QuietFor(db.events, Settle(db, actor, a, row, "").value.events, missions)
  {
  }

  lemma PublishResultQuiet(db: Db, p: Principal, a: Id, output: Output, ids: FreshIds, missions: set<Id>)
    requires Linked(db) && a in db.attempts
    ensures PublishResult(db, p, a, output, ids).Ok? ==>
              && QuietFor(db.events, PublishResult(db, p, a, output, ids).value.events, missions)
              && PublishResult(db, p, a, output, ids).value.attempts == db.attempts
              && Linked(PublishResult(db, p, a, output, ids).value)
  {
    hide Publish, QuietFor, SafeFileName;
    if PublishResult(db, p, a, output, ids).Ok? {
      var m := MissionOf(db, a);
      PublishResultShape(db, p, a, output, ids);
      PublishQuiet(db, Person(p.identity), db.missions[m].workspace, output.name, output.content,
                   db.attempts[a].expected, Some(m), Some(a), ids, missions);
      PublishTables(db, Person(p.identity), db.missions[m].workspace, output.name, output.content,
                    db.attempts[a].expected, Some(m), Some(a), ids);
    }
  }

  lemma PublishTables(
    db: Db, actor: Actor, workspace: Id, name: string, raw: Bytes, expected: Option<Id>,
    mission: Option<Id>, attempt: Option<Id>, ids: FreshIds)
    ensures var outcome := Publish(db, actor, workspace, name, raw, expected, mission, attempt, ids);
            outcome.Ok? ==> outcome.value.0.attempts == db.attempts && outcome.value.0.missions == db.missions
                            && outcome.value.0.tasks == db.tasks
  {
    hide FindFile, Newest, Used, FilesOf;
  }

  lemma FinishQuiet(db: Db, p: Principal, a: Id, result: ExecutionResult, ids: FreshIds, now: real, missions: set<Id>)
    requires Linked(db)
    ensures QuietFor(db.events, FinishTx(db, p, a, result, ids, now).0.events, missions)
  {
    hide CheckResult, PublishResult, FailureAllowed, Authorize, QuietFor, Settle, Linked;
    QuietItself(db.events, missions);
    if FinishChecks(db, p, a, result).Ok? {
      var row := db.attempts[a].(state := result.status, result := Some(result), error := result.error);
      SettleQuiet(db, Person(p.identity), a, row, missions);
      if |result.outputs| == 1 && PublishResult(db, p, a, result.outputs[0], ids).Ok? {
        var stored := PublishResult(db, p, a, result.outputs[0], ids).value;
        PublishResultQuiet(db, p, a, result.outputs[0], ids, missions);
        SettleQuiet(stored, Person(p.identity), a, row, missions);
        if Settle(stored, Person(p.identity), a, row, "").Ok? {
          QuietTransitive(db.events, stored.events, Settle(stored, Person(p.identity), a, row, "").value.events, missions);
        }
      }
    }
  }

  lemma OperateQuiet(db: Db, key: OperationKey, intent: Intent, effect: Step<Response>, missions: set<Id>)
    requires effect.Ok? ==> QuietFor(db.events, effect.value.0.events, missions)
    ensures QuietFor(db.events, Operate(db, key, intent, effect).0.events, missions)
  {
    QuietItself(db.events, missions);
    hide QuietFor;
  }

  /** No step declares a contract for a mission that is already there. */
  lemma StepQuiet(db: Db, action: Action)
    requires Linked(db) && Enabled(db, action)
    ensures QuietFor(db.events, Apply(db, action).events, db.missions.Keys)
  {
    hide Linked, QuietFor, Operate, FinishTx, NewIds, NewLease, LeasedRows, CheckDraft, CheckOutput, Authorize, FenceRows,
        CreateEffect, ApproveEffect, CancelEffect, RetryEffect, UploadEffect, RevokeEffect, ClaimEffect, Overdue, RowSet;
    var known := db.missions.Keys;
    QuietItself(db.events, known);
    match action
    case Create(p, operation, capability, draft, identity, now) =>
      CreateQuiet(db, p, capability, draft, identity, now, known);
      OperateQuiet(db, AdminOperation(p.identity, operation), CreateIntent(capability, draft),
                   CreateEffect(db, p, capability, draft, identity, now), known);
    case Approve(p, operation, m, plan, identity) =>
      ApproveQuiet(db, p, m, plan, identity, known);
      OperateQuiet(db, AdminOperation(p.identity, operation), ApproveIntent(m), ApproveEffect(db, p, m, plan, identity), known);
    case Cancel(p, operation, m) =>
      MovesQuiet(db, p, m, known);
      OperateQuiet(db, AdminOperation(p.identity, operation), CancelIntent(m), CancelEffect(db, p, m), known);
    case Retry(p, operation, m) =>
      MovesQuiet(db, p, m, known);
      OperateQuiet(db, AdminOperation(p.identity, operation), RetryIntent(m), RetryEffect(db, p, m), known);
    case Upload(p, operation, workspace, data, ids) =>
      UploadQuiet(db, p, workspace, data, ids, known);
      OperateQuiet(db, AdminOperation(p.identity, operation), UploadIntent(workspace, data),
                   UploadEffect(db, p, workspace, data, ids), known);
    case Revoke(p, operation, w, rows, workspace) =>
      LeasedRowsKnown(db, Some(w), rows);
      RevokeQuiet(db, p, w, rows, workspace, known);
      OperateQuiet(db, AdminOperation(p.identity, operation), RevokeIntent(w), RevokeEffect(db, p, w, rows, workspace), known);
    case Claim(p, operation, c) =>
      LeasedRowsKnown(db, None, c.rows);
      ClaimQuiet(db, p, c, known);
      if p.epoch.Some? {
        OperateQuiet(db, WorkerOperation(p.identity, p.epoch.value, operation), ClaimIntent, ClaimEffect(db, p, c), known);
      }
      ClaimNeedsEpoch(db, p);
    case Expire(rows, clock) =>
      LeasedRowsKnown(db, None, rows);
      FenceQuiet(db, rows, Overdue(db, rows, clock), AttemptExpired, known);
    case Restart(rows) =>
      LeasedRowsKnown(db, None, rows);
      FenceQuiet(db, rows, RowSet(rows), BackendRestart, known);
    case Enroll(identity, worker, workspace) => EnrollKeepsQuiet(db, identity, worker, workspace, known);
    case Rotate(w, reactivate, workspace) => RotateKeepsQuiet(db, w, reactivate, workspace, known);
    case Finish(p, a, result, ids, now) => FinishQuiet(db, p, a, result, ids, now, known);
    case Crash(_) =>
  }

  lemma ClaimNeedsEpoch(db: Db, p: Principal)
    ensures Authorize(db, p).Ok? ==> p.epoch.Some?
  {
  }

  lemma UploadQuiet(db: Db, p: Principal, workspace: Id, data: Output, ids: FreshIds, missions: set<Id>)
    ensures UploadEffect(db, p, workspace, data, ids).Ok? ==>
              QuietFor(db.events, UploadEffect(db, p, workspace, data, ids).value.0.events, missions)
  {
    hide Publish, QuietFor;
    PublishQuiet(db, Person(p.identity), workspace, data.name, data.content, data.expected, None, None, ids, missions);
  }

  lemma EnrollKeepsQuiet(db: Db, w: Id, row: Worker, workspace: Id, missions: set<Id>)
    ensures QuietFor(db.events, Committed(db, EnrollTx(db, w, row, workspace)).events, missions)
  {
    QuietItself(db.events, missions);
    NoteQuiet(db, workspace, WorkerIdentity(w, "explicit_enrollment"), missions);
    hide Policy, QuietFor;
  }

  lemma RotateKeepsQuiet(db: Db, w: Id, reactivate: bool, workspace: Id, missions: set<Id>)
    ensures QuietFor(db.events, Committed(db, RotateTx(db, w, reactivate, workspace)).events, missions)
  {
    QuietItself(db.events, missions);
    NoteQuiet(db, workspace, WorkerIdentity(w, "explicit_reactivation"), missions);
    NoteQuiet(db, workspace, WorkerIdentity(w, "credential_rotation"), missions);
    hide QuietFor;
  }

  lemma NoteQuiet(db: Db, workspace: Id, kind: EventKind, missions: set<Id>)
    requires kind.WorkerIdentity?
    ensures QuietFor(db.events, db.events + [Event(None, workspace, LocalMaintenance, kind)], missions)
  {
  }

  /** What a mission must be executed with never changes once the mission is there. */
  lemma {:induction false} ContractStays(states: seq<Db>, actions: seq<Action>, i: nat, j: nat, m: Id)
    requires Run(states, actions) && i <= j < |states| && m in states[i].missions
    ensures RequiredCapability(states[j].events, m) == RequiredCapability(states[i].events, m)
    decreases j - i
  {
    hide Linked, Enabled, Apply, Begins, QuietFor;
    if i < j {
      ContractStays(states, actions, i, j - 1, m);
      assert StepsTo(states[j - 1], actions[j - 1], states[j]);
      MissionsStay(states, actions, i, j - 1, m);
      StepQuiet(states[j - 1], actions[j - 1]);
      QuietKeepsContract(states[j - 1].events, states[j].events, states[j - 1].missions.Keys, m);
    }
  }

  /** A mission stays, and only its state ever changes. */
  lemma MissionsStay(states: seq<Db>, actions: seq<Action>, i: nat, j: nat, m: Id)
    requires Run(states, actions) && i <= j < |states| && m in states[i].missions
    ensures m in states[j].missions && states[j].missions[m].(state := states[i].missions[m].state) == states[i].missions[m]
  {
    hide Run;
    RunGrows(states, actions, i, j);
  }

  lemma CreateMakes(db: Db, p: Principal, capability: Capability, draft: MissionDraft, identity: Id, now: real)
    requires DeclaredContracts(db.events, identity) == []
    requires CreateEffect(db, p, capability, draft, identity, now).Ok?
    ensures var next := CreateEffect(db, p, capability, draft, identity, now).value.0;
            && identity in next.missions && Made(next.missions[identity], p.identity, draft, now)
            && next.missions[identity].state == Draft
            && RequiredCapability(next.events, identity) == Ok(capability)
  {
    hide Readable;
    var first := Event(Some(identity), draft.workspace, Person(p.identity), MissionCreated);
    Appended(db.events, first, identity);
    Appended(db.events + [first],
             Event(Some(identity), draft.workspace, Person(p.identity), ExecutionContract(capability)), identity);
  }

  lemma CreatedEffect(db: Db, action: Action, next: Db)
    requires Created(db, action, next)
    ensures action.p.role == AdminRole
    ensures var outcome := CreateEffect(db, action.p, action.capability, action.draft, action.identity, action.now);
            outcome.Ok? && next.missions == outcome.value.0.missions && next.events == outcome.value.0.events
  {
    hide Linked, CheckDraft, CreateEffect;
  }

  lemma CreatedRow(db: Db, action: Action, next: Db)
    requires Inv(db) && Created(db, action, next)
    ensures Made(next.missions[action.identity], action.p.identity, action.draft, action.now)
    ensures next.missions[action.identity].state == Draft && action.p.role == AdminRole
    ensures RequiredCapability(next.events, action.identity) == Ok(action.capability)
  {
    hide Inv, Linked, CreateEffect, StepsTo, Made, RequiredCapability;
    NothingDeclared(db, action.identity);
    CreatedEffect(db, action, next);
    CreateMakes(db, action.p, action.capability, action.draft, action.identity, action.now);
  }

  lemma NothingDeclared(db: Db, m: Id)
    requires Inv(db) && m !in db.missions
    ensures DeclaredContracts(db.events, m) == []
  {
    hide Life, LeasesOk, ClaimsOk, FilesOk, OriginsOk, ResultsOk, HistoryOk, DeclaredOk;
    Unmentioned(db.events, m);
  }

  /**
   * A mission keeps the owner, the workspace, the title, the objective and the files of its draft for ever, and what it
   * must be executed with is what was asked for when it was created.
   */
  lemma MissionsKeepTheirDraft(states: seq<Db>, actions: seq<Action>, i: nat, j: nat)
    requires Run(states, actions) && i < j < |states| && Created(states[i], actions[i], states[i + 1])
    ensures actions[i].identity in states[j].missions
    ensures Made(states[j].missions[actions[i].identity], actions[i].p.identity, actions[i].draft, actions[i].now)
    ensures RequiredCapability(states[j].events, actions[i].identity) == Ok(actions[i].capability)
  {
    hide Inv, RequiredCapability, StepsTo, Begins;
    RunKeepsInv(states, actions, i);
    CreatedRow(states[i], actions[i], states[i + 1]);
    MissionsStay(states, actions, i + 1, j, actions[i].identity);
    ContractStays(states, actions, i + 1, j, actions[i].identity);
  }

  /**
   * From the draft to the worker: a lease of a mission, whenever and however often it is given, asks for exactly what its
   * owner drafted, under the contract that the owner chose.
   */
  lemma WorkIsTheDraft(states: seq<Db>, actions: seq<Action>, i: nat, j: nat, key: OperationKey)
    requires Run(states, actions) && i < j < |states| && Created(states[i], actions[i], states[i + 1])
    requires key in states[j].operations && states[j].operations[key].response.Work?
    requires states[j].operations[key].response.request.mission == actions[i].identity
    ensures var r, draft := states[j].operations[key].response.request, actions[i].draft;
            r.title == draft.title && r.objective == draft.objective && r.files == draft.files
            && r.capability == actions[i].capability
  {
    hide Run, Inv, RequiredCapability, Created;
    LeasesSayTheirWork(states, actions, j, key);
    MissionsKeepTheirDraft(states, actions, i, j);
    RunKeepsInv(states, actions, j);
    TaskObeys(states[j], states[j].operations[key].response.request.task);
  }

  lemma TaskObeys(db: Db, t: Id)
    requires Inv(db) && t in db.tasks
    ensures RequiredCapability(db.events, db.tasks[t].mission) == Ok(db.tasks[t].capability)
  {
    hide Life, LeasesOk, ClaimsOk, FilesOk, OriginsOk, ResultsOk, HistoryOk, LedgerLinked, RequiredCapability;
  }
}
