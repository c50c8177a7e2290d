/** Creating, approving and claiming missions, and managing worker identities, keep the invariant. */
module Planning {
  import opened Base
  import opened Contracts
  import opened Tables
  import opened Transactions
  import opened Lifecycle
  import opened Ledger
  import opened Attempts
  import opened Files
  import opened Growth
  import opened Invariant
  import opened Effects

  // ----- Notes in the ledger -----

  lemma AuditKeepsInv(db: Db, actor: Actor, workspace: Id, mission: Option<Id>, kind: EventKind)
    requires Inv(db) && workspace in db.workspaces && (mission.Some? ==> mission.value in db.missions)
    requires !kind.MissionState? && !kind.ExecutionContract?
    ensures Kept(db, Audit(db, actor, workspace, mission, kind))
  {
    hide Life, LedgerOk, LeasesOk, ClaimsOk, FilesOk, OriginsOk, ResultsOk;
    NoteKeepsLedger(db.workspaces, db.missions, db.tasks, db.events, Event(mission, workspace, actor, kind));
    AttemptsGrowItself(db.attempts);
  }

  // ----- Create -----

  lemma NewMissionKeepsInv(db: Db, m: Id, row: Mission)
    requires Inv(db) && m !in db.missions && row.state == Draft && row.workspace in db.workspaces
    ensures Kept(db, db.(missions := db.missions[m := row]))
    ensures DeclaredContracts(db.events, m) == []
  {
    hide LedgerOk, LeasesOk, ClaimsOk, FilesOk, ResultsOk, AttemptsGrow, MissionsGrow;
    var after := db.(missions := db.missions[m := row]);
    NewMissionLife(db.missions, db.tasks, db.attempts, m, row);
    hide Life;
    NewMissionKeepsLedger(db.workspaces, db.missions, db.tasks, db.events, m, row);
    AttemptsGrowItself(db.attempts);
    NewMissionGrows(db.missions, m, row);
    ClaimsFramed(db, after);
    ResultsFramed(db, after);
  }

  lemma NewMissionGrows(missions: map<Id, Mission>, m: Id, row: Mission)
    requires m !in missions
    ensures MissionsGrow(missions, missions[m := row])
  {
  }

  lemma NewMissionLife(missions: map<Id, Mission>, tasks: map<Id, Task>, attempts: map<Id, Attempt>, m: Id, row: Mission)
    requires Life(missions, tasks, attempts) && m !in missions && row.state == Draft
    ensures Life(missions[m := row], tasks, attempts)
    ensures forall t <- tasks :: tasks[t].mission != m
  {
    hide AttemptsMatch, OneActive, ActiveCovered;
  }

  lemma DeclareKeepsInv(db: Db, actor: Actor, m: Id)
    requires Inv(db) && m in db.missions && DeclaredContracts(db.events, m) == []
    requires forall t <- db.tasks :: db.tasks[t].mission != m
    ensures Kept(db, Audit(db, actor, db.missions[m].workspace, Some(m), ExecutionContract(CpuDigest)))
  {
    hide Life, LedgerOk, LeasesOk, ClaimsOk, FilesOk, OriginsOk, ResultsOk;
    MissionWorkspaceKnown(db.workspaces, db.missions, db.tasks, db.events, m);
    DeclareKeepsLedger(db.workspaces, db.missions, db.tasks, db.events, m,
                       Event(Some(m), db.missions[m].workspace, actor, ExecutionContract(CpuDigest)));
    AttemptsGrowItself(db.attempts);
  }

  lemma CreateKeepsInv(db: Db, p: Principal, capability: Capability, draft: MissionDraft, identity: Id, now: real)
    requires Inv(db) && identity !in db.missions
    ensures var outcome := CreateEffect(db, p, capability, draft, identity, now);
            outcome.Ok? ==> Kept(db, outcome.value.0)
  {
    hide Inv, Grows, Readable;
    var outcome := CreateEffect(db, p, capability, draft, identity, now);
    if outcome.Ok? {
      var row := Mission(p.identity, draft.workspace, draft.title, draft.objective, Draft, now, draft.files);
      var added := db.(missions := db.missions[identity := row]);
      var actor := Person(p.identity);
      NoTaskYet(db, identity);
      NewMissionKeepsInv(db, identity, row);
      AuditKeepsInv(added, actor, draft.workspace, Some(identity), MissionCreated);
      var created := Audit(added, actor, draft.workspace, Some(identity), MissionCreated);
      KeptTransitive(db, added, created);
      if capability != Demo {
        Appended(db.events, created.events[|db.events|], identity);
        DeclareKeepsInv(created, actor, identity);
        KeptTransitive(db, created, outcome.value.0);
      }
    }
  }

  lemma NoTaskYet(db: Db, m: Id)
    requires Inv(db) && m !in db.missions
    ensures forall t <- db.tasks :: db.tasks[t].mission != m
  {
    hide LedgerOk, LeasesOk, ClaimsOk, FilesOk, OriginsOk, ResultsOk;
  }

  // ----- Approve -----

  /** The index after a draft was approved, planned and queued. */
  ghost function ApprovedDb(db: Db, actor: Actor, m: Id, t: Id, task: Task): Db
    requires m in db.missions
  {
    var workspace := db.missions[m].workspace;
    db.(missions := MissionTo(db.missions, m, Queued), tasks := db.tasks[t := task],
        events := db.events + [Event(Some(m), workspace, actor, MissionState(Approved, ""))]
                            + [Event(Some(m), workspace, actor, MissionState(Queued, ""))])
  }

  lemma ApproveMoves(db: Db, p: Principal, m: Id, plan: Plan, identity: Id)
    requires ApproveEffect(db, p, m, plan, identity).Ok?
    ensures m in db.missions && db.missions[m].state == Draft
    ensures RequiredCapability(db.events, m) == Ok(plan.capability)
    ensures plan.worker in db.workers && db.workers[plan.worker].active
    ensures ApproveEffect(db, p, m, plan, identity).value.0
            == ApprovedDb(db, Person(p.identity), m, identity, Task(m, plan.capability, plan.worker, Queued))
  {
  }

  lemma PlanKeepsLedger(db: Db, actor: Actor, m: Id, t: Id, task: Task)
    requires LedgerOk(db.workspaces, db.missions, db.tasks, db.events)
    requires m in db.missions && db.missions[m].state == Draft && t !in db.tasks && task.mission == m
    requires RequiredCapability(db.events, m) == Ok(task.capability)
    ensures var after := ApprovedDb(db, actor, m, t, task);
            LedgerOk(after.workspaces, after.missions, after.tasks, after.events)
  {
    hide LedgerOk, RequiredCapability, SamePlans;
    var e := Event(Some(m), db.missions[m].workspace, actor, MissionState(Approved, ""));
    var f := Event(Some(m), db.missions[m].workspace, actor, MissionState(Queued, ""));
    var approved := MissionTo(db.missions, m, Approved);
    TaskKeepsDeclared(db.workspaces, db.missions, db.tasks, db.events, t, task);
    SamePlansItself(db.tasks[t := task]);
    MissionWorkspaceKnown(db.workspaces, db.missions, db.tasks, db.events, m);
    MoveKeepsLedger(db.workspaces, db.missions, db.tasks[t := task], db.tasks[t := task], db.events, m, Approved, e);
    MoveKeepsLedger(db.workspaces, approved, db.tasks[t := task], db.tasks[t := task], db.events + [e], m, Queued, f);
    assert MissionTo(approved, m, Queued) == MissionTo(db.missions, m, Queued);
  }

  lemma SamePlansItself(tasks: map<Id, Task>)
    ensures SamePlans(tasks, tasks)
  {
  }

  lemma TaskKeepsDeclared(
    workspaces: map<Id, Id>, missions: map<Id, Mission>, tasks: map<Id, Task>, events: seq<Event>, t: Id, task: Task)
    requires LedgerOk(workspaces, missions, tasks, events) && t !in tasks
    requires RequiredCapability(events, task.mission) == Ok(task.capability)
    ensures LedgerOk(workspaces, missions, tasks[t := task], events)
  {
    hide HistoryOk, LedgerLinked, RequiredCapability;
  }

  lemma PlanKeepsLeases(
    settings: Settings, workers: map<Id, Worker>, tasks: map<Id, Task>, attempts: map<Id, Attempt>, epochs: map<Id, nat>,
    t: Id, task: Task)
    requires LeasesOk(settings, workers, tasks, attempts, epochs) && task.worker in workers
    ensures LeasesOk(settings, workers, tasks[t := task], attempts, epochs)
  {
    hide Numbered, Generations, Credited, Reported;
  }

  lemma ApproveKeepsInv(db: Db, p: Principal, m: Id, plan: Plan, identity: Id)
    requires Inv(db) && identity !in db.tasks
    ensures ApproveEffect(db, p, m, plan, identity).Ok? ==> Kept(db, ApproveEffect(db, p, m, plan, identity).value.0)
  {
    hide Life, LedgerOk, LeasesOk, ClaimsOk, FilesOk, OriginsOk, ResultsOk, ApproveEffect;
    hide MissionsGrow, AttemptsGrow;
    var outcome := ApproveEffect(db, p, m, plan, identity);
    if outcome.Ok? {
      var task := Task(m, plan.capability, plan.worker, Queued);
      var after := outcome.value.0;
      ApproveMoves(db, p, m, plan, identity);
      ApproveKeepsLife(db, p, m, plan, identity);
      PlanKeepsLedger(db, Person(p.identity), m, identity, task);
      PlanKeepsLeases(db.settings, db.workers, db.tasks, db.attempts, db.epochs, identity, task);
      ApprovedGrows(db.missions, m);
      AttemptsGrowItself(db.attempts);
      ClaimsFramed(db, after);
      OriginsFramed(db, after);
      ResultsFramed(db, after);
    }
  }

  lemma ApprovedGrows(missions: map<Id, Mission>, m: Id)
    requires m in missions && missions[m].state == Draft
    ensures MissionsGrow(missions, MissionTo(missions, m, Queued))
  {
  }

  // ----- Claim -----

  /** The index after a queued task was leased. */
  ghost function Leased(db: Db, p: Principal, t: Id, a: Id, row: Attempt): Db
    requires Linked(db) && t in db.tasks && p.epoch.Some?
  {
    var m := db.tasks[t].mission;
    var workspace := db.missions[m].workspace;
    db.(attempts := db.attempts[a := row], epochs := db.epochs[a := p.epoch.value], tasks := TaskTo(db.tasks, t, Running),
        missions := MissionTo(db.missions, m, Running),
        events := db.events + [Event(Some(m), workspace, Person(p.identity), MissionState(Running, ""))]
                            + [Event(Some(m), workspace, Person(p.identity), AttemptStarted(a, t, p.identity))])
  }

  lemma StartMoves(db: Db, p: Principal, w: Worker, t: Id, top: nat, c: ClaimInputs)
    requires Linked(db) && t in db.tasks && p.epoch.Some? && Queueable(db, t, p.identity)
    requires StartAttempt(db, p, w, t, top, c).Ok?
    ensures var (after, response) := StartAttempt(db, p, w, t, top, c).value;
            && c.attempt in after.attempts
            && after == Leased(db, p, t, c.attempt, after.attempts[c.attempt])
            && response.Work? && response.request.attempt == c.attempt
            && (var row := after.attempts[c.attempt];
                && row.task == t && row.number == top + 1 && row.worker == p.identity && row.state == Running
                && row.generation == c.generation && row.startedAt == c.now && row.result == None
                && row.deadline == c.now + Min(db.settings.attemptSeconds, w.lease) as real
                && RequestMatches(after.attempts, after.epochs, WorkerOperation(p.identity, p.epoch.value, 0), response.request)
                && Described(after.missions, after.tasks, response.request))
  {
  }

  lemma LeasedGrows(db: Db, p: Principal, t: Id, a: Id, row: Attempt)
    requires Linked(db) && t in db.tasks && p.epoch.Some? && Queueable(db, t, p.identity)
    requires a !in db.attempts && a !in db.epochs
    ensures Grows(db, Leased(db, p, t, a, row))
  {
    MissionToGrows(db.missions, db.tasks[t].mission, Running);
    TaskToGrows(db.tasks, t, Running);
    hide MissionsGrow, TasksGrow;
  }

  lemma LeasedKeepsLedger(db: Db, p: Principal, t: Id, a: Id, row: Attempt)
    requires Linked(db) && t in db.tasks && p.epoch.Some? && Queueable(db, t, p.identity)
    requires LedgerOk(db.workspaces, db.missions, db.tasks, db.events)
    ensures var after := Leased(db, p, t, a, row);
            LedgerOk(after.workspaces, after.missions, after.tasks, after.events)
  {
    hide LedgerOk;
    var m := db.tasks[t].mission;
    var workspace := db.missions[m].workspace;
    var e := Event(Some(m), workspace, Person(p.identity), MissionState(Running, ""));
    var f := Event(Some(m), workspace, Person(p.identity), AttemptStarted(a, t, p.identity));
    MissionWorkspaceKnown(db.workspaces, db.missions, db.tasks, db.events, m);
    MoveKeepsLedger(db.workspaces, db.missions, db.tasks, TaskTo(db.tasks, t, Running), db.events, m, Running, e);
    NoteKeepsLedger(db.workspaces, MissionTo(db.missions, m, Running), TaskTo(db.tasks, t, Running), db.events + [e], f);
  }

  lemma NewGeneration(attempts: map<Id, Attempt>, a: Id, row: Attempt)
    requires Generations(attempts) && a !in attempts
    requires forall b <- attempts :: attempts[b].generation != row.generation
    ensures Generations(attempts[a := row])
  {
  }

  lemma NewLeaseCredited(
    settings: Settings, workers: map<Id, Worker>, attempts: map<Id, Attempt>, epochs: map<Id, nat>, a: Id,
        row: Attempt, epoch: nat)
    requires Credited(settings, workers, attempts, epochs) && Reported(attempts) && a !in attempts
    requires row.worker in workers && epoch <= workers[row.worker].epoch
    requires row.deadline == row.startedAt + Min(settings.attemptSeconds, workers[row.worker].lease) as real
    requires row.state == Running && row.result == None
    ensures Credited(settings, workers, attempts[a := row], epochs[a := epoch]) && Reported(attempts[a := row])
  {
  }

  lemma LeasedKeepsLeases(
    settings: Settings, workers: map<Id, Worker>, tasks: map<Id, Task>, attempts: map<Id, Attempt>, epochs: map<Id, nat>,
    a: Id, row: Attempt, epoch: nat, top: nat)
    requires LeasesOk(settings, workers, tasks, attempts, epochs)
    requires a !in attempts && row.task in tasks
    requires TopNumber(attempts, row.task, top) && row.number == top + 1
    requires forall b <- attempts :: attempts[b].generation != row.generation
    requires row.worker in workers && epoch <= workers[row.worker].epoch
    requires row.deadline == row.startedAt + Min(settings.attemptSeconds, workers[row.worker].lease) as real
    requires row.state == Running && row.result == None
    ensures LeasesOk(settings, workers, TaskTo(tasks, row.task, Running), attempts[a := row], epochs[a := epoch])
  {
    hide Numbered, Generations, Credited, Reported, TopNumber;
    NextNumbered(attempts, a, row, top);
    NewGeneration(attempts, a, row);
    NewLeaseCredited(settings, workers, attempts, epochs, a, row, epoch);
  }

  /** The generation that a claim draws is new. */
  ghost predicate NewLease(db: Db, c: ClaimInputs) {
    c.attempt !in db.attempts && forall b <- db.attempts :: db.attempts[b].generation != c.generation
  }

  lemma InvLeases(db: Db)
    requires Inv(db)
    ensures db.epochs.Keys == db.attempts.Keys
    ensures ValidSettings(db.settings)
  {
    hide Life, LedgerOk, ClaimsOk, FilesOk, OriginsOk, ResultsOk, Numbered, Generations, Reported;
  }

  lemma StartKeepsInv(db: Db, p: Principal, w: Worker, t: Id, c: ClaimInputs)
    requires Inv(db) && Linked(db) && Authorize(db, p) == Ok(w) && NewLease(db, c) && Idle(db.attempts, p.identity)
    requires t in db.tasks && Queueable(db, t, p.identity)
    ensures StartAttempt(db, p, w, t, Top(db.attempts, t), c).Ok? ==>
              Kept(db, StartAttempt(db, p, w, t, Top(db.attempts, t), c).value.0)
  {
    hide Life, LedgerOk, LeasesOk, ClaimsOk, FilesOk, OriginsOk, ResultsOk, StartAttempt, Top, Queueable, Linked;
    hide MissionsGrow, TasksGrow, AttemptsGrow;
    var top := Top(db.attempts, t);
    var outcome := StartAttempt(db, p, w, t, top, c);
    if outcome.Ok? {
      var after := outcome.value.0;
      StartMoves(db, p, w, t, top, c);
      var row := after.attempts[c.attempt];
      StartKeepsLife(db, p, w, t, top, c);
      InvLeases(db);
      LeasedGrows(db, p, t, c.attempt, row);
      LeasedKeepsLedger(db, p, t, c.attempt, row);
      TopIsTopNumber(db.attempts, t);
      LeasedKeepsLeases(db.settings, db.workers, db.tasks, db.attempts, db.epochs, c.attempt, row, p.epoch.value, top);
      ClaimsFramed(db, after);
      OriginsFramed(db, after);
      ResultsFramed(db, after);
    }
  }

  /** The rows of a fence are leased, once each. */
  lemma RowsActive(db: Db, worker: Option<Id>, rows: seq<Id>)
    requires LeasedRows(db, worker, rows)
    ensures AllActive(db, rows)
  {
  }

  /** A new lease stays new after a fence, which only rewrites old ones. */
  lemma StillNew(before: Db, after: Db, c: ClaimInputs)
    requires NewLease(before, c) && SameLeases(before.attempts, after.attempts)
    ensures NewLease(after, c)
  {
    forall b <- after.attempts
      ensures after.attempts[b].generation != c.generation
    {
      assert SameLease(before.attempts[b], after.attempts[b]);
    }
  }

  lemma FencedSameLeases(attempts: map<Id, Attempt>, cut: set<Id>, reason: ErrorCode)
    ensures SameLeases(attempts, FencedAttempts(attempts, cut, reason))
  {
  }

  lemma SweptFacts(db: Db, p: Principal, c: ClaimInputs, swept: Db, due: set<Id>)
    requires FenceDone(db, c.rows, due, AttemptExpired, swept) && NewLease(db, c)
    ensures Kept(db, swept) && NewLease(swept, c) && Authorize(swept, p) == Authorize(db, p)
    ensures swept.operations == db.operations && swept.attempts.Keys == db.attempts.Keys
  {
    hide Inv, Grows, NewLease;
    FencedSameLeases(db.attempts, Cut(c.rows, due), AttemptExpired);
    StillNew(db, swept, c);
  }

  /** What a claim that was not refused did. */
  ghost predicate ClaimDone(before: Db, p: Principal, c: ClaimInputs, after: Db, response: Response) {
    && Kept(before, after)
    && after.operations == before.operations
    && OnlyTouched(before.attempts, after.attempts) && NoVerdict(before.missions, after.missions)
    && p.epoch.Some?
    && (response == NoWork
        || (response.Work? && response.request.attempt == c.attempt && c.attempt !in before.attempts
            && RequestMatches(after.attempts, after.epochs, WorkerOperation(p.identity, p.epoch.value, 0), response.request)
            && Described(after.missions, after.tasks, response.request)))
  }

  lemma StartDone(db: Db, swept: Db, p: Principal, w: Worker, t: Id, c: ClaimInputs)
    requires Kept(db, swept) && swept.operations == db.operations && swept.attempts.Keys == db.attempts.Keys
    requires OnlyTouched(db.attempts, swept.attempts) && NoVerdict(db.missions, swept.missions)
    requires Linked(swept) && Authorize(swept, p) == Ok(w) && NewLease(swept, c) && Idle(swept.attempts, p.identity)
    requires t in swept.tasks && Queueable(swept, t, p.identity)
    ensures var outcome := StartAttempt(swept, p, w, t, Top(swept.attempts, t), c);
            outcome.Ok? ==> ClaimDone(db, p, c, outcome.value.0, outcome.value.1)
  {
    hide Inv, Grows, StartAttempt, Top, Queueable, Linked, Kept, Touched, NoVerdict;
    var outcome := StartAttempt(swept, p, w, t, Top(swept.attempts, t), c);
    KeptInv(db, swept);
    if outcome.Ok? {
      StartMoves(swept, p, w, t, Top(swept.attempts, t), c);
      StartKeepsInv(swept, p, w, t, c);
      KeptTransitive(db, swept, outcome.value.0);
      LeaseGivesNoVerdict(swept, p, t, c.attempt, outcome.value.0.attempts[c.attempt]);
      KeptMissions(db, swept);
      NoVerdictTransitive(db.missions, swept.missions, outcome.value.0.missions);
    }
  }

  lemma LeaseGivesNoVerdict(db: Db, p: Principal, t: Id, a: Id, row: Attempt)
    requires Linked(db) && t in db.tasks && p.epoch.Some?
    ensures NoVerdict(db.missions, Leased(db, p, t, a, row).missions)
  {
  }

  lemma KeptMissions(before: Db, after: Db)
    requires Kept(before, after)
    ensures before.missions.Keys <= after.missions.Keys
  {
    hide Inv;
  }

  lemma KeptInv(before: Db, after: Db)
    requires Kept(before, after)
    ensures Inv(after)
  {
    hide Inv;
  }

  lemma PickedIsQueueable(db: Db, w: Id)
    requires Linked(db)
    ensures PickTask(db, w).Some? ==> NextTask(db, w, PickTask(db, w).value)
    ensures PickTask(db, w).Some? ==> PickTask(db, w).value in db.tasks && Queueable(db, PickTask(db, w).value, w)
    ensures PickTask(db, w) == None ==> forall t: Id :: !NextTask(db, w, t)
  {
  }

  lemma ClaimKeepsInv(db: Db, p: Principal, c: ClaimInputs)
    requires Inv(db) && Linked(db) && LeasedRows(db, None, c.rows) && NewLease(db, c)
    ensures ClaimEffect(db, p, c).Ok? ==> ClaimDone(db, p, c, ClaimEffect(db, p, c).value.0, ClaimEffect(db, p, c).value.1)
  {
    hide Inv, Linked, FenceRows, FenceDone, StartAttempt, PickTask, Top, NewLease, Kept, Queueable, Idle, NextTask, Overdue;
    hide NoVerdict, OnlyTouched;
    RowsActive(db, None, c.rows);
    var due := Overdue(db, c.rows, c.clock);
    FenceKeepsInv(db, c.rows, due, AttemptExpired);
    if Authorize(db, p).Ok? {
      var w := Authorize(db, p).value;
      var swept := ExpireTx(db, c.rows, c.clock).value;
      SweptFacts(db, p, c, swept, due);
      FenceTouches(db, c.rows, due, AttemptExpired, swept);
      FencedLinked(db, c.rows, due, AttemptExpired);
      PickedIsQueueable(swept, p.identity);
      if Idle(swept.attempts, p.identity) && PickTask(swept, p.identity).Some? {
        StartDone(db, swept, p, w, PickTask(swept, p.identity).value, c);
      }
    }
  }

  /** Recording a claim keeps the invariant: the lease it names is either none or brand new. */
  lemma RecordClaimKeepsInv(before: Db, p: Principal, c: ClaimInputs, after: Db, response: Response, operation: Id)
    requires Inv(before) && ClaimDone(before, p, c, after, response)
    requires WorkerOperation(p.identity, p.epoch.value, operation) !in before.operations
    ensures var key := WorkerOperation(p.identity, p.epoch.value, operation);
            Kept(before, after.(operations := after.operations[key := Operation(ClaimIntent, response)]))
  {
    hide Life, LedgerOk, LeasesOk, ClaimsOk, FilesOk, OriginsOk, ResultsOk;
    hide MissionsGrow, TasksGrow, AttemptsGrow, WorkersGrow;
    var key := WorkerOperation(p.identity, p.epoch.value, operation);
    if response == NoWork {
      RecordKeepsClaims(after.missions, after.tasks, after.attempts, after.epochs, after.operations, key, Operation(ClaimIntent, response));
    } else {
      RecordLeaseKeepsClaims(before, after, key, Operation(ClaimIntent, response));
    }
  }

  lemma RecordLeaseKeepsClaims(before: Db, after: Db, key: OperationKey, operation: Operation)
    requires ClaimsOk(before.missions, before.tasks, before.attempts, before.epochs, before.operations)
    requires ClaimsOk(after.missions, after.tasks, after.attempts, after.epochs, after.operations)
    requires after.operations == before.operations && key !in before.operations
    requires operation.response.Work? && operation.response.request.attempt !in before.attempts
    requires RequestMatches(after.attempts, after.epochs, key, operation.response.request)
    requires Described(after.missions, after.tasks, operation.response.request)
    ensures ClaimsOk(after.missions, after.tasks, after.attempts, after.epochs, after.operations[key := operation])
  {
    var operations := after.operations[key := operation];
    forall k | ClaimRecorded(operations, k) && k != key
      ensures ClaimRecorded(before.operations, k) && ClaimedAttempt(operations, k) in before.attempts
      ensures ClaimedAttempt(operations, k) == ClaimedAttempt(before.operations, k)
    {
      assert RequestMatches(before.attempts, before.epochs, k, before.operations[k].response.request);
    }
  }
}
