/** The invariant of the whole index, and what each primitive change keeps of it. */
module Invariant {
  import opened Base
  import opened Contracts
  import opened Tables
  import opened Transactions
  import opened Lifecycle
  import opened Ledger
  import opened Attempts
  import opened Files
  import opened Growth

  /** The i-th version is this one, made by this attempt for this mission in this workspace. */
  ghost predicate VersionOf(files: map<Id, File>, versions: seq<Version>, i: nat, version: Id, a: Id, m: Id, workspace: Id) {
    && i < |versions|
    && versions[i].id == version
    && versions[i].attempt == Some(a)
    && versions[i].mission == Some(m)
    && versions[i].file in files
    && files[versions[i].file].workspace == workspace
  }

  ghost predicate Produced(
    missions: map<Id, Mission>, tasks: map<Id, Task>, attempts: map<Id, Attempt>, row: ResultRow, m: Id) {
    && row.attempt in attempts && attempts[row.attempt].task in tasks
    && tasks[attempts[row.attempt].task].mission == m && m in missions
  }

  /** A result ties a completed attempt of a completed mission to the version it made in the mission's workspace. */
  ghost predicate ResultOk(
    missions: map<Id, Mission>, tasks: map<Id, Task>, attempts: map<Id, Attempt>, files: map<Id, File>,
    versions: seq<Version>, row: ResultRow, m: Id) {
    && Produced(missions, tasks, attempts, row, m)
    && attempts[row.attempt].state == Completed && missions[m].state == Completed
    && exists i: nat :: VersionOf(files, versions, i, row.version, row.attempt, m, missions[m].workspace)
  }

  ghost predicate ResultsOk(
    missions: map<Id, Mission>, tasks: map<Id, Task>, attempts: map<Id, Attempt>, files: map<Id, File>,
    versions: seq<Version>, results: map<Id, ResultRow>) {
    && (forall r <- results :: exists m :: ResultOk(missions, tasks, attempts, files, versions, results[r], m))
    && (forall r, s | r in results && s in results && results[r].attempt == results[s].attempt :: r == s)
    && (forall m <- missions | missions[m].state == Completed ::
          exists r :: r in results && Produced(missions, tasks, attempts, results[r], m))
  }

  /** Versions name only known missions and attempts. */
  ghost predicate OriginsOk(missions: map<Id, Mission>, attempts: map<Id, Attempt>, versions: seq<Version>) {
    forall v <- versions ::
      (v.mission.Some? ==> v.mission.value in missions) && (v.attempt.Some? ==> v.attempt.value in attempts)
  }

  ghost predicate Inv(db: Db) {
    && ValidSettings(db.settings)
    && Life(db.missions, db.tasks, db.attempts)
    && LedgerOk(db.workspaces, db.missions, db.tasks, db.events)
    && LeasesOk(db.settings, db.workers, db.tasks, db.attempts, db.epochs)
    && ClaimsOk(db.missions, db.tasks, db.attempts, db.epochs, db.operations)
    && FilesOk(db.settings, db.workspaces, db.files, db.versions, db.objects)
    && OriginsOk(db.missions, db.attempts, db.versions)
    && ResultsOk(db.missions, db.tasks, db.attempts, db.files, db.versions, db.results)
  }

  // ----- Frames: what growth alone keeps -----

  lemma ResultFramed(before: Db, after: Db, row: ResultRow, m: Id)
    requires MissionsGrow(before.missions, after.missions) && TasksGrow(before.tasks, after.tasks)
    requires AttemptsGrow(before.attempts, after.attempts)
    requires Extends(before.files, after.files) && before.versions <= after.versions
    requires ResultOk(before.missions, before.tasks, before.attempts, before.files, before.versions, row, m)
    ensures ResultOk(after.missions, after.tasks, after.attempts, after.files, after.versions, row, m)
  {
    var workspace := before.missions[m].workspace;
    var i: nat :| VersionOf(before.files, before.versions, i, row.version, row.attempt, m, workspace);
    assert VersionOf(after.files, after.versions, i, row.version, row.attempt, m, workspace);
  }

  lemma ProducedFramed(before: Db, after: Db, row: ResultRow, m: Id)
    requires MissionsGrow(before.missions, after.missions) && TasksGrow(before.tasks, after.tasks)
    requires AttemptsGrow(before.attempts, after.attempts)
    requires Produced(before.missions, before.tasks, before.attempts, row, m)
    ensures Produced(after.missions, after.tasks, after.attempts, row, m)
  {
  }

  lemma ResultsFramed(before: Db, after: Db)
    requires ResultsOk(before.missions, before.tasks, before.attempts, before.files, before.versions, before.results)
    requires MissionsGrow(before.missions, after.missions) && TasksGrow(before.tasks, after.tasks)
    requires AttemptsGrow(before.attempts, after.attempts)
    requires Extends(before.files, after.files) && before.versions <= after.versions
    requires after.results == before.results
    requires forall m <- after.missions ::
               after.missions[m].state == Completed ==> m in before.missions && before.missions[m].state == Completed
    ensures ResultsOk(after.missions, after.tasks, after.attempts, after.files, after.versions, after.results)
  {
    hide MissionsGrow, TasksGrow, AttemptsGrow, Extends, ResultOk, Produced;
    forall r <- after.results
      ensures exists m :: ResultOk(after.missions, after.tasks, after.attempts, after.files, after.versions,
          after.results[r], m)
    {
      var m :| ResultOk(before.missions, before.tasks, before.attempts, before.files, before.versions, before.results[r], m);
      ResultFramed(before, after, before.results[r], m);
    }
    forall m <- after.missions | after.missions[m].state == Completed
      ensures exists r :: r in after.results && Produced(after.missions, after.tasks, after.attempts, after.results[r], m)
    {
      var r :| r in before.results && Produced(before.missions, before.tasks, before.attempts, before.results[r], m);
      ProducedFramed(before, after, before.results[r], m);
    }
  }

  lemma OriginsFramed(before: Db, after: Db)
    requires OriginsOk(before.missions, before.attempts, before.versions)
    requires Grows(before, after) && after.versions == before.versions
    ensures OriginsOk(after.missions, after.attempts, after.versions)
  {
  }

  lemma DescribedFramed(
    missions: map<Id, Mission>, tasks: map<Id, Task>, laterMissions: map<Id, Mission>, laterTasks: map<Id, Task>,
    request: Request)
    requires MissionsGrow(missions, laterMissions) && TasksGrow(tasks, laterTasks) && Described(missions, tasks, request)
    ensures Described(laterMissions, laterTasks, request)
  {
    var m, t := request.mission, request.task;
    assert laterMissions[m].(state := missions[m].state) == missions[m];
    assert laterTasks[t].(state := tasks[t].state) == tasks[t];
  }

  lemma ClaimsFramed(before: Db, after: Db)
    requires ClaimsOk(before.missions, before.tasks, before.attempts, before.epochs, before.operations)
    requires MissionsGrow(before.missions, after.missions) && TasksGrow(before.tasks, after.tasks)
    requires AttemptsGrow(before.attempts, after.attempts) && Extends(before.epochs, after.epochs)
    ensures ClaimsOk(after.missions, after.tasks, after.attempts, after.epochs, before.operations)
  {
    forall key | ClaimRecorded(before.operations, key)
      ensures RequestMatches(after.attempts, after.epochs, key, before.operations[key].response.request)
      ensures Described(after.missions, after.tasks, before.operations[key].response.request)
    {
      assert RequestMatches(before.attempts, before.epochs, key, before.operations[key].response.request);
      DescribedFramed(before.missions, before.tasks, after.missions, after.tasks, before.operations[key].response.request);
    }
  }

  /** Recording an operation whose response is not a lease. */
  lemma RecordKeepsClaims(
    missions: map<Id, Mission>, tasks: map<Id, Task>, attempts: map<Id, Attempt>, epochs: map<Id, nat>, operations: map<OperationKey, Operation>,
    key: OperationKey, operation: Operation)
    requires ClaimsOk(missions, tasks, attempts, epochs, operations) && key !in operations && !operation.response.Work?
    ensures ClaimsOk(missions, tasks, attempts, epochs, operations[key := operation])
  {
    var after := operations[key := operation];
    forall k | ClaimRecorded(after, k)
      ensures ClaimRecorded(operations, k) && after[k] == operations[k]
    {
    }
  }

  lemma RecordKeepsInv(db: Db, key: OperationKey, operation: Operation)
    requires Inv(db) && key !in db.operations && !operation.response.Work?
    ensures Inv(db.(operations := db.operations[key := operation]))
    ensures Grows(db, db.(operations := db.operations[key := operation]))
  {
    hide Life, LedgerOk, LeasesOk, ClaimsOk, FilesOk, OriginsOk, ResultsOk;
    RecordKeepsClaims(db.missions, db.tasks, db.attempts, db.epochs, db.operations, key, operation);
  }

  // ----- Settling an attempt -----

  /** The index after an attempt, its task and its mission moved together. */
  ghost function Moved(db: Db, actor: Actor, a: Id, row: Attempt, reason: string): Db
    requires Linked(db) && a in db.attempts && row.task == db.attempts[a].task
  {
    var m := db.tasks[row.task].mission;
    db.(attempts := db.attempts[a := row], tasks := TaskTo(db.tasks, row.task, row.state),
        missions := MissionTo(db.missions, m, row.state),
        events := db.events + [Event(Some(m), db.missions[m].workspace, actor, MissionState(row.state, reason))])
  }

  lemma MissionToGrows(missions: map<Id, Mission>, m: Id, target: State)
    requires m in missions && Allowed(missions[m].state, target)
    ensures MissionsGrow(missions, MissionTo(missions, m, target))
  {
  }

  lemma TaskToGrows(tasks: map<Id, Task>, t: Id, target: State)
    requires t in tasks
    ensures TasksGrow(tasks, TaskTo(tasks, t, target))
  {
  }

  lemma RewriteGrows(attempts: map<Id, Attempt>, a: Id, row: Attempt)
    requires a in attempts && Active(attempts[a].state) && SameLease(attempts[a], row)
    requires Allowed(attempts[a].state, row.state)
    ensures AttemptsGrow(attempts, attempts[a := row])
  {
  }

  lemma MovedGrows(db: Db, actor: Actor, a: Id, row: Attempt, reason: string)
    requires Linked(db) && a in db.attempts && Active(db.attempts[a].state) && SameLease(db.attempts[a], row)
    requires db.missions[MissionOf(db, a)].state == db.attempts[a].state
    requires Allowed(db.attempts[a].state, row.state)
    ensures Grows(db, Moved(db, actor, a, row, reason))
  {
    MissionToGrows(db.missions, MissionOf(db, a), row.state);
    TaskToGrows(db.tasks, row.task, row.state);
    RewriteGrows(db.attempts, a, row);
    hide MissionsGrow, TasksGrow, AttemptsGrow;
  }

  /** What a lease may report when it stops being active. */
  ghost predicate ReportOk(a: Id, row: Attempt) {
    && (row.result.Some? ==> row.state == row.result.value.status && Settled(row.state)
                             && row.result.value.attempt == a && row.result.value.generation == row.generation)
    && (row.state in {Completed, Failed, Cancelled} ==> row.result.Some?)
  }

  lemma MovedKeepsLeases(
    settings: Settings, workers: map<Id, Worker>, tasks: map<Id, Task>, attempts: map<Id, Attempt>, epochs: map<Id, nat>,
    a: Id, row: Attempt)
    requires LeasesOk(settings, workers, tasks, attempts, epochs)
    requires a in attempts && SameLease(attempts[a], row) && row.task in tasks && ReportOk(a, row)
    ensures LeasesOk(settings, workers, TaskTo(tasks, row.task, row.state), attempts[a := row], epochs)
  {
    SameLeasesNumbered(attempts, attempts[a := row]);
    SameLeasesGenerations(attempts, attempts[a := row]);
    hide Numbered, Generations;
  }

  lemma ActiveFacts(db: Db, a: Id)
    requires Life(db.missions, db.tasks, db.attempts) && a in db.attempts && Active(db.attempts[a].state)
    ensures Linked(db) && db.missions[MissionOf(db, a)].state == db.attempts[a].state
  {
  }

  lemma SettleKeepsLedger(db: Db, actor: Actor, a: Id, row: Attempt, reason: string)
    requires Linked(db) && LedgerOk(db.workspaces, db.missions, db.tasks, db.events)
    requires a in db.attempts && row.task == db.attempts[a].task
    requires Allowed(db.missions[MissionOf(db, a)].state, row.state)
    ensures var after := Moved(db, actor, a, row, reason);
            LedgerOk(after.workspaces, after.missions, after.tasks, after.events)
  {
    var m := MissionOf(db, a);
    var e := Event(Some(m), db.missions[m].workspace, actor, MissionState(row.state, reason));
    MoveKeepsLedger(db.workspaces, db.missions, db.tasks, TaskTo(db.tasks, row.task, row.state), db.events, m, row.state, e);
  }

  /** Settling an active attempt without completing it keeps the whole invariant. */
  lemma SettleKeepsInv(db: Db, actor: Actor, a: Id, row: Attempt, reason: string)
    requires Inv(db) && a in db.attempts && Active(db.attempts[a].state) && SameLease(db.attempts[a], row)
    requires Allowed(db.attempts[a].state, row.state) && Settled(row.state) && row.state != Completed && ReportOk(a, row)
    ensures Linked(db) && Settle(db, actor, a, row, reason) == Ok(Moved(db, actor, a, row, reason))
    ensures Inv(Moved(db, actor, a, row, reason)) && Grows(db, Moved(db, actor, a, row, reason))
  {
    hide Life, LedgerOk, LeasesOk, ClaimsOk, FilesOk, OriginsOk, ResultsOk;
    hide MissionsGrow, TasksGrow, AttemptsGrow, WorkersGrow, Extends;
    ActiveFacts(db, a);
    SettleMoves(db, actor, a, row, reason);
    SettleKeepsLife(db, actor, a, row, reason);
    var after := Moved(db, actor, a, row, reason);
    MovedGrows(db, actor, a, row, reason);
    SettleKeepsLedger(db, actor, a, row, reason);
    MovedKeepsLeases(db.settings, db.workers, db.tasks, db.attempts, db.epochs, a, row);
    ClaimsFramed(db, after);
    OriginsFramed(db, after);
    ResultsFramed(db, after);
  }
}
