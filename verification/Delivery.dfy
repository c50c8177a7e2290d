/** Uploads and finished attempts keep the invariant. */
module Delivery {
  import opened Base
  import opened Contracts
  import opened Tables
  import opened Transactions
  import opened Lifecycle
  import opened Ledger
  import opened Attempts
  import opened Files
  import opened Growth
  import opened Invariant
  import opened Effects

  // ----- Publication -----

  lemma ObjectsExtend(settings: Settings, versions: seq<Version>, objects: map<Digest, Bytes>, raw: Bytes)
    requires Stored(settings, versions, objects)
    ensures Extends(objects, objects[Sha256(raw) := raw])
  {
    assert Sha256(raw) in objects ==> Sha256(objects[Sha256(raw)]) == Sha256(raw);
  }

  lemma ExtendedGrows(db: Db, actor: Actor, v: Version, files: map<Id, File>, raw: Bytes, workspace: Id)
    requires Extends(db.objects, db.objects[v.digest := raw]) && Extends(db.files, files)
    ensures Grows(db, Extended(db, actor, v, files, raw, workspace))
  {
  }

  lemma OriginsExtended(missions: map<Id, Mission>, attempts: map<Id, Attempt>, versions: seq<Version>, v: Version)
    requires OriginsOk(missions, attempts, versions)
    requires v.mission.Some? ==> v.mission.value in missions
    requires v.attempt.Some? ==> v.attempt.value in attempts
    ensures OriginsOk(missions, attempts, versions + [v])
  {
  }

  lemma WorkspaceOkOf(db: Db)
    requires FilesOk(db.settings, db.workspaces, db.files, db.versions, db.objects)
    ensures WorkspaceOk(db) && Stored(db.settings, db.versions, db.objects)
    ensures NamesOk(db.workspaces, db.files) && Linear(db.versions) && VersionsLinked(db.files, db.versions)
  {
    hide NamesOk, DistinctVersions, Linear, VersionsLinked, Stored, WithinLimits;
  }

  /** A publication with known origins keeps the invariant; the new version is the last row. */
  lemma PublishKeepsInv(
    db: Db, actor: Actor, workspace: Id, name: string, raw: Bytes, expected: Option<Id>,
    mission: Option<Id>, attempt: Option<Id>, ids: FreshIds)
    returns (f: Id, files: map<Id, File>)
    requires Inv(db) && NewIds(db, ids)
    requires SafeFileName(name) && workspace in db.workspaces && |raw| <= db.settings.maxFileBytes
    requires mission.Some? ==> mission.value in db.missions
    requires attempt.Some? ==> attempt.value in db.attempts
    requires Publish(db, actor, workspace, name, raw, expected, mission, attempt, ids).Ok?
    ensures var after := Publish(db, actor, workspace, name, raw, expected, mission, attempt, ids).value.0;
            && Kept(db, after)
            && after == Extended(db, actor, NextVersion(db, f, raw, mission, attempt, ids), files, raw, workspace)
            && f in files && files[f].workspace == workspace
  {
    hide Life, LedgerOk, LeasesOk, ClaimsOk, FilesOk, OriginsOk, ResultsOk, Publish, Stored, Extends, SafeFileName;
    hide NamesOk, Linear, VersionsLinked, Current, Used, Count, FilesOf, Named;
    hide MissionsGrow, TasksGrow, AttemptsGrow, WorkersGrow;
    WorkspaceOkOf(db);
    f, files := PublishAdvances(db, actor, workspace, name, raw, expected, mission, attempt, ids);
    var v := NextVersion(db, f, raw, mission, attempt, ids);
    var after := Extended(db, actor, v, files, raw, workspace);
    PublishKeepsFiles(db, actor, workspace, name, raw, expected, mission, attempt, ids);
    OriginsExtended(db.missions, db.attempts, db.versions, v);
    ObjectsExtend(db.settings, db.versions, db.objects, raw);
    FilesExtend(db.files, files, f);
    ExtendedGrows(db, actor, v, files, raw, workspace);
    NoteKeepsLedger(db.workspaces, db.missions, db.tasks, db.events,
                    Event(mission, workspace, actor, FilePublished(f, ids.version)));
    ResultsFramed(db, after);
  }

  lemma FilesExtend(files: map<Id, File>, after: map<Id, File>, f: Id)
    requires f in after && (after == files || (f !in files && after == files[f := after[f]]))
    ensures Extends(files, after)
  {
  }

  /** Content that is stored but never committed changes nothing else. */
  lemma OrphanKeepsInv(db: Db, raw: Bytes)
    requires Inv(db)
    ensures Kept(db, db.(objects := db.objects[Sha256(raw) := raw]))
  {
    hide Life, LedgerOk, LeasesOk, ClaimsOk, OriginsOk, ResultsOk, MissionsGrow, TasksGrow, AttemptsGrow, Extends, Stored;
    hide NamesOk, DistinctVersions, Linear, VersionsLinked, WithinLimits;
    OrphanStored(db.settings, db.versions, db.objects, raw);
    ObjectsExtend(db.settings, db.versions, db.objects, raw);
    ExtendsItself(db);
  }

  lemma ExtendsItself(db: Db)
    ensures Grows(db, db)
  {
  }

  lemma OrphanStored(settings: Settings, versions: seq<Version>, objects: map<Digest, Bytes>, raw: Bytes)
    requires Stored(settings, versions, objects)
    ensures Stored(settings, versions, objects[Sha256(raw) := raw])
  {
    var after := objects[Sha256(raw) := raw];
    forall v <- versions
      ensures v.digest in after && v.size == |after[v.digest]|
    {
      assert Sha256(objects[v.digest]) == v.digest;
    }
  }

  lemma UploadKeepsInv(db: Db, p: Principal, workspace: Id, data: Output, ids: FreshIds)
    requires Inv(db) && NewIds(db, ids) && CheckOutput(data, db.settings.maxFileBytes).Ok?
    ensures UploadEffect(db, p, workspace, data, ids).Ok? ==> Kept(db, UploadEffect(db, p, workspace, data, ids).value.0)
  {
    hide Inv, Publish, Kept, SafeFileName, NewIds;
    if UploadEffect(db, p, workspace, data, ids).Ok? {
      var _, _ := PublishKeepsInv(db, Person(p.identity), workspace, data.name, data.content, data.expected, None,
          None, ids);
    }
  }

  // ----- Completion -----

  /** Completing an attempt with a result row for the version it made keeps every result in agreement. */
  lemma CompletionKeepsResults(db: Db, after: Db, r: Id, row: ResultRow, m: Id)
    requires ResultsOk(db.missions, db.tasks, db.attempts, db.files, db.versions, db.results)
    requires MissionsGrow(db.missions, after.missions) && TasksGrow(db.tasks, after.tasks)
    requires AttemptsGrow(db.attempts, after.attempts)
    requires Extends(db.files, after.files) && db.versions <= after.versions
    requires r !in db.results && after.results == db.results[r := row]
    requires row.attempt in db.attempts && db.attempts[row.attempt].state != Completed
    requires ResultOk(after.missions, after.tasks, after.attempts, after.files, after.versions, row, m)
    requires forall n <- after.missions ::
               after.missions[n].state == Completed ==> n == m || (n in db.missions && db.missions[n].state == Completed)
    ensures ResultsOk(after.missions, after.tasks, after.attempts, after.files, after.versions, after.results)
  {
    hide MissionsGrow, TasksGrow, AttemptsGrow, Extends, ResultOk, Produced;
    OtherAttempts(db, row);
    forall s <- after.results
      ensures exists n :: ResultOk(after.missions, after.tasks, after.attempts, after.files, after.versions,
          after.results[s], n)
    {
      if s != r {
        var n :| ResultOk(db.missions, db.tasks, db.attempts, db.files, db.versions, db.results[s], n);
        ResultFramed(db, after, db.results[s], n);
      }
    }
    ProducedOf(after, row, m);
    forall n <- after.missions | after.missions[n].state == Completed
      ensures exists s :: s in after.results && Produced(after.missions, after.tasks, after.attempts, after.results[s], n)
    {
      if n == m {
        assert r in after.results && Produced(after.missions, after.tasks, after.attempts, after.results[r], m);
      } else {
        var s :| s in db.results && Produced(db.missions, db.tasks, db.attempts, db.results[s], n);
        ProducedFramed(db, after, db.results[s], n);
        assert s in after.results;
      }
    }
  }

  lemma ProducedOf(after: Db, row: ResultRow, m: Id)
    requires ResultOk(after.missions, after.tasks, after.attempts, after.files, after.versions, row, m)
    ensures Produced(after.missions, after.tasks, after.attempts, row, m)
  {
  }

  lemma OtherAttempts(db: Db, row: ResultRow)
    requires ResultsOk(db.missions, db.tasks, db.attempts, db.files, db.versions, db.results)
    requires row.attempt in db.attempts && db.attempts[row.attempt].state != Completed
    ensures forall s <- db.results :: db.results[s].attempt != row.attempt
  {
    hide VersionOf;
    forall s <- db.results
      ensures db.results[s].attempt != row.attempt
    {
      var n :| ResultOk(db.missions, db.tasks, db.attempts, db.files, db.versions, db.results[s], n);
    }
  }

  /** The index between a completed attempt's publication and its settlement. */
  ghost function WithResult(stored: Db, r: Id, row: ResultRow): Db {
    stored.(results := stored.results[r := row])
  }

  lemma CompletionGrows(stored: Db, actor: Actor, a: Id, row: Attempt, r: Id, result: ResultRow)
    requires Linked(stored) && a in stored.attempts && Active(stored.attempts[a].state) && SameLease(stored.attempts[a], row)
    requires stored.missions[MissionOf(stored, a)].state == stored.attempts[a].state
    requires Allowed(stored.attempts[a].state, row.state) && r !in stored.results
    ensures Linked(WithResult(stored, r, result))
    ensures Grows(stored, Moved(WithResult(stored, r, result), actor, a, row, ""))
  {
    var between := WithResult(stored, r, result);
    MovedGrows(between, actor, a, row, "");
    hide Moved, MissionsGrow, TasksGrow, AttemptsGrow, WorkersGrow;
  }

  lemma CompletionLife(stored: Db, actor: Actor, a: Id, row: Attempt, r: Id, result: ResultRow)
    requires LifeOf(stored) && a in stored.attempts && Active(stored.attempts[a].state) && SameLease(stored.attempts[a], row)
    requires Allowed(stored.attempts[a].state, row.state) && Settled(row.state)
    ensures var between := WithResult(stored, r, result);
            && Linked(between)
            && Settle(between, actor, a, row, "") == Ok(Moved(between, actor, a, row, ""))
            && LifeOf(Moved(between, actor, a, row, ""))
  {
    hide Life;
    var between := WithResult(stored, r, result);
    LifeLinked(between);
    SettleMoves(between, actor, a, row, "");
    SettleKeepsLife(between, actor, a, row, "");
  }

  lemma CompleteKeepsInv(
    stored: Db, actor: Actor, a: Id, row: Attempt, r: Id, result: ResultRow, i: nat, m: Id)
    requires Inv(stored) && a in stored.attempts && Active(stored.attempts[a].state) && SameLease(stored.attempts[a], row)
    requires Allowed(stored.attempts[a].state, Completed) && row.state == Completed && ReportOk(a, row)
    requires r !in stored.results && result.attempt == a
    requires Linked(stored) && m == MissionOf(stored, a)
    requires VersionOf(stored.files, stored.versions, i, result.version, a, m, stored.missions[m].workspace)
    ensures var between := WithResult(stored, r, result);
            && Linked(between)
            && Settle(between, actor, a, row, "") == Ok(Moved(between, actor, a, row, ""))
            && Kept(stored, Moved(between, actor, a, row, ""))
  {
    hide Life, LedgerOk, LeasesOk, ClaimsOk, FilesOk, OriginsOk, ResultsOk, VersionOf, Settle;
    hide MissionsGrow, TasksGrow, AttemptsGrow, WorkersGrow, Extends;
    var between := WithResult(stored, r, result);
    var after := Moved(between, actor, a, row, "");
    CompletionLife(stored, actor, a, row, r, result);
    ActiveFacts(stored, a);
    CompletionGrows(stored, actor, a, row, r, result);
    SettleKeepsLedger(between, actor, a, row, "");
    MovedKeepsLeases(stored.settings, stored.workers, stored.tasks, stored.attempts, stored.epochs, a, row);
    ClaimsFramed(stored, after);
    OriginsFramed(stored, after);
    assert VersionOf(after.files, after.versions, i, result.version, a, m, after.missions[m].workspace);
    CompletionKeepsResults(stored, after, r, result, m);
  }

  // ----- Finish -----

  /** The row that an accepted result writes. */
  function Reporting(row: Attempt, result: ExecutionResult): Attempt {
    row.(state := result.status, result := Some(result), error := result.error)
  }

  /** The checks before publication leave only permitted moves of an active, unreported attempt. */
  lemma ChecksPassed(db: Db, p: Principal, a: Id, result: ExecutionResult)
    requires Life(db.missions, db.tasks, db.attempts) && Linked(db)
    requires CheckResult(result).Ok? && result.attempt == a
    requires FinishChecks(db, p, a, result) == Ok(false)
    ensures a in db.attempts && Active(db.attempts[a].state) && db.attempts[a].result == None
    ensures Authorize(db, p).Ok? && p.identity == db.attempts[a].worker
    ensures a in db.epochs && p.epoch == Some(db.epochs[a])
    ensures Allowed(db.attempts[a].state, result.status) && Settled(result.status)
    ensures result.status == Cancelled <==> db.missions[MissionOf(db, a)].state == CancelRequested
    ensures SameLease(db.attempts[a], Reporting(db.attempts[a], result)) && ReportOk(a, Reporting(db.attempts[a], result))
  {
    hide TasksMatch, Planned, OneActive, ActiveCovered;
    var row := db.attempts[a];
    MissionStateOf(db, a);
    assert Active(row.state);
  }

  lemma MissionStateOf(db: Db, a: Id)
    requires Life(db.missions, db.tasks, db.attempts) && a in db.attempts
    ensures Linked(db)
    ensures Active(db.attempts[a].state) ==> db.missions[MissionOf(db, a)].state == db.attempts[a].state
  {
  }

  lemma PublishedVersion(db: Db, stored: Db, actor: Actor, a: Id, m: Id, workspace: Id, raw: Bytes, f: Id,
                         files: map<Id, File>, ids: FreshIds)
    requires stored == Extended(db, actor, NextVersion(db, f, raw, Some(m), Some(a), ids), files, raw, workspace)
    requires f in files && files[f].workspace == workspace
    ensures VersionOf(stored.files, stored.versions, |db.versions|, ids.version, a, m, workspace)
    ensures stored.attempts == db.attempts && stored.tasks == db.tasks && stored.missions == db.missions
    ensures stored.results == db.results && stored.objects == db.objects[Sha256(raw) := raw]
  {
  }

  lemma PublishResultShape(db: Db, p: Principal, a: Id, output: Output, ids: FreshIds)
    requires Linked(db) && a in db.attempts && PublishResult(db, p, a, output, ids).Ok?
    ensures output.name == RESULT_FILE && SafeFileName(output.name)
    ensures |output.content| <= db.settings.maxFileBytes && output.expected == db.attempts[a].expected
    ensures var m := MissionOf(db, a);
            var outcome := Publish(db, Person(p.identity), db.missions[m].workspace, output.name, output.content,
                                   db.attempts[a].expected, Some(m), Some(a), ids);
            && outcome.Ok?
            && PublishResult(db, p, a, output, ids).value
               == WithResult(outcome.value.0, ids.result, ResultRow(a, ids.version))
  {
    hide Publish, SafeFileName;
  }

  lemma MissionWorkspace(db: Db, a: Id)
    requires Inv(db) && Linked(db) && a in db.attempts
    ensures db.missions[MissionOf(db, a)].workspace in db.workspaces
  {
    hide Life, LedgerOk, LeasesOk, ClaimsOk, FilesOk, OriginsOk, ResultsOk;
    MissionWorkspaceKnown(db.workspaces, db.missions, db.tasks, db.events, MissionOf(db, a));
  }

  /** Publishing a result and settling its attempt. */
  lemma FinishCompleted(db: Db, p: Principal, a: Id, result: ExecutionResult, ids: FreshIds)
    requires Inv(db) && NewIds(db, ids) && Linked(db)
    requires a in db.attempts && Active(db.attempts[a].state) && Allowed(db.attempts[a].state, Completed)
    requires result.status == Completed && |result.outputs| == 1
    requires SameLease(db.attempts[a], Reporting(db.attempts[a], result)) && ReportOk(a, Reporting(db.attempts[a], result))
    requires PublishResult(db, p, a, result.outputs[0], ids).Ok?
    ensures var stored := PublishResult(db, p, a, result.outputs[0], ids).value;
            var row := Reporting(db.attempts[a], result);
            && Linked(stored) && stored.attempts == db.attempts
            && stored.objects == db.objects[Sha256(result.outputs[0].content) := result.outputs[0].content]
            && Settle(stored, Person(p.identity), a, row, "") == Ok(Moved(stored, Person(p.identity), a, row, ""))
            && Kept(db, Moved(stored, Person(p.identity), a, row, ""))
  {
    hide Inv, Kept, PublishResult, Publish, SafeFileName, Linked, Moved, Settle, VersionOf, NewIds, ReportOk, SameLease;
    var output := result.outputs[0];
    var m := MissionOf(db, a);
    TaskMissionKnown(db, a);
    var workspace := db.missions[m].workspace;
    var actor := Person(p.identity);
    PublishResultShape(db, p, a, output, ids);
    MissionWorkspace(db, a);
    var published := Publish(db, actor, workspace, output.name, output.content, db.attempts[a].expected, Some(m),
        Some(a), ids).value.0;
    var f, files := PublishKeepsInv(db, actor, workspace, output.name, output.content, db.attempts[a].expected,
        Some(m), Some(a), ids);
    PublishedVersion(db, published, actor, a, m, workspace, output.content, f, files, ids);
    KeptFacts(db, published);
    FreshResult(db, ids);
    CompleteKeepsInv(published, actor, a, Reporting(db.attempts[a], result), ids.result, ResultRow(a, ids.version),
        |db.versions|, m);
    KeptTransitive(db, published, Moved(WithResult(published, ids.result, ResultRow(a, ids.version)), actor, a,
        Reporting(db.attempts[a], result), ""));
  }

  lemma FreshResult(db: Db, ids: FreshIds)
    requires NewIds(db, ids)
    ensures ids.result !in db.results
  {
  }

  lemma TaskMissionKnown(db: Db, a: Id)
    requires Linked(db) && a in db.attempts
    ensures MissionOf(db, a) in db.missions
  {
  }

  lemma KeptFacts(before: Db, after: Db)
    requires Kept(before, after)
    ensures Inv(after) && Linked(after)
  {
    hide Inv;
    InvLinked(after);
  }

  /** The whole second transaction of a finish call. */
  ghost predicate FinishDone(db: Db, p: Principal, a: Id, result: ExecutionResult, now: real, after: Db,
      reply: Result<Acknowledgement, Problem>) {
    && Kept(db, after)
    && after.operations == db.operations
    && (reply.Refused? ==> after == db.(objects := after.objects))
    && (reply.Ok? ==>
          && a in db.attempts && Authorize(db, p).Ok? && p.identity == db.attempts[a].worker
          && a in db.epochs && p.epoch == Some(db.epochs[a])
          && a in after.attempts && after.attempts[a].result == Some(result)
          && (if reply.value.duplicate then after == db
              else db.attempts[a].result == None && Active(db.attempts[a].state) && now < db.attempts[a].deadline
                   && after.attempts == db.attempts[a := Reporting(db.attempts[a], result)]
                   && Linked(db) && after.missions == MissionTo(db.missions, MissionOf(db, a), result.status)
                   && (result.status == Cancelled <==> db.missions[MissionOf(db, a)].state == CancelRequested)))
  }

  lemma FinishKeepsInv(db: Db, p: Principal, a: Id, result: ExecutionResult, ids: FreshIds, now: real)
    requires Inv(db) && NewIds(db, ids) && Linked(db)
    ensures FinishDone(db, p, a, result, now, FinishTx(db, p, a, result, ids, now).0, FinishTx(db, p, a, result, ids, now).1)
  {
    hide Inv, Linked, Grows, NewIds, CheckResult, FinishChecks, PublishResult, Settle, FailureAllowed, Authorize;
    hide Allowed, SameLease, ReportOk, Life;
    GrowsNothing(db);
    var verdict := FinishChecks(db, p, a, result);
    if CheckResult(result).Ok? && result.attempt == a && verdict.Ok? {
      if verdict.value {
        DuplicateFacts(db, p, a, result);
      } else {
        LifeOfInv(db);
        ChecksPassed(db, p, a, result);
        TaskMissionKnown(db, a);
        var row := Reporting(db.attempts[a], result);
        if result.status == Completed {
          if |result.outputs| == 1 && PublishResult(db, p, a, result.outputs[0], ids).Ok? {
            FinishCompleted(db, p, a, result, ids);
            OrphanKeepsInv(db, result.outputs[0].content);
            MovedAttempts(PublishResult(db, p, a, result.outputs[0], ids).value, Person(p.identity), a, row);
            PublishKeepsTables(db, p, a, result.outputs[0], ids);
          }
        } else {
          SettleKeepsInv(db, Person(p.identity), a, row, "");
          MovedAttempts(db, Person(p.identity), a, row);
        }
      }
    }
  }

  lemma GrowsNothing(db: Db)
    ensures Grows(db, db)
  {
  }

  lemma LifeOfInv(db: Db)
    requires Inv(db)
    ensures Life(db.missions, db.tasks, db.attempts)
  {
    hide Life, LedgerOk, LeasesOk, ClaimsOk, FilesOk, OriginsOk, ResultsOk;
  }

  lemma DuplicateFacts(db: Db, p: Principal, a: Id, result: ExecutionResult)
    requires Linked(db) && FinishChecks(db, p, a, result) == Ok(true)
    ensures a in db.attempts && db.attempts[a].result == Some(result)
    ensures Authorize(db, p).Ok? && p.identity == db.attempts[a].worker && a in db.epochs && p.epoch == Some(db.epochs[a])
  {
  }

  lemma MovedAttempts(db: Db, actor: Actor, a: Id, row: Attempt)
    requires Linked(db) && a in db.attempts && row.task == db.attempts[a].task
    ensures Moved(db, actor, a, row, "").attempts == db.attempts[a := row]
    ensures Moved(db, actor, a, row, "").operations == db.operations
    ensures MissionOf(db, a) in db.missions
    ensures Moved(db, actor, a, row, "").missions == MissionTo(db.missions, MissionOf(db, a), row.state)
  {
  }

  lemma PublishKeepsTables(db: Db, p: Principal, a: Id, output: Output, ids: FreshIds)
    requires Linked(db) && a in db.attempts && PublishResult(db, p, a, output, ids).Ok?
    ensures PublishResult(db, p, a, output, ids).value.operations == db.operations
    ensures PublishResult(db, p, a, output, ids).value.missions == db.missions
    ensures PublishResult(db, p, a, output, ids).value.tasks == db.tasks
  {
    hide SafeFileName, Used, Newest, FindFile, FilesOf;
  }
}
