/** Exactly which reports and which uploads the control plane accepts, in the caller's terms. */
module Acceptance {
  import opened Base
  import opened Contracts
  import opened Tables
  import opened Transactions
  import opened Lifecycle
  import opened Ledger
  import opened Attempts
  import opened Files
  import opened Growth
  import opened Invariant
  import opened Effects
  import opened Planning
  import opened Delivery
  import opened Identities
  import opened VerifyIndex
  import opened Runs
  import opened Safety

  // ----- The current version -----

  /** This row is the highest-numbered version of the file of this name in a workspace. */
  ghost predicate HighestOf(db: Db, workspace: Id, name: string, v: Version) {
    && v in db.versions && Named(db.files, v.file, workspace, name)
    && forall u <- db.versions | u.file == v.file :: u.number <= v.number
  }

  /** No version of a file of this name is in the workspace. */
  ghost predicate Unpublished(db: Db, workspace: Id, name: string) {
    forall v <- db.versions :: !Named(db.files, v.file, workspace, name)
  }

  /** The caller knows what is current: the identifier of the highest-numbered version, or that there is none. */
  ghost predicate KnowsCurrent(db: Db, workspace: Id, name: string, expected: Option<Id>) {
    match expected
    case None => Unpublished(db, workspace, name)
    case Some(id) => exists v :: HighestOf(db, workspace, name, v) && v.id == id
  }

  lemma {:induction false} NumbersAreCounts(versions: seq<Version>, f: Id)
    requires Linear(versions)
    ensures forall v <- versions | v.file == f :: 1 <= v.number <= Count(versions, f)
    ensures forall u, v | u in versions && v in versions && u.file == f == v.file && u.number == v.number :: u == v
  {
    if versions != [] {
      var front := versions[..|versions| - 1];
      LinearPrefix(versions);
      NumbersAreCounts(front, f);
      assert versions == front + [versions[|versions| - 1]];
    }
  }

  /** The version that the index calls newest is the one with the highest number. */
  lemma NewestIsHighest(db: Db, workspace: Id, name: string, f: Id)
    requires Linear(db.versions) && VersionsLinked(db.files, db.versions) && NamesOk(db.workspaces, db.files)
    requires Named(db.files, f, workspace, name)
    ensures Newest(db.versions, f).Some? && HighestOf(db, workspace, name, Newest(db.versions, f).value)
    ensures Newest(db.versions, f).value.number == Count(db.versions, f) && Newest(db.versions, f).value.file == f
    ensures forall v | HighestOf(db, workspace, name, v) :: v == Newest(db.versions, f).value
  {
    hide Linear;
    NewestIsLast(db.versions, f);
    NumbersAreCounts(db.versions, f);
    assert Count(db.versions, f) >= 1;
  }

  lemma CurrentIsKnown(db: Db, workspace: Id, name: string, expected: Option<Id>)
    requires Linear(db.versions) && VersionsLinked(db.files, db.versions) && NamesOk(db.workspaces, db.files)
    ensures Current(db, workspace, name) == expected <==> KnowsCurrent(db, workspace, name, expected)
  {
    hide Linear, VersionsLinked, NamesOk, HighestOf, Named;
    FoundIsNamed(db, workspace, name);
    var found := FindFile(db.files, workspace, name);
    if found == None {
      NobodyNamed(db, workspace, name);
    } else {
      NewestIsHighest(db, workspace, name, found.value);
      HighestIsPublished(db, workspace, name, Newest(db.versions, found.value).value);
    }
  }

  lemma NobodyNamed(db: Db, workspace: Id, name: string)
    requires forall f: Id :: !Named(db.files, f, workspace, name)
    ensures Unpublished(db, workspace, name) && forall v :: !HighestOf(db, workspace, name, v)
  {
  }

  lemma HighestIsPublished(db: Db, workspace: Id, name: string, v: Version)
    requires HighestOf(db, workspace, name, v)
    ensures !Unpublished(db, workspace, name)
  {
  }

  /** There is room for so many more bytes, and for one more version or one more file. */
  ghost predicate HasRoom(db: Db, workspace: Id, name: string, size: nat) {
    && Used(db.versions, db.files, workspace) + size <= db.settings.quotaBytes
    && (Unpublished(db, workspace, name) ==> |FilesOf(db.files, workspace)| < 100)
    && (forall v | HighestOf(db, workspace, name, v) :: v.number < 100)
  }

  // ----- Publications -----

  /** One version was appended: these bytes, under the next number of the file of this name; all else in the tables stays. */
  ghost predicate Appended(
    db: Db, after: Db, workspace: Id, name: string, raw: Bytes, mission: Option<Id>, attempt: Option<Id>, v: Version) {
    && after.versions == db.versions + [v]
    && v.size == |raw| && v.digest == Sha256(raw) && v.mission == mission && v.attempt == attempt
    && Named(after.files, v.file, workspace, name)
    && (Unpublished(db, workspace, name) ==> v.number == 1)
    && (forall u | HighestOf(db, workspace, name, u) :: v.file == u.file && v.number == u.number + 1)
    && HighestOf(after, workspace, name, v)
    && v.digest in after.objects && after.objects[v.digest] == raw
  }

  lemma NewestDecides(
    db: Db, actor: Actor, workspace: Id, name: string, raw: Bytes, expected: Option<Id>,
    mission: Option<Id>, attempt: Option<Id>, ids: FreshIds)
    requires WorkspaceOk(db)
    ensures Publish(db, actor, workspace, name, raw, expected, mission, attempt, ids).Ok? <==>
            KnowsCurrent(db, workspace, name, expected) && HasRoom(db, workspace, name, |raw|)
  {
    hide Linear, Stored, WithinLimits, NamesOk, VersionsLinked, Used, FilesOf, Named, HighestOf, Unpublished, KnowsCurrent,
        DistinctVersions, Newest;
    CurrentIsKnown(db, workspace, name, expected);
    FoundIsNamed(db, workspace, name);
    NeverCorrupted(db, actor, workspace, name, raw, expected, mission, attempt, ids);
    NothingCorrupted(db, raw);
    var found := FindFile(db.files, workspace, name);
    if found == None {
      NobodyNamed(db, workspace, name);
    } else {
      NewestIsHighest(db, workspace, name, found.value);
      HighestIsPublished(db, workspace, name, Newest(db.versions, found.value).value);
    }
  }

  lemma NothingCorrupted(db: Db, raw: Bytes)
    requires Stored(db.settings, db.versions, db.objects)
    ensures Sha256(raw) in db.objects ==> db.objects[Sha256(raw)] == raw
  {
    assert Sha256(raw) in db.objects ==> Sha256(db.objects[Sha256(raw)]) == Sha256(raw);
  }

  /** What a publication appends, and what it answers. */
  lemma PublicationAppends(
    db: Db, actor: Actor, workspace: Id, name: string, raw: Bytes, expected: Option<Id>,
    mission: Option<Id>, attempt: Option<Id>, ids: FreshIds) returns (v: Version)
    requires WorkspaceOk(db) && NewIds(db, ids)
    requires SafeFileName(name) && workspace in db.workspaces && |raw| <= db.settings.maxFileBytes
    requires Publish(db, actor, workspace, name, raw, expected, mission, attempt, ids).Ok?
    ensures var (after, reply) := Publish(db, actor, workspace, name, raw, expected, mission, attempt, ids).value;
            && Appended(db, after, workspace, name, raw, mission, attempt, v)
            && v.id == ids.version
            && reply == Published(v.file, v.id, v.digest, v.size)
  {
    hide Linear, Stored, WithinLimits, NamesOk, VersionsLinked, Used, FilesOf, Named, HighestOf, Unpublished, Publish,
        DistinctVersions, Newest, SafeFileName, Count, NewIds;
    var outcome := Publish(db, actor, workspace, name, raw, expected, mission, attempt, ids);
    var after := outcome.value.0;
    var f, files := PublishAdvances(db, actor, workspace, name, raw, expected, mission, attempt, ids);
    PublishKeepsFiles(db, actor, workspace, name, raw, expected, mission, attempt, ids);
    v := NextVersion(db, f, raw, mission, attempt, ids);
    ReplyNames(db, actor, workspace, name, raw, expected, mission, attempt, ids);
    assert after.versions[|db.versions|] == v;
    NewName(db, f, files, workspace, name);
    NewestIsHighest(after, workspace, name, f);
    LastIsHighest(after.versions, v, f);
    if f in db.files {
      NewestIsHighest(db, workspace, name, f);
      HighestIsPublished(db, workspace, name, Newest(db.versions, f).value);
    } else {
      NobodyNamed(db, workspace, name);
      NewFileCount(db, ids);
    }
  }

  lemma NewName(db: Db, f: Id, files: map<Id, File>, workspace: Id, name: string)
    requires f in db.files ==> files == db.files && Named(db.files, f, workspace, name)
    requires f !in db.files ==> files == db.files[f := File(workspace, name)]
    ensures Named(files, f, workspace, name)
  {
  }

  lemma LastIsHighest(versions: seq<Version>, v: Version, f: Id)
    requires versions != [] && versions[|versions| - 1] == v && v.file == f && Linear(versions)
    ensures Newest(versions, f) == Some(v)
  {
    var front := versions[..|versions| - 1];
    LinearPrefix(versions);
    NewestIsLast(front, f);
    assert versions[|versions| - 1].number == Count(front, f) + 1;
  }

  lemma ReplyNames(
    db: Db, actor: Actor, workspace: Id, name: string, raw: Bytes, expected: Option<Id>,
    mission: Option<Id>, attempt: Option<Id>, ids: FreshIds)
    requires Publish(db, actor, workspace, name, raw, expected, mission, attempt, ids).Ok?
    ensures var (after, reply) := Publish(db, actor, workspace, name, raw, expected, mission, attempt, ids).value;
            && |after.versions| == |db.versions| + 1
            && (var v := after.versions[|db.versions|]; reply == Response.Published(v.file, v.id, v.digest, v.size))
  {
    hide FindFile, Newest, Used, FilesOf;
  }

  // ----- Reports -----

  /** The worker of the attempt, under the credential of its claim, while the attempt is active, unreported and in time. */
  ghost predicate MayReport(db: Db, p: Principal, a: Id, now: real) {
    && p.role == WorkerRole
    && p.identity in db.workers && db.workers[p.identity].active && p.epoch == Some(db.workers[p.identity].epoch)
    && a in db.attempts && a in db.epochs
    && db.attempts[a].worker == p.identity && p.epoch == Some(db.epochs[a])
    && Active(db.attempts[a].state) && db.attempts[a].result == None
    && now < db.attempts[a].deadline
  }

  /** An output that completes an attempt. */
  ghost predicate GoodOutput(db: Db, a: Id, output: Output)
    requires Linked(db) && a in db.attempts && db.attempts[a].worker in db.workers
  {
    var workspace := db.missions[MissionOf(db, a)].workspace;
    && output.name == "resultat.md"
    && output.expected == db.attempts[a].expected
    && |output.content| == output.size && Sha256(output.content) == output.digest
    && output.size <= 65536 && output.size <= db.settings.maxFileBytes
    && output.size <= db.workers[db.attempts[a].worker].maxOutput
    && KnowsCurrent(db, workspace, "resultat.md", output.expected)
    && HasRoom(db, workspace, "resultat.md", |output.content|)
  }

  /** A report that fits the attempt, its state and the contract of its task. */
  ghost predicate GoodReport(db: Db, a: Id, result: ExecutionResult)
    requires Linked(db) && a in db.attempts && db.attempts[a].worker in db.workers
  {
    var row := db.attempts[a];
    var capability := db.tasks[row.task].capability;
    && result.attempt == a && result.generation == row.generation
    && (match result.status
        case Completed =>
          row.state == Running && result.error == None && |result.outputs| == 1 && GoodOutput(db, a, result.outputs[0])
        case Failed =>
          && row.state == Running && result.outputs == []
          && (capability == Demo ==> result.error == Some(SimulatedFailure))
          && (capability == CpuDigest ==> result.error == Some(CpuExecutionFailed))
        case Interrupted =>
          && row.state == Running && result.outputs == []
          && (capability == Demo ==> result.error == Some(SimulatedInterruption))
          && (capability == CpuDigest ==> result.error == Some(CpuInterrupted) || result.error == Some(CpuDeadlineExceeded))
        case Cancelled => row.state == CancelRequested && result.outputs == [] && result.error == None
        case _ => false)
  }

  lemma ResultNameIsSafe()
    ensures SafeFileName("resultat.md")
  {
    var name := "resultat.md";
    assert name[7..] == "t.md" && Stem(name[8..]) == "";
    assert Stem(name[7..]) == "t";
    assert name[6..][1..] == name[7..] && name[5..][1..] == name[6..] && name[4..][1..] == name[5..];
    assert name[3..][1..] == name[4..] && name[2..][1..] == name[3..] && name[1..][1..] == name[2..];
    assert |Stem(name[6..])| == 2;
    assert |Stem(name[5..])| == 3;
    assert |Stem(name[4..])| == 4;
    assert |Stem(name)| > 4;
    assert |Fold(Stem(name))| > 4;
  }

  lemma Authorized(db: Db, p: Principal, a: Id, now: real)
    requires Inv(db) && MayReport(db, p, a, now)
    ensures Authorize(db, p) == Ok(db.workers[p.identity])
  {
    hide Inv, Policy;
    KnownPolicy(db, p.identity);
  }

  lemma ChecksDecide(db: Db, p: Principal, a: Id, result: ExecutionResult, now: real)
    requires Inv(db) && Linked(db) && MayReport(db, p, a, now)
    ensures FinishChecks(db, p, a, result) == Ok(false) <==>
            && result.generation == db.attempts[a].generation
            && (db.attempts[a].state == CancelRequested ==>
                  result.status == Cancelled && result.outputs == [] && result.error == None)
            && (db.attempts[a].state == Running ==> result.status != Cancelled)
    ensures FinishChecks(db, p, a, result) != Ok(true)
  {
    hide Inv, Linked, Authorize, Life;
    Authorized(db, p, a, now);
    LifeOfInv(db);
    MissionStateOf(db, a);
  }

  lemma OutputDecides(db: Db, p: Principal, a: Id, output: Output, ids: FreshIds, now: real)
    requires Inv(db) && Linked(db) && MayReport(db, p, a, now)
    ensures db.attempts[a].worker in db.workers
    ensures PublishResult(db, p, a, output, ids).Ok? <==> GoodOutput(db, a, output)
  {
    hide Inv, Linked, Authorize, SafeFileName, Publish, WorkspaceOk, KnowsCurrent, HasRoom, Policy;
    Authorized(db, p, a, now);
    KnownPolicy(db, p.identity);
    ResultNameIsSafe();
    WorkspaceOfInv(db);
    TaskMissionKnown(db, a);
    var m := MissionOf(db, a);
    NewestDecides(db, Person(p.identity), db.missions[m].workspace, output.name, output.content, db.attempts[a].expected,
                  Some(m), Some(a), ids);
  }

  lemma WorkspaceOfInv(db: Db)
    requires Inv(db)
    ensures WorkspaceOk(db)
  {
    hide Life, LedgerOk, LeasesOk, ClaimsOk, FilesOk, OriginsOk, ResultsOk;
  }

  /** A report that passes the checks and the deadline is settled without a further refusal. */
  lemma SettledWhenChecked(db: Db, p: Principal, a: Id, result: ExecutionResult, ids: FreshIds, now: real)
    requires Inv(db) && Linked(db) && NewIds(db, ids) && MayReport(db, p, a, now)
    requires CheckResult(result).Ok? && result.attempt == a && FinishChecks(db, p, a, result) == Ok(false)
    requires if result.status == Completed
             then result.error == None && |result.outputs| == 1 && PublishResult(db, p, a, result.outputs[0], ids).Ok?
             else result.outputs == []
                  && FailureAllowed(db.tasks[db.attempts[a].task].capability, result.status, result.error)
    ensures FinishTx(db, p, a, result, ids, now).1 == Ok(Acknowledgement(MissionOf(db, a), false))
    ensures var stored := if result.status == Completed then PublishResult(db, p, a, result.outputs[0], ids).value else db;
            && Linked(stored) && stored.attempts == db.attempts
            && FinishTx(db, p, a, result, ids, now).0
               == Moved(stored, Person(p.identity), a, Reporting(db.attempts[a], result), "")
  {
    hide Inv, Linked, NewIds, CheckResult, FinishChecks, PublishResult, Settle, FailureAllowed, Authorize, Moved;
    hide Allowed, SameLease, ReportOk, Life, Kept;
    LifeOfInv(db);
    ChecksPassed(db, p, a, result);
    TaskMissionKnown(db, a);
    if result.status == Completed {
      FinishCompleted(db, p, a, result, ids);
    } else {
      SettleKeepsInv(db, Person(p.identity), a, Reporting(db.attempts[a], result), "");
    }
  }

  lemma RefusedWhenUnchecked(db: Db, p: Principal, a: Id, result: ExecutionResult, ids: FreshIds, now: real)
    requires Linked(db)
    requires FinishTx(db, p, a, result, ids, now).1.Ok? && !FinishTx(db, p, a, result, ids, now).1.value.duplicate
    ensures a in db.attempts && CheckResult(result).Ok? && result.attempt == a && FinishChecks(db, p, a, result) == Ok(false)
    ensures if result.status == Completed
            then result.error == None && |result.outputs| == 1 && PublishResult(db, p, a, result.outputs[0], ids).Ok?
            else result.outputs == []
                 && FailureAllowed(db.tasks[db.attempts[a].task].capability, result.status, result.error)
    ensures now < db.attempts[a].deadline && p.role == WorkerRole
  {
    hide CheckResult, PublishResult, Settle, FailureAllowed, Authorize, Linked;
  }

  lemma GoodReportIsWellFormed(db: Db, a: Id, result: ExecutionResult)
    requires Linked(db) && a in db.attempts && db.attempts[a].worker in db.workers && GoodReport(db, a, result)
    ensures CheckResult(result).Ok?
  {
    hide GoodOutput, Linked;
  }

  /**
   * A report is accepted exactly when its sender may report on the attempt and the report fits it: a completed one with
   * the one agreed file over its current version and with room for it, a failed or an interrupted one with an error
   * code of its contract, and a cancelled one exactly when the attempt was asked to stop.
   */
  lemma AcceptedExactly(db: Db, p: Principal, a: Id, result: ExecutionResult, ids: FreshIds, now: real)
    requires Inv(db) && Linked(db) && NewIds(db, ids)
    ensures MayReport(db, p, a, now) ==> db.attempts[a].worker in db.workers
    ensures (exists m: Id :: FinishTx(db, p, a, result, ids, now).1 == Ok(Acknowledgement(m, false))) <==>
            MayReport(db, p, a, now) && GoodReport(db, a, result)
  {
    hide Inv, NewIds, CheckResult, FinishChecks, PublishResult, FinishTx, Authorize, Policy, Life, GoodOutput, Kept;
    hide Linked;
    var reply := FinishTx(db, p, a, result, ids, now).1;
    if reply.Ok? && !reply.value.duplicate {
      FinishKeepsInv(db, p, a, result, ids, now);
      RefusedWhenUnchecked(db, p, a, result, ids, now);
      AuthorizedMeans(db, p);
      assert MayReport(db, p, a, now);
      ChecksDecide(db, p, a, result, now);
      TaskMissionKnown(db, a);
      if |result.outputs| == 1 {
        OutputDecides(db, p, a, result.outputs[0], ids, now);
      }
      assert GoodReport(db, a, result);
      assert reply == Ok(Acknowledgement(reply.value.mission, false));
    }
    if MayReport(db, p, a, now) && GoodReport(db, a, result) {
      GoodReportIsWellFormed(db, a, result);
      ChecksDecide(db, p, a, result, now);
      if |result.outputs| == 1 {
        OutputDecides(db, p, a, result.outputs[0], ids, now);
      }
      SettledWhenChecked(db, p, a, result, ids, now);
    }
  }

  lemma AuthorizedMeans(db: Db, p: Principal)
    requires Authorize(db, p).Ok?
    ensures p.role == WorkerRole && p.identity in db.workers && db.workers[p.identity].active
    ensures p.epoch == Some(db.workers[p.identity].epoch)
  {
    hide Policy;
  }

  /** The three rows of an accepted report carry its status, and the attempt keeps the report and its error code. */
  ghost predicate ReportedIn(db: Db, a: Id, result: ExecutionResult, after: Db)
    requires Linked(db) && a in db.attempts
  {
    var row, m := db.attempts[a], MissionOf(db, a);
    && after.attempts == db.attempts[a := row.(state := result.status, result := Some(result), error := result.error)]
    && after.tasks == db.tasks[row.task := db.tasks[row.task].(state := result.status)]
    && after.missions == db.missions[m := db.missions[m].(state := result.status)]
  }

  lemma MovedReports(db: Db, actor: Actor, a: Id, result: ExecutionResult)
    requires Linked(db) && a in db.attempts
    ensures ReportedIn(db, a, result, Moved(db, actor, a, Reporting(db.attempts[a], result), ""))
    ensures var after := Moved(db, actor, a, Reporting(db.attempts[a], result), "");
            && after.versions == db.versions && after.files == db.files && after.results == db.results
            && after.objects == db.objects
  {
  }

  lemma AppendedFramed(
    db: Db, stored: Db, after: Db, workspace: Id, name: string, raw: Bytes, mission: Option<Id>, attempt: Option<Id>,
    v: Version)
    requires Appended(db, stored, workspace, name, raw, mission, attempt, v)
    requires after.versions == stored.versions && after.files == stored.files && after.objects == stored.objects
    ensures Appended(db, after, workspace, name, raw, mission, attempt, v)
  {
    hide Unpublished;
  }

  lemma PublishResultAppends(db: Db, p: Principal, a: Id, output: Output, ids: FreshIds) returns (v: Version)
    requires Inv(db) && Linked(db) && NewIds(db, ids) && a in db.attempts && PublishResult(db, p, a, output, ids).Ok?
    ensures var m := MissionOf(db, a);
            var stored := PublishResult(db, p, a, output, ids).value;
            && Linked(stored) && stored.attempts == db.attempts && stored.tasks == db.tasks && stored.missions == db.missions
            && Appended(db, stored, db.missions[m].workspace, "resultat.md", output.content, Some(m), Some(a), v)
            && v.id == ids.version
            && stored.results == db.results[ids.result := ResultRow(a, ids.version)]
  {
    hide Inv, NewIds, Linked, PublishResult, Publish, SafeFileName, WorkspaceOk, Appended;
    var m := MissionOf(db, a);
    TaskMissionKnown(db, a);
    PublishResultShape(db, p, a, output, ids);
    MissionWorkspace(db, a);
    WorkspaceOfInv(db);
    var workspace := db.missions[m].workspace;
    v := PublicationAppends(db, Person(p.identity), workspace, output.name, output.content, db.attempts[a].expected,
                            Some(m), Some(a), ids);
    var published := Publish(db, Person(p.identity), workspace, output.name, output.content, db.attempts[a].expected,
                             Some(m), Some(a), ids).value.0;
    PublishTables(db, Person(p.identity), workspace, output.name, output.content, db.attempts[a].expected, Some(m), Some(a),
                  ids);
    SameTablesLinked(db, WithResult(published, ids.result, ResultRow(a, ids.version)));
    AppendedFramed(db, published, WithResult(published, ids.result, ResultRow(a, ids.version)), workspace, output.name,
                   output.content, Some(m), Some(a), v);
  }

  lemma SameTablesLinked(db: Db, after: Db)
    requires Linked(db) && after.missions == db.missions && after.tasks == db.tasks && after.attempts == db.attempts
    ensures Linked(after)
  {
  }

  lemma PublishTables(
    db: Db, actor: Actor, workspace: Id, name: string, raw: Bytes, expected: Option<Id>,
    mission: Option<Id>, attempt: Option<Id>, ids: FreshIds)
    requires Publish(db, actor, workspace, name, raw, expected, mission, attempt, ids).Ok?
    ensures var after := Publish(db, actor, workspace, name, raw, expected, mission, attempt, ids).value.0;
            && after.attempts == db.attempts && after.missions == db.missions && after.tasks == db.tasks
            && after.results == db.results
  {
    hide FindFile, Newest, Used, FilesOf;
  }

  /**
   * What an accepted report leaves: its status in the attempt, the task and the mission; and for a completed one exactly
   * one more version of the agreed file, with the bytes of the report, tied to the attempt by one more result.
   */
  lemma AcceptedSettles(db: Db, p: Principal, a: Id, result: ExecutionResult, ids: FreshIds, now: real)
    requires Inv(db) && Linked(db) && NewIds(db, ids) && MayReport(db, p, a, now)
    ensures db.attempts[a].worker in db.workers
    ensures GoodReport(db, a, result) ==>
              var (after, reply) := FinishTx(db, p, a, result, ids, now);
              var m := MissionOf(db, a);
              && reply == Ok(Acknowledgement(m, false))
              && ReportedIn(db, a, result, after)
              && (if result.status == Completed then
                    (exists v :: Appended(db, after, db.missions[m].workspace, "resultat.md", result.outputs[0].content,
                                          Some(m), Some(a), v) && v.id == ids.version)
                    && after.results == db.results[ids.result := ResultRow(a, ids.version)]
                  else
                    after.versions == db.versions && after.files == db.files && after.results == db.results
                    && after.objects == db.objects)
  {
    hide Inv, NewIds, CheckResult, FinishChecks, PublishResult, FinishTx, Authorize, GoodOutput, Moved, Appended, ReportedIn,
        Linked;
    if GoodReport(db, a, result) {
      GoodReportIsWellFormed(db, a, result);
      ChecksDecide(db, p, a, result, now);
      if result.status == Completed {
        OutputDecides(db, p, a, result.outputs[0], ids, now);
        SettledWhenChecked(db, p, a, result, ids, now);
        var v := PublishResultAppends(db, p, a, result.outputs[0], ids);
        var stored := PublishResult(db, p, a, result.outputs[0], ids).value;
        MovedReports(stored, Person(p.identity), a, result);
        SameReported(db, stored, a, result, FinishTx(db, p, a, result, ids, now).0);
        TaskMissionKnown(db, a);
        AppendedFramed(db, stored, FinishTx(db, p, a, result, ids, now).0, db.missions[MissionOf(db, a)].workspace,
                       "resultat.md", result.outputs[0].content, Some(MissionOf(db, a)), Some(a), v);
      } else {
        SettledWhenChecked(db, p, a, result, ids, now);
        MovedReports(db, Person(p.identity), a, result);
      }
    }
  }

  lemma SameReported(db: Db, stored: Db, a: Id, result: ExecutionResult, after: Db)
    requires Linked(db) && Linked(stored) && a in db.attempts && stored.attempts == db.attempts
    requires stored.tasks == db.tasks && stored.missions == db.missions && ReportedIn(stored, a, result, after)
    ensures ReportedIn(db, a, result, after)
  {
  }

  // ----- Repetitions -----

  /** What no report can be without being malformed. */
  ghost predicate WellFormed(result: ExecutionResult) {
    && result.status in {Completed, Failed, Cancelled, Interrupted} && |result.outputs| <= 1
    && result.error !in {Some(BackendRestart), Some(AttemptExpired), Some(WorkerRevoked)}
  }

  /** Once an attempt has its report, the same report is a duplicate and any other is refused; nothing changes. */
  lemma ReportedOnce(db: Db, p: Principal, a: Id, result: ExecutionResult, ids: FreshIds, now: real)
    requires Inv(db) && Linked(db) && NewIds(db, ids) && WellFormed(result) && result.attempt == a
    requires p.role == WorkerRole && p.identity in db.workers && db.workers[p.identity].active
    requires p.epoch == Some(db.workers[p.identity].epoch)
    requires a in db.attempts && a in db.epochs && db.attempts[a].worker == p.identity && p.epoch == Some(db.epochs[a])
    requires db.attempts[a].result.Some? && db.attempts[a].generation == result.generation
    ensures FinishTx(db, p, a, result, ids, now)
            == (db, if db.attempts[a].result == Some(result) then Ok(Acknowledgement(MissionOf(db, a), true))
                    else Refused(ResultConflict))
  {
    hide Inv, Linked, NewIds, PublishResult, Settle, FailureAllowed, Policy;
    KnownPolicy(db, p.identity);
  }

  /** A report that was accepted, sent again at any later time under a credential that is still good, is a duplicate. */
  lemma AcceptedAgain(states: seq<Db>, actions: seq<Action>, i: nat, j: nat, now: real)
    requires Run(states, actions) && i < j < |states| && actions[i].Finish?
    requires Linked(states[i]) && MayReport(states[i], actions[i].p, actions[i].a, actions[i].now)
    requires states[i].attempts[actions[i].a].worker in states[i].workers
    requires GoodReport(states[i], actions[i].a, actions[i].result)
    requires Linked(states[j]) && Authorize(states[j], actions[i].p).Ok? && NewIds(states[j], actions[i].ids)
    ensures FinishTx(states[j], actions[i].p, actions[i].a, actions[i].result, actions[i].ids, now)
            == (states[j], Ok(Acknowledgement(MissionOf(states[i], actions[i].a), true)))
  {
    hide Inv, Linked, Enabled, GoodReport, FinishTx, Authorize, NewIds, Begins, ReportedIn, MayReport, Grows;
    var p, a, result := actions[i].p, actions[i].a, actions[i].result;
    assert StepsTo(states[i], actions[i], states[i + 1]);
    RunKeepsInv(states, actions, i);
    RunKeepsInv(states, actions, j);
    NewIdsOf(states[i], actions[i]);
    AcceptedSettles(states[i], p, a, result, actions[i].ids, actions[i].now);
    MayReportFacts(states[i], p, a, actions[i].now);
    GoodReportFacts(states[i], a, result);
    ReportStays(states, actions, i, j, a, result);
    AuthorizedMeans(states[j], p);
    ReportedOnce(states[j], p, a, result, actions[i].ids, now);
  }

  lemma NewIdsOf(db: Db, action: Action)
    requires Enabled(db, action) && action.Finish?
    ensures NewIds(db, action.ids)
  {
    hide NewIds;
  }

  lemma GoodReportFacts(db: Db, a: Id, result: ExecutionResult)
    requires Linked(db) && a in db.attempts && db.attempts[a].worker in db.workers && GoodReport(db, a, result)
    ensures WellFormed(result) && result.attempt == a && result.generation == db.attempts[a].generation
  {
    hide GoodOutput, Linked;
  }

  lemma MayReportFacts(db: Db, p: Principal, a: Id, now: real)
    requires MayReport(db, p, a, now)
    ensures a in db.attempts && a in db.epochs && db.attempts[a].worker == p.identity && p.epoch == Some(db.epochs[a])
  {
  }

  lemma ReportStays(states: seq<Db>, actions: seq<Action>, i: nat, j: nat, a: Id, result: ExecutionResult)
    requires Run(states, actions) && i < j < |states| && Linked(states[i]) && a in states[i].attempts
    requires a in states[i].epochs && ReportedIn(states[i], a, result, states[i + 1]) && WellFormed(result)
    ensures a in states[j].attempts && states[j].attempts[a].result == Some(result)
    ensures SameLease(states[i].attempts[a], states[j].attempts[a])
    ensures a in states[j].epochs && states[j].epochs[a] == states[i].epochs[a]
    ensures Linked(states[j]) && MissionOf(states[j], a) == MissionOf(states[i], a)
  {
    hide Run, Inv, Linked, Enabled, Apply, MissionsGrow, WorkersGrow;
    RunKeepsInv(states, actions, j);
    InvLinked(states[j]);
    RunGrows(states, actions, i, j);
    SettledForever(states, actions, i + 1, j, a);
    TaskMissionKnown(states[i], a);
    TaskMissionKnown(states[j], a);
    SameTask(states[i], states[j], a);
  }

  lemma SameTask(db: Db, later: Db, a: Id)
    requires Linked(db) && Linked(later) && a in db.attempts && a in later.attempts
    requires TasksGrow(db.tasks, later.tasks) && SameLease(db.attempts[a], later.attempts[a])
    ensures MissionOf(later, a) == MissionOf(db, a)
  {
    var t := db.attempts[a].task;
    assert later.tasks[t].(state := db.tasks[t].state) == db.tasks[t];
  }
}
