/** Exactly when a new call of an owner succeeds, and what it leaves, in the caller's terms. */
module Decisions {
  import opened Base
  import opened Contracts
  import opened Tables
  import opened Transactions
  import opened Lifecycle
  import opened Ledger
  import opened Attempts
  import opened Files
  import opened Growth
  import opened Invariant
  import opened Effects
  import opened Planning
  import opened Delivery
  import opened Identities
  import opened Runs
  import opened Safety
  import opened Acceptance

  /** A call that may happen now and that no record answers. */
  ghost predicate NewCall(db: Db, action: Action) {
    && Linked(db) && Enabled(db, action)
    && (action.Create? || action.Approve? || action.Cancel? || action.Retry? || action.Upload?)
    && KeyOf(action).value !in db.operations
  }

  ghost predicate Owns(db: Db, p: Principal, m: Id) {
    p.role == AdminRole && m in db.missions && db.missions[m].owner == p.identity
  }

  // ----- Create -----

  predicate SaysSomething(value: string, maximum: nat) {
    |value| <= maximum && '\0' !in value && exists i :: 0 <= i < |value| && !Blank(value[i])
  }

  ghost predicate VersionIn(db: Db, workspace: Id, id: Id) {
    exists v :: v in db.versions && v.id == id && v.file in db.files && db.files[v.file].workspace == workspace
  }

  ghost predicate MayCreate(db: Db, p: Principal, capability: Capability, draft: MissionDraft, now: real) {
    && p.role == AdminRole && now >= 0.0
    && draft.workspace in db.workspaces && db.workspaces[draft.workspace] == p.identity
    && SaysSomething(draft.title, 160) && SaysSomething(draft.objective, 4000)
    && |draft.files| <= 32 && (forall i, j | 0 <= i < j < |draft.files| :: draft.files[i] != draft.files[j])
    && (forall f <- draft.files :: VersionIn(db, draft.workspace, f))
    && (capability == CpuDigest ==> draft.files == [])
  }

  lemma ReadableMeans(db: Db, workspace: Id, id: Id)
    ensures Readable(db, workspace, id) <==> VersionIn(db, workspace, id)
  {
    if VersionIn(db, workspace, id) {
      var v :| v in db.versions && v.id == id && v.file in db.files && db.files[v.file].workspace == workspace;
      var i :| 0 <= i < |db.versions| && db.versions[i] == v;
    }
  }

  lemma FilesMean(db: Db, draft: MissionDraft)
    ensures (exists i | 0 <= i < |draft.files| :: !Readable(db, draft.workspace, draft.files[i]))
            <==> !(forall f <- draft.files :: VersionIn(db, draft.workspace, f))
  {
    hide Readable, VersionIn;
    forall id: Id {
      ReadableMeans(db, draft.workspace, id);
    }
  }

  lemma DraftMeans(capability: Capability, draft: MissionDraft)
    ensures CheckDraft(capability, draft).Ok? <==>
            && SaysSomething(draft.title, 160) && SaysSomething(draft.objective, 4000)
            && |draft.files| <= 32 && (forall i, j | 0 <= i < j < |draft.files| :: draft.files[i] != draft.files[j])
            && (capability == CpuDigest ==> draft.files == [])
  {
    hide Blank;
  }

  /** A mission is created exactly by the owner of its workspace, from a clean draft over versions of that workspace. */
  lemma CreateSucceedsIff(db: Db, action: Action)
    requires NewCall(db, action) && action.Create?
    ensures AnswerTo(db, action).Ok? <==> MayCreate(db, action.p, action.capability, action.draft, action.now)
    ensures AnswerTo(db, action).Ok? ==> AnswerTo(db, action).value == MissionView(action.identity, Draft)
  {
    hide Linked, CheckDraft, Readable, VersionIn, SaysSomething;
    DraftMeans(action.capability, action.draft);
    FilesMean(db, action.draft);
  }

  // ----- Approve -----

  /** A plan that repeats the closed contract of a capability and gives the work to an active worker that has it. */
  ghost predicate GoodPlan(db: Db, capability: Capability, plan: Plan) {
    && plan.schema == "pepeuch.control-plane/plan/v1"
    && plan.capability == capability
    && (match capability
        case Demo =>
          plan.spec.role == "demo-report" && plan.spec.instruction == "produce_deterministic_report" && plan.spec.simulated
        case CpuDigest =>
          && plan.spec.role == "cpu-text-digest" && plan.spec.instruction == "hash_authorized_objective_utf8"
          && !plan.spec.simulated)
    && |plan.outputs| == 1 && plan.outputs[0] == "resultat.md"
    && plan.worker in db.workers && db.workers[plan.worker].active && db.workers[plan.worker].capability == capability
  }

  lemma PlanMeans(db: Db, capability: Capability, plan: Plan)
    ensures PlanAccepted(db, capability, plan) <==> GoodPlan(db, capability, plan)
  {
  }

  /**
   * A mission is approved exactly when its owner asks for it, it is still a draft, and the plan is good for the contract
   * that the mission declared; it is then queued, with one new task for the planned worker.
   */
  lemma ApproveSucceedsIff(db: Db, action: Action)
    requires Inv(db) && NewCall(db, action) && action.Approve?
    ensures action.m in db.missions ==> RequiredCapability(db.events, action.m).Ok?
    ensures AnswerTo(db, action).Ok? <==>
            && Owns(db, action.p, action.m) && db.missions[action.m].state == Draft
            && GoodPlan(db, RequiredCapability(db.events, action.m).value, action.plan)
    ensures AnswerTo(db, action).Ok? ==>
              var next, capability := Apply(db, action), RequiredCapability(db.events, action.m).value;
              && AnswerTo(db, action).value == MissionView(action.m, Queued)
              && next.missions == db.missions[action.m := db.missions[action.m].(state := Queued)]
              && next.tasks == db.tasks[action.identity := Task(action.m, capability, action.plan.worker, Queued)]
              && next.attempts == db.attempts
  {
    hide Inv, Linked, PlanAccepted, GoodPlan, RequiredCapability, ApproveEffect;
    ContractKnown(db, action.m);
    ApproveDecided(db, action.p, action.m, action.plan, action.identity);
  }

  lemma ContractKnown(db: Db, m: Id)
    requires Inv(db)
    ensures m in db.missions ==> RequiredCapability(db.events, m).Ok?
  {
    hide Life, LeasesOk, ClaimsOk, FilesOk, OriginsOk, ResultsOk, HistoryOk, LedgerLinked, RequiredCapability;
  }

  lemma ApproveDecided(db: Db, p: Principal, m: Id, plan: Plan, identity: Id)
    requires m in db.missions ==> RequiredCapability(db.events, m).Ok?
    ensures ApproveEffect(db, p, m, plan, identity).Ok? <==>
            && m in db.missions && db.missions[m].owner == p.identity && db.missions[m].state == Draft
            && GoodPlan(db, RequiredCapability(db.events, m).value, plan)
    ensures ApproveEffect(db, p, m, plan, identity).Ok? ==>
              var (next, answer) := ApproveEffect(db, p, m, plan, identity).value;
              && answer == MissionView(m, Queued)
              && next.missions == db.missions[m := db.missions[m].(state := Queued)]
              && next.tasks == db.tasks[identity := Task(m, RequiredCapability(db.events, m).value, plan.worker, Queued)]
              && next.attempts == db.attempts
  {
    hide RequiredCapability, PlanAccepted, GoodPlan, ApproveEffect;
    if m in db.missions {
      PlanMeans(db, RequiredCapability(db.events, m).value, plan);
      if db.missions[m].owner == p.identity && db.missions[m].state == Draft
         && PlanAccepted(db, RequiredCapability(db.events, m).value, plan) {
        GoodPlanQueues(db, p, m, plan, identity);
      }
    }
    if ApproveEffect(db, p, m, plan, identity).Ok? {
      ApproveNeeds(db, p, m, plan, identity);
      ApproveMoves(db, p, m, plan, identity);
    }
  }

  lemma GoodPlanQueues(db: Db, p: Principal, m: Id, plan: Plan, identity: Id)
    requires m in db.missions && db.missions[m].owner == p.identity && db.missions[m].state == Draft
    requires RequiredCapability(db.events, m).Ok? && PlanAccepted(db, RequiredCapability(db.events, m).value, plan)
    ensures ApproveEffect(db, p, m, plan, identity).Ok?
  {
    hide RequiredCapability, PlanAccepted;
  }

  lemma ApproveNeeds(db: Db, p: Principal, m: Id, plan: Plan, identity: Id)
    requires ApproveEffect(db, p, m, plan, identity).Ok?
    ensures m in db.missions && db.missions[m].owner == p.identity && db.missions[m].state == Draft
    ensures RequiredCapability(db.events, m).Ok? && PlanAccepted(db, RequiredCapability(db.events, m).value, plan)
    ensures ApproveEffect(db, p, m, plan, identity).value.1 == MissionView(m, Queued)
  {
    hide RequiredCapability, PlanAccepted;
  }

  // ----- Cancel and retry -----

  /** This mission, its task and its running attempt have a new state, and nothing else in these tables differs. */
  ghost predicate MovedTo(db: Db, m: Id, target: State, next: Db)
    requires Linked(db)
  {
    && m in db.missions
    && next.missions == db.missions[m := db.missions[m].(state := target)]
    && next.tasks.Keys == db.tasks.Keys && next.attempts.Keys == db.attempts.Keys
    && (forall t <- db.tasks ::
          next.tasks[t] == if db.tasks[t].mission == m then db.tasks[t].(state := target) else db.tasks[t])
    && (forall a <- db.attempts ::
          next.attempts[a] == if MissionOf(db, a) == m && db.attempts[a].state == Running
                              then db.attempts[a].(state := target) else db.attempts[a])
  }

  /**
   * A cancellation succeeds exactly when the owner asks for it and the mission has not completed, failed or been cancelled.
   * A running mission is asked to stop, with its attempt; one that was asked before stays as it is; any other is cancelled.
   */
  lemma CancelSucceedsIff(db: Db, action: Action)
    requires Inv(db) && NewCall(db, action) && action.Cancel?
    ensures AnswerTo(db, action).Ok? <==>
            Owns(db, action.p, action.m) && db.missions[action.m].state !in {Completed, Failed, Cancelled}
    ensures AnswerTo(db, action).Ok? ==>
              var next := Apply(db, action);
              if db.missions[action.m].state == Running then
                AnswerTo(db, action).value == MissionView(action.m, CancelRequested)
                && MovedTo(db, action.m, CancelRequested, next)
              else if db.missions[action.m].state == CancelRequested then
                && AnswerTo(db, action).value == MissionView(action.m, CancelRequested)
                && next.missions == db.missions && next.tasks == db.tasks && next.attempts == db.attempts
              else
                AnswerTo(db, action).value == MissionView(action.m, Cancelled) && MovedTo(db, action.m, Cancelled, next)
  {
    hide Inv, Linked, CancelEffect, MovedTo;
    CancelDecided(db, action.p, action.m);
    if AnswerTo(db, action).Ok? {
      SameMoved(db, action.m, CancelRequested, CancelEffect(db, action.p, action.m).value.0, Apply(db, action));
      SameMoved(db, action.m, Cancelled, CancelEffect(db, action.p, action.m).value.0, Apply(db, action));
    }
  }

  lemma SameMoved(db: Db, m: Id, target: State, x: Db, y: Db)
    requires Linked(db) && x.missions == y.missions && x.tasks == y.tasks && x.attempts == y.attempts
    ensures MovedTo(db, m, target, x) ==> MovedTo(db, m, target, y)
  {
  }

  lemma CancelDecided(db: Db, p: Principal, m: Id)
    requires Inv(db) && Linked(db)
    ensures CancelEffect(db, p, m).Ok? <==>
            m in db.missions && db.missions[m].owner == p.identity
            && db.missions[m].state !in {Completed, Failed, Cancelled}
    ensures CancelEffect(db, p, m).Ok? ==>
              var (next, answer) := CancelEffect(db, p, m).value;
              if db.missions[m].state == Running then
                answer == MissionView(m, CancelRequested) && MovedTo(db, m, CancelRequested, next)
              else if db.missions[m].state == CancelRequested then
                answer == MissionView(m, CancelRequested) && next == db
              else
                answer == MissionView(m, Cancelled) && MovedTo(db, m, Cancelled, next)
  {
    hide Inv, TasksTo, AttemptsTo, MovedTo, Linked;
    NeverApproved(db, m);
    if CancelEffect(db, p, m).Ok? && db.missions[m].state != CancelRequested {
      CancelMovesTo(db, p, m);
    }
  }

  lemma CancelMovesTo(db: Db, p: Principal, m: Id)
    requires Inv(db) && Linked(db) && CancelEffect(db, p, m).Ok? && db.missions[m].state != CancelRequested
    ensures MovedTo(db, m, if db.missions[m].state == Running then CancelRequested else Cancelled,
                    CancelEffect(db, p, m).value.0)
  {
    hide Inv;
    if db.missions[m].state != Running {
      NobodyRuns(db, m);
    }
  }

  lemma NeverApproved(db: Db, m: Id)
    requires Inv(db)
    ensures m in db.missions ==> db.missions[m].state != Approved
  {
    hide LedgerOk, LeasesOk, ClaimsOk, FilesOk, OriginsOk, ResultsOk;
  }

  lemma NobodyRuns(db: Db, m: Id)
    requires Inv(db) && Linked(db) && m in db.missions && db.missions[m].state != Running
    ensures forall a <- db.attempts :: MissionOf(db, a) == m ==> db.attempts[a].state != Running
  {
    hide LedgerOk, LeasesOk, ClaimsOk, FilesOk, OriginsOk, ResultsOk;
  }

  /** A retry succeeds exactly when the owner asks for it and the mission has failed or been interrupted; it is queued again. */
  lemma RetrySucceedsIff(db: Db, action: Action)
    requires Inv(db) && NewCall(db, action) && action.Retry?
    ensures AnswerTo(db, action).Ok? <==>
            Owns(db, action.p, action.m) && db.missions[action.m].state in {Failed, Interrupted}
    ensures AnswerTo(db, action).Ok? ==>
              AnswerTo(db, action).value == MissionView(action.m, Queued)
              && MovedTo(db, action.m, Queued, Apply(db, action)) && Apply(db, action).attempts == db.attempts
  {
    hide Inv, Linked, MovedTo, RetryEffect;
    RetryDecided(db, action.p, action.m);
    if AnswerTo(db, action).Ok? {
      SameMoved(db, action.m, Queued, RetryEffect(db, action.p, action.m).value.0, Apply(db, action));
    }
  }

  lemma RetryDecided(db: Db, p: Principal, m: Id)
    requires Inv(db) && Linked(db)
    ensures RetryEffect(db, p, m).Ok? <==>
            m in db.missions && db.missions[m].owner == p.identity && db.missions[m].state in {Failed, Interrupted}
    ensures RetryEffect(db, p, m).Ok? ==>
              var (next, answer) := RetryEffect(db, p, m).value;
              answer == MissionView(m, Queued) && MovedTo(db, m, Queued, next) && next.attempts == db.attempts
  {
    hide Inv;
    if RetryEffect(db, p, m).Ok? {
      NobodyRuns(db, m);
    }
  }

  // ----- Upload -----

  /**
   * An upload succeeds exactly when the owner of the workspace sends a safely named file within the limit whose bytes are
   * the declared ones, over the current version of that file, with room for it; it then appends exactly that version.
   */
  lemma UploadSucceedsIff(db: Db, action: Action)
    requires Inv(db) && NewCall(db, action) && action.Upload?
    ensures AnswerTo(db, action).Ok? <==>
            var data := action.data;
            && action.p.role == AdminRole
            && action.workspace in db.workspaces && db.workspaces[action.workspace] == action.p.identity
            && SafeFileName(data.name)
            && data.size == |data.content| <= db.settings.maxFileBytes && data.digest == Sha256(data.content)
            && KnowsCurrent(db, action.workspace, data.name, data.expected)
            && HasRoom(db, action.workspace, data.name, |data.content|)
    ensures AnswerTo(db, action).Ok? ==>
              exists v :: Acceptance.Appended(db, Apply(db, action), action.workspace, action.data.name, action.data.content,
                                              None, None, v)
                          && AnswerTo(db, action).value == Published(v.file, v.id, v.digest, v.size)
                          && v.id == action.ids.version
  {
    hide Inv, Linked, NewIds, Publish, SafeFileName, WorkspaceOk, KnowsCurrent, HasRoom, Acceptance.Appended;
    WorkspaceOfInv(db);
    NewIdsOfUpload(db, action);
    var actor, data := Person(action.p.identity), action.data;
    NewestDecides(db, actor, action.workspace, data.name, data.content, data.expected, None, None, action.ids);
    if AnswerTo(db, action).Ok? {
      var v := PublicationAppends(db, actor, action.workspace, data.name, data.content, data.expected, None, None, action.ids);
      AppendedFramed(db, Publish(db, actor, action.workspace, data.name, data.content, data.expected, None, None,
                                 action.ids).value.0, Apply(db, action), action.workspace, data.name, data.content, None, None, v);
    }
  }

  lemma NewIdsOfUpload(db: Db, action: Action)
    requires Enabled(db, action) && action.Upload?
    ensures NewIds(db, action.ids)
  {
    hide NewIds;
  }

  // ----- Claim -----

  lemma HistoriesOf(db: Db)
    requires Inv(db)
    ensures Linear(db.versions) && VersionsLinked(db.files, db.versions) && NamesOk(db.workspaces, db.files)
  {
    hide Life, LedgerOk, LeasesOk, ClaimsOk, OriginsOk, ResultsOk;
    hide Linear, VersionsLinked, NamesOk, Stored, WithinLimits, DistinctVersions;
  }

  lemma StartExpectsCurrent(db: Db, p: Principal, w: Worker, t: Id, top: nat, c: ClaimInputs)
    requires Inv(db) && Linked(db) && t in db.tasks && p.epoch.Some? && StartAttempt(db, p, w, t, top, c).Ok?
    ensures var answer := StartAttempt(db, p, w, t, top, c).value.1;
            && answer.Work? && answer.request.mission in db.missions
            && KnowsCurrent(db, db.missions[answer.request.mission].workspace, "resultat.md", answer.request.expected)
  {
    hide Inv, Current, KnowsCurrent, Linear, VersionsLinked, NamesOk;
    HistoriesOf(db);
    CurrentIsKnown(db, db.missions[db.tasks[t].mission].workspace, "resultat.md",
                   Current(db, db.missions[db.tasks[t].mission].workspace, "resultat.md"));
  }

  lemma SameFiles(db: Db, next: Db, m: Id, expected: Option<Id>)
    requires m in db.missions && m in next.missions && next.missions[m].workspace == db.missions[m].workspace
    requires next.files == db.files && next.versions == db.versions
    requires KnowsCurrent(db, db.missions[m].workspace, "resultat.md", expected)
    ensures KnowsCurrent(next, next.missions[m].workspace, "resultat.md", expected)
  {
    match expected
    case None =>
    case Some(id) =>
      var v :| HighestOf(db, db.missions[m].workspace, "resultat.md", v) && v.id == id;
      assert HighestOf(next, next.missions[m].workspace, "resultat.md", v);
  }

  /** The tables that a start leaves alone, and the mission it is for. */
  lemma StartFrame(db: Db, p: Principal, w: Worker, t: Id, top: nat, c: ClaimInputs)
    requires Linked(db) && t in db.tasks && p.epoch.Some? && StartAttempt(db, p, w, t, top, c).Ok?
    ensures var (next, answer) := StartAttempt(db, p, w, t, top, c).value;
            && answer.Work? && answer.request.mission == db.tasks[t].mission
            && next.files == db.files && next.versions == db.versions
            && db.tasks[t].mission in db.missions && db.tasks[t].mission in next.missions
            && next.missions[db.tasks[t].mission].workspace == db.missions[db.tasks[t].mission].workspace
  {
    hide Current;
  }

  /** A lease that is given now expects the version of the agreed file that is current now; giving it changes no file. */
  lemma LeaseExpectsCurrent(db: Db, action: Action, r: Request)
    requires Inv(db) && Linked(db) && Enabled(db, action) && action.Claim? && KeyOf(action).Some?
    requires KeyOf(action).value !in db.operations && AnswerTo(db, action) == Ok(Work(r))
    ensures var next := Apply(db, action);
            && next.files == db.files && next.versions == db.versions && r.mission in next.missions
            && KnowsCurrent(next, next.missions[r.mission].workspace, "resultat.md", r.expected)
  {
    hide Inv, Linked, LeasedRows, NewLease, Policy, StartAttempt, Top, FenceRows, Idle, Queueable, NextTask, Overdue,
        MissionsGrow, KnowsCurrent, AllActive;
    var p, c := action.p, action.inputs;
    LeasedRowsKnown(db, None, c.rows);
    RowsActive(db, None, c.rows);
    FenceKeepsInv(db, c.rows, Overdue(db, c.rows, c.clock), AttemptExpired);
    var swept := ExpireTx(db, c.rows, c.clock).value;
    InvLinked(swept);
    PickedIsQueueable(swept, p.identity);
    var t := PickTask(swept, p.identity).value;
    StartExpectsCurrent(swept, p, Authorize(db, p).value, t, Top(swept.attempts, t), c);
    StartFrame(swept, p, Authorize(db, p).value, t, Top(swept.attempts, t), c);
    SameFiles(swept, Apply(db, action), r.mission, r.expected);
  }
}
