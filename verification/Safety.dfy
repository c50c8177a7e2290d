/** What no run can do, whatever its interleaving, its clocks and its callers. */
module Safety {
  import opened Base
  import opened Contracts
  import opened Tables
  import opened Transactions
  import opened Lifecycle
  import opened Ledger
  import opened Attempts
  import opened Files
  import opened Growth
  import opened Invariant
  import opened Effects
  import opened Planning
  import opened Delivery
  import opened Identities
  import opened Runs

  // ----- One state -----

  /** A mission is running, or asked to stop, exactly when one attempt is active on it; they share their state. */
  lemma ActiveExactlyOnce(db: Db, m: Id)
    requires Inv(db) && Linked(db) && m in db.missions
    ensures Active(db.missions[m].state) <==>
            exists a :: a in db.attempts && MissionOf(db, a) == m && Active(db.attempts[a].state)
    ensures forall a, b | a in db.attempts && b in db.attempts && MissionOf(db, a) == m && MissionOf(db, b) == m
                          && Active(db.attempts[a].state) && Active(db.attempts[b].state) :: a == b
    ensures forall a | a in db.attempts && MissionOf(db, a) == m && Active(db.attempts[a].state) ::
              db.attempts[a].state == db.missions[m].state
  {
    hide LedgerOk, LeasesOk, ClaimsOk, FilesOk, OriginsOk, ResultsOk;
    if Active(db.missions[m].state) {
      assert HasTask(db.tasks, m);
      var t :| t in db.tasks && db.tasks[t].mission == m;
      var a :| ActiveOn(db.attempts, t, a);
      assert a in db.attempts && MissionOf(db, a) == m && Active(db.attempts[a].state);
    }
  }

  lemma OneLeasePerWorker(db: Db, a: Id, b: Id)
    requires Inv(db) && a in db.attempts && b in db.attempts
    requires Active(db.attempts[a].state) && Active(db.attempts[b].state) && db.attempts[a].worker == db.attempts[b].worker
    ensures a == b
  {
    hide LedgerOk, LeasesOk, ClaimsOk, FilesOk, OriginsOk, ResultsOk, TasksMatch, Planned, AttemptsMatch, ActiveCovered;
  }

  /**
   * At any moment of any run: a task has its mission's state and no mission has two tasks, the attempts of a task are
   * numbered from one without a gap or a repetition, and no approved mission is ever left without its next step.
   */
  lemma MissionsAndTasksAgree(states: seq<Db>, actions: seq<Action>, i: nat)
    requires Run(states, actions) && i < |states|
    ensures var db := states[i];
            && (forall t <- db.tasks ::
                  db.tasks[t].mission in db.missions && db.tasks[t].state == db.missions[db.tasks[t].mission].state)
            && (forall t, u | t in db.tasks && u in db.tasks && db.tasks[t].mission == db.tasks[u].mission :: t == u)
            && (forall m <- db.missions :: db.missions[m].state != Approved)
            && Numbered(db.attempts)
  {
    hide Run, LedgerOk, ClaimsOk, FilesOk, OriginsOk, ResultsOk, Numbered, Generations, Credited, Reported, WorkersOk;
    hide OneActive, ActiveCovered, AttemptsMatch;
    RunKeepsInv(states, actions, i);
  }

  // ----- Leases -----

  /** The attempt's result was read in time, from its own worker under the epoch of its claim. */
  ghost predicate AcceptedOnTime(db: Db, action: Action, a: Id, next: Db) {
    && action.Finish? && action.a == a
    && a in db.attempts && a in next.attempts && a in db.epochs
    && Authorize(db, action.p).Ok?
    && action.p.identity == db.attempts[a].worker && action.p.epoch == Some(db.epochs[a])
    && Active(db.attempts[a].state) && db.attempts[a].result == None
    && action.now < db.attempts[a].deadline
    && next.attempts[a] == Reporting(db.attempts[a], action.result)
  }

  /** The owner has cancelled a mission without an active attempt, and nothing happened to any other. */
  ghost predicate CancelledIdle(db: Db, action: Action, next: Db) {
    && Linked(db) && action.Cancel? && action.m in db.missions
    && action.p.role == AdminRole && db.missions[action.m].owner == action.p.identity
    && (forall a <- db.attempts | MissionOf(db, a) == action.m :: !Active(db.attempts[a].state))
    && next.attempts == db.attempts && next.missions == MissionTo(db.missions, action.m, Cancelled)
  }

  ghost predicate TouchedOrAccepted(db: Db, action: Action, next: Db) {
    || (OnlyTouched(db.attempts, next.attempts) && NoVerdict(db.missions, next.missions))
    || CancelledIdle(db, action, next)
    || (action.Finish? && AcceptedOnTime(db, action, action.a, next)
        && next.attempts == db.attempts[action.a := next.attempts[action.a]])
  }

  lemma OperateTouches(db: Db, key: OperationKey, intent: Intent, effect: Step<Response>)
    requires effect.Ok? ==> OnlyTouched(db.attempts, effect.value.0.attempts) && NoVerdict(db.missions, effect.value.0.missions)
    ensures var next := Operate(db, key, intent, effect).0;
            OnlyTouched(db.attempts, next.attempts) && NoVerdict(db.missions, next.missions)
  {
    NothingTouched(db);
    hide OnlyTouched, NoVerdict;
  }

  lemma NothingTouched(db: Db)
    ensures OnlyTouched(db.attempts, db.attempts) && NoVerdict(db.missions, db.missions)
  {
  }

  lemma CancelAgain(db: Db, p: Principal, m: Id)
    requires CancelEffect(db, p, m).Ok? && db.missions[m].state == CancelRequested
    ensures CancelEffect(db, p, m).value.0 == db
  {
  }

  lemma AskTouches(db: Db, actor: Actor, a: Id)
    requires Linked(db) && a in db.attempts && db.attempts[a].state == Running
    ensures var next := Moved(db, actor, a, db.attempts[a].(state := CancelRequested), "");
            OnlyTouched(db.attempts, next.attempts) && NoVerdict(db.missions, next.missions)
  {
  }

  lemma CancelKnown(db: Db, p: Principal, m: Id)
    ensures CancelEffect(db, p, m).Ok? ==> m in db.missions && db.missions[m].owner == p.identity
  {
  }

  /** A cancellation that commits asks the active attempt to stop, or finds none and cancels the mission. */
  lemma CancelTouches(db: Db, p: Principal, operation: Id, m: Id, next: Db)
    requires Inv(db) && Linked(db) && p.role == AdminRole && CancelEffect(db, p, m).Ok?
    requires next.attempts == CancelEffect(db, p, m).value.0.attempts
    requires next.missions == CancelEffect(db, p, m).value.0.missions
    ensures TouchedOrAccepted(db, Cancel(p, operation, m), next)
  {
    hide Inv, Life, CancelEffect, Moved, OnlyTouched, NoVerdict;
    LifeOfInv(db);
    NothingTouched(db);
    CancelKnown(db, p, m);
    if db.missions[m].state == Running {
      var a := CancelAsks(db, p, m);
      AskTouches(db, Person(p.identity), a);
    } else if db.missions[m].state == CancelRequested {
      CancelAgain(db, p, m);
    } else {
      CancelMoves(db, p, m);
      ActiveExactlyOnce(db, m);
      assert CancelledIdle(db, Cancel(p, operation, m), next);
    }
  }

  lemma CancelActionTouches(db: Db, action: Action)
    requires Inv(db) && Linked(db) && action.Cancel?
    ensures TouchedOrAccepted(db, action, Apply(db, action))
  {
    hide Inv, Linked, CancelEffect, TouchedOrAccepted;
    NothingHappened(db, action);
    var key := AdminOperation(action.p.identity, action.operation);
    if action.p.role == AdminRole && key !in db.operations && CancelEffect(db, action.p, action.m).Ok? {
      CancelTouches(db, action.p, action.operation, action.m, Apply(db, action));
    }
  }

  lemma NothingHappened(db: Db, action: Action)
    ensures TouchedOrAccepted(db, action, db)
  {
    NothingTouched(db);
  }

  lemma RetryTouches(db: Db, p: Principal, m: Id)
    ensures RetryEffect(db, p, m).Ok? ==>
              OnlyTouched(db.attempts, RetryEffect(db, p, m).value.0.attempts)
              && NoVerdict(db.missions, RetryEffect(db, p, m).value.0.missions)
  {
  }

  lemma ApproveTouches(db: Db, p: Principal, m: Id, plan: Plan, identity: Id)
    ensures ApproveEffect(db, p, m, plan, identity).Ok? ==>
              OnlyTouched(db.attempts, ApproveEffect(db, p, m, plan, identity).value.0.attempts)
              && NoVerdict(db.missions, ApproveEffect(db, p, m, plan, identity).value.0.missions)
  {
    hide ApproveEffect;
    if ApproveEffect(db, p, m, plan, identity).Ok? {
      ApproveMoves(db, p, m, plan, identity);
    }
  }

  lemma CreateTouches(db: Db, p: Principal, capability: Capability, draft: MissionDraft, identity: Id, now: real)
    requires identity !in db.missions
    ensures var outcome := CreateEffect(db, p, capability, draft, identity, now);
            outcome.Ok? ==> OnlyTouched(db.attempts, outcome.value.0.attempts)
                            && NoVerdict(db.missions, outcome.value.0.missions)
  {
    hide Readable;
  }

  lemma UploadTouches(db: Db, p: Principal, workspace: Id, data: Output, ids: FreshIds)
    ensures UploadEffect(db, p, workspace, data, ids).Ok? ==>
              UploadEffect(db, p, workspace, data, ids).value.0.attempts == db.attempts
              && UploadEffect(db, p, workspace, data, ids).value.0.missions == db.missions
  {
    hide FindFile, Newest, Used, FilesOf;
  }

  lemma AdminTouches(db: Db, action: Action)
    requires Inv(db) && Linked(db) && Enabled(db, action)
    requires action.Create? || action.Approve? || action.Retry? || action.Upload?
    ensures OnlyTouched(db.attempts, Apply(db, action).attempts) && NoVerdict(db.missions, Apply(db, action).missions)
  {
    hide Inv, Linked, Operate, CreateEffect, ApproveEffect, RetryEffect, UploadEffect;
    hide CheckDraft, CheckOutput, NewIds, OnlyTouched, NoVerdict;
    NothingTouched(db);
    match action
    case Create(p, operation, capability, draft, identity, now) =>
      CreateTouches(db, p, capability, draft, identity, now);
      OperateTouches(db, AdminOperation(p.identity, operation), CreateIntent(capability, draft),
                     CreateEffect(db, p, capability, draft, identity, now));
    case Approve(p, operation, m, plan, identity) =>
      ApproveTouches(db, p, m, plan, identity);
      OperateTouches(db, AdminOperation(p.identity, operation), ApproveIntent(m), ApproveEffect(db, p, m, plan, identity));
    case Retry(p, operation, m) =>
      RetryTouches(db, p, m);
      OperateTouches(db, AdminOperation(p.identity, operation), RetryIntent(m), RetryEffect(db, p, m));
    case Upload(p, operation, workspace, data, ids) =>
      UploadTouches(db, p, workspace, data, ids);
      OperateTouches(db, AdminOperation(p.identity, operation), UploadIntent(workspace, data),
                     UploadEffect(db, p, workspace, data, ids));
  }

  lemma ClaimTouches(db: Db, p: Principal, operation: Id, c: ClaimInputs)
    requires Inv(db) && Linked(db) && LeasedRows(db, None, c.rows) && NewLease(db, c)
    ensures forall a <- c.rows :: a in db.attempts
    ensures var next := ClaimCall(db, p, operation, c).0;
            OnlyTouched(db.attempts, next.attempts) && NoVerdict(db.missions, next.missions)
  {
    hide Inv, Linked, LeasedRows, NewLease, ClaimEffect, Policy, Kept, OnlyTouched, NoVerdict;
    LeasedRowsKnown(db, None, c.rows);
    NothingTouched(db);
    if Authorize(db, p).Ok? {
      ClaimKeepsInv(db, p, c);
      OperateTouches(db, WorkerOperation(p.identity, p.epoch.value, operation), ClaimIntent, ClaimEffect(db, p, c));
    }
  }

  lemma RevokeTouches(db: Db, p: Principal, operation: Id, w: Id, rows: seq<Id>, workspace: Id)
    requires Inv(db) && Linked(db) && LeasedRows(db, Some(w), rows) && workspace in db.workspaces
    ensures forall a <- rows :: a in db.attempts
    ensures var next := RevokeCall(db, p, operation, w, rows, workspace).0;
            OnlyTouched(db.attempts, next.attempts) && NoVerdict(db.missions, next.missions)
  {
    hide Inv, Linked, RevokeEffect, Operate, LeasedRows, Idle, Kept, OnlyTouched, NoVerdict;
    LeasedRowsKnown(db, Some(w), rows);
    NothingTouched(db);
    if w in db.workers {
      RevokeKeepsInv(db, p, w, rows, workspace);
    } else {
      RevokeRefused(db, p, w, rows, workspace);
    }
    OperateTouches(db, AdminOperation(p.identity, operation), RevokeIntent(w), RevokeEffect(db, p, w, rows, workspace));
  }

  lemma FenceActionTouches(db: Db, action: Action)
    requires Inv(db) && Linked(db) && Enabled(db, action) && (action.Expire? || action.Restart?)
    ensures OnlyTouched(db.attempts, Apply(db, action).attempts) && NoVerdict(db.missions, Apply(db, action).missions)
  {
    hide Inv, Linked, LeasedRows, FenceRows, FenceDone, Overdue, RowSet, ExpireTx, RecoverTx, OnlyTouched, NoVerdict,
        AllActive;
    match action
    case Expire(rows, clock) =>
      RowsActive(db, None, rows);
      ExpireKept(db, rows, clock);
      FenceTouches(db, rows, Overdue(db, rows, clock), AttemptExpired, ExpireTx(db, rows, clock).value);
    case Restart(rows) =>
      RowsActive(db, None, rows);
      ExpireKept(db, rows, _ => 0.0);
      FenceTouches(db, rows, RowSet(rows), BackendRestart, RecoverTx(db, rows).value);
  }

  lemma FinishTouches(db: Db, action: Action)
    requires Inv(db) && Linked(db) && Enabled(db, action) && action.Finish?
    ensures TouchedOrAccepted(db, action, Apply(db, action))
  {
    hide Inv, Linked, NewIds, FinishTx, Kept, OnlyTouched, NoVerdict, Authorize;
    NothingTouched(db);
    FinishKeepsInv(db, action.p, action.a, action.result, action.ids, action.now);
  }

  lemma EnrollQuiet(db: Db, identity: Id, w: Worker, workspace: Id)
    ensures var next := Committed(db, EnrollTx(db, identity, w, workspace));
            next.attempts == db.attempts && next.missions == db.missions
  {
  }

  lemma RotateQuiet(db: Db, w: Id, reactivate: bool, workspace: Id)
    ensures var next := Committed(db, RotateTx(db, w, reactivate, workspace));
            next.attempts == db.attempts && next.missions == db.missions
  {
  }

  /** A step touches leases only as a fence or a cancellation does, unless it accepts one report on time. */
  lemma StepTouches(db: Db, action: Action)
    requires Inv(db) && Linked(db) && Enabled(db, action)
    ensures TouchedOrAccepted(db, action, Apply(db, action))
  {
    hide Inv, Linked, ClaimCall, RevokeCall, FinishTx, NewIds, NewLease, LeasedRows, OnlyTouched, NoVerdict,
        EnrollTx, RotateTx, CancelledIdle, CancelCall;
    NothingTouched(db);
    match action
    case Revoke(p, operation, w, rows, workspace) => RevokeTouches(db, p, operation, w, rows, workspace);
    case Enroll(identity, worker, workspace) => EnrollQuiet(db, identity, worker, workspace);
    case Rotate(w, reactivate, workspace) => RotateQuiet(db, w, reactivate, workspace);
    case Expire(_, _) => FenceActionTouches(db, action);
    case Restart(_) => FenceActionTouches(db, action);
    case Claim(p, operation, inputs) => ClaimTouches(db, p, operation, inputs);
    case Finish(_, _, _, _, _) => FinishTouches(db, action);
    case Crash(_) =>
    case Cancel(_, _, _) => CancelActionTouches(db, action);
    case _ => AdminTouches(db, action);
  }

  /**
   * A result that appears in a run was accepted in that very step: read before the deadline, which is the claim
   * time plus the shorter of the two lease limits, and sent by an active identity under the epoch of its claim.
   */
  lemma ResultsArriveOnTime(states: seq<Db>, actions: seq<Action>, i: nat, a: Id)
    requires Run(states, actions) && i < |actions|
    requires a in states[i].attempts && a in states[i + 1].attempts
    requires states[i].attempts[a].result == None && states[i + 1].attempts[a].result.Some?
    ensures AcceptedOnTime(states[i], actions[i], a, states[i + 1])
    ensures states[i].attempts[a].worker in states[i].workers
    ensures var row, w := states[i].attempts[a], states[i].workers[states[i].attempts[a].worker];
            && w.active && Some(w.epoch) == actions[i].p.epoch
            && actions[i].now < row.deadline
            && row.deadline == row.startedAt + Min(states[i].settings.attemptSeconds, w.lease) as real
  {
    hide Inv, Linked, Enabled, Apply, Begins;
    assert StepsTo(states[i], actions[i], states[i + 1]);
    RunKeepsInv(states, actions, i);
    StepTouches(states[i], actions[i]);
    LeaseTerms(states[i], a);
  }

  lemma LeaseTerms(db: Db, a: Id)
    requires Inv(db) && a in db.attempts
    ensures db.attempts[a].worker in db.workers
    ensures db.attempts[a].deadline
            == db.attempts[a].startedAt
               + Min(db.settings.attemptSeconds, db.workers[db.attempts[a].worker].lease) as real
  {
    hide Life, LedgerOk, ClaimsOk, FilesOk, OriginsOk, ResultsOk, Numbered, Generations, Reported;
  }

  /** The owner cancelled this mission while it was idle, or its own active attempt was accepted with its new state. */
  ghost predicate Ended(db: Db, action: Action, m: Id, next: Db)
    requires m in db.missions && m in next.missions
  {
    && Linked(db)
    && ((CancelledIdle(db, action, next) && action.m == m)
        || (action.Finish? && AcceptedOnTime(db, action, action.a, next) && MissionOf(db, action.a) == m
            && action.result.status == next.missions[m].state
            && (action.result.status == Cancelled <==> db.missions[m].state == CancelRequested)))
  }

  /**
   * A mission completes, fails or is cancelled only when its own active attempt is accepted on time with that status; or
   * else its owner cancels it while no attempt is active on it. A mission asked to stop ends by no other report than a
   * cancelled one, and no other mission ends by one.
   */
  lemma VerdictsComeFromReports(states: seq<Db>, actions: seq<Action>, i: nat, m: Id)
    requires Run(states, actions) && i < |actions| && m in states[i].missions && m in states[i + 1].missions
    requires states[i].missions[m].state != states[i + 1].missions[m].state
    requires states[i + 1].missions[m].state in {Completed, Failed, Cancelled}
    ensures Ended(states[i], actions[i], m, states[i + 1])
  {
    hide Inv, Linked, Enabled, Apply, Begins, Ended, TouchedOrAccepted;
    assert StepsTo(states[i], actions[i], states[i + 1]);
    RunKeepsInv(states, actions, i);
    StepTouches(states[i], actions[i]);
    VerdictStep(states[i], actions[i], states[i + 1], m);
  }

  lemma VerdictStep(db: Db, action: Action, next: Db, m: Id)
    requires Inv(db) && StepsTo(db, action, next) && TouchedOrAccepted(db, action, next)
    requires m in db.missions && m in next.missions && db.missions[m].state != next.missions[m].state
    requires next.missions[m].state in {Completed, Failed, Cancelled}
    ensures Ended(db, action, m, next)
  {
    hide Inv, Linked, Enabled, Apply, CancelledIdle, AcceptedOnTime, OnlyTouched;
    if CancelledIdle(db, action, next) {
      OnlyThatMission(db, action, next, m);
    } else {
      ReportedMission(db, action, next, m);
    }
  }

  lemma OnlyThatMission(db: Db, action: Action, next: Db, m: Id)
    requires CancelledIdle(db, action, next) && m in db.missions && m in next.missions
    requires db.missions[m].state != next.missions[m].state
    ensures action.m == m
  {
    hide Linked;
  }

  lemma ReportedMission(db: Db, action: Action, next: Db, m: Id)
    requires Inv(db) && StepsTo(db, action, next) && action.Finish? && AcceptedOnTime(db, action, action.a, next)
    requires m in db.missions && m in next.missions && db.missions[m].state != next.missions[m].state
    ensures MissionOf(db, action.a) == m && action.result.status == next.missions[m].state
    ensures action.result.status == Cancelled <==> db.missions[m].state == CancelRequested
  {
    hide Inv, Linked, FinishTx, NewIds, Kept, Authorize;
    FinishKeepsInv(db, action.p, action.a, action.result, action.ids, action.now);
  }

  /** A settled attempt is never written again, so a result is stored at most once. */
  lemma SettledForever(states: seq<Db>, actions: seq<Action>, i: nat, j: nat, a: Id)
    requires Run(states, actions) && i <= j < |states|
    requires a in states[i].attempts && Settled(states[i].attempts[a].state)
    ensures a in states[j].attempts && states[j].attempts[a] == states[i].attempts[a]
  {
    hide Run, Linked;
    RunGrows(states, actions, i, j);
  }

  // ----- Claims -----

  lemma {:induction false} OldestIn(db: Db, w: Id, seen: set<Id>) returns (t: Id)
    requires Linked(db) && seen != {} && seen <= db.tasks.Keys && forall u <- seen :: Queueable(db, u, w)
    ensures t in seen && forall u <- seen :: Before(db, t, u)
    decreases |seen|
  {
    var any :| any in seen;
    var rest := seen - {any};
    if rest == {} {
      t := any;
      assert seen == {any};
    } else {
      var oldest := OldestIn(db, w, rest);
      t := if Before(db, any, oldest) then any else oldest;
      assert seen == rest + {any};
    }
  }

  /** A worker's queue is empty, or it has an oldest task. */
  lemma QueueHasOldest(db: Db, w: Id)
    requires Linked(db)
    ensures PickTask(db, w) == None <==> forall t :: !Queueable(db, t, w)
    ensures PickTask(db, w).Some? ==> NextTask(db, w, PickTask(db, w).value)
  {
    var queue := set t | t in db.tasks && Queueable(db, t, w);
    if queue != {} {
      var t := OldestIn(db, w, queue);
      assert NextTask(db, w, t);
    } else {
      forall t
        ensures !Queueable(db, t, w)
      {
        assert t !in queue;
      }
    }
  }

  lemma QueuedCanStart(db: Db, p: Principal, w: Worker, t: Id, top: nat, c: ClaimInputs)
    requires Linked(db) && Queueable(db, t, p.identity) && p.epoch.Some? && c.now >= 0.0
    ensures StartAttempt(db, p, w, t, top, c).Ok? && StartAttempt(db, p, w, t, top, c).value.1.Work?
    ensures StartAttempt(db, p, w, t, top, c).value.1.request.task == t
  {
    hide Current;
  }

  /** After the sweep, an idle worker with a queue always gets its oldest task; any other worker gets nothing. */
  lemma ClaimTakesTheOldest(db: Db, p: Principal, c: ClaimInputs)
    requires Inv(db) && Linked(db) && LeasedRows(db, None, c.rows) && Authorize(db, p).Ok? && c.now >= 0.0
    ensures forall a <- c.rows :: a in db.attempts
    ensures ClaimEffect(db, p, c).Ok? && ExpireTx(db, c.rows, c.clock).Ok?
    ensures var swept := ExpireTx(db, c.rows, c.clock).value;
            var response := ClaimEffect(db, p, c).value.1;
            && Linked(swept)
            && (response.Work? <==> Idle(swept.attempts, p.identity) && exists t :: Queueable(swept, t, p.identity))
            && (response.Work? ==> NextTask(swept, p.identity, response.request.task))
            && (!response.Work? ==> response == NoWork)
  {
    hide Inv, Linked, LeasedRows, FenceDone, Idle, PickTask, Top, StartAttempt, Policy, ExpireTx, NextTask, Queueable;
    LeasedRowsKnown(db, None, c.rows);
    ExpireKept(db, c.rows, c.clock);
    var swept := ExpireTx(db, c.rows, c.clock).value;
    DoneIsKept(db, c.rows, Overdue(db, c.rows, c.clock), AttemptExpired, swept);
    KeptFactsOf(db, swept);
    InvLinked(swept);
    QueueHasOldest(swept, p.identity);
    var picked := PickTask(swept, p.identity);
    if picked.Some? {
      NextIsQueueable(swept, p.identity, picked.value);
      QueuedCanStart(swept, p, Authorize(db, p).value, picked.value, Top(swept.attempts, picked.value), c);
    }
  }

  lemma NextIsQueueable(db: Db, w: Id, t: Id)
    requires Linked(db) && NextTask(db, w, t)
    ensures Queueable(db, t, w) && t in db.tasks
  {
  }

  // ----- Fencing -----

  /** The worker's credential has moved past the epoch of this lease. */
  ghost predicate CutOff(db: Db, a: Id) {
    && a in db.attempts && a in db.epochs
    && db.attempts[a].worker in db.workers
    && db.epochs[a] < db.workers[db.attempts[a].worker].epoch
  }

  /** Without a report, a lease can only still be active or have been interrupted. */
  ghost predicate Silent(db: Db, a: Id) {
    && a in db.attempts
    && db.attempts[a].result == None
    && db.attempts[a].state in {Running, CancelRequested, Interrupted}
  }

  lemma CutOffStays(before: Db, after: Db, a: Id)
    requires Grows(before, after) && CutOff(before, a)
    ensures CutOff(after, a)
  {
  }

  lemma CutOffRefused(db: Db, action: Action, a: Id, next: Db)
    requires CutOff(db, a)
    ensures !AcceptedOnTime(db, action, a, next)
  {
  }

  /** After a revocation or a rotation, the leases of the old credential can never be reported. */
  lemma {:induction false} CutOffNeverReports(states: seq<Db>, actions: seq<Action>, i: nat, j: nat, a: Id)
    requires Run(states, actions) && i <= j < |states|
    requires CutOff(states[i], a) && Silent(states[i], a)
    ensures CutOff(states[j], a) && Silent(states[j], a)
    decreases j - i
  {
    hide Inv, Linked, Enabled, Apply, Begins, CutOff, Grows, AcceptedOnTime;
    if i < j {
      CutOffNeverReports(states, actions, i, j - 1, a);
      RunKeepsInv(states, actions, j - 1);
      RunGrows(states, actions, j - 1, j);
      assert StepsTo(states[j - 1], actions[j - 1], states[j]);
      StepTouches(states[j - 1], actions[j - 1]);
      CutOffStays(states[j - 1], states[j], a);
      CutOffRefused(states[j - 1], actions[j - 1], a, states[j]);
    }
  }

  lemma RotationCutsOff(db: Db, w: Id, reactivate: bool, workspace: Id, a: Id)
    requires Inv(db) && RotateTx(db, w, reactivate, workspace).Ok?
    requires a in db.attempts && db.attempts[a].worker == w
    ensures CutOff(RotateTx(db, w, reactivate, workspace).value, a)
  {
    hide Life, LedgerOk, ClaimsOk, FilesOk, OriginsOk, ResultsOk, Numbered, Generations, Reported;
  }

  /** After an expiry sweep no overdue lease is left, and after a restart no lease at all. */
  lemma SweepsAreComplete(db: Db, rows: seq<Id>, clock: Clock, a: Id)
    requires Inv(db) && Linked(db) && LeasedRows(db, None, rows) && a in db.attempts
    requires Active(db.attempts[a].state)
    ensures forall b <- rows :: b in db.attempts
    ensures ExpireTx(db, rows, clock).Ok? && RecoverTx(db, rows).Ok?
    ensures a in ExpireTx(db, rows, clock).value.attempts && a in RecoverTx(db, rows).value.attempts
    ensures ExpireTx(db, rows, clock).value.attempts[a]
            == if db.attempts[a].deadline <= clock(a)
               then db.attempts[a].(state := Interrupted, error := Some(AttemptExpired)) else db.attempts[a]
    ensures RecoverTx(db, rows).value.attempts[a]
            == db.attempts[a].(state := Interrupted, error := Some(BackendRestart))
  {
    hide Inv, Linked, FenceRows, Grows;
    LeasedRowsKnown(db, None, rows);
    ExpireKept(db, rows, clock);
    hide ExpireTx, RecoverTx;
  }

  // ----- Idempotent operations -----

  /** A recorded operation stays recorded, with the same response, for the rest of the run. */
  lemma RecordedForever(states: seq<Db>, actions: seq<Action>, i: nat, j: nat, key: OperationKey)
    requires Run(states, actions) && i <= j < |states| && key in states[i].operations
    ensures key in states[j].operations && states[j].operations[key] == states[i].operations[key]
  {
    hide Run;
    RunGrows(states, actions, i, j);
  }

  /** The key that a call is recorded under, if it is a call that is recorded at all. */
  function KeyOf(action: Action): Option<OperationKey> {
    match action
    case Create(p, operation, _, _, _, _) => Some(AdminOperation(p.identity, operation))
    case Approve(p, operation, _, _, _) => Some(AdminOperation(p.identity, operation))
    case Cancel(p, operation, _) => Some(AdminOperation(p.identity, operation))
    case Retry(p, operation, _) => Some(AdminOperation(p.identity, operation))
    case Upload(p, operation, _, _, _) => Some(AdminOperation(p.identity, operation))
    case Revoke(p, operation, _, _, _) => Some(AdminOperation(p.identity, operation))
    case Claim(p, operation, _) =>
      if p.epoch == None then None else Some(WorkerOperation(p.identity, p.epoch.value, operation))
    case _ => None
  }

  /** What a call asks for, as the record keeps it. */
  function IntentOf(action: Action): Intent
    requires KeyOf(action).Some?
  {
    match action
    case Create(_, _, capability, draft, _, _) => CreateIntent(capability, draft)
    case Approve(_, _, m, _, _) => ApproveIntent(m)
    case Cancel(_, _, m) => CancelIntent(m)
    case Retry(_, _, m) => RetryIntent(m)
    case Upload(_, _, workspace, data, _) => UploadIntent(workspace, data)
    case Revoke(_, _, w, _, _) => RevokeIntent(w)
    case Claim(_, _, _) => ClaimIntent
  }

  /** The reply of a recorded call. */
  ghost function AnswerTo(db: Db, action: Action): Reply
    requires Linked(db) && Enabled(db, action) && KeyOf(action).Some?
  {
    match action
    case Create(p, operation, capability, draft, identity, now) =>
      CreateCall(db, p, operation, capability, draft, identity, now).1
    case Approve(p, operation, m, plan, identity) => ApproveCall(db, p, operation, m, plan, identity).1
    case Cancel(p, operation, m) => CancelCall(db, p, operation, m).1
    case Retry(p, operation, m) => RetryCall(db, p, operation, m).1
    case Upload(p, operation, workspace, data, ids) => UploadCall(db, p, operation, workspace, data, ids).1
    case Revoke(p, operation, w, rows, workspace) => RevokeCall(db, p, operation, w, rows, workspace).1
    case Claim(p, operation, inputs) => ClaimCall(db, p, operation, inputs).1
  }

  /** The caller may make this call now. */
  predicate Permitted(db: Db, action: Action)
    requires KeyOf(action).Some?
  {
    if action.Claim? then Authorize(db, action.p).Ok? else action.p.role == AdminRole
  }

  /** A call with a record replays it and changes nothing; a call without one changes the index only by committing. */
  ghost predicate OnceOrReplayed(db: Db, action: Action)
    requires Linked(db) && Enabled(db, action) && KeyOf(action).Some?
  {
    var key, intent, next := KeyOf(action).value, IntentOf(action), Apply(db, action);
    if key in db.operations then
      && next == db
      && (AnswerTo(db, action).Ok? ==> db.operations[key] == Operation(intent, AnswerTo(db, action).value))
    else if AnswerTo(db, action).Ok? then
      Permitted(db, action) && key in next.operations && next.operations[key] == Operation(intent, AnswerTo(db, action).value)
    else next == db
  }

  lemma CallOnceOrReplayed(db: Db, action: Action)
    requires Linked(db) && Enabled(db, action) && KeyOf(action).Some?
    ensures OnceOrReplayed(db, action)
  {
    hide Linked, LeasedRows, NewLease, NewIds, CheckDraft, CheckOutput, Policy, Authorize;
    hide CreateEffect, ApproveEffect, CancelEffect, RetryEffect, UploadEffect, RevokeEffect, ClaimEffect;
  }

  /** A call that changes the index is the one that records its key, whatever else the run does. */
  lemma ChangeIsRecorded(states: seq<Db>, actions: seq<Action>, i: nat)
    requires Run(states, actions) && i < |actions| && KeyOf(actions[i]).Some? && states[i + 1] != states[i]
    ensures Linked(states[i]) && Enabled(states[i], actions[i])
    ensures var key := KeyOf(actions[i]).value;
            && key !in states[i].operations && key in states[i + 1].operations
            && AnswerTo(states[i], actions[i]) == Ok(states[i + 1].operations[key].response)
            && states[i + 1].operations[key].intent == IntentOf(actions[i])
  {
    hide Linked, Enabled, Apply, AnswerTo, Begins, Permitted, KeyOf, IntentOf;
    assert StepsTo(states[i], actions[i], states[i + 1]);
    CallOnceOrReplayed(states[i], actions[i]);
  }

  /**
   * Of all the calls of a run that share a key at most one changes the index. Every later one leaves everything as it is
   * and, when it succeeds, asks for the same and gets the same answer.
   */
  lemma EffectsCommitOnce(states: seq<Db>, actions: seq<Action>, i: nat, j: nat)
    requires Run(states, actions) && i < j < |actions|
    requires KeyOf(actions[i]).Some? && KeyOf(actions[j]) == KeyOf(actions[i]) && states[i + 1] != states[i]
    ensures Linked(states[i]) && Enabled(states[i], actions[i]) && Linked(states[j]) && Enabled(states[j], actions[j])
    ensures states[j + 1] == states[j]
    ensures AnswerTo(states[j], actions[j]).Ok? ==>
              && AnswerTo(states[j], actions[j]) == AnswerTo(states[i], actions[i])
              && IntentOf(actions[j]) == IntentOf(actions[i])
  {
    hide Linked, Enabled, Apply, AnswerTo, Begins, Permitted, KeyOf, IntentOf;
    ChangeIsRecorded(states, actions, i);
    RecordedForever(states, actions, i + 1, j, KeyOf(actions[i]).value);
    assert StepsTo(states[j], actions[j], states[j + 1]);
    CallOnceOrReplayed(states[j], actions[j]);
  }

  /** The payloads that the checks before a transaction let through. */
  predicate Presentable(settings: Settings, intent: Intent) {
    match intent
    case CreateIntent(capability, draft) => CheckDraft(capability, draft).Ok?
    case UploadIntent(_, data) => CheckOutput(data, settings.maxFileBytes).Ok?
    case _ => true
  }

  lemma AnsweredWasPresentable(db: Db, action: Action)
    requires Linked(db) && Enabled(db, action) && KeyOf(action).Some? && AnswerTo(db, action).Ok?
    ensures Presentable(db.settings, IntentOf(action))
  {
    hide Linked, LeasedRows, NewLease, NewIds, CheckDraft, CheckOutput, Policy, Authorize;
    hide CreateEffect, ApproveEffect, CancelEffect, RetryEffect, UploadEffect, RevokeEffect, ClaimEffect;
  }

  lemma RecordAnswers(db: Db, action: Action)
    requires Linked(db) && Enabled(db, action) && KeyOf(action).Some? && Permitted(db, action)
    requires Presentable(db.settings, IntentOf(action)) && KeyOf(action).value in db.operations
    requires db.operations[KeyOf(action).value].intent == IntentOf(action)
    ensures AnswerTo(db, action) == Ok(db.operations[KeyOf(action).value].response)
  {
    hide Linked, LeasedRows, NewLease, NewIds, CheckDraft, CheckOutput, Policy, Authorize;
    hide CreateEffect, ApproveEffect, CancelEffect, RetryEffect, UploadEffect, RevokeEffect, ClaimEffect;
  }

  /**
   * A call that succeeded once, repeated at any later time by a permitted caller, succeeds with the same answer, whatever
   * has become of the mission, the file or the worker it was about.
   */
  lemma RepeatsAreAnswered(states: seq<Db>, actions: seq<Action>, i: nat, j: nat)
    requires Run(states, actions) && i < j < |actions|
    requires KeyOf(actions[i]).Some? && KeyOf(actions[j]) == KeyOf(actions[i]) && IntentOf(actions[j]) == IntentOf(actions[i])
    requires Permitted(states[j], actions[j])
    ensures Linked(states[i]) && Enabled(states[i], actions[i]) && Linked(states[j]) && Enabled(states[j], actions[j])
    ensures AnswerTo(states[i], actions[i]).Ok? ==>
              AnswerTo(states[j], actions[j]) == AnswerTo(states[i], actions[i]) && states[j + 1] == states[j]
  {
    hide Linked, Enabled, Apply, AnswerTo, Begins, Permitted, KeyOf, IntentOf, Presentable;
    assert StepsTo(states[i], actions[i], states[i + 1]) && StepsTo(states[j], actions[j], states[j + 1]);
    if AnswerTo(states[i], actions[i]).Ok? {
      CallOnceOrReplayed(states[i], actions[i]);
      RecordedForever(states, actions, i + 1, j, KeyOf(actions[i]).value);
      AnsweredWasPresentable(states[i], actions[i]);
      SettingsStay(states, actions, i, j);
      RecordAnswers(states[j], actions[j]);
      CallOnceOrReplayed(states[j], actions[j]);
    }
  }

  lemma SettingsStay(states: seq<Db>, actions: seq<Action>, i: nat, j: nat)
    requires Run(states, actions) && i <= j < |states|
    ensures states[j].settings == states[i].settings
  {
    hide Run;
    RunGrows(states, actions, i, j);
  }

  /** A claim under a stale epoch is refused before any record is read. */
  lemma StaleEpochNeverReplays(db: Db, p: Principal, operation: Id, c: ClaimInputs)
    requires Linked(db) && (forall a <- c.rows :: a in db.attempts)
    requires p.identity in db.workers && p.epoch != Some(db.workers[p.identity].epoch)
    ensures ClaimCall(db, p, operation, c).0 == db && ClaimCall(db, p, operation, c).1.Refused?
  {
    hide ClaimEffect;
  }

  /** A lost claim reply is recovered: the same claim later, under the same credential, names the same lease. */
  lemma LostClaimRecovered(
    states: seq<Db>, actions: seq<Action>, i: nat, j: nat, p: Principal, operation: Id, c: ClaimInputs, response: Response)
    requires Run(states, actions) && i <= j < |states| && p.epoch.Some?
    requires WorkerOperation(p.identity, p.epoch.value, operation) in states[i].operations
    requires states[i].operations[WorkerOperation(p.identity, p.epoch.value, operation)] == Operation(ClaimIntent, response)
    requires Linked(states[j]) && (forall a <- c.rows :: a in states[j].attempts)
    requires Authorize(states[j], p).Ok?
    ensures ClaimCall(states[j], p, operation, c) == (states[j], Ok(response))
  {
    hide Run, Linked, Authorize, ClaimEffect;
    RecordedForever(states, actions, i, j, WorkerOperation(p.identity, p.epoch.value, operation));
  }

  // ----- Files -----

  /** A published version keeps its row and its bytes for the rest of the run. */
  lemma PublishedForever(states: seq<Db>, actions: seq<Action>, i: nat, j: nat, k: nat)
    requires Run(states, actions) && i <= j < |states| && k < |states[i].versions|
    ensures k < |states[j].versions| && states[j].versions[k] == states[i].versions[k]
    ensures var v := states[i].versions[k];
            && v.digest in states[j].objects && Sha256(states[j].objects[v.digest]) == v.digest
            && v.digest in states[i].objects && states[j].objects[v.digest] == states[i].objects[v.digest]
            && |states[j].objects[v.digest]| == v.size
  {
    hide Run, Inv, MissionsGrow, TasksGrow, AttemptsGrow, WorkersGrow;
    RunKeepsInv(states, actions, i);
    RunKeepsInv(states, actions, j);
    RunGrows(states, actions, i, j);
    StoredIn(states[i], k);
    StoredIn(states[j], k);
  }

  lemma StoredIn(db: Db, k: nat)
    requires Inv(db) && k < |db.versions|
    ensures db.versions[k].digest in db.objects
    ensures Sha256(db.objects[db.versions[k].digest]) == db.versions[k].digest
    ensures |db.objects[db.versions[k].digest]| == db.versions[k].size
  {
    hide Life, LedgerOk, LeasesOk, ClaimsOk, OriginsOk, ResultsOk;
    hide NamesOk, DistinctVersions, Linear, VersionsLinked, WithinLimits;
  }
}
