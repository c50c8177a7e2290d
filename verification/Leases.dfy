/** Exactly which claims are given which lease, and what decides about a worker's credential, in the caller's terms. */
module Leases {
  import opened Base
  import opened Contracts
  import opened Tables
  import opened Transactions
  import opened Lifecycle
  import opened Ledger
  import opened Attempts
  import opened Files
  import opened Growth
  import opened Invariant
  import opened Effects
  import opened Planning
  import opened Identities
  import opened Runs
  import opened Safety

  // ----- Credentials -----

  /** An active worker under its current epoch. */
  ghost predicate ActsAs(db: Db, p: Principal) {
    && p.role == WorkerRole && p.identity in db.workers && db.workers[p.identity].active
    && p.epoch == Some(db.workers[p.identity].epoch)
  }

  lemma CredentialsDecide(db: Db, p: Principal)
    requires Inv(db)
    ensures Authorize(db, p).Ok? <==> ActsAs(db, p)
    ensures ActsAs(db, p) ==> Authorize(db, p) == Ok(db.workers[p.identity])
  {
    hide Inv, Policy;
    if p.identity in db.workers {
      KnownPolicy(db, p.identity);
    }
  }

  /** A worker reads the state of exactly the attempts that it was given under its present credential. */
  lemma StateIsRead(db: Db, p: Principal, a: Id, state: State)
    requires Inv(db)
    ensures AttemptState(db, p, a) == Ok(state) <==>
            && ActsAs(db, p) && a in db.attempts && a in db.epochs
            && db.attempts[a].worker == p.identity && p.epoch == Some(db.epochs[a])
            && state == db.attempts[a].state
  {
    hide Inv;
    CredentialsDecide(db, p);
  }

  predicate WithinPolicy(db: Db, w: Worker) {
    && 1 <= w.lease <= db.settings.attemptSeconds
    && 1 <= w.maxOutput <= db.settings.maxFileBytes && w.maxOutput <= 65536
  }

  /** A worker is enrolled exactly within the limits of the installation: active, in its first epoch. */
  lemma EnrolledIff(db: Db, action: Action)
    requires Linked(db) && Enabled(db, action) && action.Enroll?
    ensures var next := Apply(db, action);
            if WithinPolicy(db, action.worker) then
              && next.workers.Keys == db.workers.Keys + {action.identity}
              && next.workers[action.identity] == action.worker.(active := true, epoch := 1)
              && (forall w <- db.workers :: next.workers[w] == db.workers[w])
            else next == db
  {
    hide Linked;
  }

  /** A credential is rotated exactly for a known worker that is active or that is to be reactivated. */
  lemma RotatedIff(db: Db, action: Action)
    requires Linked(db) && Enabled(db, action) && action.Rotate?
    ensures var next := Apply(db, action);
            if action.w in db.workers && (db.workers[action.w].active || action.reactivate) then
              && next.workers.Keys == db.workers.Keys
              && next.workers[action.w].active && next.workers[action.w].epoch == db.workers[action.w].epoch + 1
              && (forall w | w in db.workers && w != action.w :: next.workers[w] == db.workers[w])
              && next.attempts == db.attempts && next.missions == db.missions && next.tasks == db.tasks
            else next == db
  {
    hide Linked, Enabled, RotateTx;
    RotationWrites(db, action.w, action.reactivate, action.workspace);
  }

  lemma RotationWrites(db: Db, w: Id, reactivate: bool, workspace: Id)
    ensures RotateTx(db, w, reactivate, workspace).Ok? <==> w in db.workers && (db.workers[w].active || reactivate)
    ensures RotateTx(db, w, reactivate, workspace).Ok? ==>
              var next := RotateTx(db, w, reactivate, workspace).value;
              && next.workers == db.workers[w := db.workers[w].(active := true, epoch := db.workers[w].epoch + 1)]
              && next.attempts == db.attempts && next.missions == db.missions && next.tasks == db.tasks
  {
  }

  /** A row after its worker's revocation: a lease is interrupted, anything else stays. */
  function RevokedRow(row: Attempt, w: Id): Attempt {
    if row.worker == w && (row.state == Running || row.state == CancelRequested)
    then row.(state := State.Interrupted, error := Some(WorkerRevoked)) else row
  }

  /**
   * Every known worker can be revoked: it is then inactive, under a higher epoch if it was active, and all its leases are
   * interrupted; other workers and their leases stay as they are.
   */
  lemma RevokedIff(db: Db, action: Action)
    requires Inv(db) && Linked(db) && Enabled(db, action) && action.Revoke? && action.p.role == AdminRole
    requires KeyOf(action).value !in db.operations
    ensures AnswerTo(db, action).Ok? <==> action.w in db.workers
    ensures AnswerTo(db, action).Ok? ==>
              var next, row := Apply(db, action), db.workers[action.w];
              && next.workers.Keys == db.workers.Keys && next.attempts.Keys == db.attempts.Keys
              && !next.workers[action.w].active
              && next.workers[action.w].epoch == (if row.active then row.epoch + 1 else row.epoch)
              && AnswerTo(db, action).value == WorkerView(action.w, false, next.workers[action.w].epoch)
              && (forall w | w in db.workers && w != action.w :: next.workers[w] == db.workers[w])
              && (forall a <- db.attempts :: next.attempts[a] == RevokedRow(db.attempts[a], action.w))
  {
    hide Inv, Linked, RevokeEffect, LeasedRows;
    LeasedRowsKnown(db, Some(action.w), action.rows);
    if action.w in db.workers {
      RevocationCuts(db, action.p, action.w, action.rows, action.workspace);
    } else {
      RevokeRefused(db, action.p, action.w, action.rows, action.workspace);
    }
  }

  lemma RevocationCuts(db: Db, p: Principal, w: Id, rows: seq<Id>, workspace: Id)
    requires Inv(db) && Linked(db) && LeasedRows(db, Some(w), rows) && w in db.workers
    ensures forall a <- rows :: a in db.attempts
    ensures RevokeEffect(db, p, w, rows, workspace).Ok?
    ensures var (next, answer) := RevokeEffect(db, p, w, rows, workspace).value;
            && next.workers == Marked(db, w).workers
            && answer == WorkerView(w, false, if db.workers[w].active then db.workers[w].epoch + 1 else db.workers[w].epoch)
            && next.attempts.Keys == db.attempts.Keys
            && (forall a <- db.attempts :: next.attempts[a] == RevokedRow(db.attempts[a], w))
  {
    hide Inv, Linked, FenceRows, LeasedRows, FenceDone, RevokeEffect, RowSet, AllActive;
    MarkKeepsInv(db, w);
    MarkedRows(db, w, rows);
    RowsActive(Marked(db, w), Some(w), rows);
    InvLinked(Marked(db, w));
    FenceKeepsInv(Marked(db, w), rows, RowSet(rows), WorkerRevoked);
    CutRows(db, w, rows, FenceRows(Marked(db, w), rows, RowSet(rows), WorkerRevoked).value);
    RevokeMoves(db, p, w, rows, workspace);
    RevokeAnswers(db, p, w, rows, workspace);
  }

  lemma RevokeAnswers(db: Db, p: Principal, w: Id, rows: seq<Id>, workspace: Id)
    requires Linked(db) && w in db.workers && (forall a <- rows :: a in db.attempts)
    requires RevokeEffect(db, p, w, rows, workspace).Ok?
    ensures var row := db.workers[w];
            RevokeEffect(db, p, w, rows, workspace).value.1
            == WorkerView(w, false, if row.active then row.epoch + 1 else row.epoch)
  {
    hide FenceRows, Linked;
  }

  lemma CutRows(db: Db, w: Id, rows: seq<Id>, after: Db)
    requires LeasedRows(db, Some(w), rows) && w in db.workers
    requires FenceDone(Marked(db, w), rows, RowSet(rows), WorkerRevoked, after)
    ensures after.workers == Marked(db, w).workers && after.attempts.Keys == db.attempts.Keys
    ensures forall a <- db.attempts :: after.attempts[a] == RevokedRow(db.attempts[a], w)
  {
    hide Inv, Grows, NoVerdict;
  }

  // ----- The queue -----

  /** A queued task of this worker. */
  ghost predicate Waits(db: Db, t: Id, w: Id) {
    && t in db.tasks && db.tasks[t].mission in db.missions
    && db.tasks[t].worker == w && db.tasks[t].state == Queued && db.missions[db.tasks[t].mission].state == Queued
  }

  /** The oldest mission's task comes first, and the lower identifier among missions of one age. */
  ghost predicate FirstOf(db: Db, t: Id, w: Id) {
    && Waits(db, t, w)
    && forall u | Waits(db, u, w) ::
         var m, n := db.tasks[t].mission, db.tasks[u].mission;
         || db.missions[m].createdAt < db.missions[n].createdAt
         || (db.missions[m].createdAt == db.missions[n].createdAt && m <= n)
  }

  /** Each lease of this worker is over by its deadline. */
  ghost predicate Free(db: Db, w: Id, clock: Clock) {
    forall a | a in db.attempts && db.attempts[a].worker == w && db.attempts[a].state in {Running, CancelRequested} ::
      db.attempts[a].deadline <= clock(a)
  }

  /** Both have the same queues, in the same order. */
  ghost predicate SameQueues(db: Db, after: Db) {
    && after.tasks.Keys == db.tasks.Keys && after.missions.Keys == db.missions.Keys
    && (forall m <- db.missions :: after.missions[m].createdAt == db.missions[m].createdAt)
    && (forall t <- db.tasks :: after.tasks[t].mission == db.tasks[t].mission && after.tasks[t].worker == db.tasks[t].worker)
    && (forall t, w :: Waits(after, t, w) <==> Waits(db, t, w))
  }

  lemma FenceOneKeepsQueues(db: Db, a: Id, reason: ErrorCode)
    requires Linked(db) && a in db.attempts && FenceOne(db, a, reason).Ok?
    ensures SameQueues(db, FenceOne(db, a, reason).value) && Linked(FenceOne(db, a, reason).value)
    ensures FenceOne(db, a, reason).value.attempts.Keys == db.attempts.Keys
  {
  }

  lemma SameQueuesTransitive(x: Db, y: Db, z: Db)
    requires SameQueues(x, y) && SameQueues(y, z)
    ensures SameQueues(x, z)
  {
    hide Waits;
  }

  lemma {:induction false} FenceKeepsQueues(db: Db, rows: seq<Id>, due: set<Id>, reason: ErrorCode)
    requires Linked(db) && (forall a <- rows :: a in db.attempts) && FenceRows(db, rows, due, reason).Ok?
    ensures SameQueues(db, FenceRows(db, rows, due, reason).value)
    decreases |rows|
  {
    hide Linked, SameQueues, FenceOne;
    if rows == [] {
      SameQueuesItself(db);
    } else if rows[0] !in due {
      FenceKeepsQueues(db, rows[1..], due, reason);
    } else {
      var next := FenceOne(db, rows[0], reason).value;
      FenceOneKeepsQueues(db, rows[0], reason);
      FenceKeepsQueues(next, rows[1..], due, reason);
      SameQueuesTransitive(db, next, FenceRows(next, rows[1..], due, reason).value);
    }
  }

  lemma SameQueuesItself(db: Db)
    ensures SameQueues(db, db)
  {
  }

  lemma QueueMeans(db: Db, swept: Db, w: Id)
    requires Linked(db) && Linked(swept) && SameQueues(db, swept)
    ensures forall t :: Queueable(swept, t, w) <==> Waits(db, t, w)
    ensures forall t :: NextTask(swept, w, t) <==> FirstOf(db, t, w)
  {
    forall t
      ensures Queueable(swept, t, w) <==> Waits(swept, t, w)
    {
    }
  }

  lemma SweptIsFree(db: Db, p: Principal, c: ClaimInputs, swept: Db)
    requires LeasedRows(db, None, c.rows) && (forall a <- c.rows :: a in db.attempts)
    requires FenceDone(db, c.rows, Overdue(db, c.rows, c.clock), AttemptExpired, swept)
    ensures Idle(swept.attempts, p.identity) <==> Free(db, p.identity, c.clock)
    ensures forall a <- swept.attempts :: a in db.attempts && swept.attempts[a].task == db.attempts[a].task
                                          && swept.attempts[a].number == db.attempts[a].number
    ensures swept.attempts.Keys == db.attempts.Keys && swept.settings == db.settings
  {
    hide Inv, Grows, NoVerdict;
    if Idle(swept.attempts, p.identity) {
      forall a | a in db.attempts && db.attempts[a].worker == p.identity
                 && db.attempts[a].state in {Running, CancelRequested}
        ensures db.attempts[a].deadline <= c.clock(a)
      {
        assert a in swept.attempts;
      }
    }
  }

  /** What the sweep of a claim leaves, as far as the claim then looks at it. */
  lemma SweptFor(db: Db, p: Principal, c: ClaimInputs) returns (swept: Db)
    requires Inv(db) && Linked(db) && LeasedRows(db, None, c.rows)
    ensures forall a <- c.rows :: a in db.attempts
    ensures ExpireTx(db, c.rows, c.clock) == Ok(swept) && Linked(swept)
    ensures Idle(swept.attempts, p.identity) <==> Free(db, p.identity, c.clock)
    ensures forall t :: Queueable(swept, t, p.identity) <==> Waits(db, t, p.identity)
    ensures forall t :: NextTask(swept, p.identity, t) <==> FirstOf(db, t, p.identity)
    ensures PickTask(swept, p.identity) == None <==> forall t :: !Waits(db, t, p.identity)
    ensures PickTask(swept, p.identity).Some? ==> FirstOf(db, PickTask(swept, p.identity).value, p.identity)
    ensures forall a <- swept.attempts :: a in db.attempts && swept.attempts[a].task == db.attempts[a].task
                                          && swept.attempts[a].number == db.attempts[a].number
    ensures swept.attempts.Keys == db.attempts.Keys && swept.settings == db.settings
    ensures SameQueues(db, swept)
  {
    hide Inv, Linked, LeasedRows, FenceRows, FenceDone, Idle, Free, Waits, FirstOf, Queueable, NextTask, PickTask,
        SameQueues;
    LeasedRowsKnown(db, None, c.rows);
    ExpireKept(db, c.rows, c.clock);
    swept := ExpireTx(db, c.rows, c.clock).value;
    DoneIsKept(db, c.rows, Overdue(db, c.rows, c.clock), AttemptExpired, swept);
    KeptFactsOf(db, swept);
    InvLinked(swept);
    SweptIsFree(db, p, c, swept);
    FenceKeepsQueues(db, c.rows, Overdue(db, c.rows, c.clock), AttemptExpired);
    QueueMeans(db, swept, p.identity);
    QueueHasOldest(swept, p.identity);
  }

  lemma StartDecided(db: Db, p: Principal, w: Worker, t: Id, top: nat, c: ClaimInputs)
    requires Linked(db) && Queueable(db, t, p.identity) && p.epoch.Some?
    ensures StartAttempt(db, p, w, t, top, c).Ok? <==> c.now >= 0.0
    ensures StartAttempt(db, p, w, t, top, c).Ok? ==> StartAttempt(db, p, w, t, top, c).value.1.Work?
  {
    hide Current;
  }

  // ----- Who gets a lease -----

  /** A claim that may be made now and that no record answers. */
  ghost predicate NewClaim(db: Db, action: Action) {
    && Linked(db) && Enabled(db, action) && action.Claim? && action.p.epoch.Some?
    && KeyOf(action).value !in db.operations
  }

  /**
   * A new claim is given work exactly when an active worker makes it under its current epoch, none of its leases is
   * still good, and a task is queued for it; without a free hand or a task it is told so, and a clock below zero refuses.
   */
  lemma WorkGivenIff(db: Db, action: Action)
    requires Inv(db) && NewClaim(db, action)
    ensures var p, c := action.p, action.inputs;
            var wanted := Free(db, p.identity, c.clock) && exists t :: Waits(db, t, p.identity);
            && (AnswerTo(db, action).Ok? <==> ActsAs(db, p) && (wanted ==> c.now >= 0.0))
            && (AnswerTo(db, action).Ok? && wanted ==> AnswerTo(db, action).value.Work?)
            && (AnswerTo(db, action).Ok? && !wanted ==> AnswerTo(db, action).value == NoWork)
  {
    hide Inv, Linked, LeasedRows, NewLease, ExpireTx, Idle, Free, Waits, FirstOf, Queueable, NextTask, PickTask,
        StartAttempt, SameQueues, Top, ActsAs, Authorize;
    var p, c := action.p, action.inputs;
    CredentialsDecide(db, p);
    var swept := SweptFor(db, p, c);
    var picked := PickTask(swept, p.identity);
    if picked.Some? {
      NextIsQueueable(swept, p.identity, picked.value);
      assert Waits(db, picked.value, p.identity);
      if ActsAs(db, p) {
        ActorIsKnown(db, p);
        StartDecided(swept, p, db.workers[p.identity], picked.value, Top(swept.attempts, picked.value), c);
      }
    }
  }

  /** One above every number of the task, and so the next one. */
  ghost predicate NextNumber(attempts: map<Id, Attempt>, t: Id, n: nat) {
    && (forall a | a in attempts && attempts[a].task == t :: attempts[a].number < n)
    && (n == 1 || exists a :: a in attempts && attempts[a].task == t && attempts[a].number == n - 1)
  }

  /** The lease of a claim, field by field. */
  ghost predicate Given(db: Db, p: Principal, c: ClaimInputs, r: Request, next: Db) {
    && FirstOf(db, r.task, p.identity) && r.mission == db.tasks[r.task].mission
    && r.attempt == c.attempt && r.generation == c.generation && r.worker == p.identity
    && c.attempt in next.attempts && c.attempt in next.epochs && Some(next.epochs[c.attempt]) == p.epoch
    && r.task in next.tasks && next.tasks[r.task].state == Running
    && r.mission in next.missions && next.missions[r.mission].state == Running
    && var row := next.attempts[c.attempt];
    && row.task == r.task && row.worker == p.identity && row.state == Running && row.generation == c.generation
    && NextNumber(db.attempts, r.task, row.number)
    && row.startedAt == c.now && row.result == None && row.error == None && row.expected == r.expected
    && row.deadline == r.deadline
    && p.identity in db.workers
    && r.deadline <= c.now + db.workers[p.identity].lease as real
    && r.deadline <= c.now + db.settings.attemptSeconds as real
    && (r.deadline == c.now + db.workers[p.identity].lease as real
        || r.deadline == c.now + db.settings.attemptSeconds as real)
  }

  lemma StartGives(db: Db, swept: Db, p: Principal, t: Id, c: ClaimInputs)
    requires Linked(swept) && p.epoch.Some? && p.identity in db.workers && Queueable(swept, t, p.identity)
    requires SameQueues(db, swept) && FirstOf(db, t, p.identity) && swept.settings == db.settings
    requires swept.attempts.Keys == db.attempts.Keys
    requires forall a <- swept.attempts :: a in db.attempts && swept.attempts[a].task == db.attempts[a].task
                                           && swept.attempts[a].number == db.attempts[a].number
    requires StartAttempt(swept, p, db.workers[p.identity], t, Top(swept.attempts, t), c).Ok?
    ensures var (next, answer) := StartAttempt(swept, p, db.workers[p.identity], t, Top(swept.attempts, t), c).value;
            answer.Work? && Given(db, p, c, answer.request, next)
  {
    hide Current, FirstOf, Waits, Top, Linked;
    TopIsTopNumber(swept.attempts, t);
    NumberFollows(db, swept, t, Top(swept.attempts, t));
  }

  lemma NumberFollows(db: Db, swept: Db, t: Id, top: nat)
    requires swept.attempts.Keys == db.attempts.Keys && TopNumber(swept.attempts, t, top)
    requires forall a <- swept.attempts :: a in db.attempts && swept.attempts[a].task == db.attempts[a].task
                                           && swept.attempts[a].number == db.attempts[a].number
    ensures NextNumber(db.attempts, t, top + 1)
  {
    if top != 0 {
      var a :| a in swept.attempts && swept.attempts[a].task == t && swept.attempts[a].number == top;
      assert a in db.attempts && db.attempts[a].task == t && db.attempts[a].number == top + 1 - 1;
    }
  }

  /**
   * The lease of a claim is on the first task in the worker's queue, under the next number of that task and the epoch of
   * the claim, from now until the lease of the worker or that of the installation is over, whichever ends first.
   */
  lemma LeaseIsGiven(db: Db, action: Action, r: Request)
    requires Inv(db) && NewClaim(db, action) && AnswerTo(db, action) == Ok(Work(r))
    ensures Given(db, action.p, action.inputs, r, Apply(db, action))
  {
    hide Inv, Linked, LeasedRows, NewLease, ExpireTx, Idle, Free, Waits, FirstOf, Queueable, NextTask, PickTask,
        StartAttempt, SameQueues, Top, ActsAs, Authorize, Given;
    var p, c := action.p, action.inputs;
    CredentialsDecide(db, p);
    ActorIsKnown(db, p);
    var swept := SweptFor(db, p, c);
    var t := PickTask(swept, p.identity).value;
    NextIsQueueable(swept, p.identity, t);
    StartGives(db, swept, p, t, c);
    RecordedStillGiven(db, p, c, r, StartAttempt(swept, p, db.workers[p.identity], t, Top(swept.attempts, t), c).value.0,
                       Apply(db, action));
  }

  lemma ActorIsKnown(db: Db, p: Principal)
    requires ActsAs(db, p)
    ensures p.identity in db.workers
  {
  }

  lemma RecordedStillGiven(db: Db, p: Principal, c: ClaimInputs, r: Request, next: Db, recorded: Db)
    requires Given(db, p, c, r, next) && recorded == next.(operations := recorded.operations)
    ensures Given(db, p, c, r, recorded)
  {
    hide FirstOf, NextNumber;
  }
}
