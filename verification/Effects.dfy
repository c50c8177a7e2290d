/** Every transaction keeps the invariant of the whole index, and only lets it grow. */
module Effects {
  import opened Base
  import opened Contracts
  import opened Tables
  import opened Transactions
  import opened Lifecycle
  import opened Ledger
  import opened Attempts
  import opened Files
  import opened Growth
  import opened Invariant

  // ----- Fences -----

  ghost predicate AllActive(db: Db, rows: seq<Id>) {
    && (forall a <- rows :: a in db.attempts && Active(db.attempts[a].state))
    && (forall i, j | 0 <= i < j < |rows| :: rows[i] != rows[j])
  }

  /** Interrupting one row leaves the others as they were. */
  lemma OthersStayActive(db: Db, rows: seq<Id>, row: Attempt, actor: Actor, reason: string)
    requires rows != [] && AllActive(db, rows) && Linked(db) && row.task == db.attempts[rows[0]].task
    ensures AllActive(Moved(db, actor, rows[0], row, reason), rows[1..])
  {
  }

  function Cut(rows: seq<Id>, due: set<Id>): set<Id> {
    set a | a in rows && a in due
  }

  ghost function FencedAttempts(attempts: map<Id, Attempt>, cut: set<Id>, reason: ErrorCode): map<Id, Attempt> {
    map a | a in attempts ::
      if a in cut then attempts[a].(state := Interrupted, error := Some(reason)) else attempts[a]
  }

  /** The tables that a fence does not write. */
  ghost predicate FenceFrame(before: Db, after: Db) {
    && after.settings == before.settings && after.workspaces == before.workspaces && after.epochs == before.epochs
    && after.files == before.files && after.versions == before.versions && after.results == before.results
    && after.operations == before.operations && after.workers == before.workers && after.objects == before.objects
  }

  lemma FenceOneKeepsInv(db: Db, a: Id, reason: ErrorCode)
    requires Inv(db) && a in db.attempts && Active(db.attempts[a].state)
    ensures var row := db.attempts[a].(state := Interrupted, error := Some(reason));
            && Linked(db)
            && FenceOne(db, a, reason) == Ok(Moved(db, LocalSystem, a, row, ReasonText(reason)))
            && Inv(Moved(db, LocalSystem, a, row, ReasonText(reason)))
            && Grows(db, Moved(db, LocalSystem, a, row, ReasonText(reason)))
  {
    hide Inv, Grows, Settle, Moved, Linked;
    var row := db.attempts[a].(state := Interrupted, error := Some(reason));
    InvLinked(db);
    UnreportedActive(db, a);
    SettleKeepsInv(db, LocalSystem, a, row, ReasonText(reason));
  }

  lemma InvLinked(db: Db)
    requires Inv(db)
    ensures Linked(db)
  {
    hide LedgerOk, LeasesOk, ClaimsOk, FilesOk, OriginsOk, ResultsOk;
  }

  lemma UnreportedActive(db: Db, a: Id)
    requires Inv(db) && a in db.attempts && Active(db.attempts[a].state)
    ensures db.attempts[a].result == None
  {
    hide Life, LedgerOk, ClaimsOk, FilesOk, OriginsOk, ResultsOk, Numbered, Generations, Credited, WorkersOk;
  }

  lemma MovedFrame(db: Db, actor: Actor, a: Id, row: Attempt, reason: string)
    requires Linked(db) && a in db.attempts && row.task == db.attempts[a].task
    ensures Moved(db, actor, a, row, reason).attempts == db.attempts[a := row]
    ensures FenceFrame(db, Moved(db, actor, a, row, reason))
    ensures row.state == Interrupted ==> NoVerdict(db.missions, Moved(db, actor, a, row, reason).missions)
    ensures db.missions.Keys <= Moved(db, actor, a, row, reason).missions.Keys
  {
  }

  /** What a fence over some leased rows achieves. */
  ghost predicate FenceDone(db: Db, rows: seq<Id>, due: set<Id>, reason: ErrorCode, after: Db) {
    && Inv(after) && Grows(db, after) && FenceFrame(db, after)
    && after.attempts == FencedAttempts(db.attempts, Cut(rows, due), reason)
    && NoVerdict(db.missions, after.missions)
  }

  lemma NothingFenced(db: Db, due: set<Id>, reason: ErrorCode)
    requires Inv(db)
    ensures FenceDone(db, [], due, reason, db)
  {
    hide Inv;
  }

  lemma FenceSkips(db: Db, rows: seq<Id>, due: set<Id>, reason: ErrorCode, after: Db)
    requires rows != [] && rows[0] !in due && FenceDone(db, rows[1..], due, reason, after)
    ensures FenceDone(db, rows, due, reason, after)
  {
    assert Cut(rows, due) == Cut(rows[1..], due);
    hide Inv, Grows, Cut, FencedAttempts, NoVerdict;
  }

  lemma FenceStep(db: Db, rows: seq<Id>, due: set<Id>, reason: ErrorCode, row: Attempt, after: Db)
    requires Linked(db) && rows != [] && rows[0] in due && rows[0] in db.attempts && rows[0] !in rows[1..]
    requires row == db.attempts[rows[0]].(state := Interrupted, error := Some(reason))
    requires Grows(db, Moved(db, LocalSystem, rows[0], row, ReasonText(reason)))
    requires FenceDone(Moved(db, LocalSystem, rows[0], row, ReasonText(reason)), rows[1..], due, reason, after)
    ensures FenceDone(db, rows, due, reason, after)
  {
    var next := Moved(db, LocalSystem, rows[0], row, ReasonText(reason));
    hide Inv, Grows, Moved, FencedAttempts, Cut, NoVerdict;
    MovedFrame(db, LocalSystem, rows[0], row, ReasonText(reason));
    NoVerdictTransitive(db.missions, next.missions, after.missions);
    GrowsTransitive(db, next, after);
    FenceClosedForm(db.attempts, rows, due, reason);
  }

  /** A fence over leased rows never meets a forbidden transition, and interrupts exactly the due rows. */
  lemma {:induction false} FenceKeepsInv(db: Db, rows: seq<Id>, due: set<Id>, reason: ErrorCode)
    requires Inv(db) && AllActive(db, rows)
    ensures Linked(db) && FenceRows(db, rows, due, reason).Ok?
    ensures FenceDone(db, rows, due, reason, FenceRows(db, rows, due, reason).value)
    decreases |rows|
  {
    hide Inv, Linked, FenceOne, FenceDone, Moved;
    InvLinked(db);
    if rows == [] {
      NothingFenced(db, due, reason);
    } else if rows[0] !in due {
      assert AllActive(db, rows[1..]);
      FenceKeepsInv(db, rows[1..], due, reason);
      FenceSkips(db, rows, due, reason, FenceRows(db, rows[1..], due, reason).value);
    } else {
      var row := db.attempts[rows[0]].(state := Interrupted, error := Some(reason));
      FenceOneKeepsInv(db, rows[0], reason);
      var next := Moved(db, LocalSystem, rows[0], row, ReasonText(reason));
      OthersStayActive(db, rows, row, LocalSystem, ReasonText(reason));
      FenceKeepsInv(next, rows[1..], due, reason);
      FenceStep(db, rows, due, reason, row, FenceRows(next, rows[1..], due, reason).value);
    }
  }

  lemma FenceTouches(db: Db, rows: seq<Id>, due: set<Id>, reason: ErrorCode, after: Db)
    requires AllActive(db, rows) && FenceDone(db, rows, due, reason, after)
    ensures OnlyTouched(db.attempts, after.attempts) && NoVerdict(db.missions, after.missions)
  {
    hide Inv, Grows, NoVerdict;
  }

  lemma FenceClosedForm(attempts: map<Id, Attempt>, rows: seq<Id>, due: set<Id>, reason: ErrorCode)
    requires rows != [] && rows[0] in due && rows[0] in attempts && rows[0] !in rows[1..]
    ensures FencedAttempts(attempts[rows[0] := attempts[rows[0]].(state := Interrupted, error := Some(reason))],
                           Cut(rows[1..], due), reason)
            == FencedAttempts(attempts, Cut(rows, due), reason)
  {
  }

  /** What every transaction leaves behind. */
  ghost predicate Kept(before: Db, after: Db) {
    Inv(after) && Grows(before, after)
  }

  lemma KeptTransitive(x: Db, y: Db, z: Db)
    requires Kept(x, y) && Kept(y, z)
    ensures Kept(x, z)
  {
    hide Inv, Grows;
    GrowsTransitive(x, y, z);
  }

  // ----- Cancel and retry -----

  /** The index after a mission without an active attempt moved with its task. */
  ghost function IdleMoved(db: Db, actor: Actor, m: Id, target: State, reason: string): Db
    requires m in db.missions
  {
    db.(missions := MissionTo(db.missions, m, target), tasks := TasksTo(db.tasks, m, target),
        events := db.events + [Event(Some(m), db.missions[m].workspace, actor, MissionState(target, reason))])
  }

  lemma TasksToGrows(tasks: map<Id, Task>, m: Id, target: State)
    ensures TasksGrow(tasks, TasksTo(tasks, m, target)) && SamePlans(tasks, TasksTo(tasks, m, target))
  {
  }

  /** Leases do not depend on task states. */
  lemma TasksToKeepsLeases(
    settings: Settings, workers: map<Id, Worker>, tasks: map<Id, Task>, attempts: map<Id, Attempt>, epochs: map<Id, nat>,
    m: Id, target: State)
    requires LeasesOk(settings, workers, tasks, attempts, epochs)
    ensures LeasesOk(settings, workers, TasksTo(tasks, m, target), attempts, epochs)
  {
    hide Numbered, Generations, Credited, Reported;
  }

  lemma AttemptsGrowItself(attempts: map<Id, Attempt>)
    ensures AttemptsGrow(attempts, attempts)
  {
  }

  lemma MissionWorkspaceKnown(workspaces: map<Id, Id>, missions: map<Id, Mission>, tasks: map<Id, Task>,
      events: seq<Event>, m: Id)
    requires LedgerOk(workspaces, missions, tasks, events) && m in missions
    ensures missions[m].workspace in workspaces
  {
  }

  lemma IdleMovedKeepsInv(db: Db, actor: Actor, m: Id, target: State, reason: string)
    requires Inv(db) && m in db.missions && Allowed(db.missions[m].state, target) && target in {Queued, Cancelled}
    requires Life(MissionTo(db.missions, m, target), TasksTo(db.tasks, m, target), db.attempts)
    ensures Kept(db, IdleMoved(db, actor, m, target, reason))
  {
    hide Life, LedgerOk, LeasesOk, ClaimsOk, FilesOk, OriginsOk, ResultsOk, SamePlans;
    hide MissionsGrow, TasksGrow, AttemptsGrow;
    var after := IdleMoved(db, actor, m, target, reason);
    var e := Event(Some(m), db.missions[m].workspace, actor, MissionState(target, reason));
    MissionToGrows(db.missions, m, target);
    TasksToGrows(db.tasks, m, target);
    AttemptsGrowItself(db.attempts);
    MissionWorkspaceKnown(db.workspaces, db.missions, db.tasks, db.events, m);
    MoveKeepsLedger(db.workspaces, db.missions, db.tasks, after.tasks, db.events, m, target, e);
    TasksToKeepsLeases(db.settings, db.workers, db.tasks, db.attempts, db.epochs, m, target);
    ClaimsFramed(db, after);
    OriginsFramed(db, after);
    ResultsFramed(db, after);
  }

  lemma AskedToStopKeepsInv(db: Db, actor: Actor, a: Id)
    requires Inv(db) && a in db.attempts && db.attempts[a].state == Running
    requires Linked(db) && db.missions[MissionOf(db, a)].state == Running
    requires LifeOf(Moved(db, actor, a, db.attempts[a].(state := CancelRequested), ""))
    ensures Kept(db, Moved(db, actor, a, db.attempts[a].(state := CancelRequested), ""))
  {
    hide Life, LedgerOk, LeasesOk, ClaimsOk, FilesOk, OriginsOk, ResultsOk;
    hide MissionsGrow, TasksGrow, AttemptsGrow, WorkersGrow, Extends;
    var row := db.attempts[a].(state := CancelRequested);
    var after := Moved(db, actor, a, row, "");
    UnreportedActive(db, a);
    MovedGrows(db, actor, a, row, "");
    SettleKeepsLedger(db, actor, a, row, "");
    MovedKeepsLeases(db.settings, db.workers, db.tasks, db.attempts, db.epochs, a, row);
    ClaimsFramed(db, after);
    OriginsFramed(db, after);
    ResultsFramed(db, after);
  }

  /** Cancelling a running mission asks its one active attempt to stop. */
  lemma CancelAsks(db: Db, p: Principal, m: Id) returns (a: Id)
    requires LifeOf(db) && CancelEffect(db, p, m).Ok? && db.missions[m].state == Running
    ensures a in db.attempts && db.attempts[a].state == Running && Linked(db) && MissionOf(db, a) == m
    ensures CancelEffect(db, p, m).value.0
            == Moved(db, Person(p.identity), a, db.attempts[a].(state := CancelRequested), "")
  {
    assert HasTask(db.tasks, m);
    var t :| t in db.tasks && db.tasks[t].mission == m;
    a := OneRunningAttempt(db.missions, db.tasks, db.attempts, t, CancelRequested);
    TasksToIsTaskTo(db.missions, db.tasks, t, CancelRequested);
  }

  lemma CancelMoves(db: Db, p: Principal, m: Id)
    requires LifeOf(db) && CancelEffect(db, p, m).Ok? && db.missions[m].state !in {Running, CancelRequested}
    ensures CancelEffect(db, p, m).value.0 == IdleMoved(db, Person(p.identity), m, Cancelled, "")
    ensures Allowed(db.missions[m].state, Cancelled)
  {
    NoRunningAttempt(db.tasks, db.missions, db.attempts, m, Cancelled);
  }

  lemma CancelKeepsInv(db: Db, p: Principal, m: Id)
    requires Inv(db)
    ensures CancelEffect(db, p, m).Ok? ==> Kept(db, CancelEffect(db, p, m).value.0)
  {
    hide Life, LedgerOk, LeasesOk, ClaimsOk, FilesOk, OriginsOk, ResultsOk, Moved, IdleMoved;
    if CancelEffect(db, p, m).Ok? {
      CancelKeepsLife(db, p, m);
      if db.missions[m].state == CancelRequested {
      } else if db.missions[m].state == Running {
        var a := CancelAsks(db, p, m);
        AskedToStopKeepsInv(db, Person(p.identity), a);
      } else {
        CancelMoves(db, p, m);
        IdleMoveLife(db, Person(p.identity), m, Cancelled, "");
        IdleMovedKeepsInv(db, Person(p.identity), m, Cancelled, "");
      }
    }
  }

  lemma IdleMoveLife(db: Db, actor: Actor, m: Id, target: State, reason: string)
    requires m in db.missions && LifeOf(IdleMoved(db, actor, m, target, reason))
    ensures Life(MissionTo(db.missions, m, target), TasksTo(db.tasks, m, target), db.attempts)
  {
  }

  lemma RetryKeepsInv(db: Db, p: Principal, m: Id)
    requires Inv(db)
    ensures RetryEffect(db, p, m).Ok? ==> Kept(db, RetryEffect(db, p, m).value.0)
  {
    hide Life, LedgerOk, LeasesOk, ClaimsOk, FilesOk, OriginsOk, ResultsOk, Kept;
    if RetryEffect(db, p, m).Ok? {
      RetryKeepsLife(db, p, m);
      IdleMovedKeepsInv(db, Person(p.identity), m, Queued, "explicit_retry");
    }
  }
}
