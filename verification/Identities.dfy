/** Enrolling, rotating and revoking workers keep the invariant. */
module Identities {
  import opened Base
  import opened Contracts
  import opened Tables
  import opened Transactions
  import opened Lifecycle
  import opened Ledger
  import opened Attempts
  import opened Files
  import opened Growth
  import opened Invariant
  import opened Effects
  import opened Planning

  /** A policy-abiding row whose epoch never falls may replace a worker's row. */
  lemma WorkerKeepsLeases(
    settings: Settings, workers: map<Id, Worker>, tasks: map<Id, Task>, attempts: map<Id, Attempt>, epochs: map<Id, nat>,
    w: Id, row: Worker)
    requires LeasesOk(settings, workers, tasks, attempts, epochs)
    requires Policy(row, settings) && row.epoch >= 1
    requires w in workers ==> workers[w].epoch <= row.epoch && row.lease == workers[w].lease
    ensures LeasesOk(settings, workers[w := row], tasks, attempts, epochs)
  {
    hide Numbered, Generations, Reported;
  }

  lemma WorkerGrows(workers: map<Id, Worker>, w: Id, row: Worker)
    requires w in workers ==>
               && (workers[w].epoch < row.epoch || row == workers[w])
               && row.lease == workers[w].lease && row.maxOutput == workers[w].maxOutput
               && row.capability == workers[w].capability
    ensures WorkersGrow(workers, workers[w := row])
  {
  }

  lemma WorkerKeepsInv(db: Db, w: Id, row: Worker)
    requires Inv(db) && Policy(row, db.settings) && row.epoch >= 1
    requires w in db.workers ==>
               && (db.workers[w].epoch < row.epoch || row == db.workers[w])
               && row.lease == db.workers[w].lease && row.maxOutput == db.workers[w].maxOutput
               && row.capability == db.workers[w].capability
    ensures Kept(db, db.(workers := db.workers[w := row]))
  {
    hide Life, LedgerOk, LeasesOk, ClaimsOk, FilesOk, OriginsOk, ResultsOk, AttemptsGrow, WorkersGrow, Policy;
    WorkerKeepsLeases(db.settings, db.workers, db.tasks, db.attempts, db.epochs, w, row);
    WorkerGrows(db.workers, w, row);
    AttemptsGrowItself(db.attempts);
  }

  lemma KnownPolicy(db: Db, w: Id)
    requires Inv(db) && w in db.workers
    ensures Policy(db.workers[w], db.settings) && db.workers[w].epoch >= 1
  {
    hide Life, LedgerOk, ClaimsOk, FilesOk, OriginsOk, ResultsOk, Numbered, Generations, Credited, Reported;
  }

  lemma EnrollKeepsInv(db: Db, identity: Id, w: Worker, workspace: Id)
    requires Inv(db) && identity !in db.workers && workspace in db.workspaces
    ensures EnrollTx(db, identity, w, workspace).Ok? ==> Kept(db, EnrollTx(db, identity, w, workspace).value)
  {
    hide Inv, Kept;
    if EnrollTx(db, identity, w, workspace).Ok? {
      var row := w.(active := true, epoch := 1);
      var added := db.(workers := db.workers[identity := row]);
      WorkerKeepsInv(db, identity, row);
      KeptFactsOf(db, added);
      AuditKeepsInv(added, LocalMaintenance, workspace, None, WorkerIdentity(identity, "explicit_enrollment"));
      KeptTransitive(db, added, EnrollTx(db, identity, w, workspace).value);
    }
  }

  lemma KeptFactsOf(before: Db, after: Db)
    requires Kept(before, after)
    ensures Inv(after)
  {
    hide Inv;
  }

  lemma RotateKeepsInv(db: Db, w: Id, reactivate: bool, workspace: Id)
    requires Inv(db) && workspace in db.workspaces
    ensures RotateTx(db, w, reactivate, workspace).Ok? ==> Kept(db, RotateTx(db, w, reactivate, workspace).value)
  {
    hide Inv, Kept, Policy;
    if RotateTx(db, w, reactivate, workspace).Ok? {
      var row := db.workers[w].(active := true, epoch := db.workers[w].epoch + 1);
      var rotated := db.(workers := db.workers[w := row]);
      KnownPolicy(db, w);
      PolicyOf(db.workers[w], row, db.settings);
      WorkerKeepsInv(db, w, row);
      KeptFactsOf(db, rotated);
      AuditKeepsInv(rotated, LocalMaintenance, workspace, None,
                    WorkerIdentity(w, if reactivate then "explicit_reactivation" else "credential_rotation"));
      KeptTransitive(db, rotated, RotateTx(db, w, reactivate, workspace).value);
    }
  }

  lemma PolicyOf(w: Worker, row: Worker, settings: Settings)
    requires Policy(w, settings) && row.lease == w.lease && row.maxOutput == w.maxOutput
    ensures Policy(row, settings)
  {
  }

  /** The index after a worker was marked revoked, before its leases are cut. */
  ghost function Marked(db: Db, w: Id): Db
    requires w in db.workers
  {
    var row := db.workers[w];
    db.(workers := db.workers[w := if row.active then row.(active := false, epoch := row.epoch + 1) else row])
  }

  lemma MarkKeepsInv(db: Db, w: Id)
    requires Inv(db) && w in db.workers
    ensures Kept(db, Marked(db, w)) && Inv(Marked(db, w))
  {
    hide Inv, Policy;
    var row := db.workers[w];
    var next := if row.active then row.(active := false, epoch := row.epoch + 1) else row;
    KnownPolicy(db, w);
    PolicyOf(row, next, db.settings);
    WorkerKeepsInv(db, w, next);
    KeptFactsOf(db, Marked(db, w));
  }

  lemma RevokeMoves(db: Db, p: Principal, w: Id, rows: seq<Id>, workspace: Id)
    requires Linked(db) && (forall a <- rows :: a in db.attempts) && w in db.workers
    requires Linked(Marked(db, w)) && FenceRows(Marked(db, w), rows, RowSet(rows), WorkerRevoked).Ok?
    ensures RevokeEffect(db, p, w, rows, workspace).Ok?
    ensures RevokeEffect(db, p, w, rows, workspace).value.0
            == Audit(FenceRows(Marked(db, w), rows, RowSet(rows), WorkerRevoked).value,
                     Person(p.identity), workspace, None, WorkerRevokedEvent(w))
    ensures !RevokeEffect(db, p, w, rows, workspace).value.1.Work?
  {
  }

  /** Revoking a worker also interrupts every lease it holds. */
  lemma RevokeKeepsInv(db: Db, p: Principal, w: Id, rows: seq<Id>, workspace: Id)
    requires Inv(db) && Linked(db) && LeasedRows(db, Some(w), rows) && workspace in db.workspaces
    requires w in db.workers
    ensures RevokeEffect(db, p, w, rows, workspace).Ok?
    ensures var after := RevokeEffect(db, p, w, rows, workspace).value.0;
            && Kept(db, after) && after.operations == db.operations
            && w in after.workers && !after.workers[w].active
            && Idle(after.attempts, w) && OnlyTouched(db.attempts, after.attempts)
            && NoVerdict(db.missions, after.missions)
    ensures !RevokeEffect(db, p, w, rows, workspace).value.1.Work?
  {
    hide Inv, Linked, Kept, FenceRows, FenceDone, Idle, RevokeEffect, LeasedRows, AllActive, RowSet, Touched, NoVerdict;
    var marked := Marked(db, w);
    MarkKeepsInv(db, w);
    MarkedRows(db, w, rows);
    RowsActive(marked, Some(w), rows);
    FenceKeepsInv(marked, rows, RowSet(rows), WorkerRevoked);
    var fenced := FenceRows(marked, rows, RowSet(rows), WorkerRevoked).value;
    FenceFacts(marked, w, rows, fenced);
    FenceTouches(marked, rows, RowSet(rows), WorkerRevoked, fenced);
    RevokeMoves(db, p, w, rows, workspace);
    AuditKeepsInv(fenced, Person(p.identity), workspace, None, WorkerRevokedEvent(w));
    KeptTransitive(db, marked, fenced);
    KeptTransitive(db, fenced, RevokeEffect(db, p, w, rows, workspace).value.0);
  }

  lemma MarkedRows(db: Db, w: Id, rows: seq<Id>)
    requires LeasedRows(db, Some(w), rows) && w in db.workers
    ensures LeasedRows(Marked(db, w), Some(w), rows) && (forall a <- rows :: a in db.attempts)
  {
  }

  lemma FenceFacts(db: Db, w: Id, rows: seq<Id>, fenced: Db)
    requires LeasedRows(db, Some(w), rows)
    requires FenceDone(db, rows, RowSet(rows), WorkerRevoked, fenced)
    ensures Kept(db, fenced) && Inv(fenced) && fenced.workspaces == db.workspaces && fenced.workers == db.workers
    ensures fenced.operations == db.operations && Idle(fenced.attempts, w)
  {
    hide Inv, Grows;
  }

  // ----- A restored installation -----

  lemma RetiredLeases(
    settings: Settings, workers: map<Id, Worker>, tasks: map<Id, Task>, attempts: map<Id, Attempt>, epochs: map<Id, nat>)
    requires LeasesOk(settings, workers, tasks, attempts, epochs)
    ensures LeasesOk(settings, RetireAll(workers), tasks, attempts, epochs)
  {
    hide Numbered, Generations, Reported;
  }

  lemma ReferencedStored(settings: Settings, versions: seq<Version>, objects: map<Digest, Bytes>)
    requires Stored(settings, versions, objects)
    ensures Stored(settings, versions, Referenced(versions, objects))
  {
  }

  /** Every relation between the tables survives a backup and its restoration. */
  lemma ReinstatedInv(db: Db)
    requires Inv(db)
    ensures Inv(Reinstated(db))
  {
    hide Life, LedgerOk, LeasesOk, ClaimsOk, OriginsOk, ResultsOk, NamesOk, DistinctVersions, Linear, VersionsLinked;
    hide Stored, WithinLimits, RetireAll, Referenced, ValidSettings;
    RetiredLeases(db.settings, db.workers, db.tasks, db.attempts, db.epochs);
    ReferencedStored(db.settings, db.versions, db.objects);
  }
}
