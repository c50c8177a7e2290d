/** Confirmed delivery of a batch plan: over any number of broken runs, an exact prefix of the plan, each batch once. */
module Ingestion {
  import opened Base
  import opened Batches

  /** A manifest digest is a free constructor over the receipts it covers. */
  datatype ManifestDigest = ManifestOf(receipts: seq<Receipt>)

  function Receipts(batches: seq<Batch>): seq<Receipt> {
    seq(|batches|, i requires 0 <= i < |batches| => ReceiptOf(batches[i]))
  }

  /** The batches of a plan are numbered from zero, and their digests are their own. */
  predicate Planned(batches: seq<Batch>) {
    batches != [] && forall i | 0 <= i < |batches| :: batches[i] == BatchAt(i, batches[i].sql)
  }

  /** A write may fail without effect, or take effect without its answer arriving. */
  datatype Fate = Done | FailedBefore | FailedAfter

  /** What goes wrong during one run; every read may fail too. */
  datatype Faults = Faults(
    lookup: bool, record: Fate, recorded: bool, existing: bool, send: nat -> Fate, confirm: nat -> bool)

  datatype Trouble =
    | ClientFailed | DifferentManifest | ManifestNotConfirmed | NotAPrefix | BadInterruption | NotAcknowledged | Interrupted

  datatype Delivered = Delivered(planned: nat, alreadyAcknowledged: nat, applied: nat)

  /** The database: its manifest row, its receipts in the order of their numbers, and the effects committed so far. */
  datatype Tables = Tables(manifest: Option<ManifestDigest>, receipts: seq<Receipt>, applied: seq<Bytes>)

  const UNTOUCHED := Tables(None, [], [])

  /** The first n batches of a plan are applied and acknowledged, and nothing else is there. */
  ghost predicate Prefix(t: Tables, batches: seq<Batch>, n: nat) {
    && n <= |batches|
    && t.manifest == Some(ManifestOf(Receipts(batches)))
    && t.receipts == Receipts(batches[..n])
    && t.applied == Sqls(batches[..n])
  }

  ghost predicate Owned(t: Tables, batches: seq<Batch>) {
    exists n: nat :: Prefix(t, batches, n)
  }

  /** What any run of a plan may do: nothing, or take its own database further along the plan. */
  ghost predicate Advances(before: Tables, after: Tables, batches: seq<Batch>) {
    || after == before
    || ((before == UNTOUCHED || Owned(before, batches)) && Owned(after, batches) && before.applied <= after.applied)
  }

  function InsertBySeq(rows: seq<Receipt>, r: Receipt): seq<Receipt> {
    if rows == [] || rows[|rows| - 1].seqNo <= r.seqNo then rows + [r]
    else InsertBySeq(rows[..|rows| - 1], r) + [rows[|rows| - 1]]
  }

  class Database {
    var tables: Tables

    constructor ()
      ensures tables == UNTOUCHED
    {
      tables := UNTOUCHED;
    }

    /** One transaction: the statements and their receipt, or neither; a receipt's identifier is a primary key. */
    method Send(batch: Batch, fate: Fate) returns (ok: bool)
      modifies this
      ensures ok ==> fate == Done
      ensures var taken := exists r <- old(tables).receipts :: r.id == batch.id;
              if fate == FailedBefore || taken then !ok && tables == old(tables)
              else ok == (fate == Done)
                   && tables == old(tables).(receipts := InsertBySeq(old(tables).receipts, ReceiptOf(batch)),
                                             applied := old(tables).applied + [batch.sql])
    {
      if fate == FailedBefore || exists r <- tables.receipts :: r.id == batch.id {
        return false;
      }
      tables := tables.(receipts := InsertBySeq(tables.receipts, ReceiptOf(batch)), applied := tables.applied + [batch.sql]);
      return fate == Done;
    }

    method RecordManifest(digest: ManifestDigest, fate: Fate) returns (ok: bool)
      modifies this
      ensures ok <==> fate == Done
      ensures tables == if fate == FailedBefore then old(tables) else old(tables).(manifest := Some(digest))
    {
      if fate == FailedBefore {
        return false;
      }
      tables := tables.(manifest := Some(digest));
      return fate == Done;
    }

    /** Read back the receipt of a batch, after its commit. */
    method Confirm(batch: Batch) returns (r: Option<Receipt>)
      ensures r == Some(ReceiptOf(batch)) <==> (exists i :: 0 <= i < |tables.receipts| && OnlyRow(tables.receipts, i, batch.id)
                                                       && tables.receipts[i] == ReceiptOf(batch))
    {
      for i := 0 to |tables.receipts|
        invariant forall k | 0 <= k < i :: !OnlyRow(tables.receipts, k, batch.id)
      {
        if OnlyRow(tables.receipts, i, batch.id) {
          return Some(tables.receipts[i]);
        }
      }
      return None;
    }
  }

  predicate OnlyRow(rows: seq<Receipt>, i: nat, id: RowId)
    requires i < |rows|
  {
    rows[i].id == id && forall k | 0 <= k < |rows| && k != i :: rows[k].id != id
  }

  // ----- Delivering a plan -----

  /** From this batch on every send is done and every receipt is read. */
  ghost predicate Smooth(faults: Faults, batches: seq<Batch>, since: nat) {
    forall k | since <= k < |batches| :: faults.send(k) == Done && faults.confirm(k)
  }

  /** Nothing goes wrong in a run: the database is unmarked or this plan's own, every call works, no interruption is asked. */
  ghost predicate Unbroken(t: Tables, batches: seq<Batch>, faults: Faults, interruptAfter: Option<int>) {
    && faults.lookup && faults.existing && interruptAfter == None
    && (if t.manifest == None then faults.record == Done && faults.recorded
        else t.manifest == Some(ManifestOf(Receipts(batches))))
    && Smooth(faults, batches, |t.receipts|)
  }

  lemma NextIsNew(batches: seq<Batch>, n: nat)
    requires Planned(batches) && n < |batches|
    ensures forall r <- Receipts(batches[..n]) :: r.id != batches[n].id && r.seqNo < batches[n].seqNo
    ensures InsertBySeq(Receipts(batches[..n]), ReceiptOf(batches[n])) == Receipts(batches[..n + 1])
    ensures Sqls(batches[..n]) + [batches[n].sql] == Sqls(batches[..n + 1])
  {
    var rows := Receipts(batches[..n]);
    forall r <- rows
      ensures r.id != batches[n].id && r.seqNo < batches[n].seqNo
    {
      var i :| 0 <= i < |rows| && rows[i] == r;
      assert batches[i] == BatchAt(i, batches[i].sql);
    }
    assert n > 0 ==> rows[n - 1] in rows;
    assert Receipts(batches[..n + 1]) == rows + [ReceiptOf(batches[n])];
  }

  lemma LastIsOnly(batches: seq<Batch>, n: nat)
    requires Planned(batches) && n < |batches|
    ensures |Receipts(batches[..n + 1])| == n + 1 && OnlyRow(Receipts(batches[..n + 1]), n, batches[n].id)
    ensures Receipts(batches[..n + 1])[n] == ReceiptOf(batches[n])
  {
    var rows := Receipts(batches[..n + 1]);
    forall k | 0 <= k < |rows| && k != n
      ensures rows[k].id != batches[n].id
    {
      assert batches[k] == BatchAt(k, batches[k].sql);
    }
  }

  /** The receipts are those of the first batches of the plan, exactly. */
  predicate Acknowledged(existing: seq<Receipt>, batches: seq<Batch>) {
    |existing| <= |batches| && existing == Receipts(batches[..|existing|])
  }

  lemma PrefixLength(t: Tables, batches: seq<Batch>, n: nat)
    requires Prefix(t, batches, n)
    ensures |t.applied| == n && |t.receipts| == n
  {
  }

  lemma WholePrefix(t: Tables, batches: seq<Batch>)
    requires Prefix(t, batches, |batches|)
    ensures t.applied == Sqls(batches)
  {
    assert batches[..|batches|] == batches;
  }

  /** Send one batch and read its receipt back. */
  method DeliverOne(db: Database, batches: seq<Batch>, k: nat, faults: Faults) returns (trouble: Option<Trouble>)
    requires Planned(batches) && k < |batches| && Prefix(db.tables, batches, k)
    modifies db
    ensures old(db.tables).applied <= db.tables.applied
    ensures Prefix(db.tables, batches, k + 1) || (trouble.Some? && Prefix(db.tables, batches, k))
    ensures trouble == None <==> faults.send(k) == Done && faults.confirm(k)
    ensures trouble.Some? ==> trouble.value == ClientFailed
  {
    hide Planned, Receipts, Sqls, InsertBySeq, OnlyRow;
    var batch := batches[k];
    NextIsNew(batches, k);
    var sent := db.Send(batch, faults.send(k));
    if !sent || !faults.confirm(k) {
      return Some(ClientFailed);
    }
    LastIsOnly(batches, k);
    assert OnlyRow(db.tables.receipts, k, batch.id) && db.tables.receipts[k] == ReceiptOf(batch);
    var receipt := db.Confirm(batch);
    if receipt != Some(ReceiptOf(batch)) {
      return Some(NotAcknowledged);
    }
    return None;
  }

  /** Send the batches after the acknowledged prefix one by one; stop at the first that is not acknowledged. */
  method Deliver(db: Database, batches: seq<Batch>, existing: seq<Receipt>, faults: Faults, interruptAfter: Option<int>)
    returns (r: Result<Delivered, Trouble>)
    requires Planned(batches) && (Acknowledged(existing, batches) ==> Prefix(db.tables, batches, |existing|))
    modifies db
    ensures !Acknowledged(existing, batches) ==> r == Refused(NotAPrefix) && db.tables == old(db.tables)
    ensures Acknowledged(existing, batches) ==> Owned(db.tables, batches) && old(db.tables).applied <= db.tables.applied
    ensures Acknowledged(existing, batches) ==>
              (r.Ok? <==> interruptAfter == None && Smooth(faults, batches, |existing|))
    ensures Acknowledged(existing, batches) && r.Refused? ==> r.error in {ClientFailed, BadInterruption, Interrupted}
    ensures r == Refused(ClientFailed) ==> !Smooth(faults, batches, |existing|)
    ensures r.Ok? ==> db.tables.applied == Sqls(batches)
    ensures r.Ok? ==> r.value == Delivered(|batches|, |existing|, |batches| - |existing|)
    ensures r == Refused(Interrupted) ==>
              interruptAfter.Some? && |db.tables.applied| == |existing| + interruptAfter.value < |batches|
  {
    var n := |existing|;
    if n > |batches| || existing != Receipts(batches[..n]) {
      return Refused(NotAPrefix);
    }
    if interruptAfter.Some? && !(0 < interruptAfter.value < |batches| - n) {
      return Refused(BadInterruption);
    }
    hide Prefix, Planned, Receipts, Sqls, Acknowledged;
    var applied := 0;
    while n + applied < |batches|
      invariant 0 <= applied && n + applied <= |batches|
      invariant Prefix(db.tables, batches, n + applied)
      invariant old(db.tables).applied <= db.tables.applied
      invariant interruptAfter.Some? ==> applied < interruptAfter.value < |batches| - n
      invariant forall k | n <= k < n + applied :: faults.send(k) == Done && faults.confirm(k)
    {
      var trouble := DeliverOne(db, batches, n + applied, faults);
      if trouble.Some? {
        return Refused(trouble.value);
      }
      applied := applied + 1;
      if interruptAfter == Some(applied) {
        PrefixLength(db.tables, batches, n + applied);
        return Refused(Interrupted);
      }
    }
    WholePrefix(db.tables, batches);
    return Ok(Delivered(|batches|, n, applied));
  }

  /** One run: claim an unmarked database for this plan, or continue this plan where it stopped, or refuse. */
  method Ingest(db: Database, batches: seq<Batch>, faults: Faults, interruptAfter: Option<int>)
    returns (r: Result<Delivered, Trouble>)
    requires Planned(batches)
    requires db.tables == UNTOUCHED || exists plan :: Planned(plan) && Owned(db.tables, plan)
    modifies db
    ensures Advances(old(db.tables), db.tables, batches)
    ensures r.Ok? ==> Owned(db.tables, batches) && db.tables.applied == Sqls(batches)
    ensures r.Ok? <==> Unbroken(old(db.tables), batches, faults, interruptAfter)
    ensures r.Ok? ==> r.value.applied == |batches| - |old(db.tables).applied|
    ensures r.Refused? ==> r.error in {ClientFailed, DifferentManifest, BadInterruption, Interrupted}
    ensures old(db.tables).manifest.Some? && old(db.tables).manifest != Some(ManifestOf(Receipts(batches))) ==>
              r.Refused? && db.tables == old(db.tables)
  {
    if !faults.lookup {
      return Refused(ClientFailed);
    }
    var manifest := ManifestOf(Receipts(batches));
    if db.tables.manifest.Some? {
      if db.tables.manifest != Some(manifest) {
        return Refused(DifferentManifest);
      }
      ghost var plan :| Planned(plan) && Owned(db.tables, plan);
      SameManifestSamePlan(plan, batches);
    } else {
      var recorded := db.RecordManifest(manifest, faults.record);
      Claimed(db.tables, batches);
      if !recorded {
        return Refused(ClientFailed);
      }
      if !faults.recorded {
        return Refused(ClientFailed);
      }
    }
    if !faults.existing {
      return Refused(ClientFailed);
    }
    OwnedIsAcknowledged(db.tables, batches);
    r := Deliver(db, batches, db.tables.receipts, faults, interruptAfter);
  }

  lemma OwnedIsAcknowledged(t: Tables, batches: seq<Batch>)
    requires Owned(t, batches)
    ensures Acknowledged(t.receipts, batches) && Prefix(t, batches, |t.receipts|) && |t.applied| == |t.receipts|
  {
    var n: nat :| Prefix(t, batches, n);
    assert n == |t.receipts|;
  }

  lemma Claimed(t: Tables, batches: seq<Batch>)
    requires Planned(batches)
    ensures t == UNTOUCHED.(manifest := Some(ManifestOf(Receipts(batches)))) ==> Owned(t, batches)
  {
    if t == UNTOUCHED.(manifest := Some(ManifestOf(Receipts(batches)))) {
      assert Prefix(t, batches, 0);
    }
  }

  /** Plans with one manifest are one plan: the manifest covers every digest, and a digest its statements. */
  lemma SameManifestSamePlan(plan: seq<Batch>, other: seq<Batch>)
    requires Planned(plan) && Planned(other) && ManifestOf(Receipts(plan)) == ManifestOf(Receipts(other))
    ensures plan == other
  {
    assert |plan| == |Receipts(plan)| == |Receipts(other)| == |other|;
    forall i | 0 <= i < |plan|
      ensures plan[i] == other[i]
    {
      assert Receipts(plan)[i] == Receipts(other)[i];
    }
  }

  // ----- Many runs -----

  /** A database and the plans of the runs that it has been through, whatever broke in each of them. */
  ghost predicate Lifetime(states: seq<Tables>, plans: seq<seq<Batch>>) {
    && |states| == |plans| + 1
    && states[0] == UNTOUCHED
    && (forall i | 0 <= i < |plans| :: Planned(plans[i]) && Advances(states[i], states[i + 1], plans[i]))
  }

  ghost predicate Belongs(t: Tables, plans: seq<seq<Batch>>) {
    t == UNTOUCHED || exists plan :: plan in plans && Planned(plan) && Owned(t, plan)
  }

  lemma AdvancesKeepsPlan(before: Tables, after: Tables, batches: seq<Batch>, plan: seq<Batch>)
    requires Planned(plan) && Planned(batches) && Advances(before, after, batches) && Owned(before, plan)
    ensures Owned(after, plan) && before.applied <= after.applied
  {
    if after != before {
      var n: nat :| Prefix(before, plan, n);
      assert before != UNTOUCHED;
      var m: nat :| Prefix(before, batches, m);
      SameManifestSamePlan(plan, batches);
    }
  }

  /**
   * After any number of runs the database is untouched, or belongs to one of their plans: its effects are exactly a
   * prefix of that plan, in order and each once, and what was applied earlier has stayed.
   */
  lemma {:induction false} AppliedIsAlwaysAPrefix(states: seq<Tables>, plans: seq<seq<Batch>>, i: nat, j: nat)
    requires Lifetime(states, plans) && i <= j < |states|
    ensures Belongs(states[j], plans) && states[i].applied <= states[j].applied
    decreases j
  {
    hide Planned, Owned;
    if j > 0 {
      AppliedIsAlwaysAPrefix(states, plans, if i == j then j - 1 else i, j - 1);
      assert Planned(plans[j - 1]) && Advances(states[j - 1], states[j], plans[j - 1]) && plans[j - 1] in plans;
      if states[j - 1] != UNTOUCHED {
        var plan :| plan in plans && Planned(plan) && Owned(states[j - 1], plan);
        AdvancesKeepsPlan(states[j - 1], states[j], plans[j - 1], plan);
      }
    }
  }

  /** The plan that first claims a database keeps it: no run of another plan ever changes it again. */
  lemma OtherPlansAreRefused(before: Tables, after: Tables, plan: seq<Batch>, other: seq<Batch>)
    requires Planned(plan) && Planned(other) && Owned(before, plan) && Advances(before, after, other) && plan != other
    ensures after == before
  {
    if after != before {
      var n: nat :| Prefix(before, plan, n);
      var m: nat :| Prefix(before, other, m);
      SameManifestSamePlan(plan, other);
    }
  }

  /** A database that holds its whole plan is final. */
  lemma FinishedIsFinal(before: Tables, after: Tables, plan: seq<Batch>, other: seq<Batch>)
    requires Planned(plan) && Planned(other) && Prefix(before, plan, |plan|) && Advances(before, after, other)
    ensures after == before
  {
    assert Owned(before, plan);
    AdvancesKeepsPlan(before, after, other, plan);
    var n: nat :| Prefix(after, plan, n);
    assert |after.applied| == n && |before.applied| == |plan|;
    assert plan[..|plan|] == plan[..n];
  }
}
