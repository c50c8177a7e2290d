/** The reviewed plan of an incremental import, and why the guarded import of its snapshot carries it out. */
module ImportPlan {
  import opened Base
  import opened Snapshots
  import opened Imports
  import opened Caches

  /** What the database must still hold under a key, or nothing. */
  datatype Expected = Expected(digest: PayloadDigest, snapshot: SnapshotId, seen: Stamp)

  datatype Action = Action(key: RecordKey, expected: Option<Expected>, record: Observed)

  datatype Changes = Changes(added: set<RecordKey>, changed: set<RecordKey>, notObserved: set<RecordKey>)

  datatype Plan = Plan(changes: Changes, actions: seq<Action>)

  datatype PlanFault =
    | InvalidCache | UnknownOrigin | PartitionChanged | MixedBaselines | OlderCapture | ConflictingCapture | ScopesDiffer

  function OriginOf(cache: Cache): Origin {
    cache.provenance.manifest.origin
  }

  function PlanFaultOf(before: Option<Cache>, after: Cache): Option<PlanFault> {
    if OriginOf(after) == HistoricalUnknown || (before.Some? && OriginOf(before.value) == HistoricalUnknown) then
      Some(UnknownOrigin)
    else if before == None then None
    else
      var b := before.value;
      if b.request.source != after.request.source || b.request.selection != after.request.selection
         || b.request.context != after.request.context then Some(PartitionChanged)
      else if OriginOf(b) != OriginOf(after) then Some(MixedBaselines)
      else if At(after.snapshot) < At(b.snapshot) then Some(OlderCapture)
      else if At(after.snapshot) == At(b.snapshot) && after.snapshot != b.snapshot then Some(ConflictingCapture)
      else if b.snapshot.scope != after.snapshot.scope then Some(ScopesDiffer)
      else None
  }

  /** A baseline that a cache may follow: of the same partition, origin and scope, and captured before it or identical. */
  ghost predicate Follows(baseline: Cache, after: Cache) {
    var earlier, recent := baseline.snapshot, after.snapshot;
    && baseline.request.source == after.request.source && baseline.request.selection == after.request.selection
    && baseline.request.context == after.request.context
    && baseline.provenance.manifest.origin == after.provenance.manifest.origin
    && earlier.scope == recent.scope && earlier.capturedAt.instant.Some? && recent.capturedAt.instant.Some?
    && (earlier == recent || earlier.capturedAt.instant.value < recent.capturedAt.instant.value)
  }

  /** A plan is refused exactly without a known origin, or when the new cache does not follow the baseline. */
  lemma PlanRefusedIff(before: Option<Cache>, after: Cache)
    requires after.snapshot.capturedAt.instant.Some?
    requires before.Some? ==> before.value.snapshot.capturedAt.instant.Some?
    ensures PlanFaultOf(before, after) == None <==>
            && after.provenance.manifest.origin != HistoricalUnknown
            && (before.Some? ==> Follows(before.value, after))
  {
  }

  /** The changes are read off the records: new ones, those with another payload, and those that are gone. */
  lemma ChangesAre(before: Option<Cache>, after: Cache, k: RecordKey)
    requires Usable(after) && (before.Some? ==> Usable(before.value))
    requires forall e <- after.snapshot.records :: e.digest == DigestOf(e.payload)
    requires before.Some? ==> forall e <- before.value.snapshot.records :: e.digest == DigestOf(e.payload)
    ensures var c := ChangesOf(before, after);
            var earlier := if before.Some? then before.value.snapshot.records else [];
            var recent := after.snapshot.records;
            && (k in c.added <==> (exists e <- recent :: e.key == k) && !exists e <- earlier :: e.key == k)
            && (k in c.notObserved <==> (exists e <- earlier :: e.key == k) && !exists e <- recent :: e.key == k)
            && (k in c.changed <==> exists d, e | d in earlier && e in recent :: d.key == k == e.key && d.payload != e.payload)
  {
  }

  /** Both caches must be ones that can be made, before anything else is looked at. */
  predicate Checked(rules: Rules, before: Option<Cache>, after: Cache)
    requires Ordered(rules)
  {
    CheckCache(rules, after).Ok? && (before.Some? ==> CheckCache(rules, before.value).Ok?)
  }

  lemma CheckedIsValid(rules: Rules, before: Option<Cache>, after: Cache)
    requires Ordered(rules) && Checked(rules, before, after)
    ensures Valid(rules.rank, after.snapshot) && Usable(after)
    ensures before.Some? ==> Valid(rules.rank, before.value.snapshot) && Usable(before.value)
  {
    hide Valid, CheckRequest, CheckProvenance, SelectionText;
    ValidEntries(rules.rank, after.snapshot);
    if before.Some? {
      ValidEntries(rules.rank, before.value.snapshot);
    }
  }

  predicate Usable(cache: Cache) {
    DistinctKeys(cache.snapshot.records)
  }

  /** The records of a snapshot by key. */
  function Indexed(records: seq<Entry>): map<RecordKey, Entry>
    requires DistinctKeys(records)
  {
    map e | e in records :: e.key := e
  }

  function OldRecords(before: Option<Cache>): map<RecordKey, Entry>
    requires before.Some? ==> Usable(before.value)
  {
    if before == None then map[] else Indexed(before.value.snapshot.records)
  }

  function ExpectedOf(before: Option<Cache>, k: RecordKey): Option<Expected>
    requires before.Some? ==> Usable(before.value)
  {
    if before.Some? && k in OldRecords(before) then
      Some(Expected(OldRecords(before)[k].digest, before.value.snapshot.id, before.value.snapshot.capturedAt))
    else None
  }

  function ChangesOf(before: Option<Cache>, after: Cache): Changes
    requires Usable(after) && (before.Some? ==> Usable(before.value))
  {
    if before == None then Changes(Keys(after.snapshot.records), {}, {})
    else
      var earlier, recent := DigestTable(before.value.snapshot.records), DigestTable(after.snapshot.records);
      Changes(recent.Keys - earlier.Keys, (set k | k in earlier.Keys * recent.Keys && earlier[k] != recent[k]),
              earlier.Keys - recent.Keys)
  }

  /** The checks in order, then one action for each record of the new snapshot. */
  method PlanImport(rules: Rules, before: Option<Cache>, after: Cache) returns (r: Result<Plan, PlanFault>)
    requires Ordered(rules)
    ensures r == Refused(InvalidCache) <==> !Checked(rules, before, after)
    ensures Checked(rules, before, after) ==> Usable(after) && (before.Some? ==> Usable(before.value))
    ensures Checked(rules, before, after) ==> (r.Refused? <==> PlanFaultOf(before, after).Some?)
    ensures Checked(rules, before, after) && r.Refused? ==> Some(r.error) == PlanFaultOf(before, after)
    ensures r.Ok? ==> Usable(after) && (before.Some? ==> Usable(before.value))
    ensures r.Ok? ==> r.value.changes == ChangesOf(before, after) && |r.value.actions| == |after.snapshot.records|
    ensures r.Ok? ==> forall i | 0 <= i < |r.value.actions| ::
              var e := after.snapshot.records[i];
              r.value.actions[i] == Action(e.key, ExpectedOf(before, e.key), ImportRecord(e, after.snapshot))
  {
    hide CheckCache, Valid, Usable;
    if CheckCache(rules, after).Refused? || (before.Some? && CheckCache(rules, before.value).Refused?) {
      return Refused(InvalidCache);
    }
    CheckedIsValid(rules, before, after);
    if OriginOf(after) == HistoricalUnknown || (before.Some? && OriginOf(before.value) == HistoricalUnknown) {
      return Refused(UnknownOrigin);
    }
    if before.Some? {
      var b := before.value;
      if b.request.source != after.request.source || b.request.selection != after.request.selection
         || b.request.context != after.request.context {
        return Refused(PartitionChanged);
      }
      if OriginOf(b) != OriginOf(after) {
        return Refused(MixedBaselines);
      }
      if At(after.snapshot) < At(b.snapshot) {
        return Refused(OlderCapture);
      }
      if At(after.snapshot) == At(b.snapshot) && after.snapshot != b.snapshot {
        return Refused(ConflictingCapture);
      }
      if b.snapshot.scope != after.snapshot.scope {
        return Refused(ScopesDiffer);
      }
    }
    var current := after.snapshot;
    var actions: seq<Action> := [];
    for i := 0 to |current.records|
      invariant |actions| == i
      invariant forall k | 0 <= k < i ::
                  actions[k] == Action(current.records[k].key, ExpectedOf(before, current.records[k].key),
                                       ImportRecord(current.records[k], current))
    {
      var e := current.records[i];
      actions := actions + [Action(e.key, ExpectedOf(before, e.key), ImportRecord(e, current))];
    }
    return Ok(Plan(ChangesOf(before, after), actions));
  }

  /** The table that holds exactly the baseline. */
  function TableOf(before: Option<Cache>): SurrealTable
    requires before.Some? ==> Usable(before.value)
  {
    if before == None then map[]
    else
      var olds := OldRecords(before);
      map k | k in olds :: ImportRecord(olds[k], before.value.snapshot)
  }

  lemma BaselineNotBarred(before: Option<Cache>, after: Cache, e: Entry)
    requires Usable(after) && (before.Some? ==> Usable(before.value))
    requires PlanFaultOf(before, after) == None && e in after.snapshot.records
    requires after.snapshot.capturedAt.instant.Some?
    requires before.Some? ==> before.value.snapshot.capturedAt.instant.Some?
    ensures !Bars(TableOf(before), e.key, ImportRecord(e, after.snapshot))
  {
  }

  /**
   * An accepted plan is carried out by the guarded import on the table that holds exactly its baseline: every
   * expectation holds there, every action's record is what the key then holds, and nothing else changes.
   */
  lemma PlanIsCarriedOut(rules: Rules, before: Option<Cache>, after: Cache)
    requires Ordered(rules) && Checked(rules, before, after)
    ensures Usable(after) && (before.Some? ==> Usable(before.value))
    ensures PlanFaultOf(before, after) == None ==>
              && SurrealImport(TableOf(before), after.snapshot).Ok?
              && var table, result := TableOf(before), SurrealImport(TableOf(before), after.snapshot).value;
              && result.Keys == table.Keys + ChangesOf(before, after).added
              && (forall e <- after.snapshot.records ::
                    && ExpectedOf(before, e.key)
                       == (if e.key in table then
                             Some(Expected(table[e.key].digest, table[e.key].snapshot, table[e.key].seen)) else None)
                    && e.key in result && result[e.key] == ImportRecord(e, after.snapshot))
              && (forall k <- ChangesOf(before, after).notObserved :: k in table && k in result && result[k] == table[k])
              && (forall k <- table | k !in ChangesOf(before, after).notObserved ::
                    k in Keys(after.snapshot.records))
  {
    hide Valid, Injective, SurrealImport, Bars, Checked;
    CheckedIsValid(rules, before, after);
    ValidEntries(rules.rank, after.snapshot);
    if before.Some? {
      ValidEntries(rules.rank, before.value.snapshot);
    }
    if PlanFaultOf(before, after) == None {
      var table := TableOf(before);
      forall e <- after.snapshot.records
        ensures !Bars(table, e.key, ImportRecord(e, after.snapshot))
      {
        BaselineNotBarred(before, after, e);
      }
      hide PlanFaultOf;
      SurrealIs(rules.rank, table, after.snapshot);
      UpsertedAt(table, after.snapshot.records, after.snapshot);
      hide Upserted;
      PlanKeys(before, after);
    }
  }

  lemma PlanKeys(before: Option<Cache>, after: Cache)
    requires Usable(after) && (before.Some? ==> Usable(before.value))
    ensures var c := ChangesOf(before, after);
            && TableOf(before).Keys + Keys(after.snapshot.records) == TableOf(before).Keys + c.added
            && c.notObserved == TableOf(before).Keys - Keys(after.snapshot.records)
    ensures before.Some? ==> TableOf(before).Keys == Keys(before.value.snapshot.records)
  {
    assert DigestTable(after.snapshot.records).Keys == Keys(after.snapshot.records);
    if before.Some? {
      assert DigestTable(before.value.snapshot.records).Keys == Keys(before.value.snapshot.records);
      assert Indexed(before.value.snapshot.records).Keys == Keys(before.value.snapshot.records);
    }
  }
}
