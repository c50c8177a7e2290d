/** Two guarded imports of a snapshot, of different shapes, that mean the same: the latest observation wins. */
module Imports {
  import opened Base
  import opened Snapshots

  // ----- The rows of the two engines -----

  /** A stored record: what was observed, in which snapshot, and when. */
  datatype Observed = Observed(payload: Payload, digest: PayloadDigest, snapshot: SnapshotId, seen: Stamp)

  /** A relational row: its timestamp column holds an instant only. */
  datatype PgRow = PgRow(
    source: string, kind: string, sourceId: string, revision: Option<string>, displayName: string,
    attributes: Json, relationships: seq<map<string, string>>, raw: Json,
    digest: PayloadDigest, snapshot: SnapshotId, seen: int)

  type PgTable = map<RecordKey, PgRow>
  type SurrealTable = map<RecordKey, Observed>

  datatype ImportFault = Multiline | OutOfCalendar | TooLarge | StaleOrConflicting

  /** The instant of a validated snapshot. */
  function At(data: Snapshot): int {
    if data.capturedAt.instant.Some? then data.capturedAt.instant.value else 0
  }

  function Instant(s: Stamp): int {
    if s.instant.Some? then s.instant.value else 0
  }

  function ImportRecord(e: Entry, data: Snapshot): Observed {
    Observed(e.payload, e.digest, data.id, data.capturedAt)
  }

  /** An empty field of the staged text reads back as no value. */
  function CsvText(value: Option<string>): Option<string> {
    if value == Some("") then None else value
  }

  function Staged(o: Observed): PgRow {
    var p := o.payload;
    PgRow(p.source, p.kind, p.sourceId, CsvText(p.revision), p.displayName, p.attributes, p.relationships, p.raw,
          o.digest, o.snapshot, Instant(o.seen))
  }

  // ----- The relational import: stage and check everything, then write everything -----

  predicate SingleLine(text: string) {
    '\n' !in text && '\r' !in text
  }

  /** No staged text may span two physical lines. */
  predicate LinesOk(e: Entry) {
    && SingleLine(e.payload.source) && SingleLine(e.payload.kind) && SingleLine(e.payload.sourceId)
    && SingleLine(e.payload.displayName) && (e.payload.revision.Some? ==> SingleLine(e.payload.revision.value))
  }

  predicate PgEmits(data: Snapshot) {
    forall e <- data.records :: LinesOk(e)
  }

  predicate PgBars(table: PgTable, k: RecordKey, s: PgRow) {
    k in table && (table[k].seen > s.seen || (table[k].seen == s.seen && table[k] != s))
  }

  /** A conflicting key keeps its identity columns and takes every other column of the staged row. */
  function PgMerged(table: PgTable, k: RecordKey, s: PgRow): PgRow {
    if k in table then s.(source := table[k].source, kind := table[k].kind, sourceId := table[k].sourceId) else s
  }

  function PgUpserted(table: PgTable, records: seq<Entry>, data: Snapshot): PgTable {
    if records == [] then table
    else
      var last := records[|records| - 1];
      var t := PgUpserted(table, records[..|records| - 1], data);
      t[last.key := PgMerged(t, last.key, Staged(ImportRecord(last, data)))]
  }

  function PgImport(table: PgTable, data: Snapshot): Result<PgTable, ImportFault> {
    if exists e <- data.records :: PgBars(table, e.key, Staged(ImportRecord(e, data))) then Refused(StaleOrConflicting)
    else Ok(PgUpserted(table, data.records, data))
  }

  class PgCache {
    var rows: PgTable

    constructor ()
      ensures rows == map[]
    {
      rows := map[];
    }

    method Import(data: Snapshot) returns (r: Result<bool, ImportFault>)
      modifies this
      ensures !PgEmits(data) ==> r == Refused(Multiline) && rows == old(rows)
      ensures PgEmits(data) ==>
                if PgImport(old(rows), data).Ok? then r == Ok(true) && rows == PgImport(old(rows), data).value
                else r == Refused(StaleOrConflicting) && rows == old(rows)
    {
      hide LinesOk, PgMerged, Staged;
      for i := 0 to |data.records|
        invariant forall e <- data.records[..i] :: LinesOk(e)
      {
        var e := data.records[i];
        assert e in data.records && data.records[..i + 1] == data.records[..i] + [e];
        if !LinesOk(e) {
          return Refused(Multiline);
        }
      }
      assert data.records[..|data.records|] == data.records;
      var stage: seq<(RecordKey, PgRow)> := [];
      for i := 0 to |data.records|
        invariant |stage| == i
        invariant forall k | 0 <= k < i :: stage[k] == (data.records[k].key, Staged(ImportRecord(data.records[k], data)))
      {
        stage := stage + [(data.records[i].key, Staged(ImportRecord(data.records[i], data)))];
      }
      for i := 0 to |stage|
        invariant forall k | 0 <= k < i :: !PgBars(rows, stage[k].0, stage[k].1)
        invariant rows == old(rows)
      {
        if PgBars(rows, stage[i].0, stage[i].1) {
          assert data.records[i] in data.records;
          return Refused(StaleOrConflicting);
        }
      }
      for i := 0 to |stage|
        invariant rows == PgUpserted(old(rows), data.records[..i], data)
      {
        assert data.records[..i + 1][..i] == data.records[..i];
        rows := rows[stage[i].0 := PgMerged(rows, stage[i].0, stage[i].1)];
      }
      assert data.records[..|data.records|] == data.records;
      return Ok(true);
    }
  }

  // ----- The document import: check and write record by record, and undo everything on a throw -----

  const MAX_SURREAL_IMPORT_BYTES := 524_288

  /** The first and the last microsecond of the years that the calendar has in coordinated universal time. */
  const FIRST_INSTANT := -62_135_596_800_000_000
  const LAST_INSTANT := 253_402_300_799_999_999

  /** A capture time with an offset may lie outside the calendar once it is taken to universal time. */
  predicate InCalendar(at: Stamp) {
    FIRST_INSTANT <= Instant(at) <= LAST_INSTANT
  }

  /** `bytes` is the encoded size of the whole transaction. */
  predicate SurrealEmits(data: Snapshot, bytes: nat) {
    InCalendar(data.capturedAt) && bytes <= MAX_SURREAL_IMPORT_BYTES
  }

  predicate SameContent(a: Observed, b: Observed) {
    a.payload == b.payload && a.digest == b.digest && a.snapshot == b.snapshot
  }

  predicate Bars(table: SurrealTable, k: RecordKey, o: Observed) {
    k in table
    && (Instant(table[k].seen) > Instant(o.seen)
        || (Instant(table[k].seen) == Instant(o.seen) && !SameContent(table[k], o)))
  }

  /** The transaction statement by statement; None is its throw. */
  function SurrealSteps(table: SurrealTable, records: seq<Entry>, data: Snapshot): Option<SurrealTable> {
    if records == [] then Some(table)
    else
      var last := records[|records| - 1];
      match SurrealSteps(table, records[..|records| - 1], data)
      case None => None
      case Some(t) =>
        if Bars(t, last.key, ImportRecord(last, data)) then None else Some(t[last.key := ImportRecord(last, data)])
  }

  function SurrealImport(table: SurrealTable, data: Snapshot): Result<SurrealTable, ImportFault> {
    match SurrealSteps(table, data.records, data)
    case None => Refused(StaleOrConflicting)
    case Some(t) => Ok(t)
  }

  class SurrealCache {
    var records: SurrealTable

    constructor ()
      ensures records == map[]
    {
      records := map[];
    }

    method Import(data: Snapshot, bytes: nat) returns (r: Result<bool, ImportFault>)
      modifies this
      ensures !SurrealEmits(data, bytes) ==>
                r == Refused(if InCalendar(data.capturedAt) then TooLarge else OutOfCalendar) && records == old(records)
      ensures SurrealEmits(data, bytes) ==>
                if SurrealImport(old(records), data).Ok? then r == Ok(true) && records == SurrealImport(old(records), data).value
                else r == Refused(StaleOrConflicting) && records == old(records)
    {
      if !InCalendar(data.capturedAt) {
        return Refused(OutOfCalendar);
      }
      if bytes > MAX_SURREAL_IMPORT_BYTES {
        return Refused(TooLarge);
      }
      var saved := records;
      for i := 0 to |data.records|
        invariant SurrealSteps(saved, data.records[..i], data) == Some(records)
      {
        var e := data.records[i];
        assert data.records[..i + 1][..i] == data.records[..i];
        if Bars(records, e.key, ImportRecord(e, data)) {
          ThrowStays(saved, data.records, data, i + 1);
          records := saved;
          return Refused(StaleOrConflicting);
        }
        records := records[e.key := ImportRecord(e, data)];
      }
      assert data.records[..|data.records|] == data.records;
      return Ok(true);
    }
  }

  lemma {:induction false} ThrowStays(table: SurrealTable, records: seq<Entry>, data: Snapshot, i: nat)
    requires i <= |records| && SurrealSteps(table, records[..i], data) == None
    ensures SurrealSteps(table, records, data) == None
    decreases |records|
  {
    if i == |records| {
      assert records[..i] == records;
    } else {
      assert records[..|records| - 1][..i] == records[..i];
      ThrowStays(table, records[..|records| - 1], data, i);
    }
  }

  // ----- Both are: check everything against the old table, then write everything -----

  function Upserted(table: SurrealTable, records: seq<Entry>, data: Snapshot): SurrealTable {
    if records == [] then table
    else Upserted(table, records[..|records| - 1], data)
           [records[|records| - 1].key := ImportRecord(records[|records| - 1], data)]
  }

  lemma {:induction false} UpsertedKeys(table: SurrealTable, records: seq<Entry>, data: Snapshot)
    ensures Upserted(table, records, data).Keys == table.Keys + Keys(records)
    ensures forall k <- table | k !in Keys(records) :: Upserted(table, records, data)[k] == table[k]
  {
    if records != [] {
      var front, last := records[..|records| - 1], records[|records| - 1];
      UpsertedKeys(table, front, data);
      KeysAppend(front, last);
      assert records == front + [last];
    }
  }

  lemma KeysAppend(records: seq<Entry>, e: Entry)
    ensures Keys(records + [e]) == Keys(records) + {e.key}
  {
    var longer := records + [e];
    assert e in longer && forall x <- records :: x in longer;
  }

  lemma {:induction false} UpsertedRecord(table: SurrealTable, records: seq<Entry>, data: Snapshot, e: Entry)
    requires DistinctKeys(records) && e in records
    ensures e.key in Upserted(table, records, data) && Upserted(table, records, data)[e.key] == ImportRecord(e, data)
  {
    var front, last := records[..|records| - 1], records[|records| - 1];
    if e.key != last.key {
      assert forall x <- front :: x in records;
      UpsertedRecord(table, front, data, e);
    } else {
      assert last in records;
    }
  }

  /** After the writes each written key holds its record, and every other key what it held. */
  lemma UpsertedAt(table: SurrealTable, records: seq<Entry>, data: Snapshot)
    requires DistinctKeys(records)
    ensures Upserted(table, records, data).Keys == table.Keys + Keys(records)
    ensures forall e <- records :: Upserted(table, records, data)[e.key] == ImportRecord(e, data)
    ensures forall k <- table | k !in Keys(records) :: Upserted(table, records, data)[k] == table[k]
  {
    hide Upserted, DistinctKeys;
    UpsertedKeys(table, records, data);
    forall e <- records
      ensures Upserted(table, records, data)[e.key] == ImportRecord(e, data)
    {
      UpsertedRecord(table, records, data, e);
    }
  }

  predicate EntriesApart(records: seq<Entry>) {
    forall i, j | 0 <= i < j < |records| :: records[i].key != records[j].key
  }

  lemma LastIsApart(records: seq<Entry>)
    requires records != [] && EntriesApart(records)
    ensures records[|records| - 1].key !in Keys(records[..|records| - 1])
  {
    forall e <- records[..|records| - 1]
      ensures e.key != records[|records| - 1].key
    {
      var i :| 0 <= i < |records| - 1 && records[i] == e;
    }
  }

  /** Writing other keys does not change what a guard sees. */
  lemma GuardUnmoved(table: SurrealTable, records: seq<Entry>, data: Snapshot, k: RecordKey, o: Observed)
    requires DistinctKeys(records) && k !in Keys(records)
    ensures Bars(Upserted(table, records, data), k, o) == Bars(table, k, o)
  {
    UpsertedAt(table, records, data);
  }

  ghost predicate SomeBarred(table: SurrealTable, records: seq<Entry>, data: Snapshot) {
    exists e <- records :: Bars(table, e.key, ImportRecord(e, data))
  }

  lemma BarredSplit(table: SurrealTable, records: seq<Entry>, data: Snapshot)
    requires records != []
    ensures var front, last := records[..|records| - 1], records[|records| - 1];
            SomeBarred(table, records, data)
            <==> SomeBarred(table, front, data) || Bars(table, last.key, ImportRecord(last, data))
  {
    hide Bars;
    var front, last := records[..|records| - 1], records[|records| - 1];
    assert records == front + [last] && last in records;
    assert forall e <- front :: e in records;
  }

  /** With one entry for a key, checking and writing by turns is checking everything and then writing everything. */
  lemma {:induction false} StepsAreCheckThenWrite(table: SurrealTable, records: seq<Entry>, data: Snapshot)
    requires DistinctKeys(records) && EntriesApart(records)
    ensures SurrealSteps(table, records, data)
            == if SomeBarred(table, records, data) then None else Some(Upserted(table, records, data))
  {
    hide Bars, Keys, DistinctKeys;
    if records == [] {
      assert !SomeBarred(table, records, data);
    } else {
      var front, last := records[..|records| - 1], records[|records| - 1];
      FrontDistinct(records);
      StepsAreCheckThenWrite(table, front, data);
      LastIsApart(records);
      GuardUnmoved(table, front, data, last.key, ImportRecord(last, data));
      BarredSplit(table, records, data);
      hide SomeBarred;
    }
  }

  lemma FrontDistinct(records: seq<Entry>)
    requires records != [] && DistinctKeys(records) && EntriesApart(records)
    ensures DistinctKeys(records[..|records| - 1]) && EntriesApart(records[..|records| - 1])
  {
    assert forall e <- records[..|records| - 1] :: e in records;
  }

  // ----- The two engines agree -----

  /** Each column but that of the revision holds what the document says there. */
  predicate SameColumns(row: PgRow, o: Observed) {
    && row.source == o.payload.source && row.kind == o.payload.kind && row.sourceId == o.payload.sourceId
    && row.displayName == o.payload.displayName && row.attributes == o.payload.attributes
    && row.relationships == o.payload.relationships && row.raw == o.payload.raw
    && row.digest == o.digest && row.snapshot == o.snapshot && row.seen == Instant(o.seen)
  }

  /** A relational row says what a document says, with an empty revision read as none. */
  predicate RowOf(row: PgRow, o: Observed) {
    SameColumns(row, o) && row.revision == if o.payload.revision == Some("") then None else o.payload.revision
  }

  lemma StagedRow(row: PgRow, o: Observed)
    ensures RowOf(row, o) <==> row == Staged(o)
  {
  }

  /** The relational table holds what the document table holds, as far as its columns can. */
  ghost predicate Matches(pg: PgTable, docs: SurrealTable) {
    pg.Keys == docs.Keys && forall k <- pg :: RowOf(pg[k], docs[k])
  }

  /** Every record is stored under its own key, with its own digest. */
  ghost predicate Sound(docs: SurrealTable) {
    forall k <- docs :: RecordKeyOf(docs[k].payload) == k && docs[k].digest == DigestOf(docs[k].payload)
  }

  lemma RecordIsSound(e: Entry, data: Snapshot)
    requires e == EntryFor(e.payload)
    ensures var o := ImportRecord(e, data);
            RecordKeyOf(o.payload) == e.key && o.digest == DigestOf(o.payload)
  {
  }

  /** The guards decide alike: digests tell apart even what the columns cannot. */
  lemma GuardsAgree(pg: PgTable, docs: SurrealTable, k: RecordKey, o: Observed)
    requires Matches(pg, docs) && Sound(docs) && o.digest == DigestOf(o.payload)
    ensures PgBars(pg, k, Staged(o)) == Bars(docs, k, o)
  {
  }

  lemma MergeIsReplace(pg: PgTable, docs: SurrealTable, k: RecordKey, o: Observed)
    requires Matches(pg, docs) && Sound(docs) && RecordKeyOf(o.payload) == k
    ensures PgMerged(pg, k, Staged(o)) == Staged(o)
  {
  }

  lemma {:induction false} UpsertsAgree(pg: PgTable, docs: SurrealTable, records: seq<Entry>, data: Snapshot)
    requires Matches(pg, docs) && Sound(docs) && forall e <- records :: e == EntryFor(e.payload)
    ensures Matches(PgUpserted(pg, records, data), Upserted(docs, records, data)) && Sound(Upserted(docs, records, data))
  {
    hide Staged, PgMerged, RowOf;
    if records != [] {
      var front, last := records[..|records| - 1], records[|records| - 1];
      assert records == front + [last];
      UpsertsAgree(pg, docs, front, data);
      RecordIsSound(last, data);
      var o := ImportRecord(last, data);
      MergeIsReplace(PgUpserted(pg, front, data), Upserted(docs, front, data), last.key, o);
      StagedRow(Staged(o), o);
    }
  }

  lemma ValidEntries(rank: Rank, data: Snapshot)
    requires Injective(rank) && Valid(rank, data)
    ensures DistinctKeys(data.records) && EntriesApart(data.records)
    ensures forall e <- data.records :: e == EntryFor(e.payload)
    ensures data.capturedAt.instant.Some?
  {
    hide Valid;
    ValidHasDistinctKeys(rank, data);
  }

  ghost predicate Barred(docs: SurrealTable, data: Snapshot) {
    SomeBarred(docs, data.records, data)
  }

  lemma SurrealIs(rank: Rank, docs: SurrealTable, data: Snapshot)
    requires Injective(rank) && Valid(rank, data)
    ensures SurrealImport(docs, data)
            == if Barred(docs, data) then Refused(StaleOrConflicting) else Ok(Upserted(docs, data.records, data))
  {
    hide Valid, Bars, EntryFor;
    ValidEntries(rank, data);
    StepsAreCheckThenWrite(docs, data.records, data);
  }

  /** From matching tables, both imports accept or both refuse, and the tables still match afterwards. */
  lemma EnginesAgree(rank: Rank, pg: PgTable, docs: SurrealTable, data: Snapshot)
    requires Injective(rank) && Valid(rank, data) && Matches(pg, docs) && Sound(docs)
    ensures PgImport(pg, data).Ok? <==> SurrealImport(docs, data).Ok?
    ensures PgImport(pg, data).Ok? ==>
              Matches(PgImport(pg, data).value, SurrealImport(docs, data).value) && Sound(SurrealImport(docs, data).value)
  {
    hide Valid, Matches, Sound, Staged, SurrealImport, PgBars, Bars;
    SurrealIs(rank, docs, data);
    ValidEntries(rank, data);
    UpsertsAgree(pg, docs, data.records, data);
    forall e <- data.records
      ensures PgBars(pg, e.key, Staged(ImportRecord(e, data))) == Bars(docs, e.key, ImportRecord(e, data))
    {
      GuardsAgree(pg, docs, e.key, ImportRecord(e, data));
    }
  }

  ghost function PgAfter(history: seq<Snapshot>): PgTable {
    if history == [] then map[]
    else
      var t := PgAfter(history[..|history| - 1]);
      var r := PgImport(t, history[|history| - 1]);
      if r.Ok? then r.value else t
  }

  ghost function SurrealAfter(history: seq<Snapshot>): SurrealTable {
    if history == [] then map[]
    else
      var t := SurrealAfter(history[..|history| - 1]);
      var r := SurrealImport(t, history[|history| - 1]);
      if r.Ok? then r.value else t
  }

  /** The snapshots of a history that were accepted. */
  ghost function Accepted(history: seq<Snapshot>): seq<Snapshot> {
    if history == [] then []
    else
      var front, last := history[..|history| - 1], history[|history| - 1];
      Accepted(front) + (if SurrealImport(SurrealAfter(front), last).Ok? then [last] else [])
  }

  ghost function PgAccepted(history: seq<Snapshot>): seq<Snapshot> {
    if history == [] then []
    else
      var front, last := history[..|history| - 1], history[|history| - 1];
      PgAccepted(front) + (if PgImport(PgAfter(front), last).Ok? then [last] else [])
  }

  /** Over any sequence of imports both engines accept the same snapshots and hold matching tables. */
  lemma {:induction false} HistoriesAgree(rank: Rank, history: seq<Snapshot>)
    requires Injective(rank) && forall data <- history :: Valid(rank, data)
    ensures Matches(PgAfter(history), SurrealAfter(history)) && Sound(SurrealAfter(history))
    ensures PgAccepted(history) == Accepted(history)
  {
    hide Valid, PgImport, SurrealImport, Staged;
    if history != [] {
      var front, last := history[..|history| - 1], history[|history| - 1];
      HistoriesAgree(rank, front);
      EnginesAgree(rank, PgAfter(front), SurrealAfter(front), last);
    }
  }

  // ----- What an import leaves -----

  /** Every row stands under the key of its own identity columns. */
  ghost predicate OwnKeys(pg: PgTable) {
    forall k <- pg :: k == KeyOf(pg[k].source, pg[k].kind, pg[k].sourceId)
  }

  /** A row says, column by column, that a snapshot observed this record; an empty revision is read as none. */
  ghost predicate RowSays(row: PgRow, data: Snapshot, e: Entry) {
    && row.source == e.payload.source && row.kind == e.payload.kind && row.sourceId == e.payload.sourceId
    && row.displayName == e.payload.displayName && row.attributes == e.payload.attributes
    && row.relationships == e.payload.relationships && row.raw == e.payload.raw
    && (match e.payload.revision
        case None => row.revision == None
        case Some(text) => row.revision == if text == "" then None else Some(text))
    && row.digest == e.digest && row.snapshot == data.id && data.capturedAt.instant == Some(row.seen)
  }

  /** A document says, field by field, that a snapshot observed this record. */
  ghost predicate DocumentSays(o: Observed, data: Snapshot, e: Entry) {
    && o.payload.source == e.payload.source && o.payload.kind == e.payload.kind && o.payload.sourceId == e.payload.sourceId
    && o.payload.displayName == e.payload.displayName && o.payload.attributes == e.payload.attributes
    && o.payload.relationships == e.payload.relationships && o.payload.raw == e.payload.raw
    && o.payload.revision == e.payload.revision
    && o.digest == e.digest && o.snapshot == data.id && o.seen == data.capturedAt
  }

  lemma {:induction false} PgWritten(pg: PgTable, records: seq<Entry>, data: Snapshot)
    requires OwnKeys(pg) && EntriesApart(records) && data.capturedAt.instant.Some?
    requires forall e <- records :: e == EntryFor(e.payload)
    ensures var after := PgUpserted(pg, records, data);
            && OwnKeys(after) && after.Keys == pg.Keys + Keys(records)
            && (forall e <- records :: RowSays(after[e.key], data, e))
            && (forall k <- pg | k !in Keys(records) :: after[k] == pg[k])
  {
    hide RowSays;
    if records != [] {
      var front, last := records[..|records| - 1], records[|records| - 1];
      assert records == front + [last];
      PgWritten(pg, front, data);
      KeysAppend(front, last);
      LastIsApart(records);
      LastSays(PgUpserted(pg, front, data), last, data);
    }
  }

  lemma LastSays(pg: PgTable, e: Entry, data: Snapshot)
    requires OwnKeys(pg) && data.capturedAt.instant.Some? && e == EntryFor(e.payload)
    ensures var row := PgMerged(pg, e.key, Staged(ImportRecord(e, data)));
            RowSays(row, data, e) && e.key == KeyOf(row.source, row.kind, row.sourceId)
  {
  }

  /** After an accepted relational import the row of each record says what the record says, and no other row changed. */
  lemma RowsSayTheirRecords(rank: Rank, pg: PgTable, data: Snapshot)
    requires Injective(rank) && Valid(rank, data) && OwnKeys(pg) && PgImport(pg, data).Ok?
    ensures var after := PgImport(pg, data).value;
            && OwnKeys(after) && after.Keys == pg.Keys + Keys(data.records)
            && (forall e <- data.records :: RowSays(after[e.key], data, e))
            && (forall k <- pg | k !in Keys(data.records) :: after[k] == pg[k])
  {
    hide Valid, RowSays, PgUpserted, PgBars, OwnKeys;
    ValidEntries(rank, data);
    PgWritten(pg, data.records, data);
  }

  /** After an accepted document import the document of each record says what the record says; no other one changed. */
  lemma DocumentsSayTheirRecords(rank: Rank, docs: SurrealTable, data: Snapshot)
    requires Injective(rank) && Valid(rank, data) && SurrealImport(docs, data).Ok?
    ensures var after := SurrealImport(docs, data).value;
            && after.Keys == docs.Keys + Keys(data.records)
            && (forall e <- data.records :: DocumentSays(after[e.key], data, e))
            && (forall k <- docs | k !in Keys(data.records) :: after[k] == docs[k])
  {
    hide Valid, SurrealImport;
    SurrealIs(rank, docs, data);
    ValidEntries(rank, data);
    UpsertedAt(docs, data.records, data);
  }

  /**
   * A validated snapshot is accepted exactly when each row that it meets was seen before it, or already says in every
   * column what the record says.
   */
  lemma AcceptedExactly(rank: Rank, pg: PgTable, data: Snapshot)
    requires Injective(rank) && Valid(rank, data) && OwnKeys(pg)
    ensures PgImport(pg, data).Ok? <==>
            forall e | e in data.records && e.key in pg ::
              || pg[e.key].seen < data.capturedAt.instant.value
              || RowSays(pg[e.key], data, e)
  {
    hide Valid, PgUpserted, RowSays, PgBars;
    ValidEntries(rank, data);
    forall e | e in data.records && e.key in pg
      ensures PgBars(pg, e.key, Staged(ImportRecord(e, data)))
              <==> !(pg[e.key].seen < data.capturedAt.instant.value || RowSays(pg[e.key], data, e))
    {
      BarsUnlessSaid(pg[e.key], pg, data, e);
    }
    forall e | e in data.records && e.key !in pg
      ensures !PgBars(pg, e.key, Staged(ImportRecord(e, data)))
    {
      OnlyRowsBar(pg, e.key, Staged(ImportRecord(e, data)));
    }
  }

  lemma OnlyRowsBar(pg: PgTable, k: RecordKey, s: PgRow)
    requires k !in pg
    ensures !PgBars(pg, k, s)
  {
  }

  lemma BarsUnlessSaid(row: PgRow, pg: PgTable, data: Snapshot, e: Entry)
    requires e.key in pg && pg[e.key] == row && data.capturedAt.instant.Some?
    ensures PgBars(pg, e.key, Staged(ImportRecord(e, data)))
            <==> !(row.seen < data.capturedAt.instant.value || RowSays(row, data, e))
  {
    assert RowSays(row, data, e) <==> row == Staged(ImportRecord(e, data));
  }

  /** Over any sequence of imports each row stands under its own key. */
  lemma {:induction false} HistoriesKeepKeys(rank: Rank, history: seq<Snapshot>)
    requires Injective(rank) && forall data <- history :: Valid(rank, data)
    ensures OwnKeys(PgAfter(history))
  {
    hide Valid, PgImport, OwnKeys, RowSays;
    if history == [] {
      NothingIsOwn();
    } else {
      var front, last := history[..|history| - 1], history[|history| - 1];
      HistoriesKeepKeys(rank, front);
      if PgImport(PgAfter(front), last).Ok? {
        RowsSayTheirRecords(rank, PgAfter(front), last);
      }
    }
  }

  lemma NothingIsOwn()
    ensures OwnKeys(map[])
  {
  }

  // ----- Where they differ -----

  ghost predicate SameTable(pg: PgTable, docs: SurrealTable) {
    pg.Keys == docs.Keys && forall k <- pg :: SameColumns(pg[k], docs[k]) && pg[k].revision == docs[k].payload.revision
  }

  /** Matching tables hold the same values exactly when no record has an empty revision. */
  lemma SameIffNoEmptyRevision(pg: PgTable, docs: SurrealTable)
    requires Matches(pg, docs)
    ensures SameTable(pg, docs) <==> forall k <- docs :: docs[k].payload.revision != Some("")
  {
    if SameTable(pg, docs) {
      forall k <- docs
        ensures docs[k].payload.revision != Some("")
      {
        assert SameColumns(pg[k], docs[k]) && RowOf(pg[k], docs[k]);
      }
    }
  }

  /** From tables with the same values, an accepted import keeps them the same exactly when it brings no empty revision. */
  lemma ImportKeepsSameIff(rank: Rank, pg: PgTable, docs: SurrealTable, data: Snapshot)
    requires Injective(rank) && Valid(rank, data) && Matches(pg, docs) && Sound(docs) && SameTable(pg, docs)
    requires PgImport(pg, data).Ok?
    ensures SurrealImport(docs, data).Ok?
    ensures SameTable(PgImport(pg, data).value, SurrealImport(docs, data).value)
            <==> forall e <- data.records :: e.payload.revision != Some("")
  {
    hide Valid, Matches, Sound, SameTable, Staged, PgImport, SurrealImport;
    EnginesAgree(rank, pg, docs, data);
    SurrealIs(rank, docs, data);
    ValidEntries(rank, data);
    UpsertedAt(docs, data.records, data);
    var after := SurrealImport(docs, data).value;
    SameIffNoEmptyRevision(pg, docs);
    SameIffNoEmptyRevision(PgImport(pg, data).value, after);
    forall k <- after
      ensures k in docs || exists e :: e in data.records && e.key == k
    {
      if k in Keys(data.records) {
        var e :| e in data.records && e.key == k;
      }
    }
    forall e <- data.records
      ensures e.key in after && after[e.key].payload.revision == e.payload.revision
    {
      assert e.key in Keys(data.records);
    }
  }

  function EmptyRevision(): Payload {
    Payload("s", "model_artifact", "i", Some(""), "n", JObject(map[]), [], JObject(map[]))
  }

  const EPOCH := Stamp("1970-01-01T00:00:00+00:00", Some(0))

  /** An hour ahead of universal time the first hour of the calendar belongs to the year before. */
  const TOO_EARLY := Stamp("0001-01-01T00:00:00+01:00", Some(FIRST_INSTANT - 3_600_000_000))

  const TOO_LATE := Stamp("9999-12-31T23:30:00-01:00", Some(LAST_INSTANT + 1_800_000_001))

  /** The snapshot of one record. */
  function Solo(rank: Rank, p: Payload, at: Stamp): Snapshot
    requires Injective(rank) && ValidPayload(p)
  {
    Build(rank, map[RecordKeyOf(p) := p], JObject(map["source" := JText(p.source)]), at)
  }

  lemma SoloIsBuilt(rank: Rank, p: Payload, at: Stamp)
    requires Injective(rank) && ValidPayload(p)
    ensures Solo(rank, p, at).scope == JObject(map["source" := JText(p.source)])
    ensures Solo(rank, p, at).capturedAt == at
  {
    hide ValidPayload;
  }

  lemma SoloIsValid(rank: Rank, p: Payload, at: Stamp)
    requires Injective(rank) && ValidPayload(p) && at.instant.Some?
    ensures Valid(rank, Solo(rank, p, at)) && Solo(rank, p, at).records == [EntryFor(p)]
  {
    hide ValidPayload, Build;
    var data, m := Solo(rank, p, at), map[RecordKeyOf(p) := p];
    BuiltEntries(rank, m, JObject(map["source" := JText(p.source)]), at);
    SoloIsBuilt(rank, p, at);
    assert m[RecordKeyOf(p)] == p && EntryFor(p) in data.records;
    assert ByKey([p]) == m;
    assert data.scope.fields["source"] == JText(p.source);
    assert Make(rank, [p], data.scope, data.capturedAt) == Ok(data);
    ValidIffMade(rank, data);
    var last := |data.records| - 1;
    assert data.records[last] in data.records && data.records[0] in data.records;
    assert last == 0;
  }

  lemma EmptyRevisionIsValid(name: string)
    requires NonBlank(name)
    ensures ValidPayload(EmptyRevision().(displayName := name))
  {
    assert "s"[0] !in " \t\n\r" && "i"[0] !in " \t\n\r" && "model_artifact"[0] !in " \t\n\r";
  }

  lemma ImportsSolo(p: Payload, data: Snapshot)
    requires data.records == [EntryFor(p)]
    ensures PgImport(map[], data) == Ok(map[RecordKeyOf(p) := Staged(ImportRecord(EntryFor(p), data))])
    ensures SurrealImport(map[], data) == Ok(map[RecordKeyOf(p) := ImportRecord(EntryFor(p), data)])
  {
    assert data.records[..|data.records| - 1] == [];
    assert SurrealSteps(map[], [], data) == Some(map[]);
    assert PgUpserted(map[], [], data) == map[];
  }

  /** A valid snapshot, which both engines accept, has an empty revision: one engine loses it and the other keeps it. */
  lemma EmptyRevisionDiffers(rank: Rank)
    requires Injective(rank)
    ensures ValidPayload(EmptyRevision()) && Valid(rank, Solo(rank, EmptyRevision(), EPOCH))
    ensures var data, k := Solo(rank, EmptyRevision(), EPOCH), RecordKeyOf(EmptyRevision());
            && PgEmits(data) && PgImport(map[], data).Ok? && SurrealImport(map[], data).Ok?
            && k in PgImport(map[], data).value && k in SurrealImport(map[], data).value
            && PgImport(map[], data).value[k].revision == None
            && SurrealImport(map[], data).value[k].payload.revision == Some("")
  {
    hide Solo, Valid, ValidPayload, PgImport, SurrealImport, LinesOk;
    EmptyRevisionIsPlain();
    SoloIsValid(rank, EmptyRevision(), EPOCH);
    ImportsSolo(EmptyRevision(), Solo(rank, EmptyRevision(), EPOCH));
  }

  lemma EmptyRevisionIsPlain()
    ensures ValidPayload(EmptyRevision()) && LinesOk(EntryFor(EmptyRevision()))
  {
    assert "n"[0] !in " \t\n\r";
    EmptyRevisionIsValid("n");
  }

  /** A valid snapshot has a display name over two lines: one generator refuses it and the other engine stores it. */
  lemma MultilineDiffers(rank: Rank)
    requires Injective(rank)
    ensures var p := EmptyRevision().(displayName := "a\nb");
            && ValidPayload(p) && Valid(rank, Solo(rank, p, EPOCH))
            && !PgEmits(Solo(rank, p, EPOCH)) && SurrealImport(map[], Solo(rank, p, EPOCH)).Ok?
  {
    hide Solo, Valid, ValidPayload, PgImport, SurrealImport;
    var p := EmptyRevision().(displayName := "a\nb");
    assert "a\nb"[0] !in " \t\n\r";
    EmptyRevisionIsValid("a\nb");
    SoloIsValid(rank, p, EPOCH);
    ImportsSolo(p, Solo(rank, p, EPOCH));
    var data := Solo(rank, p, EPOCH);
    assert data.records[0] in data.records && data.records[0].payload.displayName[1] == '\n';
  }

  /** A valid snapshot was captured outside the calendar: one generator refuses it and the other engine stores it. */
  lemma OutOfCalendarDiffers(rank: Rank, at: Stamp, bytes: nat)
    requires Injective(rank) && at in {TOO_EARLY, TOO_LATE}
    ensures var p := EmptyRevision().(revision := None);
            && ValidPayload(p) && Valid(rank, Solo(rank, p, at))
            && PgEmits(Solo(rank, p, at)) && PgImport(map[], Solo(rank, p, at)).Ok?
            && !SurrealEmits(Solo(rank, p, at), bytes)
  {
    hide Solo, Valid, ValidPayload, PgImport, SurrealImport, LinesOk;
    var p := EmptyRevision().(revision := None);
    NoRevisionIsValid();
    SoloIsValid(rank, p, at);
    SoloIsBuilt(rank, p, at);
    ImportsSolo(p, Solo(rank, p, at));
  }

  lemma NoRevisionIsValid()
    ensures ValidPayload(EmptyRevision().(revision := None)) && LinesOk(EntryFor(EmptyRevision().(revision := None)))
  {
    assert "n"[0] !in " \t\n\r";
    EmptyRevisionIsValid("n");
  }

  /** With the limits of the generators: the engines accept the same snapshot unless exactly one generator refuses it. */
  lemma AcceptSameIff(rank: Rank, pg: PgTable, docs: SurrealTable, data: Snapshot, bytes: nat)
    requires Injective(rank) && Valid(rank, data) && Matches(pg, docs) && Sound(docs)
    ensures ((PgEmits(data) && PgImport(pg, data).Ok?) <==> (SurrealEmits(data, bytes) && SurrealImport(docs, data).Ok?))
            <==> (Barred(docs, data) || (PgEmits(data) <==> SurrealEmits(data, bytes)))
  {
    hide Valid, Matches, Sound, PgEmits, SurrealEmits, PgImport, SurrealImport, Barred;
    EnginesAgree(rank, pg, docs, data);
    SurrealIs(rank, docs, data);
  }

  // ----- The latest observation wins -----

  /** The row of this key is this record of one of these snapshots. */
  ghost predicate Witnessed(docs: SurrealTable, accepted: seq<Snapshot>, k: RecordKey, data: Snapshot, e: Entry) {
    && k in docs && data in accepted && e in data.records && e.key == k
    && docs[k].payload == e.payload && docs[k].digest == e.digest
    && docs[k].snapshot == data.id && docs[k].seen == data.capturedAt
  }

  /** No accepted observation is newer than the row of its key, and one of the same instant says the same. */
  ghost predicate Covered(docs: SurrealTable, data: Snapshot, e: Entry) {
    && e.key in docs && data.capturedAt.instant.Some? && docs[e.key].seen.instant.Some?
    && data.capturedAt.instant.value <= docs[e.key].seen.instant.value
    && (data.capturedAt.instant == docs[e.key].seen.instant ==>
          docs[e.key].payload == e.payload && docs[e.key].digest == e.digest && docs[e.key].snapshot == data.id)
  }

  /** Each row is an accepted observation, and none of the accepted observations of its key is newer. */
  ghost predicate Latest(docs: SurrealTable, accepted: seq<Snapshot>) {
    && (forall k <- docs :: exists data, e :: Witnessed(docs, accepted, k, data, e))
    && (forall data, e | data in accepted && e in data.records :: Covered(docs, data, e))
  }

  lemma NotBarred(docs: SurrealTable, data: Snapshot, e: Entry)
    requires !Barred(docs, data) && e in data.records
    ensures !Bars(docs, e.key, ImportRecord(e, data))
  {
    hide Bars;
  }

  /** What the writes of a snapshot make of a table. */
  ghost predicate Written(docs: SurrealTable, data: Snapshot, after: SurrealTable) {
    && after.Keys == docs.Keys + Keys(data.records)
    && (forall f <- data.records :: after[f.key] == ImportRecord(f, data))
    && (forall k <- docs | k !in Keys(data.records) :: after[k] == docs[k])
  }

  lemma WitnessedStep(docs: SurrealTable, accepted: seq<Snapshot>, data: Snapshot, after: SurrealTable, k: RecordKey)
    requires Latest(docs, accepted) && Written(docs, data, after) && k in after
    ensures exists d, e :: Witnessed(after, accepted + [data], k, d, e)
  {
    hide Covered;
    if k in Keys(data.records) {
      var e :| e in data.records && e.key == k;
      assert Witnessed(after, accepted + [data], k, data, e);
    } else {
      var d, e :| Witnessed(docs, accepted, k, d, e);
      assert Witnessed(after, accepted + [data], k, d, e);
    }
  }

  lemma CoveredStep(docs: SurrealTable, accepted: seq<Snapshot>, data: Snapshot, after: SurrealTable, d: Snapshot, e: Entry)
    requires Latest(docs, accepted) && !Barred(docs, data) && Written(docs, data, after)
    requires DistinctKeys(data.records) && data.capturedAt.instant.Some?
    requires d in accepted + [data] && e in d.records
    ensures Covered(after, d, e)
  {
    hide Barred, Witnessed;
    if e.key in Keys(data.records) {
      var f :| f in data.records && f.key == e.key;
      NotBarred(docs, data, f);
      assert d in accepted ==> Covered(docs, d, e);
    } else {
      assert d in accepted && Covered(docs, d, e);
    }
  }

  lemma LatestStep(rank: Rank, docs: SurrealTable, accepted: seq<Snapshot>, data: Snapshot)
    requires Injective(rank) && Valid(rank, data) && Latest(docs, accepted) && !Barred(docs, data)
    ensures Latest(Upserted(docs, data.records, data), accepted + [data])
  {
    hide Valid, Barred, Injective, Upserted, Covered, Witnessed, ImportRecord, DistinctKeys;
    ValidEntries(rank, data);
    UpsertedAt(docs, data.records, data);
    var after := Upserted(docs, data.records, data);
    assert Written(docs, data, after);
    forall k <- after
      ensures exists d, e :: Witnessed(after, accepted + [data], k, d, e)
    {
      WitnessedStep(docs, accepted, data, after, k);
    }
    forall d, e | d in accepted + [data] && e in d.records
      ensures Covered(after, d, e)
    {
      CoveredStep(docs, accepted, data, after, d, e);
    }
  }

  /** After any history, each key holds the latest of the accepted observations of it. */
  lemma {:induction false} LatestObservationWins(rank: Rank, history: seq<Snapshot>)
    requires Injective(rank) && forall data <- history :: Valid(rank, data)
    ensures Latest(SurrealAfter(history), Accepted(history))
  {
    hide Valid, SurrealImport, Latest, Barred, Injective;
    if history == [] {
      NothingIsLatest();
    } else {
      var front, last := history[..|history| - 1], history[|history| - 1];
      LatestObservationWins(rank, front);
      SurrealIs(rank, SurrealAfter(front), last);
      if !Barred(SurrealAfter(front), last) {
        LatestStep(rank, SurrealAfter(front), Accepted(front), last);
      } else {
        assert Accepted(history) == Accepted(front);
      }
    }
  }

  lemma NothingIsLatest()
    ensures Latest(map[], [])
  {
  }

  lemma OneLatest(docs: SurrealTable, other: SurrealTable, accepted: seq<Snapshot>, reordered: seq<Snapshot>, k: RecordKey)
    requires Latest(docs, accepted) && Latest(other, reordered) && k in docs
    requires forall data :: data in accepted <==> data in reordered
    ensures k in other && Instant(docs[k].seen) <= Instant(other[k].seen)
    ensures Instant(docs[k].seen) == Instant(other[k].seen) ==> SameContent(docs[k], other[k])
  {
    var data, e :| Witnessed(docs, accepted, k, data, e);
    assert Covered(other, data, e);
  }

  /** Which observations were accepted decides the table, whatever their order. */
  lemma LatestIsUnique(docs: SurrealTable, other: SurrealTable, accepted: seq<Snapshot>, reordered: seq<Snapshot>)
    requires Latest(docs, accepted) && Latest(other, reordered) && forall data :: data in accepted <==> data in reordered
    ensures docs.Keys == other.Keys
    ensures forall k <- docs :: SameContent(docs[k], other[k]) && Instant(docs[k].seen) == Instant(other[k].seen)
  {
    hide Latest;
    forall k | k in docs || k in other
      ensures k in docs && k in other
      ensures SameContent(docs[k], other[k]) && Instant(docs[k].seen) == Instant(other[k].seen)
    {
      if k in docs {
        OneLatest(docs, other, accepted, reordered, k);
      }
      if k in other {
        OneLatest(other, docs, reordered, accepted, k);
      }
    }
  }

  /** An accepted import removes no key and takes no row back in time; repeating it at once changes nothing. */
  lemma ImportMovesForward(rank: Rank, docs: SurrealTable, data: Snapshot)
    requires Injective(rank) && Valid(rank, data) && SurrealImport(docs, data).Ok?
    ensures var after := SurrealImport(docs, data).value;
            && docs.Keys <= after.Keys
            && (forall k <- docs :: Instant(docs[k].seen) <= Instant(after[k].seen))
            && SurrealImport(after, data) == Ok(after)
  {
    hide Valid, SurrealImport, Injective;
    SurrealIs(rank, docs, data);
    ValidEntries(rank, data);
    UpsertedAt(docs, data.records, data);
    var after := SurrealImport(docs, data).value;
    forall k <- docs
      ensures Instant(docs[k].seen) <= Instant(after[k].seen)
    {
      if k in Keys(data.records) {
        var e :| e in data.records && e.key == k;
        NotBarred(docs, data, e);
      }
    }
    SurrealIs(rank, after, data);
    ReplayIsFree(rank, docs, data, after);
  }

  lemma ReplayIsFree(rank: Rank, docs: SurrealTable, data: Snapshot, after: SurrealTable)
    requires DistinctKeys(data.records) && after == Upserted(docs, data.records, data)
    ensures !Barred(after, data) && Upserted(after, data.records, data) == after
  {
    UpsertedAt(docs, data.records, data);
    UpsertedAt(after, data.records, data);
    hide Upserted;
    var again := Upserted(after, data.records, data);
    forall k <- again
      ensures k in after && again[k] == after[k]
    {
      if k in Keys(data.records) {
        var e :| e in data.records && e.key == k;
      }
    }
  }
}
