/** Discovery snapshots: canonical, content-addressed lists of records, and their comparison. */
module Snapshots {
  import opened Base

  /** Metadata after its JSON copy. */
  datatype Json =
    | JNull | JBool(truth: bool) | JNumber(number: real) | JText(text: string)
    | JList(items: seq<Json>) | JObject(fields: map<string, Json>)

  /** What one source says about one resource. */
  datatype Payload = Payload(
    source: string, kind: string, sourceId: string, revision: Option<string>, displayName: string,
    attributes: Json, relationships: seq<map<string, string>>, raw: Json)

  /** Digests are free constructors: equal digests have equal contents. */
  datatype RecordKey = KeyOf(source: string, kind: string, sourceId: string)
  datatype PayloadDigest = DigestOf(payload: Payload)
  datatype SnapshotId = IdOf(scope: Json, content: seq<(RecordKey, PayloadDigest)>)

  datatype Entry = Entry(key: RecordKey, digest: PayloadDigest, payload: Payload)

  /** A timestamp as text, with its instant in microseconds when it has a timezone and parses. */
  datatype Stamp = Stamp(text: string, instant: Option<int>)

  datatype Snapshot = Snapshot(id: SnapshotId, capturedAt: Stamp, scope: Json, records: seq<Entry>)

  datatype Fault =
    | ScopeRequired | InvalidTime | InvalidRecord | ConflictingRecords | EmptySnapshot
    | DigestMismatch | IdentityMismatch | IntegrityMismatch | DifferentScopes

  const KINDS := {"model_reference", "model_artifact", "agent_resource", "nim_microservice", "inference_endpoint"}

  predicate NonBlank(text: string) {
    exists i | 0 <= i < |text| :: text[i] !in " \t\n\r"
  }

  predicate ValidPayload(p: Payload) {
    && NonBlank(p.source) && NonBlank(p.kind) && NonBlank(p.sourceId) && NonBlank(p.displayName)
    && p.kind in KINDS && p.attributes.JObject? && p.raw.JObject?
  }

  predicate ValidScope(scope: Json) {
    scope.JObject? && scope.fields != map[]
  }

  function RecordKeyOf(p: Payload): RecordKey {
    KeyOf(p.source, p.kind, p.sourceId)
  }

  function EntryFor(p: Payload): Entry {
    Entry(RecordKeyOf(p), DigestOf(p), p)
  }

  // ----- The canonical order of keys -----

  /** The order of the hexadecimal keys, as a number for each key. */
  type Rank = RecordKey -> int

  ghost predicate Injective<K(!new)>(rank: K -> int) {
    forall k, l :: rank(k) == rank(l) ==> k == l
  }

  predicate IsLeast<K>(rank: K -> int, keys: set<K>, k: K) {
    k in keys && forall l <- keys :: rank(k) <= rank(l)
  }

  lemma {:induction false} LeastExists<K>(rank: K -> int, keys: set<K>)
    requires keys != {}
    ensures exists k :: IsLeast(rank, keys, k)
    decreases |keys|
  {
    var k :| k in keys;
    var rest := keys - {k};
    if rest == {} {
      assert keys == {k};
      assert IsLeast(rank, keys, k);
    } else {
      LeastExists(rank, rest);
      var l :| IsLeast(rank, rest, l);
      assert keys == rest + {k};
      assert IsLeast(rank, keys, if rank(k) <= rank(l) then k else l);
    }
  }

  function Least<K(!new)>(rank: K -> int, keys: set<K>): (k: K)
    requires keys != {} && Injective(rank)
    ensures IsLeast(rank, keys, k)
  {
    LeastExists(rank, keys);
    var k :| k in keys && IsLeast(rank, keys, k);
    k
  }

  function SortKeys<K(!new)>(rank: K -> int, keys: set<K>): seq<K>
    requires Injective(rank)
    decreases |keys|
  {
    if keys == {} then []
    else
      var k := Least(rank, keys);
      [k] + SortKeys(rank, keys - {k})
  }

  lemma {:induction false} SortedHasKeys<K(!new)>(rank: K -> int, keys: set<K>)
    requires Injective(rank)
    ensures forall k :: k in SortKeys(rank, keys) <==> k in keys
    ensures forall i, j | 0 <= i < j < |SortKeys(rank, keys)| ::
              rank(SortKeys(rank, keys)[i]) < rank(SortKeys(rank, keys)[j])
    decreases |keys|
  {
    if keys != {} {
      var k := Least(rank, keys);
      var rest := SortKeys(rank, keys - {k});
      SortedHasKeys(rank, keys - {k});
      forall i, j | 0 <= i < j < |[k] + rest|
        ensures rank(([k] + rest)[i]) < rank(([k] + rest)[j])
      {
        assert ([k] + rest)[j] == rest[j - 1] && rest[j - 1] in rest;
      }
    }
  }

  // ----- Making a snapshot -----

  /** Two records of one resource must be the same record. */
  predicate Agreeing(records: seq<Payload>) {
    forall p, q | p in records && q in records && RecordKeyOf(p) == RecordKeyOf(q) :: p == q
  }

  function ByKey(records: seq<Payload>): map<RecordKey, Payload>
    requires Agreeing(records)
  {
    map p | p in records :: RecordKeyOf(p) := p
  }

  function EntriesOf(keys: seq<RecordKey>, m: map<RecordKey, Payload>): seq<Entry>
    requires forall k <- keys :: k in m
  {
    seq(|keys|, i requires 0 <= i < |keys| => Entry(keys[i], DigestOf(m[keys[i]]), m[keys[i]]))
  }

  function Signature(entries: seq<Entry>): seq<(RecordKey, PayloadDigest)> {
    seq(|entries|, i requires 0 <= i < |entries| => (entries[i].key, entries[i].digest))
  }

  function Build(rank: Rank, m: map<RecordKey, Payload>, scope: Json, at: Stamp): Snapshot
    requires Injective(rank)
  {
    SortedHasKeys(rank, m.Keys);
    var entries := EntriesOf(SortKeys(rank, m.Keys), m);
    Snapshot(IdOf(scope, Signature(entries)), at, scope, entries)
  }

  /** What a snapshot of some records is, or why there is none. */
  function Make(rank: Rank, records: seq<Payload>, scope: Json, at: Stamp): Result<Snapshot, Fault>
    requires Injective(rank)
  {
    if !ValidScope(scope) then Refused(ScopeRequired)
    else if at.instant == None then Refused(InvalidTime)
    else if exists p <- records :: !ValidPayload(p) then Refused(InvalidRecord)
    else if !Agreeing(records) then Refused(ConflictingRecords)
    else if records == [] then Refused(EmptySnapshot)
    else Ok(Build(rank, ByKey(records), scope, at))
  }

  /** The loop over the records fills a table by key, and stops at a conflict with an earlier record. */
  method MakeSnapshot(rank: Rank, records: seq<Payload>, scope: Json, at: Stamp) returns (r: Result<Snapshot, Fault>)
    requires Injective(rank)
    ensures r.Ok? <==> Make(rank, records, scope, at).Ok?
    ensures r.Ok? ==> r == Make(rank, records, scope, at)
  {
    hide ValidPayload, ValidScope, Build;
    if !ValidScope(scope) {
      return Refused(ScopeRequired);
    }
    if at.instant == None {
      return Refused(InvalidTime);
    }
    var byKey: map<RecordKey, Payload> := map[];
    for i := 0 to |records|
      invariant forall p <- records[..i] :: ValidPayload(p) && RecordKeyOf(p) in byKey && byKey[RecordKeyOf(p)] == p
      invariant forall k <- byKey :: byKey[k] in records[..i] && RecordKeyOf(byKey[k]) == k
      invariant i > 0 ==> byKey != map[]
    {
      var p := records[i];
      assert p in records && records[..i + 1] == records[..i] + [p];
      if !ValidPayload(p) {
        return Refused(InvalidRecord);
      }
      if RecordKeyOf(p) in byKey && byKey[RecordKeyOf(p)] != p {
        assert byKey[RecordKeyOf(p)] in records;
        return Refused(ConflictingRecords);
      }
      byKey := byKey[RecordKeyOf(p) := p];
    }
    assert records[..|records|] == records;
    if byKey == map[] {
      return Refused(EmptySnapshot);
    }
    assert byKey == ByKey(records);
    return Ok(Build(rank, byKey, scope, at));
  }

  lemma EmptyTogether(records: seq<Payload>, other: seq<Payload>)
    requires forall p :: p in records <==> p in other
    ensures records == [] <==> other == []
  {
    assert |records| > 0 ==> records[0] in records;
    assert |other| > 0 ==> other[0] in other;
  }

  /** Neither the order of the records nor their repetition matters. */
  lemma MakeIgnoresOrderAndRepetition(rank: Rank, records: seq<Payload>, other: seq<Payload>, scope: Json, at: Stamp)
    requires Injective(rank) && forall p :: p in records <==> p in other
    ensures Make(rank, records, scope, at) == Make(rank, other, scope, at)
  {
    hide ValidPayload, ValidScope, Build;
    EmptyTogether(records, other);
    if Agreeing(records) {
      assert ByKey(records) == ByKey(other);
    }
  }

  // ----- Checking a snapshot -----

  function Payloads(entries: seq<Entry>): seq<Payload> {
    seq(|entries|, i requires 0 <= i < |entries| => entries[i].payload)
  }

  predicate EntryOk(e: Entry) {
    ValidPayload(e.payload) && e.digest == DigestOf(e.payload) && e.key == RecordKeyOf(e.payload)
  }

  /** The checks of a received snapshot, in order. */
  method ValidateSnapshot(rank: Rank, data: Snapshot) returns (r: Result<Snapshot, Fault>)
    requires Injective(rank)
    ensures r.Ok? <==> Valid(rank, data)
    ensures r.Ok? ==> r.value == data
  {
    hide ValidPayload, Make;
    var recovered: seq<Payload> := [];
    for i := 0 to |data.records|
      invariant recovered == Payloads(data.records[..i])
      invariant forall e <- data.records[..i] :: EntryOk(e)
    {
      var e := data.records[i];
      assert e in data.records && data.records[..i + 1] == data.records[..i] + [e];
      if !ValidPayload(e.payload) {
        return Refused(InvalidRecord);
      }
      if e.digest != DigestOf(e.payload) {
        return Refused(DigestMismatch);
      }
      if e.key != RecordKeyOf(e.payload) {
        return Refused(IdentityMismatch);
      }
      recovered := recovered + [e.payload];
    }
    assert data.records[..|data.records|] == data.records;
    var expected := MakeSnapshot(rank, recovered, data.scope, data.capturedAt);
    if expected.Refused? {
      return Refused(expected.error);
    }
    if data.id != expected.value.id || data.records != expected.value.records {
      return Refused(IntegrityMismatch);
    }
    MadeHas(rank, recovered, data.scope, data.capturedAt);
    return Ok(data);
  }

  /** A snapshot is valid when it is what rebuilding it from its own records gives. */
  predicate Valid(rank: Rank, data: Snapshot)
    requires Injective(rank)
  {
    && (forall e <- data.records :: EntryOk(e))
    && Make(rank, Payloads(data.records), data.scope, data.capturedAt) == Ok(data)
  }

  lemma MadeHas(rank: Rank, records: seq<Payload>, scope: Json, at: Stamp)
    requires Injective(rank)
    ensures Make(rank, records, scope, at).Ok? ==>
              Make(rank, records, scope, at).value.scope == scope && Make(rank, records, scope, at).value.capturedAt == at
  {
  }

  lemma BuiltEntries(rank: Rank, m: map<RecordKey, Payload>, scope: Json, at: Stamp)
    requires Injective(rank) && forall k <- m :: RecordKeyOf(m[k]) == k
    ensures var entries := Build(rank, m, scope, at).records;
            && (forall e <- entries :: e.key in m && e == EntryFor(m[e.key]))
            && (forall k <- m :: EntryFor(m[k]) in entries)
            && (forall i, j | 0 <= i < j < |entries| :: rank(entries[i].key) < rank(entries[j].key))
  {
    SortedHasKeys(rank, m.Keys);
    var keys := SortKeys(rank, m.Keys);
    var entries := Build(rank, m, scope, at).records;
    forall k <- m
      ensures EntryFor(m[k]) in entries
    {
      var i :| 0 <= i < |keys| && keys[i] == k;
      assert entries[i] == EntryFor(m[k]);
    }
    forall e <- entries
      ensures e.key in m && e == EntryFor(m[e.key])
    {
      var i :| 0 <= i < |entries| && entries[i] == e;
      assert keys[i] in keys;
    }
  }

  /** The records of a snapshot are exactly the records that it was made from, each once. */
  lemma MadeRecords(rank: Rank, records: seq<Payload>, scope: Json, at: Stamp)
    requires Injective(rank) && Make(rank, records, scope, at).Ok?
    ensures var data := Make(rank, records, scope, at).value;
            && (forall e <- data.records :: EntryOk(e))
            && (forall p :: p in Payloads(data.records) <==> p in records)
            && (forall i, j | 0 <= i < j < |data.records| :: data.records[i].key != data.records[j].key)
  {
    hide ValidPayload, ValidScope, Build;
    var data := Make(rank, records, scope, at).value;
    var m := ByKey(records);
    BuiltEntries(rank, m, scope, at);
    forall p
      ensures p in Payloads(data.records) <==> p in records
    {
      if p in records {
        assert EntryFor(m[RecordKeyOf(p)]) in data.records;
        var i :| 0 <= i < |data.records| && data.records[i] == EntryFor(p);
        assert Payloads(data.records)[i] == p;
      }
      if p in Payloads(data.records) {
        var i :| 0 <= i < |data.records| && Payloads(data.records)[i] == p;
        assert data.records[i] in data.records;
      }
    }
  }

  /** A record that names its resource and describes it with objects. */
  ghost predicate GoodRecord(p: Payload) {
    && NonBlank(p.source) && NonBlank(p.sourceId) && NonBlank(p.displayName)
    && p.kind in {"model_reference", "model_artifact", "agent_resource", "nim_microservice", "inference_endpoint"}
    && p.attributes.JObject? && p.raw.JObject?
  }

  lemma GoodIsValid(p: Payload)
    ensures ValidPayload(p) <==> GoodRecord(p)
  {
    if p.kind in KINDS {
      assert p.kind[0] !in " \t\n\r";
    }
  }

  /** A snapshot is made exactly of a declared scope, a readable time and some good records of which no two contradict. */
  lemma MadeExactly(rank: Rank, records: seq<Payload>, scope: Json, at: Stamp)
    requires Injective(rank)
    ensures Make(rank, records, scope, at).Ok? <==>
            && scope.JObject? && scope.fields != map[] && at.instant.Some? && records != []
            && (forall p <- records :: GoodRecord(p))
            && (forall p, q | p in records && q in records && p.source == q.source && p.kind == q.kind
                              && p.sourceId == q.sourceId :: p == q)
  {
    hide Build, ValidPayload, GoodRecord;
    forall p
      ensures ValidPayload(p) <==> GoodRecord(p)
    {
      GoodIsValid(p);
    }
  }

  /**
   * A snapshot has the scope and the time that it was made with, its records in the order of their keys, and an identifier
   * that names the scope and then each record, in that order, by its key and its digest.
   */
  lemma MadeNames(rank: Rank, records: seq<Payload>, scope: Json, at: Stamp)
    requires Injective(rank) && Make(rank, records, scope, at).Ok?
    ensures var data := Make(rank, records, scope, at).value;
            && data.scope == scope && data.capturedAt == at
            && (forall i, j | 0 <= i < j < |data.records| :: rank(data.records[i].key) < rank(data.records[j].key))
            && data.id.scope == scope && |data.id.content| == |data.records|
            && (forall i | 0 <= i < |data.records| ::
                  var p := data.records[i].payload;
                  && data.records[i].key == KeyOf(p.source, p.kind, p.sourceId) && data.records[i].digest == DigestOf(p)
                  && data.id.content[i] == (data.records[i].key, data.records[i].digest))
  {
    hide ValidPayload, ValidScope, Agreeing;
    BuiltEntries(rank, ByKey(records), scope, at);
  }

  lemma SameSignature(a: seq<Entry>, b: seq<Entry>)
    requires |a| == |b| && forall i | 0 <= i < |a| :: a[i].key == b[i].key && a[i].digest == b[i].digest
    requires (forall e <- a :: e.digest == DigestOf(e.payload)) && (forall e <- b :: e.digest == DigestOf(e.payload))
    ensures a == b
  {
    forall i | 0 <= i < |a|
      ensures a[i] == b[i]
    {
      assert a[i] in a && b[i] in b;
    }
  }

  /** Snapshots have one identifier exactly when they observe the same records in the same scope, whenever that was. */
  lemma IdentifierBinds(rank: Rank, a: Snapshot, b: Snapshot)
    requires Injective(rank) && Valid(rank, a) && Valid(rank, b)
    ensures a.id == b.id <==> a.scope == b.scope && forall p :: p in Payloads(a.records) <==> p in Payloads(b.records)
    ensures a.id == b.id ==> a.records == b.records
  {
    hide Make, EntryOk, Payloads;
    MadeNames(rank, Payloads(a.records), a.scope, a.capturedAt);
    MadeNames(rank, Payloads(b.records), b.scope, b.capturedAt);
    if a.id == b.id {
      assert forall i | 0 <= i < |a.records| :: a.id.content[i] == b.id.content[i];
      SameSignature(a.records, b.records);
    }
    if a.scope == b.scope && forall p :: p in Payloads(a.records) <==> p in Payloads(b.records) {
      MakeIgnoresOrderAndRepetition(rank, Payloads(a.records), Payloads(b.records), a.scope, a.capturedAt);
      TimeIsNoPart(rank, Payloads(b.records), b.scope, a.capturedAt, b.capturedAt);
    }
  }

  lemma TimeIsNoPart(rank: Rank, records: seq<Payload>, scope: Json, at: Stamp, other: Stamp)
    requires Injective(rank) && Make(rank, records, scope, at).Ok? && Make(rank, records, scope, other).Ok?
    ensures Make(rank, records, scope, at).value.id == Make(rank, records, scope, other).value.id
  {
    hide ValidPayload, ValidScope, Agreeing;
  }

  /** The check accepts exactly the snapshots that can be made, whatever records they were made from. */
  lemma ValidIffMade(rank: Rank, data: Snapshot)
    requires Injective(rank)
    ensures Valid(rank, data) <==> exists records :: Make(rank, records, data.scope, data.capturedAt) == Ok(data)
  {
    hide Make, EntryOk;
    if records :| Make(rank, records, data.scope, data.capturedAt) == Ok(data) {
      MadeRecords(rank, records, data.scope, data.capturedAt);
      MakeIgnoresOrderAndRepetition(rank, Payloads(data.records), records, data.scope, data.capturedAt);
    }
  }

  /** A valid snapshot has one entry for each key, and its key and digest are those of its payload. */
  lemma ValidHasDistinctKeys(rank: Rank, data: Snapshot)
    requires Injective(rank) && Valid(rank, data)
    ensures forall i, j | 0 <= i < j < |data.records| :: data.records[i].key != data.records[j].key
    ensures DistinctKeys(data.records)
    ensures forall e <- data.records :: e == EntryFor(e.payload)
    ensures data.capturedAt.instant.Some? && data.records != []
  {
    hide ValidPayload;
    MadeRecords(rank, Payloads(data.records), data.scope, data.capturedAt);
  }

  // ----- Comparing two snapshots -----

  /** Keys come as sets; the source lists them in order. */
  datatype Comparison = Comparison(
    before: SnapshotId, after: SnapshotId, added: set<RecordKey>, changed: set<RecordKey>, notObserved: set<RecordKey>,
    unchangedCount: nat)

  predicate DistinctKeys(records: seq<Entry>) {
    forall e, f | e in records && f in records && e.key == f.key :: e == f
  }

  function DigestTable(records: seq<Entry>): map<RecordKey, PayloadDigest>
    requires DistinctKeys(records)
  {
    map e | e in records :: e.key := e.digest
  }

  function Same(earlier: map<RecordKey, PayloadDigest>, recent: map<RecordKey, PayloadDigest>): set<RecordKey> {
    set k | k in earlier && k in recent && earlier[k] == recent[k]
  }

  function Compare(before: Snapshot, after: Snapshot): Result<Comparison, Fault>
    requires DistinctKeys(before.records) && DistinctKeys(after.records)
  {
    if before.scope != after.scope then Refused(DifferentScopes)
    else
      var earlier, recent := DigestTable(before.records), DigestTable(after.records);
      var common := earlier.Keys * recent.Keys;
      Ok(Comparison(before.id, after.id, recent.Keys - earlier.Keys, (set k | k in common && earlier[k] != recent[k]),
                    earlier.Keys - recent.Keys, |Same(earlier, recent)|))
  }

  function Keys(records: seq<Entry>): set<RecordKey> {
    set e | e in records :: e.key
  }

  /** The keys of the records that both snapshots hold unchanged. */
  function Shared(before: Snapshot, after: Snapshot): set<RecordKey> {
    set e | e in before.records && e in after.records :: e.key
  }

  lemma SharedIsSame(before: Snapshot, after: Snapshot)
    requires DistinctKeys(before.records) && DistinctKeys(after.records)
    requires forall e | e in before.records || e in after.records :: e == EntryFor(e.payload)
    ensures Same(DigestTable(before.records), DigestTable(after.records)) == Shared(before, after)
    ensures DigestTable(before.records).Keys == Keys(before.records)
  {
    var earlier, recent := DigestTable(before.records), DigestTable(after.records);
    forall k | k in Same(earlier, recent)
      ensures k in Shared(before, after)
    {
      var e :| e in before.records && e.key == k;
      var f :| f in after.records && f.key == k;
      assert earlier[k] == e.digest && recent[k] == f.digest;
    }
  }

  /** The comparison splits both key sets, and tells real changes apart. */
  lemma ComparePartitions(rank: Rank, before: Snapshot, after: Snapshot)
    requires Injective(rank) && Valid(rank, before) && Valid(rank, after) && before.scope == after.scope
    ensures DistinctKeys(before.records) && DistinctKeys(after.records)
    ensures var c := Compare(before, after).value;
            var same := Shared(before, after);
            && Keys(after.records) == c.added + c.changed + same && Keys(before.records) == c.notObserved + c.changed + same
            && c.added !! c.changed !! same && c.notObserved !! c.changed !! same && c.added !! c.notObserved
            && |same| == c.unchangedCount
  {
    hide Make, EntryOk, Valid, Injective;
    ValidHasDistinctKeys(rank, before);
    ValidHasDistinctKeys(rank, after);
    SharedIsSame(before, after);
    SharedIsSame(after, before);
    Splits(DigestTable(before.records), DigestTable(after.records));
    hide DigestTable, Same, Shared, Keys;
  }

  lemma Splits(earlier: map<RecordKey, PayloadDigest>, recent: map<RecordKey, PayloadDigest>)
    ensures var common := earlier.Keys * recent.Keys;
            var changed := set k | k in common && earlier[k] != recent[k];
            && recent.Keys == (recent.Keys - earlier.Keys) + changed + Same(earlier, recent)
            && earlier.Keys == (earlier.Keys - recent.Keys) + changed + Same(earlier, recent)
            && changed !! Same(earlier, recent)
  {
  }

  /** Swapping the arguments swaps what was added with what was not observed. */
  lemma CompareMirrors(before: Snapshot, after: Snapshot)
    requires DistinctKeys(before.records) && DistinctKeys(after.records) && before.scope == after.scope
    ensures var c, back := Compare(before, after).value, Compare(after, before).value;
            && back.added == c.notObserved && back.notObserved == c.added && back.changed == c.changed
            && back.unchangedCount == c.unchangedCount && back.before == c.after && back.after == c.before
  {
    assert Same(DigestTable(before.records), DigestTable(after.records))
        == Same(DigestTable(after.records), DigestTable(before.records));
  }
}
