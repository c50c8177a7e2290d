/** Whole statements in bounded batches: nothing lost, nothing reordered, every wrapped transaction within its budget. */
module Batches {
  import opened Base

  /** A statement as its UTF-8 bytes. */
  type Statement = Bytes

  const NEWLINE: byte := 10

  function Flatten(groups: seq<seq<Statement>>): seq<Statement> {
    if groups == [] then [] else Flatten(groups[..|groups| - 1]) + groups[|groups| - 1]
  }

  /** The statements of a batch, separated by newlines. */
  function Join(group: seq<Statement>): Bytes {
    if group == [] then []
    else if |group| == 1 then group[0]
    else Join(group[..|group| - 1]) + [NEWLINE] + group[|group| - 1]
  }

  /** Each statement with one byte for its separator. */
  function Needed(group: seq<Statement>): nat {
    if group == [] then 0 else Needed(group[..|group| - 1]) + |group[|group| - 1]| + 1
  }

  lemma NeededAppend(group: seq<Statement>, s: Statement)
    ensures Needed(group + [s]) == Needed(group) + |s| + 1
  {
    assert (group + [s])[..|group + [s]| - 1] == group;
  }

  lemma FlattenAppend(groups: seq<seq<Statement>>, group: seq<Statement>)
    ensures Flatten(groups + [group]) == Flatten(groups) + group
  {
    assert (groups + [group])[..|groups + [group]| - 1] == groups;
  }

  lemma {:induction false} JoinedSize(group: seq<Statement>)
    requires group != []
    ensures |Join(group)| == Needed(group) - 1
  {
    if |group| > 1 {
      JoinedSize(group[..|group| - 1]);
    } else {
      assert group[..0] == [];
      assert Needed([]) == 0;
    }
  }

  /** A batch is not empty and within both bounds; a bound below one statement still admits one. */
  predicate Bounded(group: seq<Statement>, maxBytes: int, maxStatements: int) {
    && group != []
    && Needed(group) <= maxBytes
    && (|group| == 1 || |group| <= maxStatements)
  }

  predicate Full(group: seq<Statement>, next: seq<Statement>, maxBytes: int, maxStatements: int) {
    next != [] && (Needed(group) + |next[0]| + 1 > maxBytes || |group| >= maxStatements)
  }

  /** A batch ends only where the next statement would not have fitted. */
  ghost predicate Greedy(groups: seq<seq<Statement>>, maxBytes: int, maxStatements: int) {
    forall i, j | 0 <= i < j < |groups| && j == i + 1 :: Full(groups[i], groups[j], maxBytes, maxStatements)
  }

  /** The batching loop: `batch` and `size` grow until the next statement does not fit, then start again. */
  method SqlBatches(statements: seq<Statement>, maxBytes: int,
      maxStatements: int) returns (groups: Option<seq<seq<Statement>>>)
    ensures groups.Some? <==> forall s <- statements :: |s| + 1 <= maxBytes
    ensures groups.Some? ==>
              && Flatten(groups.value) == statements
              && (forall g <- groups.value :: Bounded(g, maxBytes, maxStatements))
              && Greedy(groups.value, maxBytes, maxStatements)
  {
    hide Greedy, Join;
    var done: seq<seq<Statement>> := [];
    var batch: seq<Statement> := [];
    var size := 0;
    for i := 0 to |statements|
      invariant Flatten(done) + batch == statements[..i]
      invariant size == Needed(batch)
      invariant forall s <- statements[..i] :: |s| + 1 <= maxBytes
      invariant forall g <- done :: Bounded(g, maxBytes, maxStatements)
      invariant batch != [] ==> Bounded(batch, maxBytes, maxStatements)
      invariant batch == [] ==> done == []
      invariant batch != [] ==> Greedy(done + [batch], maxBytes, maxStatements)
    {
      var s := statements[i];
      assert s in statements && statements[..i + 1] == statements[..i] + [s];
      var needed := |s| + 1;
      if needed > maxBytes {
        return None;
      }
      if batch != [] && (size + needed > maxBytes || |batch| >= maxStatements) {
        FlattenAppend(done, batch);
        GreedyNext(done, batch, s, maxBytes, maxStatements);
        done, batch, size := done + [batch], [], 0;
        assert Needed(batch) == 0;
      } else {
        GreedyGrows(done, batch, s, maxBytes, maxStatements);
      }
      NeededAppend(batch, s);
      batch, size := batch + [s], size + needed;
    }
    assert statements[..|statements|] == statements;
    if batch != [] {
      FlattenAppend(done, batch);
      return Some(done + [batch]);
    }
    NoneIsGreedy(maxBytes, maxStatements);
    return Some(done);
  }

  lemma NoneIsGreedy(maxBytes: int, maxStatements: int)
    ensures Greedy([], maxBytes, maxStatements)
  {
  }

  lemma GreedyNext(done: seq<seq<Statement>>, batch: seq<Statement>, s: Statement, maxBytes: int, maxStatements: int)
    requires Greedy(done + [batch], maxBytes, maxStatements) && Full(batch, [s], maxBytes, maxStatements)
    ensures Greedy(done + [batch] + [[s]], maxBytes, maxStatements)
  {
    hide Full;
    var longer := done + [batch] + [[s]];
    forall i, j | 0 <= i < j < |longer| && j == i + 1
      ensures Full(longer[i], longer[j], maxBytes, maxStatements)
    {
      if i < |done| {
        assert longer[i] == (done + [batch])[i] && longer[j] == (done + [batch])[j];
      }
    }
  }

  lemma GreedyGrows(done: seq<seq<Statement>>, batch: seq<Statement>, s: Statement, maxBytes: int, maxStatements: int)
    requires batch != [] ==> Greedy(done + [batch], maxBytes, maxStatements)
    requires batch == [] ==> done == []
    ensures Greedy(done + [batch + [s]], maxBytes, maxStatements)
  {
    var longer := done + [batch + [s]];
    forall i, j | 0 <= i < j < |longer| && j == i + 1
      ensures Full(longer[i], longer[j], maxBytes, maxStatements)
    {
      assert longer[i] == (done + [batch])[i];
      assert Full((done + [batch])[i], (done + [batch])[j], maxBytes, maxStatements);
      assert longer[j][0] == (done + [batch])[j][0];
    }
  }

  // ----- The text is not changed by batching -----

  lemma {:induction false} JoinConcat(a: seq<Statement>, b: seq<Statement>)
    requires a != [] && b != []
    ensures Join(a + b) == Join(a) + [NEWLINE] + Join(b)
    decreases |b|
  {
    if |b| == 1 {
      assert (a + b)[..|a + b| - 1] == a;
    } else {
      var front, last := b[..|b| - 1], b[|b| - 1];
      JoinConcat(a, front);
      assert (a + b)[..|a + b| - 1] == a + front;
      assert Join(a + b) == Join(a + front) + [NEWLINE] + last;
      assert Join(a) + [NEWLINE] + Join(front) + [NEWLINE] + last == Join(a) + [NEWLINE] + (Join(front) + [NEWLINE] + last);
    }
  }

  function Texts(groups: seq<seq<Statement>>): seq<Bytes> {
    seq(|groups|, i requires 0 <= i < |groups| => Join(groups[i]))
  }

  /** Joining the batches gives the same text as joining the statements. */
  lemma {:induction false} BatchesKeepText(groups: seq<seq<Statement>>)
    requires forall g <- groups :: g != []
    ensures Join(Texts(groups)) == Join(Flatten(groups))
    ensures groups != [] ==> Flatten(groups) != []
  {
    if |groups| == 1 {
      assert Flatten(groups[..0]) == [] && groups[0] in groups;
      assert Flatten(groups) == groups[0];
    } else if |groups| > 1 {
      var front, last := groups[..|groups| - 1], groups[|groups| - 1];
      assert forall g <- front :: g in groups;
      assert last in groups;
      BatchesKeepText(front);
      assert Texts(groups)[..|groups| - 1] == Texts(front);
      JoinConcat(Flatten(front), last);
    }
  }

  // ----- The plan and its transactions -----

  const MAX_BODY_BYTES := 524_288
  const RESERVED_BYTES := 2048

  datatype TextDigest = DigestOfText(text: Bytes)

  /** The row identifiers "manifest" and "b" with at least six digits. */
  datatype RowId = ManifestRow | BatchRow(index: nat)

  datatype Receipt = Receipt(id: RowId, seqNo: int, digest: TextDigest, bytes: nat)

  datatype Batch = Batch(id: RowId, seqNo: nat, sql: Bytes, digest: TextDigest, bytes: nat)

  function ReceiptOf(b: Batch): Receipt {
    Receipt(b.id, b.seqNo, b.digest, b.bytes)
  }

  function BatchAt(index: nat, sql: Bytes): Batch {
    Batch(BatchRow(index), index, sql, DigestOfText(sql), |sql|)
  }

  datatype PlanFault = OversizedStatement | EmptyPlan

  method MakePlan(statements: seq<Statement>, maxStatements: int) returns (r: Result<seq<Batch>, PlanFault>)
    ensures r.Ok? <==> statements != [] && forall s <- statements :: |s| + 1 <= MAX_BODY_BYTES - RESERVED_BYTES
    ensures r.Ok? ==>
              && (forall i | 0 <= i < |r.value| :: r.value[i] == BatchAt(i, r.value[i].sql))
              && (forall b <- r.value :: b.bytes < MAX_BODY_BYTES - RESERVED_BYTES)
              && r.value != []
              && Join(Sqls(r.value)) == Join(statements)
  {
    var groups := SqlBatches(statements, MAX_BODY_BYTES - RESERVED_BYTES, maxStatements);
    if groups == None {
      return Refused(OversizedStatement);
    }
    var batches: seq<Batch> := [];
    for i := 0 to |groups.value|
      invariant |batches| == i
      invariant forall k | 0 <= k < i :: batches[k] == BatchAt(k, Join(groups.value[k]))
      invariant forall b <- batches :: b.bytes < MAX_BODY_BYTES - RESERVED_BYTES
    {
      assert groups.value[i] in groups.value;
      JoinedSize(groups.value[i]);
      batches := batches + [BatchAt(i, Join(groups.value[i]))];
    }
    if batches == [] {
      return Refused(EmptyPlan);
    }
    BatchesKeepText(groups.value);
    assert Sqls(batches) == Texts(groups.value);
    return Ok(batches);
  }

  function Sqls(batches: seq<Batch>): seq<Bytes> {
    seq(|batches|, i requires 0 <= i < |batches| => batches[i].sql)
  }

  datatype Engine = PostgreSql | SurrealDb

  function Digits(n: nat): nat {
    if n < 10 then 1 else 1 + Digits(n / 10)
  }

  /** The characters of a row identifier; indexes are padded to six digits. */
  function IdWidth(id: RowId): nat {
    match id
    case ManifestRow => |"manifest"|
    case BatchRow(index) => 1 + (if Digits(index) < 6 then 6 else Digits(index))
  }

  function NumberWidth(n: int): nat {
    if n < 0 then 1 + Digits(-n) else Digits(n)
  }

  // The fixed text around the variable parts, in characters.
  const RECEIPT_TEXT := 59     // the braces, the four sorted names, their quotes, colons and commas
  const PG_INSERT_TEXT := 147  // INSERT ... SELECT * FROM jsonb_to_record('...'::jsonb) AS x(...);
  const SURREAL_CREATE_TEXT := 49  // CREATE bench_batch_receipt:... CONTENT ... RETURN NONE;
  const PG_FRAME_TEXT := 13    // BEGIN; and COMMIT;
  const SURREAL_FRAME_TEXT := 37  // BEGIN TRANSACTION; and COMMIT TRANSACTION;

  /** The compact object with sorted keys; a digest takes 64 characters. */
  function ReceiptWidth(r: Receipt): nat {
    RECEIPT_TEXT + IdWidth(r.id) + NumberWidth(r.bytes) + 64 + NumberWidth(r.seqNo)
  }

  function InsertWidth(engine: Engine, r: Receipt): nat {
    match engine
    case PostgreSql => PG_INSERT_TEXT + ReceiptWidth(r)
    case SurrealDb => SURREAL_CREATE_TEXT + IdWidth(r.id) + ReceiptWidth(r)
  }

  /** The bytes of a wrapped batch: begin, the statements, the receipt and commit, on lines of their own. */
  function TransactionWidth(engine: Engine, b: Batch): nat {
    (if engine == PostgreSql then PG_FRAME_TEXT else SURREAL_FRAME_TEXT)
    + 3 + |b.sql| + InsertWidth(engine, ReceiptOf(b))
  }

  lemma {:induction false} DigitsBound(n: nat, k: nat, power: nat)
    requires k >= 1 && power == TenTo(k) && n < power
    ensures Digits(n) <= k
    decreases k
  {
    if k > 1 && n >= 10 {
      assert power == 10 * TenTo(k - 1);
      DigitsBound(n / 10, k - 1, TenTo(k - 1));
    }
  }

  function TenTo(k: nat): nat {
    if k == 0 then 1 else 10 * TenTo(k - 1)
  }

  lemma SixDigits(n: nat)
    requires n < 1_000_000
    ensures Digits(n) <= 6
  {
    assert TenTo(2) == 100 && TenTo(4) == 10_000;
    DigitsBound(n, 6, TenTo(6));
  }

  /** The reserve is enough: no planned batch is too large once it is wrapped with its receipt. */
  lemma WrappedFits(engine: Engine, b: Batch)
    requires b == BatchAt(b.seqNo, b.sql) && b.seqNo < 1_000_000 && b.bytes < MAX_BODY_BYTES - RESERVED_BYTES
    ensures TransactionWidth(engine, b) <= MAX_BODY_BYTES
  {
    SixDigits(b.seqNo);
    SixDigits(b.bytes);
  }
}
