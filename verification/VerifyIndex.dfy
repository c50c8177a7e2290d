/** The repository's own checker of a stored index, and why every reachable index passes it. */
module VerifyIndex {
  import opened Base
  import opened Contracts
  import opened Tables
  import opened Transactions
  import opened Lifecycle
  import opened Ledger
  import opened Attempts
  import opened Files
  import opened Invariant
  import opened Runs

  // ----- The checks, as queries over the tables -----

  /** Every foreign key of the schema points to a row. */
  predicate ForeignKeys(db: Db) {
    && (forall m <- db.missions :: db.missions[m].workspace in db.workspaces)
    && (forall t <- db.tasks :: db.tasks[t].mission in db.missions)
    && (forall a <- db.attempts :: db.attempts[a].task in db.tasks)
    && (forall a <- db.epochs :: a in db.attempts)
    && (forall f <- db.files :: db.files[f].workspace in db.workspaces)
    && (forall v <- db.versions ::
          && v.file in db.files
          && (v.mission.Some? ==> v.mission.value in db.missions)
          && (v.attempt.Some? ==> v.attempt.value in db.attempts))
    && (forall r <- db.results ::
          && db.results[r].attempt in db.attempts
          && exists i :: 0 <= i < |db.versions| && db.versions[i].id == db.results[r].version)
    && (forall e <- db.events :: (e.mission.Some? ==> e.mission.value in db.missions) && e.workspace in db.workspaces)
  }

  /** No row breaks a uniqueness constraint of the schema. */
  predicate UniqueKeys(db: Db) {
    && (forall t, u | t in db.tasks && u in db.tasks && db.tasks[t].mission == db.tasks[u].mission :: t == u)
    && (forall a, b | a in db.attempts && b in db.attempts && db.attempts[a].generation == db.attempts[b].generation :: a == b)
    && (forall a, b | a in db.attempts && b in db.attempts && db.attempts[a].task == db.attempts[b].task
                      && db.attempts[a].number == db.attempts[b].number :: a == b)
    && (forall f, g | f in db.files && g in db.files && db.files[f].workspace == db.files[g].workspace
                      && Fold(db.files[f].name) == Fold(db.files[g].name) :: f == g)
    && (forall i, j | 0 <= i < j < |db.versions| ::
          db.versions[i].id != db.versions[j].id
          && (db.versions[i].file == db.versions[j].file ==> db.versions[i].number != db.versions[j].number))
    && (forall r, s | r in db.results && s in db.results && db.results[r].attempt == db.results[s].attempt :: r == s)
  }

  predicate VersionAt(versions: seq<Version>, f: Id, n: nat) {
    exists i :: 0 <= i < |versions| && versions[i].file == f && versions[i].number == n
  }

  /** The lowest number of a file's versions is 1, and the highest is how many there are. */
  predicate Contiguous(versions: seq<Version>, f: Id) {
    && VersionAt(versions, f, 1)
    && VersionAt(versions, f, Count(versions, f))
    && (forall i | 0 <= i < |versions| && versions[i].file == f :: 1 <= versions[i].number <= Count(versions, f))
  }

  /** A completed mission has a result of one of its own attempts. */
  predicate CompletedHasResult(db: Db, m: Id) {
    exists r <- db.results :: ResultOfMission(db, r, m)
  }

  predicate ResultOfMission(db: Db, r: Id, m: Id) {
    && r in db.results && db.results[r].attempt in db.attempts
    && db.attempts[db.results[r].attempt].task in db.tasks
    && db.tasks[db.attempts[db.results[r].attempt].task].mission == m
  }

  /** The join of results with versions, attempts, tasks, missions and files has no row that disagrees. */
  predicate JoinAgrees(db: Db, r: Id, i: nat)
    requires ForeignKeys(db) && r in db.results && i < |db.versions|
  {
    var v := db.versions[i];
    var a := db.results[r].attempt;
    var m := db.tasks[db.attempts[a].task].mission;
    v.id == db.results[r].version ==>
      && v.attempt == Some(a) && v.mission == Some(m)
      && db.files[v.file].workspace == db.missions[m].workspace
      && db.attempts[a].state == Completed && db.missions[m].state == Completed
  }

  /** One digest has one size, and no object is larger than a mebibyte. */
  predicate OneSize(versions: seq<Version>) {
    && (forall v <- versions :: v.size <= 1_048_576)
    && (forall u, v | u in versions && v in versions && u.digest == v.digest :: u.size == v.size)
  }

  predicate Verified(db: Db) {
    && ForeignKeys(db)
    && UniqueKeys(db)
    && (forall f <- db.files :: Contiguous(db.versions, f) && SafeFileName(db.files[f].name))
    && (forall m <- db.missions | db.missions[m].state == Completed :: CompletedHasResult(db, m))
    && (forall r, i: nat | r in db.results && i < |db.versions| :: JoinAgrees(db, r, i))
    && OneSize(db.versions)
  }

  // ----- What the checks show -----

  function NumbersOf(versions: seq<Version>, f: Id): set<nat> {
    set i | 0 <= i < |versions| && versions[i].file == f :: versions[i].number
  }

  predicate NumbersApart(versions: seq<Version>, f: Id) {
    forall i, j | 0 <= i < j < |versions| && versions[i].file == f && versions[j].file == f ::
      versions[i].number != versions[j].number
  }

  lemma OneNumberMore(versions: seq<Version>, f: Id)
    requires versions != [] && NumbersApart(versions, f)
    ensures var front, last := versions[..|versions| - 1], versions[|versions| - 1];
            && NumbersApart(front, f)
            && NumbersOf(versions, f) == (if last.file == f then NumbersOf(front, f) + {last.number} else NumbersOf(front, f))
            && (last.file == f ==> last.number !in NumbersOf(front, f))
  {
    var front, last := versions[..|versions| - 1], versions[|versions| - 1];
    forall n
      ensures n in NumbersOf(versions, f) <==> n in NumbersOf(front, f) || (last.file == f && n == last.number)
    {
      if n in NumbersOf(front, f) {
        var i :| 0 <= i < |front| && front[i].file == f && front[i].number == n;
        assert versions[i] == front[i];
      }
      if n in NumbersOf(versions, f) {
        var i :| 0 <= i < |versions| && versions[i].file == f && versions[i].number == n;
        assert i < |front| ==> front[i] == versions[i];
      }
    }
  }

  lemma {:induction false} AsManyNumbers(versions: seq<Version>, f: Id)
    requires NumbersApart(versions, f)
    ensures |NumbersOf(versions, f)| == Count(versions, f)
  {
    hide NumbersApart, NumbersOf;
    if versions == [] {
      NoNumbers(f);
    } else {
      OneNumberMore(versions, f);
      AsManyNumbers(versions[..|versions| - 1], f);
    }
  }

  lemma NoNumbers(f: Id)
    ensures NumbersOf([], f) == {}
  {
  }

  lemma {:induction false} NoGap(numbers: set<nat>, count: nat)
    requires (forall n <- numbers :: 1 <= n <= count) && |numbers| == count
    ensures forall n | 1 <= n <= count :: n in numbers
  {
    if count > 0 {
      if count in numbers {
        NoGap(numbers - {count}, count - 1);
      } else {
        TooFew(numbers, count - 1);
        assert false;
      }
    }
  }

  lemma {:induction false} TooFew(numbers: set<nat>, count: nat)
    requires forall n <- numbers :: 1 <= n <= count
    ensures |numbers| <= count
  {
    if count == 0 {
      assert numbers == {};
    } else {
      TooFew(numbers - {count}, count - 1);
    }
  }

  /** With unique numbers, a least number of one and a greatest number that is the count leave no gap in any history. */
  lemma VerifiedHasNoGap(db: Db, f: Id, n: nat)
    requires Verified(db) && f in db.files && 1 <= n <= Count(db.versions, f)
    ensures exists i :: 0 <= i < |db.versions| && db.versions[i].file == f && db.versions[i].number == n
                        && forall j | 0 <= j < |db.versions| && j != i && db.versions[j].file == f ::
                             db.versions[j].number != n
  {
    hide ForeignKeys, JoinAgrees, CompletedHasResult, SafeFileName, OneSize, Count, UniqueKeys;
    VersionsApart(db, f);
    AsManyNumbers(db.versions, f);
    NoGap(NumbersOf(db.versions, f), Count(db.versions, f));
    assert n in NumbersOf(db.versions, f);
  }

  lemma VersionsApart(db: Db, f: Id)
    requires UniqueKeys(db)
    ensures NumbersApart(db.versions, f)
  {
  }

  /** In an index that passes, a completed mission has a published version by a completed attempt of its own. */
  lemma VerifiedCompletes(db: Db, m: Id)
    requires Verified(db) && m in db.missions && db.missions[m].state == Completed
    ensures exists r, i :: r in db.results && 0 <= i < |db.versions| && db.versions[i].id == db.results[r].version
              && db.versions[i].mission == Some(m) && db.versions[i].attempt == Some(db.results[r].attempt)
              && db.versions[i].file in db.files && db.files[db.versions[i].file].workspace == db.missions[m].workspace
              && db.results[r].attempt in db.attempts && db.attempts[db.results[r].attempt].state == Completed
  {
    hide UniqueKeys, Contiguous, SafeFileName, OneSize;
    var r :| r in db.results && ResultOfMission(db, r, m);
    var i :| 0 <= i < |db.versions| && db.versions[i].id == db.results[r].version;
    assert JoinAgrees(db, r, i);
  }

  // ----- Every reachable index passes -----

  lemma {:induction false} CountUpTo(versions: seq<Version>, f: Id, i: nat)
    requires i <= |versions|
    ensures Count(versions[..i], f) <= Count(versions, f)
    decreases |versions|
  {
    if i < |versions| {
      CountUpTo(versions[..|versions| - 1], f, i);
      assert versions[..|versions| - 1][..i] == versions[..i];
    } else {
      assert versions[..i] == versions;
    }
  }

  /** A file's versions carry every number from 1 to their count. */
  lemma {:induction false} EveryNumber(versions: seq<Version>, f: Id, n: nat)
    requires Linear(versions) && 1 <= n <= Count(versions, f)
    ensures VersionAt(versions, f, n)
    decreases |versions|
  {
    var front, last := versions[..|versions| - 1], versions[|versions| - 1];
    LinearPrefix(versions);
    if n <= Count(front, f) {
      EveryNumber(front, f, n);
      var i :| 0 <= i < |front| && front[i].file == f && front[i].number == n;
      assert versions[i] == front[i];
    } else {
      assert last.file == f && last.number == n;
    }
  }

  lemma LinearIsContiguous(versions: seq<Version>, f: Id)
    requires Linear(versions) && Count(versions, f) >= 1
    ensures Contiguous(versions, f)
  {
    EveryNumber(versions, f, 1);
    EveryNumber(versions, f, Count(versions, f));
    forall i | 0 <= i < |versions| && versions[i].file == f
      ensures 1 <= versions[i].number <= Count(versions, f)
    {
      CountUpTo(versions, f, i + 1);
      CountAppend(versions[..i], versions[i], f);
      assert versions[..i + 1] == versions[..i] + [versions[i]];
    }
  }

  /** Two versions of one file never share a number. */
  lemma LinearIsInjective(versions: seq<Version>, i: nat, j: nat)
    requires Linear(versions) && i < j < |versions| && versions[i].file == versions[j].file
    ensures versions[i].number < versions[j].number
  {
    var f := versions[i].file;
    CountAppend(versions[..i], versions[i], f);
    assert versions[..i + 1] == versions[..i] + [versions[i]];
    CountUpTo(versions[..j], f, i + 1);
    assert versions[..j][..i + 1] == versions[..i + 1];
  }

  lemma InvHasUniqueVersions(db: Db)
    requires DistinctVersions(db.versions) && Linear(db.versions)
    ensures forall i, j | 0 <= i < j < |db.versions| ::
              db.versions[i].id != db.versions[j].id
              && (db.versions[i].file == db.versions[j].file ==> db.versions[i].number != db.versions[j].number)
  {
    forall i, j | 0 <= i < j < |db.versions|
      ensures db.versions[i].file == db.versions[j].file ==> db.versions[i].number != db.versions[j].number
    {
      if db.versions[i].file == db.versions[j].file {
        LinearIsInjective(db.versions, i, j);
      }
    }
  }

  lemma InvHasUniqueKeys(db: Db)
    requires Inv(db)
    ensures UniqueKeys(db)
  {
    WorkspaceParts(db);
    LeaseParts(db);
    LifeParts(db);
    hide Inv, Linear;
    InvHasUniqueVersions(db);
  }

  lemma WorkspaceParts(db: Db)
    requires Inv(db)
    ensures NamesOk(db.workspaces, db.files) && DistinctVersions(db.versions) && Linear(db.versions)
    ensures VersionsLinked(db.files, db.versions) && Stored(db.settings, db.versions, db.objects)
    ensures WithinLimits(db.settings, db.files, db.versions) && ValidSettings(db.settings)
  {
    hide Life, LedgerOk, LeasesOk, ClaimsOk, OriginsOk, ResultsOk;
    hide NamesOk, DistinctVersions, Linear, VersionsLinked, Stored, WithinLimits;
  }

  lemma LeaseParts(db: Db)
    requires Inv(db)
    ensures Numbered(db.attempts) && Generations(db.attempts)
    ensures Credited(db.settings, db.workers, db.attempts, db.epochs)
    ensures forall r, s | r in db.results && s in db.results && db.results[r].attempt == db.results[s].attempt :: r == s
  {
    hide Life, LedgerOk, ClaimsOk, OriginsOk, FilesOk, Numbered, Generations, Reported, Credited, WorkersOk,
        ResultOk, Produced;
  }

  lemma LifeParts(db: Db)
    requires Inv(db)
    ensures TasksMatch(db.missions, db.tasks) && AttemptsMatch(db.tasks, db.attempts)
    ensures LedgerLinked(db.workspaces, db.missions, db.events)
    ensures OriginsOk(db.missions, db.attempts, db.versions)
  {
    hide LeasesOk, ClaimsOk, FilesOk, ResultsOk, OriginsOk, TasksMatch, AttemptsMatch, Planned, OneActive, ActiveCovered;
    hide LedgerLinked, HistoryOk, DeclaredOk;
  }

  lemma ResultParts(db: Db)
    requires Inv(db)
    ensures ResultsOk(db.missions, db.tasks, db.attempts, db.files, db.versions, db.results)
  {
    hide Life, LedgerOk, LeasesOk, ClaimsOk, FilesOk, OriginsOk, ResultsOk;
  }

  lemma InvHasForeignKeys(db: Db)
    requires Inv(db)
    ensures ForeignKeys(db)
  {
    hide Inv, Linear, DistinctVersions, Stored, WithinLimits, Numbered, Generations, SafeFileName;
    WorkspaceParts(db);
    LeaseParts(db);
    LifeParts(db);
    ResultParts(db);
    ResultLinks(db);
    hide ResultsOk, NamesOk;
    FileWorkspaces(db);
  }

  lemma FileWorkspaces(db: Db)
    requires NamesOk(db.workspaces, db.files)
    ensures forall f <- db.files :: db.files[f].workspace in db.workspaces && SafeFileName(db.files[f].name)
  {
    hide SafeFileName;
  }

  lemma ResultLink(db: Db, r: Id, m: Id) returns (i: nat)
    requires r in db.results
    requires ResultOk(db.missions, db.tasks, db.attempts, db.files, db.versions, db.results[r], m)
    ensures db.results[r].attempt in db.attempts && m in db.missions
    ensures i < |db.versions|
    ensures VersionOf(db.files, db.versions, i, db.results[r].version, db.results[r].attempt, m, db.missions[m].workspace)
  {
    i :| VersionOf(db.files, db.versions, i, db.results[r].version, db.results[r].attempt, m, db.missions[m].workspace);
  }

  lemma ResultMission(db: Db, r: Id) returns (m: Id)
    requires ResultsOk(db.missions, db.tasks, db.attempts, db.files, db.versions, db.results) && r in db.results
    ensures ResultOk(db.missions, db.tasks, db.attempts, db.files, db.versions, db.results[r], m)
  {
    hide ResultOk, Produced;
    m :| ResultOk(db.missions, db.tasks, db.attempts, db.files, db.versions, db.results[r], m);
  }

  lemma ResultLinks(db: Db)
    requires ResultsOk(db.missions, db.tasks, db.attempts, db.files, db.versions, db.results)
    ensures forall r <- db.results ::
              && db.results[r].attempt in db.attempts
              && exists i :: 0 <= i < |db.versions| && db.versions[i].id == db.results[r].version
  {
    hide ResultsOk, ResultOk;
    forall r <- db.results
      ensures db.results[r].attempt in db.attempts
      ensures exists i :: 0 <= i < |db.versions| && db.versions[i].id == db.results[r].version
    {
      var m := ResultMission(db, r);
      var i := ResultLink(db, r, m);
      assert db.versions[i].id == db.results[r].version;
    }
  }

  lemma JoinHolds(db: Db, r: Id, i: nat)
    requires ForeignKeys(db) && DistinctVersions(db.versions)
    requires ResultsOk(db.missions, db.tasks, db.attempts, db.files, db.versions, db.results)
    requires r in db.results && i < |db.versions|
    ensures JoinAgrees(db, r, i)
  {
    hide ForeignKeys;
    var row := db.results[r];
    var m :| ResultOk(db.missions, db.tasks, db.attempts, db.files, db.versions, row, m);
    var k: nat :| VersionOf(db.files, db.versions, k, row.version, row.attempt, m, db.missions[m].workspace);
    assert db.versions[i].id == row.version ==> i == k;
  }

  lemma CompletedMissionsHaveResults(db: Db, m: Id)
    requires ResultsOk(db.missions, db.tasks, db.attempts, db.files, db.versions, db.results)
    requires m in db.missions && db.missions[m].state == Completed
    ensures CompletedHasResult(db, m)
  {
    hide ResultOk;
    var r :| r in db.results && Produced(db.missions, db.tasks, db.attempts, db.results[r], m);
    assert ResultOfMission(db, r, m);
  }

  lemma StoredHasOneSize(db: Db)
    requires Stored(db.settings, db.versions, db.objects) && ValidSettings(db.settings)
    ensures OneSize(db.versions)
  {
  }

  /** The invariant of the service implies every relational check of the stored index. */
  lemma InvIsVerified(db: Db)
    requires Inv(db)
    ensures Verified(db)
  {
    hide Inv, ForeignKeys, UniqueKeys, ResultsOk, SafeFileName, Contiguous, CompletedHasResult, JoinAgrees, OneSize;
    hide NamesOk, DistinctVersions, Linear, Stored, WithinLimits, Numbered, Generations;
    InvHasForeignKeys(db);
    InvHasUniqueKeys(db);
    WorkspaceParts(db);
    ResultParts(db);
    FileWorkspaces(db);
    StoredHasOneSize(db);
    forall f <- db.files
      ensures Contiguous(db.versions, f)
    {
      LinearIsContiguous(db.versions, f);
    }
    forall m <- db.missions | db.missions[m].state == Completed
      ensures CompletedHasResult(db, m)
    {
      CompletedMissionsHaveResults(db, m);
    }
    forall r, i: nat | r in db.results && i < |db.versions|
      ensures JoinAgrees(db, r, i)
    {
      JoinHolds(db, r, i);
    }
  }

  /** In any run, at any moment, a backup would find a valid index. */
  lemma RunIsVerified(states: seq<Db>, actions: seq<Action>, i: nat)
    requires Run(states, actions) && i < |states|
    ensures Verified(states[i])
  {
    hide Run, Inv, Verified;
    RunKeepsInv(states, actions, i);
    InvIsVerified(states[i]);
  }

  /** In any run the ledger of a mission is a legal path from draft to its present state. */
  lemma RunHistoriesAreLegal(states: seq<Db>, actions: seq<Action>, i: nat, m: Id)
    requires Run(states, actions) && i < |states| && m in states[i].missions
    ensures LegalPath(StatesOf(states[i].events, m))
    ensures Final(StatesOf(states[i].events, m)) == states[i].missions[m].state
    ensures RequiredCapability(states[i].events, m).Ok?
  {
    hide Run, Life, LeasesOk, ClaimsOk, FilesOk, OriginsOk, ResultsOk, LegalPath, RequiredCapability;
    RunKeepsInv(states, actions, i);
  }

  // ----- How much a workspace can hold -----

  function Without(versions: seq<Version>, f: Id): seq<Version> {
    if versions == [] then []
    else
      var last := versions[|versions| - 1];
      Without(versions[..|versions| - 1], f) + (if last.file == f then [] else [last])
  }

  /** Taking a file's versions away leaves the others. */
  lemma {:induction false} WithoutIsOthers(versions: seq<Version>, f: Id)
    ensures |versions| == |Without(versions, f)| + Count(versions, f)
    ensures forall v <- Without(versions, f) :: v in versions && v.file != f
  {
    if versions != [] {
      WithoutIsOthers(versions[..|versions| - 1], f);
    }
  }

  lemma {:induction false} WithoutCounts(versions: seq<Version>, f: Id, g: Id)
    requires g != f
    ensures Count(Without(versions, f), g) == Count(versions, g)
  {
    if versions != [] {
      var front, last := versions[..|versions| - 1], versions[|versions| - 1];
      WithoutCounts(front, f, g);
      CountAppend(Without(front, f), last, g);
      assert last.file == f ==> Without(versions, f) == Without(front, f);
    }
  }

  /** With at most a hundred versions a file, there are at most a hundred times as many versions as files. */
  lemma {:induction false} VersionsPerFile(versions: seq<Version>, files: set<Id>)
    requires forall v <- versions :: v.file in files
    requires forall f <- files :: Count(versions, f) <= 100
    ensures |versions| <= 100 * |files|
    decreases files
  {
    if files != {} {
      var f :| f in files;
      var rest := files - {f};
      WithoutIsOthers(versions, f);
      forall g <- rest
        ensures Count(Without(versions, f), g) <= 100
      {
        WithoutCounts(versions, f, g);
      }
      VersionsPerFile(Without(versions, f), rest);
      assert files == rest + {f};
    } else {
      assert |versions| > 0 ==> versions[0].file in files;
    }
  }

  /** An installation with one workspace never holds more than ten thousand versions. */
  lemma TenThousandVersions(db: Db, workspace: Id)
    requires Inv(db) && db.workspaces.Keys == {workspace}
    ensures |db.versions| <= 10_000
  {
    hide Inv, Linear, DistinctVersions, Stored, Used;
    WorkspaceParts(db);
    hide SafeFileName;
    assert FilesOf(db.files, workspace) == db.files.Keys;
    VersionsPerFile(db.versions, db.files.Keys);
  }

  // ----- The objects that the index refers to -----

  function Digests(versions: seq<Version>): set<Digest> {
    set v | v in versions :: v.digest
  }

  /** The size recorded for each digest; a later row overrides an earlier one. */
  function Sizes(versions: seq<Version>): map<Digest, nat> {
    if versions == [] then map[]
    else
      var last := versions[|versions| - 1];
      Sizes(versions[..|versions| - 1])[last.digest := last.size]
  }

  lemma {:induction false} SizesKeys(versions: seq<Version>)
    ensures Sizes(versions).Keys == Digests(versions)
  {
    if versions != [] {
      var front, last := versions[..|versions| - 1], versions[|versions| - 1];
      SizesKeys(front);
      assert versions == front + [last];
      assert Digests(versions) == Digests(front) + {last.digest};
    }
  }

  /** When one digest has one size, every row agrees with the recorded size. */
  lemma {:induction false} SizesAgree(versions: seq<Version>, v: Version)
    requires OneSize(versions) && v in versions
    ensures v.digest in Sizes(versions) && Sizes(versions)[v.digest] == v.size
  {
    var front, last := versions[..|versions| - 1], versions[|versions| - 1];
    if v.digest != last.digest {
      SizesAgree(front, v);
    }
  }

  ghost function PickDigest(digests: set<Digest>): Digest
    requires digests != {}
    ensures PickDigest(digests) in digests
  {
    var d :| d in digests;
    d
  }

  ghost function Total(sizes: map<Digest, nat>): nat {
    if sizes == map[] then 0
    else
      var d := PickDigest(sizes.Keys);
      sizes[d] + Total(sizes - {d})
  }

  lemma {:induction false} TotalRemove(sizes: map<Digest, nat>, d: Digest)
    requires d in sizes
    ensures Total(sizes) == sizes[d] + Total(sizes - {d})
    decreases |sizes|
  {
    var e := PickDigest(sizes.Keys);
    if e != d {
      TotalRemove(sizes - {e}, d);
      TotalRemove(sizes - {d}, e);
      assert (sizes - {e}) - {d} == (sizes - {d}) - {e};
    }
  }

  lemma TotalInsert(sizes: map<Digest, nat>, d: Digest, n: nat)
    ensures Total(sizes[d := n]) <= Total(sizes) + n
    ensures d !in sizes ==> Total(sizes[d := n]) == Total(sizes) + n
  {
    TotalRemove(sizes[d := n], d);
    assert sizes[d := n] - {d} == sizes - {d};
    if d in sizes {
      TotalRemove(sizes, d);
    } else {
      assert sizes - {d} == sizes;
    }
  }

  /** Sharing only saves space: distinct objects take no more bytes than the quota has counted. */
  lemma {:induction false} DistinctWithinUsed(versions: seq<Version>, files: map<Id, File>, workspace: Id)
    requires forall v <- versions :: v.file in files && files[v.file].workspace == workspace
    ensures Total(Sizes(versions)) <= Used(versions, files, workspace)
  {
    if versions != [] {
      var front, last := versions[..|versions| - 1], versions[|versions| - 1];
      DistinctWithinUsed(front, files, workspace);
      TotalInsert(Sizes(front), last.digest, last.size);
    }
  }

  lemma ObjectsWithinQuota(db: Db, workspace: Id)
    requires Inv(db) && db.workspaces.Keys == {workspace}
    ensures Total(Sizes(db.versions)) <= db.settings.quotaBytes
  {
    hide Inv, Linear, DistinctVersions, Stored, Used, Sizes, Total, FilesOf;
    WorkspaceParts(db);
    FileWorkspaces(db);
    DistinctWithinUsed(db.versions, db.files, workspace);
  }

  lemma {:induction false} FewDigests(versions: seq<Version>)
    ensures |Digests(versions)| <= |versions|
  {
    if versions != [] {
      var front, last := versions[..|versions| - 1], versions[|versions| - 1];
      FewDigests(front);
      assert versions == front + [last];
      assert Digests(versions) == Digests(front) + {last.digest};
    }
  }

  /** The checker's loop over the version rows: it fills `objects`, and refuses a digest with two sizes. */
  method CollectObjects(versions: seq<Version>) returns (objects: Option<map<Digest, nat>>)
    ensures objects.Some? <==> OneSize(versions)
    ensures objects.Some? ==> objects.value.Keys == Digests(versions)
    ensures objects.Some? ==> forall v <- versions :: objects.value[v.digest] == v.size
  {
    var seen: map<Digest, nat> := map[];
    for i := 0 to |versions|
      invariant seen.Keys == Digests(versions[..i])
      invariant forall v <- versions[..i] :: seen[v.digest] == v.size <= 1_048_576
    {
      var v := versions[i];
      assert versions[..i + 1] == versions[..i] + [v];
      assert Digests(versions[..i + 1]) == Digests(versions[..i]) + {v.digest};
      if v.size > 1_048_576 || (v.digest in seen && seen[v.digest] != v.size) {
        if v.digest in seen {
          ghost var u :| u in versions[..i] && u.digest == v.digest;
          assert u in versions && v in versions;
        }
        return None;
      }
      seen := seen[v.digest := v.size];
    }
    assert versions[..|versions|] == versions;
    return Some(seen);
  }
}
