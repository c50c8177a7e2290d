/** Restoring a backup: the installation marker last, no usable credential left, every record kept. */
module Restore {
  import opened Base
  import opened Contracts
  import opened Tables
  import opened Transactions
  import opened Lifecycle
  import opened Ledger
  import opened Attempts
  import opened Files
  import opened Invariant
  import opened Runs
  import opened Safety
  import opened VerifyIndex
  import opened Backup

  // ----- The index a directory holds -----

  function ObjectsIn(files: map<Path, Content>): map<Digest, Bytes> {
    map p | p in files && p.ObjectFile? && files[p].Data? :: p.digest := files[p].bytes
  }

  predicate Loadable(files: map<Path, Content>) {
    && IndexFile in files && files[IndexFile].IndexImage?
    && SettingsFile in files && files[SettingsFile].SettingsText?
  }

  /** The index as the service sees it: the tables, with the settings and objects stored beside them. */
  function Loaded(files: map<Path, Content>): Db
    requires Loadable(files)
  {
    files[IndexFile].db.(settings := files[SettingsFile].settings, objects := ObjectsIn(files))
  }

  /** An installation directory that holds this index, and possibly more. */
  ghost predicate Holds(files: map<Path, Content>, db: Db) {
    && Loadable(files)
    && files[InstallationFile := InstallationText] == files
    && files[SettingsFile].settings == db.settings
    && files[IndexFile].db.(settings := db.settings, objects := db.objects) == db
    && files[IndexFile].size <= MAX_INDEX
    && (forall d <- db.objects :: ObjectFile(d) in files && files[ObjectFile(d)] == Data(db.objects[d]))
  }

  // ----- What the index checks do not look at -----

  ghost predicate SameTables(a: Db, b: Db) {
    b == a.(settings := b.settings, objects := b.objects, workers := b.workers, operations := b.operations)
  }

  lemma KeysFramed(a: Db, b: Db)
    requires SameTables(a, b)
    ensures ForeignKeys(a) == ForeignKeys(b) && UniqueKeys(a) == UniqueKeys(b)
  {
  }

  lemma VerifiedFramed(a: Db, b: Db)
    requires SameTables(a, b) && Verified(a)
    ensures Verified(b)
  {
    hide ForeignKeys, UniqueKeys, OneSize, Contiguous, SafeFileName, JoinAgrees, CompletedHasResult;
    KeysFramed(a, b);
    forall m <- b.missions | b.missions[m].state == Completed
      ensures CompletedHasResult(b, m)
    {
      CompletedFramed(a, b, m);
    }
    forall r, i: nat | r in b.results && i < |b.versions|
      ensures JoinAgrees(b, r, i)
    {
      JoinFramed(a, b, r, i);
    }
  }

  lemma CompletedFramed(a: Db, b: Db, m: Id)
    requires SameTables(a, b) && CompletedHasResult(a, m)
    ensures CompletedHasResult(b, m)
  {
    var r :| r in a.results && ResultOfMission(a, r, m);
    assert ResultOfMission(b, r, m);
  }

  lemma JoinFramed(a: Db, b: Db, r: Id, i: nat)
    requires SameTables(a, b) && ForeignKeys(a) && ForeignKeys(b) && r in a.results && i < |a.versions|
    requires JoinAgrees(a, r, i)
    ensures JoinAgrees(b, r, i)
  {
    hide UniqueKeys;
  }

  // ----- A reachable index can be backed up -----

  lemma ObjectIsOk(files: map<Path, Content>, db: Db, d: Digest)
    requires Holds(files, db) && Stored(db.settings, db.versions, db.objects) && ValidSettings(db.settings)
    requires d in Digests(db.versions)
    ensures ObjectOk(files, db.versions, d)
  {
    var v :| v in db.versions && v.digest == d;
    assert Sha256(db.objects[d]) == d;
  }

  lemma SettingsFit(s: Settings)
    requires ValidSettings(s)
    ensures SettingsWidth(s) <= 100
  {
    TenDigits(s.attemptSeconds);
    TenDigits(s.maxFileBytes);
    TenDigits(s.quotaBytes);
  }

  lemma HeldIsSound(files: map<Path, Content>, db: Db)
    requires Holds(files, db) && Inv(db)
    ensures Sound(files)
  {
    hide Inv, Verified, ObjectOk, Stored, SettingsWidth, ValidSettings;
    hide NamesOk, DistinctVersions, Linear, VersionsLinked, WithinLimits;
    InvIsVerified(db);
    VerifiedFramed(db, files[IndexFile].db);
    WorkspaceParts(db);
    SettingsFit(db.settings);
    forall d <- Digests(db.versions)
      ensures ObjectOk(files, db.versions, d)
    {
      ObjectIsOk(files, db, d);
    }
  }

  lemma HeldFits(files: map<Path, Content>, db: Db, workspace: Id)
    requires Holds(files, db) && Inv(db) && db.workspaces.Keys == {workspace}
    ensures Fits(files)
  {
    hide Inv, Total, Sizes, Digests, SettingsWidth;
    WorkspaceParts(db);
    hide NamesOk, DistinctVersions, Linear, VersionsLinked, WithinLimits, Stored;
    TenThousandVersions(db, workspace);
    FewDigests(db.versions);
    ObjectsWithinQuota(db, workspace);
    SettingsFit(db.settings);
  }

  /** At any moment of any run of an installation with one workspace, a backup is possible. */
  lemma ReachableCanBeSaved(states: seq<Db>, actions: seq<Action>, i: nat, files: map<Path, Content>, workspace: Id)
    requires Run(states, actions) && i < |states|
    requires Holds(files, states[i]) && states[i].workspaces.Keys == {workspace}
    ensures Sound(files) && Fits(files)
  {
    hide Run, Inv, Holds, Sound, Fits;
    RunKeepsInv(states, actions, i);
    HeldIsSound(files, states[i]);
    HeldFits(files, states[i], workspace);
  }

  // ----- Starting the service on a directory -----

  const ALL_PARTS: set<Part> := {App, Objects, Staging, Logs, Config, Secrets}

  datatype Opening = Unrecognized | Initialises | Opens

  /** Without its marker a directory is a new installation when it is empty, and refused otherwise. */
  function Open(d: Directory): Opening {
    if InstallationFile !in d.files then (if d == EMPTY then Initialises else Unrecognized)
    else if !(ALL_PARTS <= d.parts) || !ConfigurationsOk(d.files) then Unrecognized
    else Opens
  }

  ghost predicate Unfinished(trace: seq<Directory>) {
    && |trace| > 0 && trace[0] == EMPTY
    && forall k | 0 < k < |trace| :: trace[k].parts != {} && InstallationFile !in trace[k].files
  }

  lemma UnfinishedRefused(trace: seq<Directory>)
    requires Unfinished(trace)
    ensures |trace| > 0 && forall k | 0 <= k < |trace| :: Open(trace[k]) == if k == 0 then Initialises else Unrecognized
  {
  }

  method MakeParts(disk: Disk)
    requires disk.Now() == EMPTY && disk.trace == [EMPTY]
    modifies disk
    ensures disk.parts == ALL_PARTS && disk.files == map[] && Unfinished(disk.trace)
  {
    disk.MakePart(App);
    disk.MakePart(Objects);
    disk.MakePart(Staging);
    disk.MakePart(Logs);
    disk.MakePart(Config);
    disk.MakePart(Secrets);
  }

  method Write(disk: Disk, path: Path, content: Content)
    requires path !in disk.files && path != InstallationFile
    requires disk.parts == ALL_PARTS && Unfinished(disk.trace) && InstallationFile !in disk.files
    modifies disk
    ensures disk.parts == ALL_PARTS && disk.files == old(disk.files)[path := content]
    ensures Unfinished(disk.trace) && InstallationFile !in disk.files
  {
    ghost var before := disk.trace;
    disk.WriteNew(path, content);
    assert disk.trace[..|before|] == before;
  }

  /** Copy every listed file but the marker. */
  method CopyBack(backup: Directory, entries: seq<Entry>, disk: Disk)
    requires DistinctPaths(entries) && (forall e <- entries :: e.path in backup.files)
    requires disk.parts == ALL_PARTS && disk.files == map[] && Unfinished(disk.trace)
    modifies disk
    ensures disk.parts == ALL_PARTS && Unfinished(disk.trace)
    ensures disk.files.Keys == PathsOf(entries) - {InstallationFile}
    ensures forall p <- disk.files :: p in backup.files && disk.files[p] == backup.files[p]
  {
    for i := 0 to |entries|
      invariant disk.parts == ALL_PARTS && Unfinished(disk.trace)
      invariant disk.files.Keys == PathsOf(entries[..i]) - {InstallationFile}
      invariant forall p <- disk.files :: p in backup.files && disk.files[p] == backup.files[p]
    {
      var e := entries[i];
      assert entries[..i + 1] == entries[..i] + [e];
      assert PathsOf(entries[..i + 1]) == PathsOf(entries[..i]) + {e.path};
      if e.path != InstallationFile {
        NotYetCopied(entries, i);
        Write(disk, e.path, backup.files[e.path]);
      }
    }
    assert entries[..|entries|] == entries;
  }

  lemma NotYetCopied(entries: seq<Entry>, i: nat)
    requires DistinctPaths(entries) && i < |entries|
    ensures entries[i].path !in PathsOf(entries[..i])
  {
    if entries[i].path in PathsOf(entries[..i]) {
      RepeatedPath(entries, i);
    }
  }

  /** The files of a finished restoration. */
  ghost predicate RestoredFrom(files: map<Path, Content>, backup: map<Path, Content>) {
    && Loadable(backup)
    && files.Keys == backup.Keys - {ManifestFile} + {TokenFile(AdminRole), TokenFile(WorkerRole), LockFile}
    && files[IndexFile := RetiredImage(backup[IndexFile])] == files
    && (forall p <- backup | p !in {IndexFile, ManifestFile} :: files[p] == backup[p])
    && (forall p <- files | p.ObjectFile? || p in {SettingsFile, InstallationFile} :: p in backup)
  }

  /** The index image with every worker revoked under a new epoch. */
  function RetiredImage(image: Content): Content
    requires image.IndexImage?
  {
    image.(db := image.db.(workers := RetireAll(image.db.workers)))
  }

  /** New credentials, the retired index and the lock file, in that order. */
  method Rekey(disk: Disk, admin: Id, worker: Id)
    requires disk.parts == ALL_PARTS && Unfinished(disk.trace) && InstallationFile !in disk.files
    requires IndexOk(disk.files) && forall p <- disk.files :: Copied(p)
    modifies disk
    ensures disk.parts == ALL_PARTS && Unfinished(disk.trace) && InstallationFile !in disk.files
    ensures IndexFile in old(disk.files) && old(disk.files)[IndexFile].IndexImage?
    ensures disk.files == Rekeyed(old(disk.files), admin, worker)
  {
    hide Verified, RetireAll;
    Write(disk, TokenFile(AdminRole), TokenText(admin));
    Write(disk, TokenFile(WorkerRole), TokenText(worker));
    var retired := RetiredImage(disk.files[IndexFile]);
    VerifiedFramed(disk.files[IndexFile].db, retired.db);
    ghost var before := disk.trace;
    disk.Commit(IndexFile, retired);
    assert disk.trace[..|before|] == before;
    Write(disk, LockFile, LockText);
  }

  /**
   * A restoration succeeds exactly on an accepted backup, and makes no directory for any other. Of all the states that
   * the directory passes through, the service opens only the last; it refuses every other one, except the empty
   * directory that it would take for a new installation.
   */
  method RestoreBackup(backup: Directory, admin: Id, worker: Id) returns (disk: Disk?, r: Result<bool, Rejection>)
    ensures r.Ok? <==> Accepted(backup)
    ensures disk != null <==> Accepted(backup)
    ensures disk != null ==>
              && fresh(disk) && |disk.trace| > 0 && disk.trace[|disk.trace| - 1] == disk.Now()
              && (forall k | 0 <= k < |disk.trace| :: Open(disk.trace[k]).Opens? <==> k == |disk.trace| - 1)
              && (forall k | 0 <= k < |disk.trace| :: Open(disk.trace[k]).Initialises? <==> k == 0)
              && RestoredFrom(disk.files, backup.files)
  {
    hide Accepted, DistinctPaths, Verified, RetireAll, RestoredFrom, Open, Unfinished, RetiredImage, PathsOf,
        ConfigurationsOk;
    hide IndexOk, Copied, Rekeyed;
    var inspected := Inspect(backup);
    if inspected.Refused? {
      return null, Refused(inspected.error);
    }
    disk := new Disk();
    NotStarted(disk.trace);
    var entries := inspected.value;
    AcceptedParts(backup);
    MakeParts(disk);
    CopyBack(backup, entries, disk);
    ListedOnly(backup, entries, disk.files);
    ghost var copied := disk.files;
    Rekey(disk, admin, worker);
    UnfinishedRefused(disk.trace);
    ghost var rekeyed, unmarked := disk.files, disk.trace;
    disk.WriteNew(InstallationFile, backup.files[InstallationFile]);
    RestoredIs(backup.files, copied, disk.files, admin, worker);
    MarkedOpens(backup.files, rekeyed, disk.files);
    assert disk.trace[..|unmarked|] == unmarked;
    return disk, Ok(true);
  }

  lemma NotStarted(trace: seq<Directory>)
    requires trace == [EMPTY]
    ensures Open(trace[0]) == Initialises
  {
  }

  /** The files after the credentials, the retired index and the lock were written. */
  function Rekeyed(files: map<Path, Content>, admin: Id, worker: Id): map<Path, Content>
    requires IndexFile in files && files[IndexFile].IndexImage?
  {
    files[TokenFile(AdminRole) := TokenText(admin)][TokenFile(WorkerRole) := TokenText(worker)]
         [IndexFile := RetiredImage(files[IndexFile])][LockFile := LockText]
  }

  lemma RestoredIs(
    backup: map<Path, Content>, copied: map<Path, Content>, files: map<Path, Content>, admin: Id, worker: Id)
    requires Loadable(backup) && InstallationFile in backup && (forall p <- backup :: p == ManifestFile || Copied(p))
    requires copied.Keys == backup.Keys - {ManifestFile, InstallationFile} && (forall p <- copied :: copied[p] == backup[p])
    requires files == Rekeyed(copied, admin, worker)[InstallationFile := backup[InstallationFile]]
    ensures RestoredFrom(files, backup)
  {
    hide RetireAll;
  }

  /** With its marker complete the directory opens; with a torn one it does not. */
  lemma MarkedOpens(backup: map<Path, Content>, rekeyed: map<Path, Content>, files: map<Path, Content>)
    requires RestoredFrom(files, backup) && ConfigurationsOk(backup)
    requires InstallationFile in backup && files == rekeyed[InstallationFile := backup[InstallationFile]]
    ensures Open(Directory(ALL_PARTS, files)) == Opens
    ensures Open(Directory(ALL_PARTS, rekeyed[InstallationFile := Torn])) == Unrecognized
  {
    hide RetireAll, SettingsWidth;
  }

  /** The copied files are the listed ones, and the index among them is sound. */
  lemma ListedOnly(backup: Directory, entries: seq<Entry>, files: map<Path, Content>)
    requires IndexOk(backup.files) && ConfigurationsOk(backup.files)
    requires PathsOf(entries) == backup.files.Keys - {ManifestFile} && (forall p <- PathsOf(entries) :: Copied(p))
    requires files.Keys == PathsOf(entries) - {InstallationFile}
    requires forall p <- files :: files[p] == backup.files[p]
    ensures InstallationFile in backup.files && InstallationFile !in files
    ensures files.Keys == backup.files.Keys - {ManifestFile, InstallationFile}
    ensures forall p <- backup.files :: p == ManifestFile || Copied(p)
    ensures IndexOk(files) && (forall p <- files :: Copied(p)) && IndexFile in files && files[IndexFile].IndexImage?
  {
    hide Verified;
  }

  lemma AcceptedParts(d: Directory)
    requires Accepted(d)
    ensures ConfigurationsOk(d.files) && IndexOk(d.files) && Loadable(d.files)
    ensures ManifestFile in d.files && d.files[ManifestFile].ManifestText?
    ensures var entries := d.files[ManifestFile].entries;
            && DistinctPaths(entries) && (forall e <- entries :: e.path in d.files)
            && PathsOf(entries) == d.files.Keys - {ManifestFile}
            && (forall p <- PathsOf(entries) :: Copied(p))
  {
    hide Verified, ReferenceAgrees, DistinctPaths, ManifestWidth;
  }

  // ----- What a backup and its restoration keep -----

  lemma CopiedPaths(files: map<Path, Content>, source: map<Path, Content>, d: Digest)
    requires CopyOf(files, source)
    ensures ObjectFile(d) in files <==> d in Digests(VersionsOf(source))
    ensures ObjectFile(d) in files ==> ObjectFile(d) in source && files[ObjectFile(d)] == source[ObjectFile(d)]
  {
    hide Digests, VersionsOf;
    if d in Digests(VersionsOf(source)) {
      assert ObjectFile(d) in ObjectFiles(Digests(VersionsOf(source)));
    }
  }

  lemma KeptObject(db: Db, d: Digest)
    requires Stored(db.settings, db.versions, db.objects)
    ensures d in Referenced(db.versions, db.objects) <==> d in Digests(db.versions)
    ensures d in Digests(db.versions) ==> d in db.objects && Referenced(db.versions, db.objects)[d] == db.objects[d]
  {
    if d in Digests(db.versions) {
      var v :| v in db.versions && v.digest == d;
    }
  }

  lemma ReadObject(files: map<Path, Content>, d: Digest)
    ensures d in ObjectsIn(files) <==> ObjectFile(d) in files && files[ObjectFile(d)].Data?
    ensures d in ObjectsIn(files) ==> ObjectsIn(files)[d] == files[ObjectFile(d)].bytes
  {
  }

  lemma CopiedObjects(files: map<Path, Content>, source: map<Path, Content>, db: Db)
    requires Holds(source, db) && CopyOf(files, source) && Stored(db.settings, db.versions, db.objects)
    ensures ObjectsIn(files) == Referenced(db.versions, db.objects)
  {
    hide CopyOf, Stored, Digests, ObjectsIn, Referenced;
    assert VersionsOf(source) == db.versions;
    forall d: Digest
      ensures d in ObjectsIn(files) <==> d in Referenced(db.versions, db.objects)
      ensures d in ObjectsIn(files) ==> ObjectsIn(files)[d] == Referenced(db.versions, db.objects)[d]
    {
      CopiedPaths(files, source, d);
      KeptObject(db, d);
      ReadObject(files, d);
    }
  }

  lemma RestoredObjects(files: map<Path, Content>, backup: map<Path, Content>)
    requires RestoredFrom(files, backup)
    ensures Loadable(files) && ObjectsIn(files) == ObjectsIn(backup)
  {
    forall p: Path | p.ObjectFile?
      ensures p in files <==> p in backup
      ensures p in files ==> files[p] == backup[p]
    {
    }
  }

  /** The restored installation sees the saved index with every credential retired; nothing else is lost or changed. */
  lemma BackedUpAndRestored(
    db: Db, source: map<Path, Content>, backup: map<Path, Content>, restored: map<Path, Content>)
    requires Inv(db) && Holds(source, db) && CopyOf(backup, source) && RestoredFrom(restored, backup)
    ensures Loadable(restored) && Loaded(restored) == Reinstated(db)
  {
    hide Inv, Referenced, RetireAll, ObjectsIn, Stored;
    hide NamesOk, DistinctVersions, Linear, VersionsLinked, WithinLimits;
    WorkspaceParts(db);
    CopiedObjects(backup, source, db);
    RestoredObjects(restored, backup);
    assert restored[SettingsFile] == backup[SettingsFile] == source[SettingsFile];
    assert restored[IndexFile].db == source[IndexFile].db.(workers := RetireAll(db.workers));
  }

  /**
   * Whatever a restored installation does, a lease from before its backup can never be reported: no worker of the
   * saved index has an epoch that one of its attempts was claimed under.
   */
  lemma {:induction false} RestoredLeasesStaySilent(
    db: Db, states: seq<Db>, actions: seq<Action>, j: nat, a: Id)
    requires Inv(db) && Run(states, actions) && j < |states| && states[0] == Reinstated(db)
    requires a in db.attempts && db.attempts[a].result == None
    ensures a in states[j].attempts && states[j].attempts[a].result == None
    ensures !Settled(states[j].attempts[a].state) || states[j].attempts[a].state == Interrupted
  {
    hide Run, Inv, CutOff, Silent, Reinstated;
    RetiredCutsOff(db, a);
    CutOffNeverReports(states, actions, 0, j, a);
    SilentMeans(states[j], a);
  }

  lemma SilentMeans(db: Db, a: Id)
    requires Silent(db, a)
    ensures a in db.attempts && db.attempts[a].result == None
    ensures !Settled(db.attempts[a].state) || db.attempts[a].state == Interrupted
  {
  }

  lemma UnreportedIsSilent(db: Db, a: Id)
    requires Inv(db) && a in db.attempts && db.attempts[a].result == None
    ensures db.attempts[a].state in {Running, CancelRequested, Interrupted}
  {
    hide LedgerOk, ClaimsOk, FilesOk, OriginsOk, ResultsOk, Numbered, Generations, Credited, WorkersOk;
    hide TasksMatch, Planned, ActiveCovered, OneActive;
  }

  lemma RetiredCutsOff(db: Db, a: Id)
    requires Inv(db) && a in db.attempts && db.attempts[a].result == None
    ensures CutOff(Reinstated(db), a) && Silent(Reinstated(db), a)
  {
    hide Life, LedgerOk, ClaimsOk, FilesOk, OriginsOk, ResultsOk, Numbered, Generations, Reported, WorkersOk, Referenced;
    UnreportedIsSilent(db, a);
  }
}
