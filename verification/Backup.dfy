/** Offline backups: ordered writes with the commit marker last, and their acceptance, restoration and limits. */
module Backup {
  import opened Base
  import opened Contracts
  import opened Tables
  import opened VerifyIndex

  // ----- Directories -----

  datatype Part = App | Config | Objects | Staging | Logs | Secrets

  datatype Path =
    | IndexFile | LockFile | InstallationFile | SettingsFile
    | ObjectFile(digest: Digest) | TokenFile(role: Role) | ManifestFile

  /** What a file holds. A write that a crash cut short leaves Torn content, which nothing decodes. */
  datatype Content =
    | Torn
    | InstallationText
    | SettingsText(settings: Settings)
    | IndexImage(db: Db, size: nat)
    | Data(bytes: Bytes)
    | TokenText(secret: Id)
    | LockText
    | ManifestText(entries: seq<Entry>)

  /** A checksum is a free constructor: equal checksums have equal contents. */
  datatype Checksum = SumOf(content: Content)

  datatype Entry = Entry(path: Path, size: int, sum: Checksum)

  datatype Directory = Directory(parts: set<Part>, files: map<Path, Content>)

  const EMPTY := Directory({}, map[])

  // ----- Sizes in bytes -----

  const MAX_INDEX := 268_435_456
  const MAX_MANIFEST := 4_194_304
  const MAX_OBJECT := 1_048_576
  const MAX_CONFIGURATION := 1024
  const MAX_BACKUP := 2_147_483_648
  const INSTALLATION := "{\"format\":\"pepeuch.control-plane-installation/v1\"}"

  function Decimal(n: nat): nat {
    if n < 10 then 1 else 1 + Decimal(n / 10)
  }

  function DecimalOf(n: int): nat {
    if n < 0 then 1 + Decimal(-n) else Decimal(n)
  }

  function SettingsWidth(s: Settings): nat {
    |"{\"attempt_seconds\":,\"max_file_bytes\":,\"quota_bytes\":}|"| - 1
    + DecimalOf(s.attemptSeconds) + DecimalOf(s.maxFileBytes) + DecimalOf(s.quotaBytes)
  }

  function PathWidth(path: Path): nat {
    match path
    case IndexFile => |"app/index.sqlite3"|
    case LockFile => |"app/backend.lock"|
    case InstallationFile => |"config/installation.json"|
    case SettingsFile => |"config/settings.json"|
    case ObjectFile(_) => |"objects/"| + 64
    case TokenFile(role) => if role == AdminRole then |"secrets/admin.token"| else |"secrets/worker.token"|
    case ManifestFile => |"manifest.json"|
  }

  function EntryWidth(e: Entry): nat {
    |"{\"path\":\"\",\"sha256\":\"\",\"size\":}"| + PathWidth(e.path) + 64 + DecimalOf(e.size)
  }

  /** The entries of a manifest with the commas between them. */
  function EntriesWidth(entries: seq<Entry>): nat {
    if entries == [] then 0
    else EntriesWidth(entries[..|entries| - 1]) + EntryWidth(entries[|entries| - 1]) + (if |entries| == 1 then 0 else 1)
  }

  function ManifestWidth(entries: seq<Entry>): nat {
    |"{\"credentials\":\"excluded_restore_rekeys\",\"files\":[],\"format\":\"pepeuch.control-plane-backup/v1\"}"|
    + EntriesWidth(entries)
  }

  function Size(c: Content): nat {
    match c
    case Torn => 0
    case InstallationText => |INSTALLATION|
    case SettingsText(settings) => SettingsWidth(settings)
    case IndexImage(_, size) => size
    case Data(bytes) => |bytes|
    case TokenText(_) => 44
    case LockText => 0
    case ManifestText(entries) => ManifestWidth(entries)
  }

  /** How many bytes the reader of a backup allows for a file. */
  function Limit(path: Path): nat {
    if path == IndexFile then MAX_INDEX else MAX_OBJECT
  }

  // ----- Acceptance of a backup -----

  predicate Copied(path: Path) {
    path == IndexFile || path == SettingsFile || path == InstallationFile || path.ObjectFile?
  }

  predicate EntryMatches(files: map<Path, Content>, e: Entry) {
    && Copied(e.path) && 0 <= e.size
    && e.path in files && Size(files[e.path]) <= Limit(e.path)
    && Size(files[e.path]) == e.size && SumOf(files[e.path]) == e.sum
  }

  function PathsOf(entries: seq<Entry>): set<Path> {
    set e | e in entries :: e.path
  }

  predicate DistinctPaths(entries: seq<Entry>) {
    forall i, j | 0 <= i < j < |entries| :: entries[i].path != entries[j].path
  }

  function SizeSum(entries: seq<Entry>): int {
    if entries == [] then 0 else SizeSum(entries[..|entries| - 1]) + entries[|entries| - 1].size
  }

  predicate ConfigurationsOk(files: map<Path, Content>) {
    && InstallationFile in files && files[InstallationFile] == InstallationText
    && SettingsFile in files && files[SettingsFile].SettingsText? && ValidSettings(files[SettingsFile].settings)
    && Size(files[SettingsFile]) <= MAX_CONFIGURATION
  }

  predicate IndexOk(files: map<Path, Content>) {
    && IndexFile in files && files[IndexFile].IndexImage? && files[IndexFile].size <= MAX_INDEX
    && Verified(files[IndexFile].db)
  }

  function ObjectPaths(versions: seq<Version>): set<Path> {
    set v | v in versions :: ObjectFile(v.digest)
  }

  /** An entry of a referenced object names its own digest and the size of its versions. */
  predicate ReferenceAgrees(versions: seq<Version>, e: Entry) {
    e.path.ObjectFile? ==>
      && e.sum == SumOf(Data(e.path.digest.content))
      && forall v <- versions :: v.digest == e.path.digest ==> v.size == e.size
  }

  predicate ManifestOk(d: Directory) {
    && ManifestFile in d.files && d.files[ManifestFile].ManifestText? && Size(d.files[ManifestFile]) <= MAX_MANIFEST
    && 3 <= |d.files[ManifestFile].entries| <= 10_003
  }

  /** What makes a directory a backup. */
  predicate Accepted(d: Directory) {
    && d.parts == {App, Config, Objects}
    && ManifestOk(d)
    && var entries := d.files[ManifestFile].entries;
    && (forall e <- entries :: EntryMatches(d.files, e))
    && DistinctPaths(entries)
    && SizeSum(entries) <= MAX_BACKUP
    && d.files.Keys - {ManifestFile} == PathsOf(entries)
    && ConfigurationsOk(d.files)
    && IndexOk(d.files)
    && var versions := d.files[IndexFile].db.versions;
    && PathsOf(entries) - {IndexFile, SettingsFile, InstallationFile} == ObjectPaths(versions)
    && forall e <- entries :: ReferenceAgrees(versions, e)
  }

  datatype Rejection =
    | InvalidBackup | InvalidLayout | InvalidManifest | IntegrityMismatch | TooLarge | InvalidReferences
    | SourceCorrupted | UnsafeFile | DestinationExists | IncompleteRestore

  lemma SizeSumAppend(entries: seq<Entry>, e: Entry)
    ensures SizeSum(entries + [e]) == SizeSum(entries) + e.size
  {
    assert (entries + [e])[..|entries + [e]| - 1] == entries;
  }

  /** The reader's loop: it fills `paths` and `total`, and stops at the first entry that does not match its file. */
  method CheckEntries(files: map<Path, Content>, entries: seq<Entry>) returns (r: Result<(set<Path>, int), Rejection>)
    ensures r.Ok? <==> (forall e <- entries :: EntryMatches(files, e)) && DistinctPaths(entries)
    ensures r.Ok? ==> r.value == (PathsOf(entries), SizeSum(entries))
  {
    var paths: set<Path> := {};
    var total := 0;
    for i := 0 to |entries|
      invariant paths == PathsOf(entries[..i])
      invariant total == SizeSum(entries[..i])
      invariant forall e <- entries[..i] :: EntryMatches(files, e)
      invariant DistinctPaths(entries[..i])
    {
      var e := entries[i];
      assert entries[..i + 1] == entries[..i] + [e];
      assert e in entries;
      if !Copied(e.path) || e.path in paths || e.size < 0 {
        if e.path in paths {
          RepeatedPath(entries, i);
        }
        return Refused(InvalidManifest);
      }
      if e.path !in files || Size(files[e.path]) > Limit(e.path) {
        return Refused(InvalidBackup);
      }
      if Size(files[e.path]) != e.size || SumOf(files[e.path]) != e.sum {
        return Refused(IntegrityMismatch);
      }
      paths := paths + {e.path};
      SizeSumAppend(entries[..i], e);
      total := total + e.size;
    }
    assert entries[..|entries|] == entries;
    return Ok((paths, total));
  }

  lemma RepeatedPath(entries: seq<Entry>, i: nat)
    requires i < |entries| && entries[i].path in PathsOf(entries[..i])
    ensures !DistinctPaths(entries)
  {
    var e :| e in entries[..i] && e.path == entries[i].path;
    var j :| 0 <= j < i && entries[j] == e;
    assert entries[j].path == entries[i].path;
  }

  /** The reader accepts exactly the directories that the predicate describes. */
  method Inspect(d: Directory) returns (r: Result<seq<Entry>, Rejection>)
    ensures r.Ok? <==> Accepted(d)
    ensures r.Ok? ==> r.value == d.files[ManifestFile].entries
  {
    hide Verified, EntryMatches, DistinctPaths, SizeSum, ConfigurationsOk, ReferenceAgrees, PathsOf, ObjectPaths, Size;
    if d.parts != {App, Config, Objects} {
      return Refused(InvalidLayout);
    }
    if !ManifestOk(d) {
      return Refused(InvalidManifest);
    }
    var entries := d.files[ManifestFile].entries;
    var checked := CheckEntries(d.files, entries);
    if checked.Refused? {
      return Refused(checked.error);
    }
    var (paths, total) := checked.value;
    if total > MAX_BACKUP {
      return Refused(TooLarge);
    }
    if d.files.Keys - {ManifestFile} != paths {
      return Refused(InvalidLayout);
    }
    if !ConfigurationsOk(d.files) || !IndexOk(d.files) {
      return Refused(InvalidBackup);
    }
    var versions := d.files[IndexFile].db.versions;
    if paths - {IndexFile, SettingsFile, InstallationFile} != ObjectPaths(versions) {
      return Refused(InvalidReferences);
    }
    if !forall e <- entries :: ReferenceAgrees(versions, e) {
      return Refused(InvalidReferences);
    }
    return Ok(entries);
  }

  // ----- What acceptance means -----

  /** Every file but the manifest is listed once, with its size and the checksum of its content, and nothing else is. */
  ghost predicate Listed(files: map<Path, Content>, entries: seq<Entry>) {
    && (forall i | 0 <= i < |entries| :: entries[i].path in files && entries[i].path != ManifestFile)
    && (forall p | p in files && p != ManifestFile ::
          exists i :: 0 <= i < |entries| && entries[i].path == p && entries[i].size == Size(files[p])
                      && entries[i].sum.content == files[p])
    && (forall i, j | 0 <= i < j < |entries| :: entries[i].path != entries[j].path)
  }

  /** The files are those of an installation: its texts, its index, and each referenced object whole. */
  ghost predicate Installation(files: map<Path, Content>) {
    && InstallationFile in files && files[InstallationFile] == InstallationText
    && SettingsFile in files && files[SettingsFile].SettingsText? && ValidSettings(files[SettingsFile].settings)
    && Size(files[SettingsFile]) <= 1024
    && IndexFile in files && files[IndexFile].IndexImage? && files[IndexFile].size <= 268_435_456
    && Verified(files[IndexFile].db)
    && (forall v <- files[IndexFile].db.versions ::
          && ObjectFile(v.digest) in files && files[ObjectFile(v.digest)] == Data(v.digest.content)
          && v.size == |v.digest.content| <= 1_048_576)
    && (forall p <- files ::
          || p in {ManifestFile, InstallationFile, SettingsFile, IndexFile}
          || exists v <- files[IndexFile].db.versions :: p == ObjectFile(v.digest))
  }

  /** A directory that lists itself whole, within the limits. */
  ghost predicate Sealed(d: Directory) {
    && d.parts == {App, Config, Objects}
    && ManifestFile in d.files && d.files[ManifestFile].ManifestText? && Size(d.files[ManifestFile]) <= 4_194_304
    && var entries := d.files[ManifestFile].entries;
    && 3 <= |entries| <= 10_003 && SizeSum(entries) <= 2_147_483_648
    && Listed(d.files, entries) && Installation(d.files)
  }

  lemma EntryOfFile(files: map<Path, Content>, entries: seq<Entry>, e: Entry)
    requires Listed(files, entries) && e in entries
    ensures e.path in files && e.path != ManifestFile && e.size == Size(files[e.path]) && e.sum == SumOf(files[e.path])
  {
    var i :| 0 <= i < |entries| && entries[i] == e;
    var j :| 0 <= j < |entries| && entries[j].path == e.path && entries[j].size == Size(files[e.path])
             && entries[j].sum.content == files[e.path];
    assert i == j;
  }

  lemma ListedFile(files: map<Path, Content>, entries: seq<Entry>, p: Path)
    requires forall e <- entries :: EntryMatches(files, e)
    requires p in PathsOf(entries)
    ensures p in files && p != ManifestFile
    ensures exists i :: 0 <= i < |entries| && entries[i].path == p && entries[i].size == Size(files[p])
                        && entries[i].sum.content == files[p]
  {
    var e :| e in entries && e.path == p;
    var i :| 0 <= i < |entries| && entries[i] == e;
  }

  lemma AcceptedIsListed(d: Directory)
    requires Accepted(d)
    ensures Listed(d.files, d.files[ManifestFile].entries)
  {
    hide EntryMatches, ReferenceAgrees, ConfigurationsOk, IndexOk, SizeSum, ObjectPaths, PathsOf, Size;
    var entries := d.files[ManifestFile].entries;
    forall p | p in d.files && p != ManifestFile
      ensures exists i :: 0 <= i < |entries| && entries[i].path == p && entries[i].size == Size(d.files[p])
                          && entries[i].sum.content == d.files[p]
    {
      ListedFile(d.files, entries, p);
    }
    forall i | 0 <= i < |entries|
      ensures entries[i].path in d.files && entries[i].path != ManifestFile
    {
      assert entries[i] in entries;
      PathListed(entries, entries[i]);
      ListedFile(d.files, entries, entries[i].path);
    }
  }

  lemma PathListed(entries: seq<Entry>, e: Entry)
    requires e in entries
    ensures e.path in PathsOf(entries)
  {
  }

  lemma AcceptedHolds(d: Directory)
    requires Accepted(d)
    ensures Installation(d.files)
  {
    hide DistinctPaths, SizeSum, Verified, ManifestWidth;
    var files, entries := d.files, d.files[ManifestFile].entries;
    var versions := files[IndexFile].db.versions;
    forall v <- versions
      ensures ObjectFile(v.digest) in files && files[ObjectFile(v.digest)] == Data(v.digest.content)
      ensures v.size == |v.digest.content| <= 1_048_576
    {
      assert ObjectFile(v.digest) in ObjectPaths(versions);
      var e :| e in entries && e.path == ObjectFile(v.digest);
      assert EntryMatches(files, e) && ReferenceAgrees(versions, e);
    }
    forall p | p in files && p !in {ManifestFile, InstallationFile, SettingsFile, IndexFile}
      ensures exists v <- versions :: p == ObjectFile(v.digest)
    {
      assert p in ObjectPaths(versions);
    }
  }

  lemma SealedEntry(d: Directory, e: Entry)
    requires Sealed(d) && e in d.files[ManifestFile].entries
    ensures EntryMatches(d.files, e) && ReferenceAgrees(d.files[IndexFile].db.versions, e)
  {
    hide SizeSum, Verified, ManifestWidth, SettingsWidth;
    EntryOfFile(d.files, d.files[ManifestFile].entries, e);
    if e.path.ObjectFile? {
      var v :| v in d.files[IndexFile].db.versions && e.path == ObjectFile(v.digest);
    }
  }

  lemma SealedPaths(files: map<Path, Content>, entries: seq<Entry>)
    requires Listed(files, entries) && Installation(files)
    ensures files.Keys - {ManifestFile} == PathsOf(entries)
    ensures PathsOf(entries) - {IndexFile, SettingsFile, InstallationFile} == ObjectPaths(files[IndexFile].db.versions)
  {
    hide Size, Verified;
    forall p | p in files && p != ManifestFile
      ensures p in PathsOf(entries)
    {
      var i :| 0 <= i < |entries| && entries[i].path == p;
      assert entries[i] in entries;
    }
    forall p | p in PathsOf(entries)
      ensures p in files && p != ManifestFile
    {
      var e :| e in entries && e.path == p;
      var i :| 0 <= i < |entries| && entries[i] == e;
    }
  }

  /** The reader accepts exactly the directories that list themselves whole. */
  lemma AcceptedIsSealed(d: Directory)
    ensures Accepted(d) <==> Sealed(d)
  {
    hide EntryMatches, ReferenceAgrees, SizeSum, ObjectPaths, PathsOf, Verified, Size, Listed, Installation;
    if Accepted(d) {
      AcceptedIsListed(d);
      AcceptedHolds(d);
    }
    if Sealed(d) {
      SealedPaths(d.files, d.files[ManifestFile].entries);
      SealedParts(d.files);
      forall e <- d.files[ManifestFile].entries
        ensures EntryMatches(d.files, e) && ReferenceAgrees(d.files[IndexFile].db.versions, e)
      {
        SealedEntry(d, e);
      }
      DistinctListed(d.files, d.files[ManifestFile].entries);
    }
  }

  lemma SealedParts(files: map<Path, Content>)
    requires Installation(files)
    ensures ConfigurationsOk(files) && IndexOk(files)
  {
    hide Verified, SettingsWidth;
  }

  lemma DistinctListed(files: map<Path, Content>, entries: seq<Entry>)
    requires Listed(files, entries)
    ensures DistinctPaths(entries)
  {
  }

  /** The manifest seals the backup: no other directory with the same manifest is accepted. */
  lemma ManifestSeals(d: Directory, other: Directory)
    requires Accepted(d) && Accepted(other) && d.files[ManifestFile] == other.files[ManifestFile]
    ensures other == d
  {
    hide Accepted, Listed;
    AcceptedLists(d);
    AcceptedLists(other);
    forall p | p in d.files || p in other.files
      ensures p in d.files && p in other.files && d.files[p] == other.files[p]
    {
      if p != ManifestFile {
        SameFile(d.files, other.files, d.files[ManifestFile].entries, p);
      }
    }
    assert other.files == d.files;
  }

  lemma AcceptedLists(d: Directory)
    requires Accepted(d)
    ensures d.parts == {App, Config, Objects}
    ensures ManifestFile in d.files && d.files[ManifestFile].ManifestText?
    ensures Listed(d.files, d.files[ManifestFile].entries)
  {
    hide Accepted, Installation, SizeSum, Listed, Size;
    AcceptedIsSealed(d);
  }

  lemma SameFile(files: map<Path, Content>, other: map<Path, Content>, entries: seq<Entry>, p: Path)
    requires Listed(files, entries) && Listed(other, entries) && p != ManifestFile && (p in files || p in other)
    ensures p in files && p in other && files[p] == other[p]
  {
    var i :| 0 <= i < |entries| && entries[i].path == p;
    assert entries[i] in entries;
    EntryOfFile(files, entries, entries[i]);
    EntryOfFile(other, entries, entries[i]);
  }

  // ----- A disk, and every state that a crash could leave on it -----

  class Disk {
    var parts: set<Part>
    var files: map<Path, Content>
    ghost var trace: seq<Directory>

    constructor ()
      ensures Now() == EMPTY && trace == [EMPTY]
    {
      parts, files, trace := {}, map[], [EMPTY];
    }

    function Now(): Directory
      reads this
    {
      Directory(parts, files)
    }

    method MakePart(part: Part)
      modifies this
      ensures Now() == old(Now()).(parts := old(parts) + {part})
      ensures trace == old(trace) + [Now()]
    {
      parts := parts + {part};
      trace := trace + [Now()];
    }

    /** Create a file that must not exist; a crash in between leaves it torn. */
    method WriteNew(path: Path, content: Content)
      requires path !in files
      modifies this
      ensures Now() == old(Now()).(files := old(files)[path := content])
      ensures trace == old(trace) + [old(Now()).(files := old(files)[path := Torn]), Now()]
    {
      files := files[path := Torn];
      ghost var torn := Now();
      files := files[path := content];
      trace := trace + [torn, Now()];
    }

    /** One committed transaction of the index: a crash leaves the old image or the new one. */
    method Commit(path: Path, content: Content)
      requires path in files
      modifies this
      ensures Now() == old(Now()).(files := old(files)[path := content])
      ensures trace == old(trace) + [Now()]
    {
      files := files[path := content];
      trace := trace + [Now()];
    }
  }

  // ----- Creating a backup -----

  const FIXED: set<Path> := {IndexFile, InstallationFile, SettingsFile}

  function ObjectFiles(digests: set<Digest>): set<Path> {
    set d | d in digests :: ObjectFile(d)
  }

  /** A referenced object is stored whole, under its own digest and with the size of its versions. */
  predicate ObjectOk(files: map<Path, Content>, versions: seq<Version>, d: Digest) {
    && ObjectFile(d) in files && files[ObjectFile(d)] == Data(d.content) && |d.content| <= MAX_OBJECT
    && forall v <- versions :: v.digest == d ==> v.size == |d.content|
  }

  /** The version rows of the index in a directory. */
  function VersionsOf(files: map<Path, Content>): seq<Version> {
    if IndexFile in files && files[IndexFile].IndexImage? then files[IndexFile].db.versions else []
  }

  /** What an installation must hold for a backup of it to succeed, besides the limits on its size. */
  predicate Sound(source: map<Path, Content>) {
    && ConfigurationsOk(source) && IndexOk(source)
    && forall d <- Digests(VersionsOf(source)) :: ObjectOk(source, VersionsOf(source), d)
  }

  function SizeAt(files: map<Path, Content>, path: Path): nat {
    if path in files then Size(files[path]) else 0
  }

  function FixedSize(source: map<Path, Content>): nat {
    SizeAt(source, IndexFile) + SizeAt(source, InstallationFile) + SizeAt(source, SettingsFile)
  }

  function EntryOf(path: Path, content: Content): Entry {
    Entry(path, Size(content), SumOf(content))
  }

  /** The copy of the fixed files and of some objects, with its records so far. */
  ghost predicate Progress(source: map<Path, Content>, files: map<Path, Content>, entries: seq<Entry>, done: set<Digest>)
  {
    var versions := VersionsOf(source);
    && done <= Digests(versions)
    && files.Keys == PathsOf(entries) == FIXED + ObjectFiles(done)
    && (forall p <- files :: p in source && files[p] == source[p])
    && (forall e <- entries :: EntryMatches(files, e) && ReferenceAgrees(versions, e))
    && DistinctPaths(entries) && |entries| == 3 + |done|
    && SizeSum(entries) == FixedSize(source) + Total(Sizes(versions) - (Digests(versions) - done))
  }

  lemma ConfigurationsFit(source: map<Path, Content>)
    requires ConfigurationsOk(source)
    ensures FIXED - {IndexFile} <= source.Keys
    ensures Size(source[InstallationFile]) <= MAX_CONFIGURATION && Size(source[SettingsFile]) <= MAX_CONFIGURATION
    ensures Size(source[InstallationFile]) <= 50
  {
    assert Size(InstallationText) == |INSTALLATION| == 50;
  }

  lemma NothingLeft(sizes: map<Digest, nat>)
    ensures Total(sizes - sizes.Keys) == 0
  {
    assert sizes - sizes.Keys == map[];
  }

  lemma ThreeSizes(a: Entry, b: Entry, c: Entry)
    ensures SizeSum([a, b, c]) == a.size + b.size + c.size
  {
    assert [a, b, c] == ([] + [a] + [b]) + [c];
    SizeSumAppend([] + [a] + [b], c);
    SizeSumAppend([] + [a], b);
    SizeSumAppend([], a);
  }

  lemma ThreeEntries(a: Entry, b: Entry, c: Entry)
    requires a.path != b.path && a.path != c.path && b.path != c.path
    ensures PathsOf([a, b, c]) == {a.path, b.path, c.path} && DistinctPaths([a, b, c])
    ensures forall e <- [a, b, c] :: e == a || e == b || e == c
    ensures SizeSum([a, b, c]) == a.size + b.size + c.size
  {
    ThreeSizes(a, b, c);
    hide SizeSum;
    var entries := [a, b, c];
    assert a in entries && b in entries && c in entries;
  }

  lemma FixedProgress(source: map<Path, Content>, files: map<Path, Content>, a: Entry, b: Entry, c: Entry)
    requires ConfigurationsOk(source) && IndexOk(source)
    requires files.Keys == FIXED && forall p <- FIXED :: p in source && files[p] == source[p]
    requires a == EntryOf(IndexFile, source[IndexFile]) && b == EntryOf(InstallationFile, source[InstallationFile])
    requires c == EntryOf(SettingsFile, source[SettingsFile])
    ensures Progress(source, files, [a, b, c], {})
  {
    hide Verified, Total, Sizes, Digests, SizeSum, Size, EntryMatches, ReferenceAgrees, VersionsOf, ConfigurationsOk,
        IndexOk;
    hide PathsOf, DistinctPaths;
    var versions := VersionsOf(source);
    SizesKeys(versions);
    NothingLeft(Sizes(versions));
    FixedMatches(source, files);
    ThreeEntries(a, b, c);
    assert ObjectFiles({}) == {};
    assert Digests(versions) - {} == Digests(versions);
    FixedReference(versions, a);
    FixedReference(versions, b);
    FixedReference(versions, c);
  }

  lemma FixedMatches(source: map<Path, Content>, files: map<Path, Content>)
    requires ConfigurationsOk(source) && IndexOk(source)
    requires FIXED <= files.Keys && forall p <- FIXED :: files[p] == source[p]
    ensures forall p <- FIXED :: p in source && EntryMatches(files, EntryOf(p, source[p]))
  {
    hide Verified, SettingsWidth;
    ConfigurationsFit(source);
    IndexSize(source[IndexFile]);
  }

  lemma FixedReference(versions: seq<Version>, e: Entry)
    requires e.path in FIXED
    ensures ReferenceAgrees(versions, e)
  {
  }

  lemma IndexSize(c: Content)
    requires c.IndexImage?
    ensures Size(c) == c.size
  {
  }

  lemma ObjectProgress(source: map<Path, Content>, files: map<Path, Content>, entries: seq<Entry>, done: set<Digest>,
      d: Digest)
    requires OneSize(VersionsOf(source))
    requires Progress(source, files, entries, done)
    requires d in Digests(VersionsOf(source)) && d !in done && ObjectOk(source, VersionsOf(source), d)
    ensures ObjectFile(d) !in files
    ensures Progress(source, files[ObjectFile(d) := source[ObjectFile(d)]],
                     entries + [EntryOf(ObjectFile(d), source[ObjectFile(d)])], done + {d})
  {
    hide Total, Sizes, Digests, SizeSum, FixedSize, OneSize, VersionsOf, EntryMatches, ReferenceAgrees;
    var versions := VersionsOf(source);
    var path, e := ObjectFile(d), EntryOf(ObjectFile(d), source[ObjectFile(d)]);
    var after, longer := files[path := source[path]], entries + [e];
    assert ObjectFiles(done + {d}) == ObjectFiles(done) + {path};
    assert PathsOf(longer) == PathsOf(entries) + {path};
    ObjectMatches(source, versions, d, after);
    forall x <- longer
      ensures EntryMatches(after, x) && ReferenceAgrees(versions, x)
    {
      if x != e {
        assert x in entries && x.path in PathsOf(entries);
        MatchesLonger(files, x, path, source[path]);
      }
    }
    LongerDistinct(entries, e);
    SizeSumAppend(entries, e);
    ObjectCounted(versions, done, d);
  }

  lemma ObjectMatches(source: map<Path, Content>, versions: seq<Version>, d: Digest, files: map<Path, Content>)
    requires ObjectOk(source, versions, d)
    requires ObjectFile(d) in files && files[ObjectFile(d)] == source[ObjectFile(d)]
    ensures EntryMatches(files, EntryOf(ObjectFile(d), source[ObjectFile(d)]))
    ensures ReferenceAgrees(versions, EntryOf(ObjectFile(d), source[ObjectFile(d)]))
  {
  }

  lemma MatchesLonger(files: map<Path, Content>, e: Entry, path: Path, c: Content)
    requires EntryMatches(files, e) && path != e.path
    ensures EntryMatches(files[path := c], e)
  {
  }

  lemma LongerDistinct(entries: seq<Entry>, e: Entry)
    requires DistinctPaths(entries) && e.path !in PathsOf(entries)
    ensures DistinctPaths(entries + [e])
  {
    forall i | 0 <= i < |entries|
      ensures entries[i].path != e.path
    {
      assert entries[i] in entries;
    }
  }

  lemma ObjectCounted(versions: seq<Version>, done: set<Digest>, d: Digest)
    requires OneSize(versions) && done <= Digests(versions) && d in Digests(versions) - done
    requires forall v <- versions :: v.digest == d ==> v.size == |d.content|
    ensures Total(Sizes(versions) - (Digests(versions) - (done + {d})))
            == Total(Sizes(versions) - (Digests(versions) - done)) + |d.content|
  {
    hide Total, Sizes;
    SizesKeys(versions);
    var v :| v in versions && v.digest == d;
    SizesAgree(versions, v);
    var sizes, keys := Sizes(versions), Digests(versions);
    var before, after := sizes - (keys - done), sizes - (keys - (done + {d}));
    assert after == before[d := sizes[d]];
    TotalInsert(before, d, sizes[d]);
  }

  // ----- The limits of a backup -----

  lemma {:induction false} DecimalBound(n: nat, k: nat, power: nat)
    requires power == Pow10(k) && n < power && k >= 1
    ensures Decimal(n) <= k
    decreases k
  {
    if k > 1 && n >= 10 {
      assert power == 10 * Pow10(k - 1);
      DecimalBound(n / 10, k - 1, Pow10(k - 1));
    }
  }

  function Pow10(k: nat): nat {
    if k == 0 then 1 else 10 * Pow10(k - 1)
  }

  lemma TenDigits(n: nat)
    requires n < 10_000_000_000
    ensures DecimalOf(n) <= 10
  {
    assert Pow10(2) == 100 && Pow10(4) == 10_000 && Pow10(6) == 1_000_000 && Pow10(8) == 100_000_000;
    DecimalBound(n, 10, Pow10(10));
  }

  lemma EntryIsShort(files: map<Path, Content>, e: Entry)
    requires EntryMatches(files, e)
    ensures EntryWidth(e) <= 200
  {
    hide Size;
    TenDigits(e.size);
  }

  lemma {:induction false} ManifestIsShort(files: map<Path, Content>, entries: seq<Entry>)
    requires forall e <- entries :: EntryMatches(files, e)
    ensures EntriesWidth(entries) <= 201 * |entries|
  {
    hide EntryMatches, EntryWidth;
    if entries != [] {
      ManifestIsShort(files, entries[..|entries| - 1]);
      EntryIsShort(files, entries[|entries| - 1]);
    }
  }

  ghost predicate Fits(source: map<Path, Content>) {
    var versions := VersionsOf(source);
    |Digests(versions)| <= 10_000 && FixedSize(source) + Total(Sizes(versions)) <= MAX_BACKUP
  }

  /** A complete copy with its marker is accepted exactly when it is within the limits. */
  lemma MarkedIsAccepted(source: map<Path, Content>, files: map<Path, Content>, entries: seq<Entry>)
    requires ConfigurationsOk(source) && IndexOk(source)
    requires Progress(source, files, entries, Digests(VersionsOf(source)))
    ensures Accepted(Directory({App, Config, Objects}, files[ManifestFile := ManifestText(entries)])) <==> Fits(source)
  {
    hide Verified, EntryMatches, DistinctPaths, Total, Sizes, ReferenceAgrees, SizeSum, FixedSize, ManifestWidth, Digests;
    var versions := VersionsOf(source);
    var after := files[ManifestFile := ManifestText(entries)];
    assert Sizes(versions) - (Digests(versions) - Digests(versions)) == Sizes(versions);
    forall e <- entries
      ensures EntryMatches(after, e)
    {
      assert e.path in PathsOf(entries);
      MatchesLonger(files, e, ManifestFile, ManifestText(entries));
    }
    MarkerFits(files, entries);
    ReferencedPaths(versions);
    assert FIXED <= files.Keys;
    assert after.Keys - {ManifestFile} == files.Keys;
    assert ConfigurationsOk(after) && IndexOk(after);
    assert PathsOf(entries) - {IndexFile, SettingsFile, InstallationFile} == ObjectFiles(Digests(versions));
  }

  lemma MarkerFits(files: map<Path, Content>, entries: seq<Entry>)
    requires forall e <- entries :: EntryMatches(files, e)
    ensures |entries| <= 10_003 ==> Size(ManifestText(entries)) <= MAX_MANIFEST
  {
    hide EntryMatches, EntriesWidth;
    ManifestIsShort(files, entries);
  }

  lemma ReferencedPaths(versions: seq<Version>)
    ensures ObjectFiles(Digests(versions)) == ObjectPaths(versions)
  {
    forall p <- ObjectPaths(versions)
      ensures p in ObjectFiles(Digests(versions))
    {
      var v :| v in versions && p == ObjectFile(v.digest);
      assert v.digest in Digests(versions);
    }
  }

  ghost predicate Unmarked(trace: seq<Directory>) {
    forall d <- trace :: ManifestFile !in d.files
  }

  lemma UnmarkedRefused(trace: seq<Directory>)
    requires Unmarked(trace)
    ensures forall d <- trace :: !Accepted(d)
  {
  }

  /** Copy one file and record it; no crash on the way leaves a marker. */
  method CopyFile(source: map<Path, Content>, disk: Disk, path: Path, entries: seq<Entry>) returns (longer: seq<Entry>)
    requires path in source && path !in disk.files && path != ManifestFile
    requires ManifestFile !in disk.files && Unmarked(disk.trace)
    modifies disk
    ensures disk.Now() == old(disk.Now()).(files := old(disk.files)[path := source[path]])
    ensures Unmarked(disk.trace) && |disk.trace| > 0 && disk.trace[|disk.trace| - 1] == disk.Now()
    ensures longer == entries + [EntryOf(path, source[path])]
  {
    disk.WriteNew(path, source[path]);
    longer := entries + [EntryOf(path, source[path])];
  }

  /** Copy the files that every backup holds, in their order. */
  method CopyFixed(source: map<Path, Content>, disk: Disk) returns (entries: seq<Entry>)
    requires ConfigurationsOk(source) && IndexOk(source)
    requires disk.Now() == EMPTY && disk.trace == [EMPTY]
    modifies disk
    ensures disk.parts == {App, Config, Objects} && Unmarked(disk.trace)
    ensures |disk.trace| > 0 && disk.trace[|disk.trace| - 1] == disk.Now()
    ensures Progress(source, disk.files, entries, {})
  {
    hide Verified, Progress;
    disk.MakePart(App);
    disk.MakePart(Config);
    disk.MakePart(Objects);
    entries := CopyFile(source, disk, IndexFile, []);
    entries := CopyFile(source, disk, InstallationFile, entries);
    entries := CopyFile(source, disk, SettingsFile, entries);
    FixedProgress(source, disk.files, entries[0], entries[1], entries[2]);
    assert entries == [entries[0], entries[1], entries[2]];
  }

  /** Copy the referenced objects one by one, checking each against the index first. */
  method CopyObjects(source: map<Path, Content>, disk: Disk, fixed: seq<Entry>) returns (r: Option<seq<Entry>>)
    requires OneSize(VersionsOf(source)) && Progress(source, disk.files, fixed, {})
    requires disk.parts == {App, Config, Objects} && Unmarked(disk.trace)
    requires |disk.trace| > 0 && disk.trace[|disk.trace| - 1] == disk.Now()
    modifies disk
    ensures disk.parts == {App, Config, Objects} && Unmarked(disk.trace)
    ensures |disk.trace| > 0 && disk.trace[|disk.trace| - 1] == disk.Now()
    ensures r.Some? <==> forall d <- Digests(VersionsOf(source)) :: ObjectOk(source, VersionsOf(source), d)
    ensures r.Some? ==> Progress(source, disk.files, r.value, Digests(VersionsOf(source)))
  {
    hide Progress, OneSize, ObjectOk, VersionsOf, Digests;
    var versions := VersionsOf(source);
    var entries := fixed;
    ghost var done: set<Digest> := {};
    var left := Digests(versions);
    while left != {}
      invariant left <= Digests(versions) && done == Digests(versions) - left
      invariant forall d <- done :: ObjectOk(source, versions, d)
      invariant Progress(source, disk.files, entries, done)
      invariant disk.parts == {App, Config, Objects} && Unmarked(disk.trace)
      invariant |disk.trace| > 0 && disk.trace[|disk.trace| - 1] == disk.Now()
      decreases |left|
    {
      var d :| d in left;
      if !ObjectOk(source, versions, d) {
        return None;
      }
      ObjectProgress(source, disk.files, entries, done, d);
      ObjectPresent(source, versions, d);
      MarkerAbsent(source, disk.files, entries, done);
      entries := CopyFile(source, disk, ObjectFile(d), entries);
      done, left := done + {d}, left - {d};
    }
    assert done == Digests(versions);
    return Some(entries);
  }

  lemma ObjectPresent(files: map<Path, Content>, versions: seq<Version>, d: Digest)
    requires ObjectOk(files, versions, d)
    ensures ObjectFile(d) in files
  {
  }

  lemma MarkerAbsent(source: map<Path, Content>, files: map<Path, Content>, entries: seq<Entry>, done: set<Digest>)
    requires Progress(source, files, entries, done)
    ensures ManifestFile !in files
  {
  }

  lemma VerifiedHasOneSize(files: map<Path, Content>)
    requires IndexOk(files)
    ensures OneSize(VersionsOf(files))
  {
    hide ForeignKeys, UniqueKeys, OneSize, Contiguous, JoinAgrees, CompletedHasResult, SafeFileName;
  }

  /** What a successful backup leaves in its destination. */
  ghost predicate CopyOf(files: map<Path, Content>, source: map<Path, Content>) {
    && files.Keys == FIXED + ObjectFiles(Digests(VersionsOf(source))) + {ManifestFile}
    && (forall p <- files | p != ManifestFile :: p in source && files[p] == source[p])
  }

  /**
   * A backup succeeds exactly when the source is sound and within the limits; whatever happens, no state before the
   * last one would be taken for a backup, and the last one only on success.
   */
  method CreateBackup(source: Directory) returns (disk: Disk, r: Result<nat, Rejection>)
    ensures fresh(disk)
    ensures r.Ok? <==> Sound(source.files) && Fits(source.files)
    ensures |disk.trace| > 0 && disk.trace[|disk.trace| - 1] == disk.Now()
    ensures forall k | 0 <= k < |disk.trace| :: Accepted(disk.trace[k]) <==> r.Ok? && k == |disk.trace| - 1
    ensures r.Ok? ==> r.value == 3 + |Digests(VersionsOf(source.files))|
    ensures r.Ok? ==> CopyOf(disk.files, source.files)
  {
    hide Progress, Accepted, Fits, OneSize, ObjectOk, VersionsOf, Digests, ConfigurationsOk, IndexOk;
    disk := new Disk();
    UnmarkedRefused(disk.trace);
    if !ConfigurationsOk(source.files) || !IndexOk(source.files) {
      return disk, Refused(InvalidBackup);
    }
    var fixed := CopyFixed(source.files, disk);
    VerifiedHasOneSize(source.files);
    var copied := CopyObjects(source.files, disk, fixed);
    UnmarkedRefused(disk.trace);
    SoundIs(source.files);
    if copied == None {
      return disk, Refused(SourceCorrupted);
    }
    var entries := copied.value;
    MarkerAbsent(source.files, disk.files, entries, Digests(VersionsOf(source.files)));
    CopyHolds(source.files, disk.files, entries);
    MarkedIsAccepted(source.files, disk.files, entries);
    TornIsRefused(disk.parts, disk.files);
    ghost var before := disk.trace;
    disk.WriteNew(ManifestFile, ManifestText(entries));
    assert disk.trace[..|before|] == before;
    var inspected := Inspect(disk.Now());
    if inspected.Refused? {
      return disk, Refused(inspected.error);
    }
    return disk, Ok(|entries|);
  }

  lemma SoundIs(files: map<Path, Content>)
    requires ConfigurationsOk(files) && IndexOk(files)
    ensures Sound(files) <==> forall d <- Digests(VersionsOf(files)) :: ObjectOk(files, VersionsOf(files), d)
  {
  }

  lemma TornIsRefused(parts: set<Part>, files: map<Path, Content>)
    ensures !Accepted(Directory(parts, files[ManifestFile := Torn]))
  {
  }

  lemma CopyHolds(source: map<Path, Content>, files: map<Path, Content>, entries: seq<Entry>)
    requires Progress(source, files, entries, Digests(VersionsOf(source)))
    ensures files.Keys == FIXED + ObjectFiles(Digests(VersionsOf(source)))
    ensures forall p <- files :: p in source && files[p] == source[p]
    ensures |entries| == 3 + |Digests(VersionsOf(source))|
  {
    hide EntryMatches, ReferenceAgrees;
  }
}
