/** The workspace: immutable objects, linear version histories and their limits. */
module Files {
  import opened Base
  import opened Contracts
  import opened Tables
  import opened Transactions

  /** How many versions of a file there are. */
  function Count(versions: seq<Version>, f: Id): nat {
    if versions == [] then 0
    else Count(versions[..|versions| - 1], f) + (if versions[|versions| - 1].file == f then 1 else 0)
  }

  /** A name is safe, and stands for one file of its workspace whatever its case. */
  ghost predicate NamesOk(workspaces: map<Id, Id>, files: map<Id, File>) {
    && (forall f <- files :: SafeFileName(files[f].name) && files[f].workspace in workspaces)
    && (forall f, g | f in files && g in files && files[f].workspace == files[g].workspace
                      && Fold(files[f].name) == Fold(files[g].name) :: f == g)
  }

  ghost predicate DistinctVersions(versions: seq<Version>) {
    forall i, j | 0 <= i < j < |versions| :: versions[i].id != versions[j].id
  }

  /** Each version carries the next number of its file, so every history is a line. */
  ghost predicate Linear(versions: seq<Version>) {
    forall i | 0 <= i < |versions| :: versions[i].number == Count(versions[..i], versions[i].file) + 1
  }

  ghost predicate VersionsLinked(files: map<Id, File>, versions: seq<Version>) {
    && (forall v <- versions :: v.file in files)
    && (forall f <- files :: 1 <= Count(versions, f) <= 100)
  }

  /** Every version's bytes are stored under their own digest. */
  ghost predicate Stored(settings: Settings, versions: seq<Version>, objects: map<Digest, Bytes>) {
    && (forall d <- objects :: Sha256(objects[d]) == d)
    && (forall v <- versions ::
          v.digest in objects && v.size == |objects[v.digest]| && v.size <= settings.maxFileBytes)
  }

  ghost predicate WithinLimits(settings: Settings, files: map<Id, File>, versions: seq<Version>) {
    forall workspace: Id ::
      Used(versions, files, workspace) <= settings.quotaBytes && |FilesOf(files, workspace)| <= 100
  }

  ghost predicate FilesOk(
    settings: Settings, workspaces: map<Id, Id>, files: map<Id, File>, versions: seq<Version>, objects: map<Digest, Bytes>) {
    && NamesOk(workspaces, files)
    && DistinctVersions(versions)
    && Linear(versions)
    && VersionsLinked(files, versions)
    && Stored(settings, versions, objects)
    && WithinLimits(settings, files, versions)
  }

  ghost predicate WorkspaceOk(db: Db) {
    FilesOk(db.settings, db.workspaces, db.files, db.versions, db.objects)
  }

  lemma CountAppend(versions: seq<Version>, v: Version, f: Id)
    ensures Count(versions + [v], f) == Count(versions, f) + (if v.file == f then 1 else 0)
  {
    assert (versions + [v])[..|versions + [v]| - 1] == versions;
  }

  lemma {:induction false} CountNone(versions: seq<Version>, f: Id)
    requires forall v <- versions :: v.file != f
    ensures Count(versions, f) == 0
  {
    if versions != [] {
      CountNone(versions[..|versions| - 1], f);
    }
  }

  lemma LinearPrefix(versions: seq<Version>)
    requires Linear(versions) && versions != []
    ensures Linear(versions[..|versions| - 1])
  {
    var front := versions[..|versions| - 1];
    forall i | 0 <= i < |front|
      ensures front[i].number == Count(front[..i], front[i].file) + 1
    {
      assert front[..i] == versions[..i];
    }
  }

  /** On a line the highest-numbered version is the last one, and its number is the length of the line. */
  lemma {:induction false} NewestIsLast(versions: seq<Version>, f: Id)
    requires Linear(versions)
    ensures Newest(versions, f) == None <==> Count(versions, f) == 0
    ensures Newest(versions, f) != None ==>
              var v := Newest(versions, f).value;
              v in versions && v.file == f && v.number == Count(versions, f)
  {
    if versions != [] {
      var front := versions[..|versions| - 1];
      var last := versions[|versions| - 1];
      LinearPrefix(versions);
      NewestIsLast(front, f);
      assert last.number == Count(front, last.file) + 1;
    }
  }

  lemma LinearAppend(versions: seq<Version>, v: Version)
    requires Linear(versions) && v.number == Count(versions, v.file) + 1
    ensures Linear(versions + [v])
  {
    var longer := versions + [v];
    forall i | 0 <= i < |longer|
      ensures longer[i].number == Count(longer[..i], longer[i].file) + 1
    {
      if i < |versions| {
        assert longer[..i] == versions[..i];
      } else {
        assert longer[..i] == versions;
      }
    }
  }

  lemma UsedAppend(versions: seq<Version>, files: map<Id, File>, v: Version, workspace: Id)
    ensures Used(versions + [v], files, workspace)
            == Used(versions, files, workspace)
               + (if v.file in files && files[v.file].workspace == workspace then v.size else 0)
  {
    assert (versions + [v])[..|versions + [v]| - 1] == versions;
  }

  /** A file without versions uses nothing. */
  lemma {:induction false} UsedNewFile(versions: seq<Version>, files: map<Id, File>, f: Id, row: File, workspace: Id)
    requires forall v <- versions :: v.file in files
    requires f !in files
    ensures Used(versions, files[f := row], workspace) == Used(versions, files, workspace)
  {
    if versions != [] {
      UsedNewFile(versions[..|versions| - 1], files, f, row, workspace);
    }
  }

  /** The file that the lookup finds is the only one of that name. */
  lemma FoundIsNamed(db: Db, workspace: Id, name: string)
    requires NamesOk(db.workspaces, db.files)
    ensures var found := FindFile(db.files, workspace, name);
            (forall f: Id :: Named(db.files, f, workspace, name) <==> found == Some(f))
    ensures var found := FindFile(db.files, workspace, name);
            found.Some? ==> found.value in db.files && db.files[found.value].workspace == workspace
  {
  }

  lemma FileCounts(files: map<Id, File>, versions: seq<Version>, f: Option<Id>)
    requires VersionsLinked(files, versions)
    ensures f.Some? && f.value in files ==> Count(versions, f.value) >= 1
  {
  }

  lemma NewFileCount(db: Db, ids: FreshIds)
    requires VersionsLinked(db.files, db.versions) && NewIds(db, ids)
    ensures ids.file !in db.files && Count(db.versions, ids.file) == 0
  {
    CountNone(db.versions, ids.file);
  }

  /** The identifiers of a publication are new. */
  ghost predicate NewIds(db: Db, ids: FreshIds) {
    ids.file !in db.files && ids.result !in db.results && forall v <- db.versions :: v.id != ids.version
  }

  lemma MoreFiles(files: map<Id, File>, f: Id, row: File, workspace: Id)
    requires f !in files
    ensures |FilesOf(files[f := row], workspace)| == |FilesOf(files,
        workspace)| + (if row.workspace == workspace then 1 else 0)
  {
    if row.workspace == workspace {
      assert FilesOf(files[f := row], workspace) == FilesOf(files, workspace) + {f};
    } else {
      assert FilesOf(files[f := row], workspace) == FilesOf(files, workspace);
    }
  }

  /** The index after one more version, and its file if that is new. */
  ghost function Extended(db: Db, actor: Actor, v: Version, files: map<Id, File>, raw: Bytes, workspace: Id): Db {
    db.(files := files, versions := db.versions + [v], objects := db.objects[v.digest := raw],
        events := db.events + [Event(v.mission, workspace, actor, FilePublished(v.file, v.id))])
  }

  /** The version that a publication appends to file f. */
  ghost function NextVersion(db: Db, f: Id, raw: Bytes, mission: Option<Id>, attempt: Option<Id>, ids: FreshIds): Version {
    Version(ids.version, f, Count(db.versions, f) + 1, |raw|, Sha256(raw), mission, attempt)
  }

  lemma PublishToOldFile(
    db: Db, actor: Actor, workspace: Id, name: string, raw: Bytes, expected: Option<Id>,
    mission: Option<Id>, attempt: Option<Id>, ids: FreshIds, f: Id)
    requires Linear(db.versions) && Count(db.versions, f) >= 1
    requires FindFile(db.files, workspace, name) == Some(f)
    requires Publish(db, actor, workspace, name, raw, expected, mission, attempt, ids).Ok?
    ensures expected == Current(db, workspace, name)
    ensures Count(db.versions, f) < 100
    ensures Used(db.versions, db.files, workspace) + |raw| <= db.settings.quotaBytes
    ensures Publish(db, actor, workspace, name, raw, expected, mission, attempt, ids).value.0
            == Extended(db, actor, NextVersion(db, f, raw, mission, attempt, ids), db.files, raw, workspace)
  {
    NewestIsLast(db.versions, f);
  }

  lemma PublishToNewFile(
    db: Db, actor: Actor, workspace: Id, name: string, raw: Bytes, expected: Option<Id>,
    mission: Option<Id>, attempt: Option<Id>, ids: FreshIds)
    requires Count(db.versions, ids.file) == 0
    requires FindFile(db.files, workspace, name) == None
    requires Publish(db, actor, workspace, name, raw, expected, mission, attempt, ids).Ok?
    ensures expected == Current(db, workspace, name)
    ensures |FilesOf(db.files, workspace)| < 100
    ensures Used(db.versions, db.files, workspace) + |raw| <= db.settings.quotaBytes
    ensures Publish(db, actor, workspace, name, raw, expected, mission, attempt, ids).value.0
            == Extended(db, actor, NextVersion(db, ids.file, raw, mission, attempt, ids),
                        db.files[ids.file := File(workspace, name)], raw, workspace)
  {
  }

  /** What a successful publication does: the caller named the current version, and exactly one version follows it. */
  lemma PublishAdvances(
    db: Db, actor: Actor, workspace: Id, name: string, raw: Bytes, expected: Option<Id>,
    mission: Option<Id>, attempt: Option<Id>, ids: FreshIds)
    returns (f: Id, files: map<Id, File>)
    requires NamesOk(db.workspaces, db.files) && Linear(db.versions) && VersionsLinked(db.files, db.versions)
    requires NewIds(db, ids)
    requires Publish(db, actor, workspace, name, raw, expected, mission, attempt, ids).Ok?
    ensures expected == Current(db, workspace, name)
    ensures Publish(db, actor, workspace, name, raw, expected, mission, attempt, ids).value.0
            == Extended(db, actor, NextVersion(db, f, raw, mission, attempt, ids), files, raw, workspace)
    ensures Count(db.versions, f) < 100
    ensures Used(db.versions, db.files, workspace) + |raw| <= db.settings.quotaBytes
    ensures f in files && files[f].workspace == workspace
    ensures if f in db.files then files == db.files && Named(db.files, f, workspace, name)
            else f == ids.file && files == db.files[f := File(workspace, name)]
                 && (forall g: Id :: !Named(db.files, g, workspace, name)) && |FilesOf(db.files, workspace)| < 100
  {
    hide *;
    FoundIsNamed(db, workspace, name);
    var file := FindFile(db.files, workspace, name);
    FileCounts(db.files, db.versions, file);
    if file == None {
      f, files := ids.file, db.files[ids.file := File(workspace, name)];
      NewFileCount(db, ids);
      PublishToNewFile(db, actor, workspace, name, raw, expected, mission, attempt, ids);
    } else {
      f, files := file.value, db.files;
      PublishToOldFile(db, actor, workspace, name, raw, expected, mission, attempt, ids, f);
    }
  }

  lemma LimitsKept(settings: Settings, files: map<Id, File>, after: map<Id, File>, versions: seq<Version>, v: Version)
    requires WithinLimits(settings, files, versions) && (forall u <- versions :: u.file in files)
    requires v.file in after
    requires Used(versions, files, after[v.file].workspace) + v.size <= settings.quotaBytes
    requires if v.file in files then after == files
             else after == files[v.file := after[v.file]] && |FilesOf(files, after[v.file].workspace)| < 100
    ensures WithinLimits(settings, after, versions + [v])
  {
    forall workspace: Id
      ensures Used(versions + [v], after, workspace) <= settings.quotaBytes && |FilesOf(after, workspace)| <= 100
    {
      assert Used(versions, files, workspace) <= settings.quotaBytes;
      UsedAppend(versions, after, v, workspace);
      if v.file !in files {
        UsedNewFile(versions, files, v.file, after[v.file], workspace);
        MoreFiles(files, v.file, after[v.file], workspace);
      }
    }
  }

  /** Publishing keeps every property of the workspace. */
  lemma PublishKeepsFiles(
    db: Db, actor: Actor, workspace: Id, name: string, raw: Bytes, expected: Option<Id>,
    mission: Option<Id>, attempt: Option<Id>, ids: FreshIds)
    requires WorkspaceOk(db) && NewIds(db, ids)
    requires SafeFileName(name) && workspace in db.workspaces && |raw| <= db.settings.maxFileBytes
    requires Publish(db, actor, workspace, name, raw, expected, mission, attempt, ids).Ok?
    ensures WorkspaceOk(Publish(db, actor, workspace, name, raw, expected, mission, attempt, ids).value.0)
  {
    hide Publish, Linear, Stored, WithinLimits, NamesOk, VersionsLinked, Count, Used, FilesOf, Named, Extended;
    var f, files := PublishAdvances(db, actor, workspace, name, raw, expected, mission, attempt, ids);
    ExtensionKeepsFiles(db, actor, workspace, name, raw, f, files, NextVersion(db, f, raw, mission, attempt, ids), ids);
  }

  lemma ExtensionKeepsFiles(
    db: Db, actor: Actor, workspace: Id, name: string, raw: Bytes, f: Id, files: map<Id, File>, v: Version, ids: FreshIds)
    requires WorkspaceOk(db) && NewIds(db, ids)
    requires SafeFileName(name) && workspace in db.workspaces && |raw| <= db.settings.maxFileBytes
    requires v == NextVersion(db, f, raw, v.mission, v.attempt, ids)
    requires Count(db.versions, f) < 100
    requires Used(db.versions, db.files, workspace) + |raw| <= db.settings.quotaBytes
    requires f in files && files[f].workspace == workspace
    requires if f in db.files then files == db.files
             else files == db.files[f := File(workspace, name)]
                  && (forall g: Id :: !Named(db.files, g, workspace, name)) && |FilesOf(db.files, workspace)| < 100
    ensures WorkspaceOk(Extended(db, actor, v, files, raw, workspace))
  {
    hide Linear, Stored, WithinLimits, NamesOk, VersionsLinked, Count, Used, FilesOf, Named;
    LinearAppend(db.versions, v);
    FilesLinked(db.files, db.versions);
    LimitsKept(db.settings, db.files, files, db.versions, v);
    LinksKept(db.files, files, db.versions, v);
    NamesKept(db.workspaces, db.files, f, workspace, name);
    StoredKept(db.settings, db.versions, db.objects, v, raw);
  }

  lemma FilesLinked(files: map<Id, File>, versions: seq<Version>)
    requires VersionsLinked(files, versions)
    ensures forall v <- versions :: v.file in files
  {
  }

  lemma LinksKept(files: map<Id, File>, after: map<Id, File>, versions: seq<Version>, v: Version)
    requires VersionsLinked(files, versions)
    requires v.file in after && Count(versions, v.file) < 100
    requires if v.file in files then after == files else after == files[v.file := after[v.file]]
    ensures VersionsLinked(after, versions + [v])
  {
    forall g <- after
      ensures 1 <= Count(versions + [v], g) <= 100
    {
      CountAppend(versions, v, g);
    }
  }

  /** Creating a file under a name that no file of the workspace has keeps names unique. */
  lemma NamesKept(workspaces: map<Id, Id>, files: map<Id, File>, f: Id, workspace: Id, name: string)
    requires NamesOk(workspaces, files) && workspace in workspaces && SafeFileName(name)
    ensures f !in files && (forall g: Id :: !Named(files, g, workspace, name)) ==>
              NamesOk(workspaces, files[f := File(workspace, name)])
  {
    if f !in files && forall g: Id :: !Named(files, g, workspace, name) {
      var after := files[f := File(workspace, name)];
      forall g, h | g in after && h in after && after[g].workspace == after[h].workspace
                    && Fold(after[g].name) == Fold(after[h].name)
        ensures g == h
      {
        assert !Named(files, g, workspace, name) && !Named(files, h, workspace, name);
      }
    }
  }

  lemma StoredKept(settings: Settings, versions: seq<Version>, objects: map<Digest, Bytes>, v: Version, raw: Bytes)
    requires Stored(settings, versions, objects)
    requires v.digest == Sha256(raw) && v.size == |raw| <= settings.maxFileBytes
    ensures Stored(settings, versions + [v], objects[Sha256(raw) := raw])
  {
    var after := objects[Sha256(raw) := raw];
    forall u <- versions
      ensures u.digest in after && u.size == |after[u.digest]|
    {
      assert Sha256(objects[u.digest]) == u.digest;
    }
  }

  /** A stored object is never found under content other than its own. */
  lemma NeverCorrupted(
    db: Db, actor: Actor, workspace: Id, name: string, raw: Bytes, expected: Option<Id>,
    mission: Option<Id>, attempt: Option<Id>, ids: FreshIds)
    requires Stored(db.settings, db.versions, db.objects)
    ensures Publish(db, actor, workspace, name, raw, expected, mission, attempt, ids) != Refused(ObjectCorrupted)
  {
    assert Sha256(raw) in db.objects ==> Sha256(db.objects[Sha256(raw)]) == Sha256(raw);
  }
}
