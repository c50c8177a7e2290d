/** Immutable checkpoints of validated caches, each under an identity that names its request and its whole content. */
module Checkpoints {
  import opened Base
  import opened Snapshots
  import opened Caches

  /** Digests are free constructors. */
  datatype RequestDigest = RequestOf(request: Request)
  datatype EntryDigest = EntryOf(entry: Cache)
  datatype Identity = Identity(request: RequestDigest, entry: EntryDigest)

  function IdentityOf(e: Cache): Identity {
    Identity(RequestOf(e.request), EntryOf(e))
  }

  /** A file holds the beginning of one document; only all of it can be decoded. */
  datatype File = File(of: Cache, written: nat)

  datatype Name = Published(id: Identity) | Pending(token: nat)

  type Files = map<Name, File>

  /** The encoded size of a document. */
  type Width = Cache -> nat

  datatype Refusal = InvalidCache | TooLarge | Conflict | WriteFailed | WrongRequest | Missing | Damaged

  const MAX_BYTES := 16_777_216

  /** Every published name holds a whole document, the one it names. */
  predicate Intact(width: Width, files: Files) {
    forall n <- files | n.Published? :: files[n].written == width(files[n].of) && IdentityOf(files[n].of) == n.id
  }

  /** What was published is still there and the same. */
  predicate Grown(before: Files, after: Files) {
    forall n <- before | n.Published? :: n in after && after[n] == before[n]
  }

  // ----- A directory, and every state that a crash could leave -----

  class Folder {
    var files: Files
    ghost var trace: seq<Files>

    constructor ()
      ensures Valid() && files == map[] && trace == [map[]]
    {
      files, trace := map[], [map[]];
    }

    ghost predicate Valid()
      reads this
    {
      trace != [] && trace[|trace| - 1] == files
    }

    /** In every state after the old ones each published name is whole, and what was published before is still there. */
    ghost predicate SafeSince(width: Width, before: Files, was: seq<Files>)
      reads this
    {
      && was <= trace
      && forall k | |was| <= k < |trace| :: Intact(width, trace[k]) && Grown(before, trace[k])
    }

    /** Create an empty file that must not exist. */
    method Create(name: Name, e: Cache)
      requires Valid() && name !in files
      modifies this
      ensures Valid() && files == old(files)[name := File(e, 0)] && trace == old(trace) + [files]
    {
      files := files[name := File(e, 0)];
      trace := trace + [files];
    }

    /** Write more of a document; a crash may come after each byte. */
    method Append(name: Name, count: nat)
      requires Valid() && name in files && count >= 1
      modifies this
      ensures Valid() && files == Longer(old(files), name, count)
      ensures trace == old(trace) + Lengthening(old(files), name, count)
    {
      trace := trace + Lengthening(files, name, count);
      files := Longer(files, name, count);
    }

    /** Give a file another name in one step, in place of what had it. */
    method Replace(name: Name, other: Name)
      requires Valid() && name in files && name != other
      modifies this
      ensures Valid() && files == (old(files) - {name})[other := old(files)[name]] && trace == old(trace) + [files]
    {
      files := (files - {name})[other := files[name]];
      trace := trace + [files];
    }

    method Unlink(name: Name)
      requires Valid()
      modifies this
      ensures Valid() && files == old(files) - {name} && trace == old(trace) + [files]
    {
      files := files - {name};
      trace := trace + [files];
    }
  }

  function Longer(files: Files, name: Name, count: nat): Files
    requires name in files
  {
    files[name := files[name].(written := files[name].written + count)]
  }

  /** The states of a file that grows byte by byte. */
  ghost function Lengthening(files: Files, name: Name, count: nat): (states: seq<Files>)
    requires name in files
    ensures |states| == count && forall i | 0 <= i < count :: states[i] == Longer(files, name, i + 1)
  {
    seq(count, i requires 0 <= i < count => Longer(files, name, i + 1))
  }

  // ----- Saving and loading -----

  /** What the system does during one save: the name it draws, what each write takes, and whether the rest works. */
  datatype Disk = Disk(token: nat, counts: nat -> int, synced: bool, replaced: bool, settled: bool)

  /** The writes take a whole document, piece by piece. */
  predicate Persists(size: nat, written: nat, counts: nat -> int, turn: nat)
    decreases if written < size then size - written else 0
  {
    written < size ==> counts(turn) > 0 && Persists(size, written + counts(turn), counts, turn + 1)
  }

  /** A save is successful exactly for a valid entry that is small enough, and already there or written without a fault. */
  predicate Saves(rules: Rules, width: Width, files: Files, e: Cache, disk: Disk)
    requires Ordered(rules)
  {
    && CheckCache(rules, e).Ok? && width(e) <= MAX_BYTES
    && (Published(IdentityOf(e)) in files
        || (Pending(disk.token) !in files && Persists(width(e), 0, disk.counts, 0)
            && disk.synced && disk.replaced && disk.settled))
  }

  /** An entry is loaded exactly for its own canonical request, from its own whole and valid document. */
  predicate Loads(rules: Rules, width: Width, files: Files, request: Request, id: Identity)
    requires Ordered(rules)
  {
    && CheckRequest(rules, request).Ok? && id.request == RequestOf(request) && Published(id) in files
    && var f := files[Published(id)];
    && f.written == width(f.of) <= MAX_BYTES && IdentityOf(f.of) == id && CheckCache(rules, f.of).Ok?
  }

  class Archive {
    const rules: Rules
    const width: Width
    const disks: nat -> Disk
    const folder: Folder
    var saves: nat

    constructor (rules: Rules, width: Width, disks: nat -> Disk)
      requires Ordered(rules)
      ensures Valid() && fresh(folder) && folder.files == map[] && saves == 0
      ensures this.rules == rules && this.width == width && this.disks == disks
    {
      this.rules, this.width, this.disks, saves := rules, width, disks, 0;
      folder := new Folder();
    }

    ghost predicate Valid()
      reads this, folder
    {
      Ordered(rules) && folder.Valid() && Intact(width, folder.files)
    }

    /** In every state since this moment, and now, the published names are those of before, and perhaps this entry's. */
    ghost predicate ShowsOnly(shown: Files, e: Cache, since: nat)
      reads this, folder
    {
      forall k | since <= k < |folder.trace| :: Shows(width, shown, e, folder.trace[k])
    }

    /** Write a document into the pending file, as the system takes it. */
    method WritePending(e: Cache, disk: Disk) returns (ok: bool)
      requires folder.Valid() && Pending(disk.token) in folder.files && folder.files[Pending(disk.token)] == File(e, 0)
      modifies folder
      ensures folder.Valid() && old(folder.trace) <= folder.trace
      ensures forall k | |old(folder.trace)| <= k < |folder.trace| :: Shown(folder.trace[k]) == Shown(old(folder.files))
      ensures ok <==> Persists(width(e), 0, disk.counts, 0)
      ensures exists written :: folder.files == old(folder.files)[Pending(disk.token) := File(e, written)]
      ensures ok ==> folder.files == old(folder.files)[Pending(disk.token) := File(e, width(e))]
    {
      hide Persists, Ordered, Intact;
      var name := Pending(disk.token);
      var written, turn := 0, 0;
      while written < width(e)
        invariant folder.Valid() && written <= width(e) && old(folder.trace) <= folder.trace
        invariant folder.files == old(folder.files)[name := File(e, written)]
        invariant forall k | |old(folder.trace)| <= k < |folder.trace| :: Shown(folder.trace[k]) == Shown(old(folder.files))
        invariant Persists(width(e), 0, disk.counts, 0) <==> Persists(width(e), written, disk.counts, turn)
        decreases width(e) - written
      {
        PersistsOn(width(e), written, disk.counts, turn);
        var count := disk.counts(turn);
        if count <= 0 {
          return false;
        }
        var taken := if written + count < width(e) then count else width(e) - written;
        folder.Append(name, taken);
        written, turn := written + taken, turn + 1;
      }
      PersistsOn(width(e), written, disk.counts, turn);
      return true;
    }

    /** Write a new entry into a pending file and give that file its name, or leave nothing of it. */
    method Publish(e: Cache, disk: Disk) returns (r: Result<Identity, Refusal>)
      requires Valid() && Published(IdentityOf(e)) !in folder.files
      modifies folder
      ensures folder.Valid() && old(folder.trace) <= folder.trace
      ensures ShowsOnly(Shown(old(folder.files)), e, |old(folder.trace)|)
      ensures folder.files == old(folder.files) ==>
                forall k | |old(folder.trace)| <= k < |folder.trace| :: Shown(folder.trace[k]) == Shown(old(folder.files))
      ensures r.Ok? <==> Pending(disk.token) !in old(folder.files) && Persists(width(e), 0, disk.counts, 0)
                         && disk.synced && disk.replaced && disk.settled
      ensures r.Ok? ==> r.value == IdentityOf(e)
      ensures folder.files == old(folder.files)
              || (folder.files == old(folder.files)[Published(IdentityOf(e)) := File(e, width(e))]
                  && (r.Refused? ==> !disk.settled))
      ensures r.Ok? ==> Published(r.value) in folder.files
    {
      hide Persists, Ordered, Intact;
      var name := Pending(disk.token);
      if name in folder.files {
        return Refused(WriteFailed);
      }
      ghost var before := folder.files;
      folder.Create(name, e);
      assert Shown(folder.files) == Shown(before);
      var written := WritePending(e, disk);
      if !written || !disk.synced || !disk.replaced {
        folder.Unlink(name);
        assert folder.files == before;
        return Refused(WriteFailed);
      }
      folder.Replace(name, Published(IdentityOf(e)));
      assert folder.files == before[Published(IdentityOf(e)) := File(e, width(e))];
      assert Shown(folder.files) == Shown(before)[Published(IdentityOf(e)) := File(e, width(e))];
      if !disk.settled {
        return Refused(WriteFailed);
      }
      return Ok(IdentityOf(e));
    }

    /**
     * Publish an entry under its identity, or find it there already. At every moment, also between two bytes, each
     * published name is absent or whole, and what was published stays as it is; no pending file is left behind.
     */
    method Save(e: Cache) returns (r: Result<Identity, Refusal>)
      requires Valid()
      modifies this`saves, folder
      ensures Valid() && saves == old(saves) + 1 && old(folder.trace) <= folder.trace
      ensures forall k | |old(folder.trace)| <= k < |folder.trace| ::
                Intact(width, folder.trace[k]) && Grown(old(folder.files), folder.trace[k])
                && Grown(folder.trace[k], folder.files)
      ensures r.Ok? <==> Saves(rules, width, old(folder.files), e, disks(old(saves)))
      ensures folder.files == old(folder.files)
              || (folder.files == old(folder.files)[Published(IdentityOf(e)) := File(e, width(e))]
                  && CheckCache(rules, e).Ok? && (r.Refused? ==> !disks(old(saves)).settled))
      ensures r.Ok? ==> r.value == IdentityOf(e) && Published(r.value) in folder.files
                        && folder.files[Published(r.value)] == File(e, width(e))
    {
      hide CheckCache, Persists, Ordered, Intact, Grown;
      var disk := disks(saves);
      saves := saves + 1;
      if CheckCache(rules, e).Refused? {
        return Refused(InvalidCache);
      }
      if width(e) > MAX_BYTES {
        return Refused(TooLarge);
      }
      var id := IdentityOf(e);
      if Published(id) in folder.files {
        NamesItsOwn(width, folder.files, e);
        if folder.files[Published(id)] != File(e, width(e)) {
          return Refused(Conflict);
        }
        return Ok(id);
      }
      ghost var before, since := folder.files, |folder.trace|;
      r := Publish(e, disk);
      forall k | since <= k < |folder.trace|
        ensures Intact(width, folder.trace[k]) && Grown(before, folder.trace[k]) && Grown(folder.trace[k], folder.files)
      {
        ShownIsSafe(width, before, e, folder.trace[k], folder.files);
      }
      NowSafe(width, before, e, folder.files);
    }

    /** Read an entry back, for this exact request. */
    method Load(request: Request, id: Identity) returns (r: Result<Cache, Refusal>)
      requires Ordered(rules)
      ensures r.Ok? <==> Loads(rules, width, folder.files, request, id)
      ensures r.Ok? ==> r.value == folder.files[Published(id)].of && r.value.request == request
    {
      hide CheckCache, CheckRequest, Ordered;
      if CheckRequest(rules, request).Refused? || id.request != RequestOf(request) {
        return Refused(WrongRequest);
      }
      if Published(id) !in folder.files {
        return Refused(Missing);
      }
      var f := folder.files[Published(id)];
      if width(f.of) > MAX_BYTES || f.written != width(f.of) || IdentityOf(f.of) != id {
        return Refused(Damaged);
      }
      if CheckCache(rules, f.of).Refused? {
        return Refused(InvalidCache);
      }
      return Ok(f.of);
    }
  }

  /** The published names of a directory, and their files. */
  function Shown(files: Files): Files {
    map n | n in files && n.Published? :: files[n]
  }

  ghost predicate Shows(width: Width, shown: Files, e: Cache, files: Files) {
    Shown(files) == shown || Shown(files) == shown[Published(IdentityOf(e)) := File(e, width(e))]
  }

  lemma NamesItsOwn(width: Width, files: Files, e: Cache)
    requires Intact(width, files) && Published(IdentityOf(e)) in files
    ensures files[Published(IdentityOf(e))] == File(e, width(e))
  {
  }

  lemma NowSafe(width: Width, before: Files, e: Cache, files: Files)
    requires Intact(width, before)
    requires files == before || files == before[Published(IdentityOf(e)) := File(e, width(e))]
    ensures Intact(width, files)
  {
  }

  /** Between what was shown before and what is shown in the end, every state shows whole documents alone. */
  lemma ShownIsSafe(width: Width, before: Files, e: Cache, state: Files, files: Files)
    requires Intact(width, before) && Published(IdentityOf(e)) !in before && Shows(width, Shown(before), e, state)
    requires files == before[Published(IdentityOf(e)) := File(e, width(e))]
             || (files == before && Shown(state) == Shown(before))
    ensures Intact(width, state) && Grown(before, state) && Grown(state, files)
  {
    forall n: Name | n.Published?
      ensures n in state <==> n in Shown(state)
      ensures n in state ==> state[n] == Shown(state)[n]
      ensures n in before <==> n in Shown(before)
      ensures n in before ==> before[n] == Shown(before)[n]
    {
    }
  }

  lemma PersistsOn(size: nat, written: nat, counts: nat -> int, turn: nat)
    ensures written >= size ==> Persists(size, written, counts, turn)
    ensures written < size && counts(turn) <= 0 ==> !Persists(size, written, counts, turn)
    ensures written < size && counts(turn) > 0 ==>
              var taken := if written + counts(turn) < size then counts(turn) else size - written;
              Persists(size, written, counts, turn) <==> Persists(size, written + taken, counts, turn + 1)
  {
  }

  /** Writes that always take something take the whole document. */
  lemma {:induction false} SteadyPersists(size: nat, written: nat, counts: nat -> int, turn: nat)
    requires forall i: nat :: counts(i) > 0
    ensures Persists(size, written, counts, turn)
    decreases if written < size then size - written else 0
  {
    if written < size {
      SteadyPersists(size, written + counts(turn), counts, turn + 1);
    }
  }

  /** What was saved is what is loaded, from then on, whatever else is published and wherever a crash comes. */
  lemma SavedIsLoaded(rules: Rules, width: Width, before: Files, e: Cache, disk: Disk, files: Files, later: Files)
    requires Ordered(rules) && Saves(rules, width, before, e, disk) && Grown(files, later)
    requires Published(IdentityOf(e)) in files && files[Published(IdentityOf(e))] == File(e, width(e))
    ensures Loads(rules, width, later, e.request, IdentityOf(e)) && later[Published(IdentityOf(e))].of == e
  {
    hide CheckRequest, Ordered;
    CheckedRequest(rules, e);
  }

  lemma CheckedRequest(rules: Rules, e: Cache)
    requires Ordered(rules) && CheckCache(rules, e).Ok?
    ensures CheckRequest(rules, e.request) == Ok(e.request)
  {
    hide Observes, CheckProvenance, MakeRequest, ValidatorsOk;
  }
}
