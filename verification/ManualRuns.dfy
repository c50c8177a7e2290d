/** Manual runs: each source is resumed from a young checkpoint or executed once, and archived before the next. */
module ManualRuns {
  import opened Base
  import opened Snapshots
  import opened Caches
  import opened Checkpoints

  /** A planned source; `allowed` are the resources of its policy. */
  datatype Task = Task(source: string, selection: Selection, resources: seq<string>, allowed: set<string>, synthetic: bool)

  datatype Descriptor = Descriptor(request: Request, identity: Identity)

  datatype Event =
    | Resumed(source: string, snapshot: SnapshotId, capturedAt: Stamp, resume: Descriptor)
    | Executed(source: string, snapshot: SnapshotId, capturedAt: Stamp, resume: Descriptor)
    | Incomplete(source: string)

  /** Instants and ages are in microseconds. */
  datatype Plan = Plan(
    tasks: seq<Task>, contexts: map<string, Context>, now: int, maxAge: int, resume: map<string, Descriptor>,
    issuer: Option<string>, key: Option<Bytes>)

  datatype RunFault =
    | TasksRequired | BadTask | Unauthorized | NotEnrolled | BoundRequired | ContextsRequired | UnplannedResume
    | ScopeDiffers | FutureObservation | NoEntry | NotLoaded(refusal: Refusal) | NotSaved(refusal: Refusal)

  const SEVEN_DAYS := 604_800_000_000

  // ----- Plans -----

  predicate DistinctSources(tasks: seq<Task>) {
    forall i, j | 0 <= i < j < |tasks| :: tasks[i].source != tasks[j].source
  }

  /** What a task demands when it is constructed. */
  predicate TaskOk(rules: Rules, t: Task) {
    && SelectionOk(rules, t.source, t.selection)
    && t.resources != [] && Distinct(t.resources) && (forall id <- t.resources :: rules.identifier(id))
    && SelectsAll(t.selection.mode, Members(t.resources))
  }

  /** The plan's issuer presents the key that it was enrolled with. */
  predicate Enrolled(rules: Rules, p: Plan) {
    && p.issuer.Some? && rules.alias(p.issuer.value) && p.key.Some? && |p.key.value| >= 32
    && p.issuer.value in rules.issuers && rules.issuers[p.issuer.value] == p.key.value
  }

  /** What a run demands of its plan before it reads or executes anything. */
  predicate ValidPlan(rules: Rules, p: Plan) {
    && p.tasks != [] && DistinctSources(p.tasks)
    && (forall t <- p.tasks :: TaskOk(rules, t))
    && (forall t <- p.tasks :: Members(t.resources) <= t.allowed)
    && ((forall t <- p.tasks :: t.synthetic) || Enrolled(rules, p))
    && 0 <= p.maxAge <= SEVEN_DAYS
    && p.contexts.Keys == (set t | t in p.tasks :: t.source)
    && (forall source <- p.contexts :: ContextOk(rules, p.contexts[source]))
    && p.resume.Keys <= p.contexts.Keys
  }

  method CheckPlan(rules: Rules, p: Plan) returns (fault: Option<RunFault>)
    ensures fault == None <==> ValidPlan(rules, p)
  {
    hide TaskOk, Enrolled, ContextOk;
    if exists t <- p.tasks :: !TaskOk(rules, t) {
      return Some(BadTask);
    }
    if p.tasks == [] || !DistinctSources(p.tasks) {
      return Some(TasksRequired);
    }
    if exists t <- p.tasks :: !(Members(t.resources) <= t.allowed) {
      return Some(Unauthorized);
    }
    if (exists t <- p.tasks :: !t.synthetic) && !Enrolled(rules, p) {
      return Some(NotEnrolled);
    }
    if p.maxAge < 0 || p.maxAge > SEVEN_DAYS {
      return Some(BoundRequired);
    }
    if p.contexts.Keys != (set t | t in p.tasks :: t.source)
       || exists source <- p.contexts :: !ContextOk(rules, p.contexts[source]) {
      return Some(ContextsRequired);
    }
    if !(p.resume.Keys <= p.contexts.Keys) {
      return Some(UnplannedResume);
    }
    return None;
  }

  /** What holds of each task of a valid plan. */
  predicate Fits(rules: Rules, p: Plan, t: Task) {
    && TaskOk(rules, t) && t.source in p.contexts && ContextOk(rules, p.contexts[t.source])
    && (t.synthetic || Enrolled(rules, p))
  }

  lemma PlannedFits(rules: Rules, p: Plan)
    requires ValidPlan(rules, p)
    ensures forall t <- p.tasks :: Fits(rules, p, t)
  {
    hide TaskOk, Enrolled, ContextOk;
  }

  // ----- The entry that an observation makes -----

  function OriginOf(t: Task): Origin {
    if t.synthetic then Synthetic else Controlled
  }

  function EntryOf(rules: Rules, p: Plan, t: Task, data: Snapshot): Result<Cache, Objection>
    requires Ordered(rules) && t.source in p.contexts
  {
    var context := p.contexts[t.source];
    match MakeRequest(rules, t.source, t.selection, t.resources, context, RevisionsOf(data.records))
    case Refused(objection) => Refused(objection)
    case Ok(request) =>
      match MakeProvenance(rules, data, OriginOf(t), context, if t.synthetic then None else p.issuer,
                           if t.synthetic then None else p.key)
      case Refused(objection) => Refused(objection)
      case Ok(provenance) => MakeCache(rules, request, data, provenance, Validators(None, None))
  }

  /** Revisions that a request may expect. */
  predicate Expectable(records: seq<Entry>) {
    forall id <- RevisionsOf(records) :: RevisionsOf(records)[id].Some? ==> 0 < |RevisionsOf(records)[id].value| <= 256
  }

  /** What an execution of this task may observe. */
  predicate Observed(rules: Rules, t: Task, data: Snapshot)
    requires Ordered(rules)
  {
    Observes(rules, t.source, t.selection, Members(t.resources), data)
  }

  lemma {:induction false} RevisionIds(records: seq<Entry>)
    ensures RevisionsOf(records).Keys == set e | e in records :: e.payload.sourceId
  {
    if records != [] {
      RevisionIds(records[..|records| - 1]);
      assert records == records[..|records| - 1] + [records[|records| - 1]];
    }
  }

  /** The request that an entry of this task answers. */
  function RequestFor(rules: Rules, p: Plan, t: Task, data: Snapshot): Result<Request, Objection>
    requires Ordered(rules) && t.source in p.contexts
  {
    MakeRequest(rules, t.source, t.selection, t.resources, p.contexts[t.source], RevisionsOf(data.records))
  }

  lemma RequestMadeIff(rules: Rules, p: Plan, t: Task, data: Snapshot)
    requires Ordered(rules) && Fits(rules, p, t) && Observed(rules, t, data)
    ensures RequestFor(rules, p, t, data).Ok? <==> Expectable(data.records)
    ensures RequestFor(rules, p, t, data).Ok? ==>
              var r := RequestFor(rules, p, t, data).value;
              && CheckRequest(rules, r) == Ok(r) && Members(r.resources) == Members(t.resources)
              && r == Request(t.source, t.selection, SortKeys(rules.order, Members(t.resources)), p.contexts[t.source],
                              RevisionsOf(data.records))
  {
    hide Valid, SelectionOk, SelectsAll, ContextOk, Enrolled, SelectionText, Distinct;
    RevisionIds(data.records);
    RequestIsFixed(rules, t.source, t.selection, t.resources, p.contexts[t.source], RevisionsOf(data.records));
    SortedMembers(rules.order, Members(t.resources));
  }

  lemma ProvenanceMadeIff(rules: Rules, p: Plan, t: Task, data: Snapshot)
    requires Ordered(rules) && Fits(rules, p, t) && Valid(rules.rank, data)
    ensures var made := MakeProvenance(rules, data, OriginOf(t), p.contexts[t.source], if t.synthetic then None else p.issuer,
                                       if t.synthetic then None else p.key);
            && (made.Ok? <==> t.synthetic || !SyntheticScope(data.scope))
            && (made.Ok? ==>
                  && CheckProvenance(rules, data, made.value) == made
                  && made.value.manifest.context == p.contexts[t.source] && made.value.manifest.origin == OriginOf(t))
  {
    hide Valid, TaskOk, SyntheticScope, ContextOk;
    if t.synthetic || !SyntheticScope(data.scope) {
      MadeIsAcceptedIff(rules, data, OriginOf(t), p.contexts[t.source], if t.synthetic then None else p.issuer,
                        if t.synthetic then None else p.key);
    }
  }

  /**
   * From an observation of a planned task an entry is made exactly when its revisions can be expected and it need not be
   * attested or may be; the entry is valid, and belongs to the task.
   */
  lemma EntryMadeIff(rules: Rules, p: Plan, t: Task, data: Snapshot)
    requires Ordered(rules) && Fits(rules, p, t) && Observed(rules, t, data)
    ensures EntryOf(rules, p, t, data).Ok? <==> Expectable(data.records) && (t.synthetic || !SyntheticScope(data.scope))
    ensures EntryOf(rules, p, t, data).Ok? ==>
              var e := EntryOf(rules, p, t, data).value;
              CheckCache(rules, e) == Ok(e) && Matches(rules, t, p.contexts[t.source], e) && e.snapshot == data
  {
    hide Valid, TaskOk, Enrolled, ContextOk, SyntheticScope, Expectable, CheckProvenance, MakeProvenance, MakeRequest,
        CheckRequest, SelectionText;
    RequestMadeIff(rules, p, t, data);
    ProvenanceMadeIff(rules, p, t, data);
  }

  predicate Matches(rules: Rules, t: Task, context: Context, e: Cache)
    requires Ordered(rules)
  {
    && e.request.source == t.source && e.request.selection == t.selection
    && e.request.resources == SortKeys(rules.order, Members(t.resources)) && e.request.context == context
    && (e.provenance.manifest.origin == Synthetic <==> t.synthetic)
    && e.provenance.manifest.origin != HistoricalUnknown
  }

  function InstantOf(at: Stamp): int {
    if at.instant.Some? then at.instant.value else 0
  }

  function When(data: Snapshot): int {
    InstantOf(data.capturedAt)
  }

  // ----- Descriptors -----

  /** The descriptor loads an entry of this very task. */
  predicate Resumable(rules: Rules, width: Width, files: Files, t: Task, context: Context, d: Descriptor)
    requires Ordered(rules)
  {
    Loads(rules, width, files, d.request, d.identity) && Matches(rules, t, context, files[Published(d.identity)].of)
  }

  lemma ResumableStays(
    rules: Rules, width: Width, before: Files, after: Files, t: Task, context: Context, d: Descriptor)
    requires Ordered(rules) && Resumable(rules, width, before, t, context, d) && Grown(before, after)
    ensures Resumable(rules, width, after, t, context, d)
    ensures after[Published(d.identity)] == before[Published(d.identity)]
  {
    hide CheckCache, CheckRequest, Matches;
  }

  /** The descriptor of a task, if it has one, loads an entry of this very task from the past. */
  predicate Fine(rules: Rules, width: Width, files: Files, p: Plan, t: Task)
    requires Ordered(rules)
  {
    t.source in p.resume ==>
      && t.source in p.contexts
      && Resumable(rules, width, files, t, p.contexts[t.source], p.resume[t.source])
      && When(files[Published(p.resume[t.source].identity)].of.snapshot) <= p.now
  }

  /** The entry that a task reuses: the one of its descriptor, while it is younger than the bound. */
  function Kept(files: Files, p: Plan, t: Task): Option<Cache> {
    if t.source in p.resume && Published(p.resume[t.source].identity) in files
       && p.now - When(files[Published(p.resume[t.source].identity)].of.snapshot) < p.maxAge
    then Some(files[Published(p.resume[t.source].identity)].of)
    else None
  }

  method CheckDescriptor(archive: Archive, p: Plan, t: Task) returns (r: Result<Option<Cache>, RunFault>)
    requires archive.Valid() && t.source in p.contexts
    ensures r.Ok? <==> Fine(archive.rules, archive.width, archive.folder.files, p, t)
    ensures r.Ok? ==> r.value == Kept(archive.folder.files, p, t)
  {
    hide Matches, CheckCache, CheckRequest, Intact;
    if t.source !in p.resume {
      return Ok(None);
    }
    var d := p.resume[t.source];
    var loaded := archive.Load(d.request, d.identity);
    if loaded.Refused? {
      return Refused(NotLoaded(loaded.error));
    }
    if !Matches(archive.rules, t, p.contexts[t.source], loaded.value) {
      return Refused(ScopeDiffers);
    }
    if When(loaded.value.snapshot) > p.now {
      return Refused(FutureObservation);
    }
    return Ok(if p.now - When(loaded.value.snapshot) < p.maxAge then Some(loaded.value) else None);
  }

  /** A task is in the table exactly when its entry is kept, and then with that entry. */
  predicate CachedRight(files: Files, p: Plan, t: Task, cached: map<string, Cache>) {
    Kept(files, p, t) == if t.source in cached then Some(cached[t.source]) else None
  }

  /** Check every descriptor before anything is executed; keep the entries that are young enough. */
  method Preflight(archive: Archive, p: Plan) returns (r: Result<map<string, Cache>, RunFault>)
    requires archive.Valid() && DistinctSources(p.tasks) && forall t <- p.tasks :: t.source in p.contexts
    ensures r.Ok? <==> forall t <- p.tasks :: Fine(archive.rules, archive.width, archive.folder.files, p, t)
    ensures r.Ok? ==> forall t <- p.tasks :: CachedRight(archive.folder.files, p, t, r.value)
  {
    hide Fine, Kept, Intact;
    var cached: map<string, Cache> := map[];
    for i := 0 to |p.tasks|
      invariant forall k | 0 <= k < i :: Fine(archive.rules, archive.width, archive.folder.files, p, p.tasks[k])
      invariant forall k | 0 <= k < i :: CachedRight(archive.folder.files, p, p.tasks[k], cached)
      invariant forall k | i <= k < |p.tasks| :: p.tasks[k].source !in cached
    {
      var t := p.tasks[i];
      assert t in p.tasks;
      var kept := CheckDescriptor(archive, p, t);
      if kept.Refused? {
        return Refused(kept.error);
      }
      if kept.value.Some? {
        cached := cached[t.source := kept.value.value];
      }
    }
    return Ok(cached);
  }

  // ----- Executions -----

  /** What executing a task answers at some turn: a snapshot that it may observe, or nothing. */
  function Answer(rules: Rules, answers: nat -> Option<Snapshot>, t: Task, turn: nat): Option<Snapshot>
    requires Ordered(rules)
  {
    if answers(turn).Some? && Observed(rules, t, answers(turn).value) then answers(turn) else None
  }

  /** The executor of sources; `executed` names the source of each execution. */
  class Executor {
    const rules: Rules
    const answers: nat -> Option<Snapshot>
    var turn: nat
    ghost var executed: seq<string>

    constructor (rules: Rules, answers: nat -> Option<Snapshot>)
      ensures Valid() && this.rules == rules && this.answers == answers && executed == []
    {
      this.rules, this.answers := rules, answers;
      turn, executed := 0, [];
    }

    ghost predicate Valid()
      reads this
    {
      |executed| == turn
    }

    method Execute(t: Task) returns (observed: Option<Snapshot>)
      requires Valid() && Ordered(rules)
      modifies this
      ensures Valid() && executed == old(executed) + [t.source]
      ensures observed == Answer(rules, answers, t, |old(executed)|)
    {
      observed := Answer(rules, answers, t, turn);
      turn, executed := turn + 1, executed + [t.source];
    }
  }

  /** The sources among the first tasks that have to be executed, in order. */
  function Due(files: Files, p: Plan, n: nat): seq<string>
    requires n <= |p.tasks|
  {
    if n == 0 then []
    else Due(files, p, n - 1) + (if Kept(files, p, p.tasks[n - 1]) == None then [p.tasks[n - 1].source] else [])
  }

  /**
   * The event of a task: its kept entry, or what its execution observed, archived under the identity that the event
   * names; or nothing was observed.
   */
  predicate EventFits(
    rules: Rules, width: Width, files: Files, p: Plan, t: Task, kept: Option<Cache>, observed: Option<Snapshot>, e: Event)
    requires Ordered(rules) && t.source in p.contexts
  {
    if kept.Some? then
      && t.source in p.resume
      && e == Resumed(t.source, kept.value.snapshot.id, kept.value.snapshot.capturedAt, p.resume[t.source])
    else if observed == None then e == Incomplete(t.source)
    else
      && EntryOf(rules, p, t, observed.value).Ok?
      && var entry := EntryOf(rules, p, t, observed.value).value;
      && When(observed.value) <= p.now
      && e == Executed(t.source, observed.value.id, observed.value.capturedAt, Descriptor(entry.request, IdentityOf(entry)))
      && Published(IdentityOf(entry)) in files && files[Published(IdentityOf(entry))] == File(entry, width(entry))
      && width(entry) <= MAX_BYTES
  }

  lemma EventStays(
    rules: Rules, width: Width, before: Files, after: Files, p: Plan, t: Task, kept: Option<Cache>,
    observed: Option<Snapshot>, e: Event)
    requires Ordered(rules) && t.source in p.contexts && Grown(before, after)
    requires EventFits(rules, width, before, p, t, kept, observed, e)
    ensures EventFits(rules, width, after, p, t, kept, observed, e)
  {
    hide EntryOf;
  }

  /** A snapshot that a run can neither archive nor pass over. */
  predicate Blocks(rules: Rules, width: Width, p: Plan, t: Task, data: Snapshot)
    requires Ordered(rules) && t.source in p.contexts
  {
    || When(data) > p.now
    || EntryOf(rules, p, t, data).Refused?
    || width(EntryOf(rules, p, t, data).value) > MAX_BYTES
  }

  /** The disk of an archive does every save. */
  ghost predicate Working(disks: nat -> Disk, files: Files) {
    forall n ::
      && disks(n).synced && disks(n).replaced && disks(n).settled && Pending(disks(n).token) !in files
      && forall i :: disks(n).counts(i) > 0
  }

  /** Execute one task, and archive what it observed. */
  method ExecuteTask(archive: Archive, executor: Executor, p: Plan, t: Task) returns (r: Result<Event, RunFault>)
    requires archive.Valid() && executor.Valid() && executor.rules == archive.rules && Fits(archive.rules, p, t)
    modifies archive`saves, archive.folder, executor
    ensures archive.Valid() && executor.Valid() && executor.executed == old(executor.executed) + [t.source]
    ensures Grown(old(archive.folder.files), archive.folder.files)
    ensures archive.folder.SafeSince(archive.width, old(archive.folder.files), old(archive.folder.trace))
    ensures var observed := Answer(archive.rules, executor.answers, t, |old(executor.executed)|);
            && (r.Ok? ==> EventFits(archive.rules, archive.width, archive.folder.files, p, t, None, observed, r.value))
            && (r.Refused? && Working(archive.disks, old(archive.folder.files)) ==>
                  observed.Some? && Blocks(archive.rules, archive.width, p, t, observed.value))
    ensures Working(archive.disks, old(archive.folder.files)) ==> Working(archive.disks, archive.folder.files)
  {
    hide EntryOf, CheckCache, Answer, Observed, Fits, Persists, Intact;
    FitsPlanned(archive.rules, p, t);
    var observed := executor.Execute(t);
    if observed == None {
      return Ok(Incomplete(t.source));
    }
    var data := observed.value;
    if When(data) > p.now {
      return Refused(FutureObservation);
    }
    var made := EntryOf(archive.rules, p, t, data);
    if made.Refused? {
      return Refused(NoEntry);
    }
    var e := made.value;
    AnswerMakes(archive.rules, executor.answers, p, t, |old(executor.executed)|);
    ghost var disk := archive.disks(archive.saves);
    if Working(archive.disks, archive.folder.files) {
      SteadyPersists(archive.width(e), 0, disk.counts, 0);
    }
    var saved := archive.Save(e);
    if saved.Refused? {
      return Refused(NotSaved(saved.error));
    }
    return Ok(Executed(t.source, data.id, data.capturedAt, Descriptor(e.request, saved.value)));
  }

  lemma FitsPlanned(rules: Rules, p: Plan, t: Task)
    requires Fits(rules, p, t)
    ensures t.source in p.contexts
  {
  }

  lemma AnswerMakes(rules: Rules, answers: nat -> Option<Snapshot>, p: Plan, t: Task, turn: nat)
    requires Ordered(rules) && Fits(rules, p, t) && t.source in p.contexts && Answer(rules, answers, t, turn).Some?
    ensures var made := EntryOf(rules, p, t, Answer(rules, answers, t, turn).value);
            made.Ok? ==> CheckCache(rules, made.value) == Ok(made.value)
  {
    hide EntryOf, CheckCache, Observed, Fits;
    EntryMadeIff(rules, p, t, answers(turn).value);
  }

  /** One task: reuse its cached entry, or execute it and archive what it observed before going on. */
  method RunTask(archive: Archive, executor: Executor, p: Plan, t: Task, cached: map<string, Cache>)
    returns (r: Result<Event, RunFault>)
    requires archive.Valid() && executor.Valid() && executor.rules == archive.rules && Fits(archive.rules, p, t)
    requires t.source in p.contexts && (t.source in cached ==> t.source in p.resume)
    modifies archive`saves, archive.folder, executor
    ensures archive.Valid() && executor.Valid() && Grown(old(archive.folder.files), archive.folder.files)
    ensures executor.executed == old(executor.executed) + (if t.source in cached then [] else [t.source])
    ensures archive.folder.SafeSince(archive.width, old(archive.folder.files), old(archive.folder.trace))
    ensures var kept := if t.source in cached then Some(cached[t.source]) else None;
            var observed := Answer(archive.rules, executor.answers, t, |old(executor.executed)|);
            && (r.Ok? ==> EventFits(archive.rules, archive.width, archive.folder.files, p, t, kept, observed, r.value))
            && (r.Refused? ==>
                  && kept == None
                  && (Working(archive.disks, old(archive.folder.files)) ==>
                        observed.Some? && Blocks(archive.rules, archive.width, p, t, observed.value)))
    ensures t.source in cached ==> archive.folder.files == old(archive.folder.files)
    ensures Working(archive.disks, old(archive.folder.files)) ==> Working(archive.disks, archive.folder.files)
  {
    hide EventFits, Answer, Fits, Working, Intact, Grown, Blocks, Ordered;
    if t.source in cached {
      var e := cached[t.source];
      GrownItself(archive.folder.files);
      ResumedFits(archive.rules, archive.width, archive.folder.files, p, t, e, executor.answers, |executor.executed|);
      return Ok(Resumed(t.source, e.snapshot.id, e.snapshot.capturedAt, p.resume[t.source]));
    }
    r := ExecuteTask(archive, executor, p, t);
  }

  // ----- Runs -----

  /** Every descriptor of a valid plan is fine, so the run gets past its checks. */
  predicate Cleared(rules: Rules, width: Width, files: Files, p: Plan)
    requires Ordered(rules)
  {
    ValidPlan(rules, p) && forall t <- p.tasks :: Fine(rules, width, files, p, t)
  }

  /** The events so far are those of the first tasks, the executions numbered from `start` on. */
  ghost predicate AllFit(
    rules: Rules, width: Width, before: Files, files: Files, p: Plan, answers: nat -> Option<Snapshot>, start: nat,
    events: seq<Event>)
    requires Ordered(rules)
  {
    && |events| <= |p.tasks|
    && forall i | 0 <= i < |events| ::
         && p.tasks[i].source in p.contexts
         && EventFits(rules, width, files, p, p.tasks[i], Kept(before, p, p.tasks[i]),
                      Answer(rules, answers, p.tasks[i], start + |Due(before, p, i)|), events[i])
  }

  lemma AllFitMore(
    rules: Rules, width: Width, before: Files, files: Files, later: Files, p: Plan, answers: nat -> Option<Snapshot>,
    start: nat, events: seq<Event>, e: Event)
    requires Ordered(rules) && AllFit(rules, width, before, files, p, answers, start, events) && Grown(files, later)
    requires |events| < |p.tasks| && p.tasks[|events|].source in p.contexts
    requires EventFits(rules, width, later, p, p.tasks[|events|], Kept(before, p, p.tasks[|events|]),
                       Answer(rules, answers, p.tasks[|events|], start + |Due(before, p, |events|)|), e)
    ensures AllFit(rules, width, before, later, p, answers, start, events + [e])
  {
    hide EventFits, Kept, Answer, Due, Grown;
    forall i | 0 <= i < |events|
      ensures EventFits(rules, width, later, p, p.tasks[i], Kept(before, p, p.tasks[i]),
                        Answer(rules, answers, p.tasks[i], start + |Due(before, p, i)|), events[i])
    {
      EventStays(rules, width, files, later, p, p.tasks[i], Kept(before, p, p.tasks[i]),
                 Answer(rules, answers, p.tasks[i], start + |Due(before, p, i)|), events[i]);
    }
  }

  /** The run ended at this task: it was executed, and what it observed could not be archived. */
  ghost predicate StoppedAt(
    rules: Rules, width: Width, disks: nat -> Disk, before: Files, p: Plan, answers: nat -> Option<Snapshot>, start: nat,
    executions: seq<string>, i: nat)
    requires Ordered(rules) && i < |p.tasks|
  {
    var t, answer := p.tasks[i], Answer(rules, answers, p.tasks[i], start + |Due(before, p, i)|);
    && t.source in p.contexts && Kept(before, p, t) == None && executions == Due(before, p, i + 1)
    && (Working(disks, before) ==> answer.Some? && Blocks(rules, width, p, t, answer.value))
  }

  /** The tasks of a checked plan, one after the other. */
  method RunTasks(archive: Archive, executor: Executor, p: Plan, cached: map<string, Cache>)
    returns (r: Result<seq<Event>, RunFault>)
    requires archive.Valid() && executor.Valid() && executor.rules == archive.rules && ValidPlan(archive.rules, p)
    requires forall t <- p.tasks :: CachedRight(archive.folder.files, p, t, cached)
    modifies archive`saves, archive.folder, executor
    ensures archive.Valid() && executor.Valid() && Grown(old(archive.folder.files), archive.folder.files)
    ensures archive.folder.SafeSince(archive.width, old(archive.folder.files), old(archive.folder.trace))
    ensures r.Ok? ==>
              && executor.executed == old(executor.executed) + Due(old(archive.folder.files), p, |p.tasks|)
              && |r.value| == |p.tasks|
              && AllFit(archive.rules, archive.width, old(archive.folder.files), archive.folder.files, p, executor.answers,
                        |old(executor.executed)|, r.value)
    ensures r.Refused? ==>
              && old(executor.executed) <= executor.executed
              && exists i :: 0 <= i < |p.tasks|
                             && StoppedAt(archive.rules, archive.width, archive.disks, old(archive.folder.files), p,
                                          executor.answers, |old(executor.executed)|,
                                          executor.executed[|old(executor.executed)|..], i)
    ensures executor.executed == old(executor.executed) ==> archive.folder.files == old(archive.folder.files)
  {
    hide Intact, Grown, ValidPlan, Fits, Kept, EventFits, Answer, AllFit, Working, Ordered, Blocks, StoppedAt, Due,
        CachedRight;
    ghost var before, start, trace := archive.folder.files, |executor.executed|, archive.folder.trace;
    GrownItself(before);
    PlannedFits(archive.rules, p);
    PlanParts(archive.rules, p);
    NoEvents(archive.rules, archive.width, before, p, executor.answers, start);
    NothingDue(before, p);
    var events: seq<Event> := [];
    for i := 0 to |p.tasks|
      invariant archive.Valid() && executor.Valid() && |events| == i
      invariant Grown(before, archive.folder.files)
      invariant archive.folder.SafeSince(archive.width, before, trace)
      invariant executor.executed == old(executor.executed) + Due(before, p, i)
      invariant AllFit(archive.rules, archive.width, before, archive.folder.files, p, executor.answers, start, events)
      invariant Working(archive.disks, before) ==> Working(archive.disks, archive.folder.files)
      invariant executor.executed == old(executor.executed) ==> archive.folder.files == before
    {
      var t := p.tasks[i];
      assert t in p.tasks;
      ghost var files, since := archive.folder.files, archive.folder.trace;
      CachedMeans(before, p, i, cached);
      var done := RunTask(archive, executor, p, t, cached);
      GrownThrough(before, files, archive.folder.files);
      SafeThrough(archive, before, files, trace, since);
      if done.Refused? {
        assert executor.executed[start..] == Due(before, p, i + 1);
        StopsHere(archive.rules, archive.width, archive.disks, before, p, executor.answers, start, i);
        return Refused(done.error);
      }
      var event := done.value;
      AllFitMore(archive.rules, archive.width, before, files, archive.folder.files, p, executor.answers, start, events,
                 event);
      events := events + [event];
    }
    return Ok(events);
  }

  /**
   * A bad plan or one bad descriptor stops the run before anything is executed or written. Otherwise exactly the tasks
   * without a kept entry are executed, once each and in order; each event is the kept entry or what that execution
   * observed; and at every moment of the run each published checkpoint is whole and every earlier one is still there.
   */
  method RunManual(archive: Archive, executor: Executor, p: Plan) returns (r: Result<seq<Event>, RunFault>)
    requires archive.Valid() && executor.Valid() && executor.rules == archive.rules
    modifies archive`saves, archive.folder, executor
    ensures archive.Valid() && executor.Valid() && Grown(old(archive.folder.files), archive.folder.files)
    ensures archive.folder.SafeSince(archive.width, old(archive.folder.files), old(archive.folder.trace))
    ensures !Cleared(archive.rules, archive.width, old(archive.folder.files), p) ==>
              && r.Refused? && executor.executed == old(executor.executed)
              && archive.folder.files == old(archive.folder.files) && archive.folder.trace == old(archive.folder.trace)
    ensures r.Ok? ==>
              && executor.executed == old(executor.executed) + Due(old(archive.folder.files), p, |p.tasks|)
              && |r.value| == |p.tasks|
              && AllFit(archive.rules, archive.width, old(archive.folder.files), archive.folder.files, p, executor.answers,
                        |old(executor.executed)|, r.value)
    ensures r.Refused? && Cleared(archive.rules, archive.width, old(archive.folder.files), p) ==>
              && old(executor.executed) <= executor.executed
              && exists i :: 0 <= i < |p.tasks|
                             && StoppedAt(archive.rules, archive.width, archive.disks, old(archive.folder.files), p,
                                          executor.answers, |old(executor.executed)|,
                                          executor.executed[|old(executor.executed)|..], i)
    ensures executor.executed == old(executor.executed) ==> archive.folder.files == old(archive.folder.files)
  {
    hide Intact, Grown, ValidPlan, Fine, Fits, Kept, AllFit, Ordered, StoppedAt;
    GrownItself(archive.folder.files);
    var fault := CheckPlan(archive.rules, p);
    if fault.Some? {
      return Refused(fault.value);
    }
    PlanParts(archive.rules, p);
    var checked := Preflight(archive, p);
    if checked.Refused? {
      return Refused(checked.error);
    }
    r := RunTasks(archive, executor, p, checked.value);
  }

  lemma ResumedFits(
    rules: Rules, width: Width, files: Files, p: Plan, t: Task, kept: Cache, answers: nat -> Option<Snapshot>, turn: nat)
    requires Ordered(rules) && t.source in p.contexts && t.source in p.resume
    ensures EventFits(rules, width, files, p, t, Some(kept), Answer(rules, answers, t, turn),
                      Resumed(t.source, kept.snapshot.id, kept.snapshot.capturedAt, p.resume[t.source]))
  {
    hide Answer, EntryOf;
  }

  lemma CachedMeans(files: Files, p: Plan, i: nat, cached: map<string, Cache>)
    requires i < |p.tasks| && CachedRight(files, p, p.tasks[i], cached)
    ensures var source := p.tasks[i].source;
            && (source in cached ==> source in p.resume)
            && Kept(files, p, p.tasks[i]) == (if source in cached then Some(cached[source]) else None)
            && Due(files, p, i + 1) == Due(files, p, i) + (if source in cached then [] else [source])
  {
  }

  lemma PlanParts(rules: Rules, p: Plan)
    requires ValidPlan(rules, p)
    ensures DistinctSources(p.tasks) && forall t <- p.tasks :: t.source in p.contexts
  {
    hide TaskOk, Enrolled, ContextOk;
  }

  lemma StopsHere(
    rules: Rules, width: Width, disks: nat -> Disk, before: Files, p: Plan, answers: nat -> Option<Snapshot>, start: nat,
    i: nat)
    requires Ordered(rules) && i < |p.tasks| && p.tasks[i].source in p.contexts && Kept(before, p, p.tasks[i]) == None
    requires var answer := Answer(rules, answers, p.tasks[i], start + |Due(before, p, i)|);
             Working(disks, before) ==> answer.Some? && Blocks(rules, width, p, p.tasks[i], answer.value)
    ensures StoppedAt(rules, width, disks, before, p, answers, start, Due(before, p, i + 1), i)
  {
    hide Working, Blocks, Answer, Kept;
  }

  lemma NothingDue(files: Files, p: Plan)
    ensures Due(files, p, 0) == []
  {
  }

  lemma NoEvents(
    rules: Rules, width: Width, before: Files, p: Plan, answers: nat -> Option<Snapshot>, start: nat)
    requires Ordered(rules)
    ensures AllFit(rules, width, before, before, p, answers, start, [])
  {
  }

  lemma GrownItself(files: Files)
    ensures Grown(files, files)
  {
  }

  lemma GrownThrough(x: Files, y: Files, z: Files)
    requires Grown(x, y) && Grown(y, z)
    ensures Grown(x, z)
  {
  }

  lemma SafeThrough(archive: Archive, before: Files, files: Files, trace: seq<Files>, since: seq<Files>)
    requires archive.folder.SafeSince(archive.width, files, since) && Grown(before, files) && trace <= since
    requires forall k | |trace| <= k < |since| :: Intact(archive.width, since[k]) && Grown(before, since[k])
    ensures archive.folder.SafeSince(archive.width, before, trace)
  {
    hide Intact, Grown;
    forall k | |trace| <= k < |archive.folder.trace|
      ensures Intact(archive.width, archive.folder.trace[k]) && Grown(before, archive.folder.trace[k])
    {
      if k < |since| {
        assert archive.folder.trace[k] == since[k];
      } else {
        GrownThrough(before, files, archive.folder.trace[k]);
      }
    }
  }

  // ----- Running again -----

  /** The descriptors that the events of a complete run give for its tasks. */
  function Descriptors(tasks: seq<Task>, events: seq<Event>): map<string, Descriptor>
    requires |tasks| == |events| && forall e <- events :: !e.Incomplete?
  {
    if tasks == [] then map[]
    else
      var n := |tasks| - 1;
      Descriptors(tasks[..n], events[..n])[tasks[n].source := events[n].resume]
  }

  lemma {:induction false} DescriptorAt(tasks: seq<Task>, events: seq<Event>, i: nat)
    requires |tasks| == |events| && (forall e <- events :: !e.Incomplete?) && i < |tasks| && DistinctSources(tasks)
    ensures tasks[i].source in Descriptors(tasks, events) && Descriptors(tasks, events)[tasks[i].source] == events[i].resume
  {
    var n := |tasks| - 1;
    if i < n {
      DescriptorAt(tasks[..n], events[..n], i);
    }
  }

  lemma {:induction false} DescriptorKeys(tasks: seq<Task>, events: seq<Event>)
    requires |tasks| == |events| && forall e <- events :: !e.Incomplete?
    ensures forall source <- Descriptors(tasks, events) :: exists t <- tasks :: t.source == source
  {
    if tasks != [] {
      var n := |tasks| - 1;
      DescriptorKeys(tasks[..n], events[..n]);
      assert tasks == tasks[..n] + [tasks[n]];
      assert tasks[n] in tasks && forall t <- tasks[..n] :: t in tasks;
    }
  }

  /** The same tasks, to be resumed from the events of a complete run. */
  function Rerun(p: Plan, again: Plan, events: seq<Event>): Plan
    requires |p.tasks| == |events| && forall e <- events :: !e.Incomplete?
  {
    p.(now := again.now, maxAge := again.maxAge, resume := Descriptors(p.tasks, events))
  }

  lemma RerunIsValid(rules: Rules, p: Plan, again: Plan, events: seq<Event>)
    requires ValidPlan(rules, p) && |p.tasks| == |events| && forall e <- events :: !e.Incomplete?
    requires 0 <= again.maxAge <= SEVEN_DAYS
    ensures ValidPlan(rules, Rerun(p, again, events))
  {
    hide Descriptors, TaskOk, ContextOk;
    DescriptorKeys(p.tasks, events);
  }

  /** An event that is not incomplete points to a checkpoint from which its task can be resumed. */
  lemma EventIsBacked(
    rules: Rules, width: Width, before: Files, files: Files, p: Plan, t: Task, answers: nat -> Option<Snapshot>, turn: nat,
    e: Event)
    requires Ordered(rules) && Fits(rules, p, t) && t.source in p.contexts && !e.Incomplete? && Grown(before, files)
    requires Fine(rules, width, before, p, t)
    requires EventFits(rules, width, files, p, t, Kept(before, p, t), Answer(rules, answers, t, turn), e)
    ensures e.source == t.source && Resumable(rules, width, files, t, p.contexts[t.source], e.resume)
    ensures var entry := files[Published(e.resume.identity)].of;
            entry.snapshot.id == e.snapshot && entry.snapshot.capturedAt == e.capturedAt
  {
    hide Fits, EntryOf, CheckCache, CheckRequest, Matches, Answer, Observed;
    if Kept(before, p, t).Some? {
      ResumableStays(rules, width, before, files, t, p.contexts[t.source], p.resume[t.source]);
    } else {
      AnswerObserved(rules, answers, t, turn);
      var data := Answer(rules, answers, t, turn).value;
      EntryMadeIff(rules, p, t, data);
      CheckedRequest(rules, EntryOf(rules, p, t, data).value);
    }
  }

  lemma AnswerObserved(rules: Rules, answers: nat -> Option<Snapshot>, t: Task, turn: nat)
    requires Ordered(rules)
    ensures Answer(rules, answers, t, turn).Some? ==> Observed(rules, t, Answer(rules, answers, t, turn).value)
  {
    hide Observed;
  }

  /** A descriptor of an event within the age limit is fine, and its entry is kept. */
  lemma RerunKeeps(rules: Rules, width: Width, files: Files, p: Plan, rerun: Plan, t: Task, e: Event)
    requires Ordered(rules) && t.source in rerun.contexts && t.source in rerun.resume && !e.Incomplete?
    requires rerun.resume[t.source] == e.resume && rerun.contexts == p.contexts && t.source in p.contexts
    requires Resumable(rules, width, files, t, p.contexts[t.source], e.resume)
    requires files[Published(e.resume.identity)].of.snapshot.id == e.snapshot
    requires files[Published(e.resume.identity)].of.snapshot.capturedAt == e.capturedAt
    requires 0 <= rerun.now - InstantOf(e.capturedAt) < rerun.maxAge
    ensures Fine(rules, width, files, rerun, t) && Kept(files, rerun, t).Some?
    ensures Kept(files, rerun, t).value.snapshot.id == e.snapshot
    ensures Kept(files, rerun, t).value.snapshot.capturedAt == e.capturedAt
  {
    hide CheckCache, CheckRequest, Matches;
  }

  lemma {:induction false} NoneDue(files: Files, p: Plan, n: nat)
    requires n <= |p.tasks| && forall i | 0 <= i < n :: Kept(files, p, p.tasks[i]).Some?
    ensures Due(files, p, n) == []
  {
    hide Kept;
    if n > 0 {
      NoneDue(files, p, n - 1);
    }
  }

  /** The ages of all events are within the bound. */
  predicate Young(again: Plan, events: seq<Event>) {
    && 0 <= again.maxAge <= SEVEN_DAYS
    && forall e <- events :: !e.Incomplete? && 0 <= again.now - InstantOf(e.capturedAt) < again.maxAge
  }

  /** The new plan resumes this task with what its event says. */
  predicate Resumes(rules: Rules, width: Width, files: Files, rerun: Plan, t: Task, e: Event)
    requires Ordered(rules)
  {
    && !e.Incomplete? && e.source == t.source
    && t.source in rerun.resume && rerun.resume[t.source] == e.resume && Fine(rules, width, files, rerun, t)
    && var kept := Kept(files, rerun, t);
    && kept.Some? && kept.value.snapshot.id == e.snapshot && kept.value.snapshot.capturedAt == e.capturedAt
  }

  lemma RerunResumes(
    rules: Rules, width: Width, before: Files, files: Files, p: Plan, again: Plan, answers: nat -> Option<Snapshot>,
    turn: nat, events: seq<Event>, i: nat)
    requires Ordered(rules) && ValidPlan(rules, p) && Grown(before, files) && i < |events| == |p.tasks|
    requires Fine(rules, width, before, p, p.tasks[i]) && Young(again, events) && p.tasks[i].source in p.contexts
    requires EventFits(rules, width, files, p, p.tasks[i], Kept(before, p, p.tasks[i]),
                       Answer(rules, answers, p.tasks[i], turn), events[i])
    ensures Resumes(rules, width, files, Rerun(p, again, events), p.tasks[i], events[i])
  {
    hide ValidPlan, Fine, Fits, Kept, EventFits, Answer, Descriptors, Resumable, Grown;
    PlannedFits(rules, p);
    PlanParts(rules, p);
    var t := p.tasks[i];
    assert t in p.tasks && events[i] in events;
    EventIsBacked(rules, width, before, files, p, t, answers, turn, events[i]);
    DescriptorAt(p.tasks, events, i);
    RerunKeeps(rules, width, files, p, Rerun(p, again, events), t, events[i]);
  }

  lemma RerunIsYoung(
    rules: Rules, width: Width, before: Files, files: Files, p: Plan, again: Plan, answers: nat -> Option<Snapshot>,
    start: nat, events: seq<Event>)
    requires Ordered(rules) && Cleared(rules, width, before, p) && Grown(before, files) && |events| == |p.tasks|
    requires AllFit(rules, width, before, files, p, answers, start, events) && Young(again, events)
    ensures Cleared(rules, width, files, Rerun(p, again, events))
    ensures forall i | 0 <= i < |events| ::
              Resumes(rules, width, files, Rerun(p, again, events), p.tasks[i], events[i])
  {
    hide ValidPlan, Fine, Kept, EventFits, Answer, Due, Rerun, Grown, Resumes;
    RerunIsValid(rules, p, again, events);
    forall i | 0 <= i < |p.tasks|
      ensures Resumes(rules, width, files, Rerun(p, again, events), p.tasks[i], events[i])
    {
      assert p.tasks[i] in p.tasks;
      RerunResumes(rules, width, before, files, p, again, answers, start + |Due(before, p, i)|, events, i);
    }
    AllResumed(rules, width, files, p, again, events);
  }

  lemma AllResumed(rules: Rules, width: Width, files: Files, p: Plan, again: Plan, events: seq<Event>)
    requires Ordered(rules) && |events| == |p.tasks| && Young(again, events)
    requires forall i | 0 <= i < |events| ::
               Resumes(rules, width, files, Rerun(p, again, events), p.tasks[i], events[i])
    ensures forall t <- Rerun(p, again, events).tasks :: Fine(rules, width, files, Rerun(p, again, events), t)
    ensures forall i | 0 <= i < |p.tasks| :: Kept(files, Rerun(p, again, events), p.tasks[i]).Some?
    ensures Rerun(p, again, events).tasks == p.tasks
  {
    hide Fine, Kept, Descriptors;
  }

  lemma NotStopped(
    rules: Rules, width: Width, disks: nat -> Disk, files: Files, p: Plan, answers: nat -> Option<Snapshot>, start: nat,
    executions: seq<string>)
    requires Ordered(rules) && forall i | 0 <= i < |p.tasks| :: Kept(files, p, p.tasks[i]).Some?
    ensures forall i | 0 <= i < |p.tasks| :: !StoppedAt(rules, width, disks, files, p, answers, start, executions, i)
  {
    hide Kept, Answer, Due, Working, Blocks;
  }

  lemma SecondResumes(
    rules: Rules, width: Width, files: Files, later: Files, rerun: Plan, answers: nat -> Option<Snapshot>, start: nat,
    first: seq<Event>, second: seq<Event>)
    requires Ordered(rules) && |first| == |second| == |rerun.tasks|
    requires forall i | 0 <= i < |first| :: Resumes(rules, width, files, rerun, rerun.tasks[i], first[i])
    requires AllFit(rules, width, files, later, rerun, answers, start, second)
    ensures forall i | 0 <= i < |first| ::
              && !first[i].Incomplete?
              && second[i] == Resumed(first[i].source, first[i].snapshot, first[i].capturedAt, first[i].resume)
  {
    hide Kept, Fine, Answer, EntryOf;
  }

  /**
   * A complete run, then the same tasks again from its own descriptors within the age limit: nothing is executed,
   * nothing is written, and every source reports the same snapshot.
   */
  method RunAgain(archive: Archive, executor: Executor, p: Plan, again: Plan)
    returns (first: Result<seq<Event>, RunFault>, second: Result<seq<Event>, RunFault>)
    requires archive.Valid() && executor.Valid() && executor.rules == archive.rules
    modifies archive`saves, archive.folder, executor
    ensures first.Ok? && Young(again, first.value) ==>
              && second.Ok? && |second.value| == |first.value|
              && (forall i | 0 <= i < |second.value| ::
                    second.value[i] == Resumed(first.value[i].source, first.value[i].snapshot, first.value[i].capturedAt,
                                               first.value[i].resume))
              && executor.executed == old(executor.executed) + Due(old(archive.folder.files), p, |p.tasks|)
  {
    hide Cleared, AllFit, Due, Kept, Grown, Intact, Ordered, Rerun, Resumes, StoppedAt;
    ghost var before, start := archive.folder.files, |executor.executed|;
    first := RunManual(archive, executor, p);
    if first.Refused? || !Young(again, first.value) {
      return first, first;
    }
    ghost var files, executed := archive.folder.files, executor.executed;
    var rerun := Rerun(p, again, first.value);
    RerunIsYoung(archive.rules, archive.width, before, files, p, again, executor.answers, start, first.value);
    AllResumed(archive.rules, archive.width, files, p, again, first.value);
    NoneDue(files, rerun, |rerun.tasks|);
    second := RunManual(archive, executor, rerun);
    if second.Refused? {
      NotStopped(archive.rules, archive.width, archive.disks, files, rerun, executor.answers, |executed|,
                 executor.executed[|executed|..]);
    }
    SecondResumes(archive.rules, archive.width, files, archive.folder.files, rerun, executor.answers, |executed|,
                  first.value, second.value);
  }
}
