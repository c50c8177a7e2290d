/** What every history of machines and control plane keeps. */
module FleetInvariant {
  import opened Base
  import opened Contracts
  import opened Tables
  import opened Transactions
  import opened Lifecycle
  import opened Ledger
  import opened Attempts
  import opened Files
  import opened Growth
  import opened Invariant
  import opened Planning
  import opened Delivery
  import opened Runs
  import opened Safety
  import opened Worker
  import opened Fleet

  // ----- What every history keeps -----

  /** The index recorded this response for a claim made under this credential. */
  ghost predicate Recorded(operations: map<OperationKey, Operation>, p: Principal, claim: Id, response: Response) {
    && p.epoch.Some?
    && WorkerOperation(p.identity, p.epoch.value, claim) in operations
    && operations[WorkerOperation(p.identity, p.epoch.value, claim)] == Operation(ClaimIntent, response)
  }

  ghost predicate SettledIn(attempts: map<Id, Attempt>, a: Id) {
    a in attempts && Settled(attempts[a].state)
  }

  /** Verdicts that only an executor can make. */
  predicate Verdict(result: ExecutionResult) {
    result.status == Completed || result.status == Failed
  }

  /** The verdict of an execution: what its executor returned, or a failure when it refused; an interruption gives none. */
  predicate Gives(x: Execution, result: ExecutionResult) {
    match x.outcome
    case Returned(returned) => result == returned
    case Refusal =>
      && result.status == Failed && result.outputs == [] && result.error == Some(CpuExecutionFailed)
      && result.attempt == x.request.attempt && result.generation == x.request.generation
    case Interruption => false
  }

  /** An execution of this attempt, in the run that drew this claim, gave this verdict. */
  ghost predicate Made(executed: seq<Execution>, claim: Id, a: Id, result: ExecutionResult) {
    exists i :: 0 <= i < |executed| && executed[i].call.claim == claim && executed[i].call.attempt == a
                && Gives(executed[i], result)
  }

  ghost predicate JournalOk(
    operations: map<OperationKey, Operation>, attempts: map<Id, Attempt>, executed: seq<Execution>, drawn: map<Id, Id>,
    id: Id, worker: Id, j: Journal) {
    && j.claim in drawn && drawn[j.claim] == id && j.worker == worker
    && (j.request.Some? ==> Recorded(operations, j.credential, j.claim, Work(j.request.value)))
    && (j.result.Some? ==> j.request.Some?
                           && (Verdict(j.result.value) ==> Made(executed, j.claim, j.request.value.attempt, j.result.value)))
    && (j.done ==> if j.request == None then Recorded(operations, j.credential, j.claim, NoWork)
                   else SettledIn(attempts, j.request.value.attempt))
  }

  /** Before its executor has been called, a run that did not recover is the only one of its claim. */
  predicate Unexecuted(pc: Pc) {
    pc == AtClaim(false) || pc == AtCheck(false) || pc == AtExecute
  }

  ghost predicate PcOk(executed: seq<Execution>, m: Machine) {
    m.pc != Off ==>
      && m.disk.Some? && !m.disk.value.done
      && var j := m.disk.value;
      && (m.pc.AtClaim? <==> j.request == None)
      && (m.pc.AtObserve? || m.pc.AtFinish? ==> j.result.Some?)
      && (m.pc.AtSave? && Verdict(m.pc.result) ==>
            j.request.Some? && Made(executed, j.claim, j.request.value.attempt, m.pc.result))
  }

  /** What holds of one machine. */
  ghost predicate MachineOk(w: World, executed: seq<Execution>, drawn: map<Id, Id>, id: Id, m: Machine) {
    && PcOk(executed, m)
    && (m.disk.Some? ==> JournalOk(w.db.operations, w.db.attempts, executed, drawn, id, m.worker, m.disk.value))
  }

  ghost predicate MachinesOk(w: World) {
    forall id <- w.machines :: MachineOk(w, w.executed, w.drawn, id, w.machines[id])
  }

  ghost predicate CallOk(operations: map<OperationKey, Operation>, drawn: map<Id, Id>, c: Call) {
    && c.claim in drawn && drawn[c.claim] == c.machine
    && exists r: Request :: r.attempt == c.attempt && Recorded(operations, c.credential, c.claim, Work(r))
  }

  /** Each call was made for a recorded request, each by a claim of its own, and is not still to come. */
  ghost predicate CallsOk(w: World) {
    && (forall c <- w.calls :: CallOk(w.db.operations, w.drawn, c))
    && (forall i, j | 0 <= i < j < |w.calls| :: w.calls[i].claim != w.calls[j].claim)
    && (forall c, id | c in w.calls && id in w.machines && w.machines[id].disk.Some?
                       && w.machines[id].disk.value.claim == c.claim ::
          !Unexecuted(w.machines[id].pc) && w.machines[id].disk.value.request.Some?)
  }

  /** A machine at work has made its call, and that call has not returned. */
  ghost predicate AtWorkOk(calls: seq<Call>, executed: seq<Execution>, id: Id, m: Machine) {
    m.pc == AtWork ==>
      && m.disk.Some? && m.disk.value.request.Some? && CallOf(id, m.disk.value) in calls
      && forall e <- executed :: e.call.claim != m.disk.value.claim
  }

  /** Only calls return, and each returns at most once. */
  ghost predicate ExecutionsOk(w: World) {
    && (forall e <- w.executed :: e.call in w.calls)
    && (forall i, j | 0 <= i < j < |w.executed| :: w.executed[i].call.claim != w.executed[j].call.claim)
    && (forall id <- w.machines :: AtWorkOk(w.calls, w.executed, id, w.machines[id]))
  }

  ghost predicate AnswerOk(operations: map<OperationKey, Operation>, attempts: map<Id, Attempt>, answer: Answer) {
    match answer
    case ClaimAnswer(p, claim, response) => Recorded(operations, p, claim, response)
    case StateAnswer(_, a, status) => Settled(status.state) ==> SettledIn(attempts, a)
    case FinishAnswer(_, a, _, _) => SettledIn(attempts, a)
  }

  ghost predicate MessageOk(executed: seq<Execution>, message: Message) {
    message.FinishMessage? && Verdict(message.result) ==> exists claim :: Made(executed, claim, message.a, message.result)
  }

  /** A machine that has sent a verdict on its attempt keeps some result for it. */
  ghost predicate SentHeld(machines: map<Id, Machine>, sent: set<Message>) {
    forall message, id | message in sent && message.FinishMessage? && Verdict(message.result) && id in machines
                         && machines[id].disk.Some? && machines[id].disk.value.request.Some?
                         && machines[id].disk.value.request.value.attempt == message.a ::
      machines[id].disk.value.result.Some?
  }

  /** A verdict stored under one of our credentials was sent under it. */
  ghost predicate VerdictsSent(
    ours: set<Principal>, attempts: map<Id, Attempt>, epochs: map<Id, nat>, sent: set<Message>) {
    forall a | a in attempts && a in epochs && attempts[a].result.Some? && Verdict(attempts[a].result.value)
               && LeaseCredential(attempts, epochs, a) in ours ::
      FinishMessage(LeaseCredential(attempts, epochs, a), a, attempts[a].result.value) in sent
  }

  ghost predicate WorldOk(ours: set<Principal>, w: World) {
    && Inv(w.db)
    && MachinesOk(w)
    && CallsOk(w)
    && ExecutionsOk(w)
    && (forall answer <- w.answers :: AnswerOk(w.db.operations, w.db.attempts, answer))
    && (forall message <- w.sent :: MessageOk(w.executed, message))
    && SentHeld(w.machines, w.sent)
    && VerdictsSent(ours, w.db.attempts, w.db.epochs, w.sent)
  }

  // ----- The index grows -----

  lemma RecordedStays(before: Db, after: Db, p: Principal, claim: Id, response: Response)
    requires Grows(before, after) && Recorded(before.operations, p, claim, response)
    ensures Recorded(after.operations, p, claim, response)
  {
    hide MissionsGrow, TasksGrow, AttemptsGrow, WorkersGrow;
  }

  lemma SettledStays(before: Db, after: Db, a: Id)
    requires Grows(before, after) && SettledIn(before.attempts, a)
    ensures SettledIn(after.attempts, a)
  {
    hide MissionsGrow, TasksGrow, WorkersGrow;
  }

  lemma JournalStays(before: Db, after: Db, executed: seq<Execution>, drawn: map<Id, Id>, id: Id, worker: Id, j: Journal)
    requires Grows(before, after) && JournalOk(before.operations, before.attempts, executed, drawn, id, worker, j)
    ensures JournalOk(after.operations, after.attempts, executed, drawn, id, worker, j)
  {
    hide Grows, Recorded, SettledIn, Made;
    if j.request.Some? {
      RecordedStays(before, after, j.credential, j.claim, Work(j.request.value));
      if j.done {
        SettledStays(before, after, j.request.value.attempt);
      }
    } else if j.done {
      RecordedStays(before, after, j.credential, j.claim, NoWork);
    }
  }

  lemma CallStays(before: Db, after: Db, drawn: map<Id, Id>, c: Call)
    requires Grows(before, after) && CallOk(before.operations, drawn, c)
    ensures CallOk(after.operations, drawn, c)
  {
    hide Grows, Recorded;
    var r: Request :| r.attempt == c.attempt && Recorded(before.operations, c.credential, c.claim, Work(r));
    RecordedStays(before, after, c.credential, c.claim, Work(r));
  }

  lemma AnswerStays(before: Db, after: Db, answer: Answer)
    requires Grows(before, after) && AnswerOk(before.operations, before.attempts, answer)
    ensures AnswerOk(after.operations, after.attempts, answer)
  {
    hide Grows, Recorded, SettledIn;
    match answer
    case ClaimAnswer(p, claim, response) => RecordedStays(before, after, p, claim, response);
    case StateAnswer(_, a, status) =>
      if Settled(status.state) {
        SettledStays(before, after, a);
      }
    case FinishAnswer(_, a, _, _) => SettledStays(before, after, a);
  }

  lemma MachineStays(w: World, db: Db, id: Id, m: Machine)
    requires Grows(w.db, db) && MachineOk(w, w.executed, w.drawn, id, m)
    ensures MachineOk(w.(db := db), w.executed, w.drawn, id, m)
  {
    hide Grows, PcOk, JournalOk;
    if m.disk.Some? {
      JournalStays(w.db, db, w.executed, w.drawn, id, m.worker, m.disk.value);
    }
  }

  /** The rest of the world stands while the control plane moves. */
  lemma GrowthKeepsWorld(ours: set<Principal>, w: World, db: Db)
    requires WorldOk(ours, w) && Grows(w.db, db) && Inv(db)
    requires VerdictsSent(ours, db.attempts, db.epochs, w.sent)
    ensures WorldOk(ours, w.(db := db))
  {
    hide Inv, Grows, MachineOk, CallOk, AtWorkOk, AnswerOk, MessageOk, VerdictsSent, SentHeld;
    forall id <- w.machines
      ensures MachineOk(w.(db := db), w.executed, w.drawn, id, w.machines[id])
    {
      MachineStays(w, db, id, w.machines[id]);
    }
    forall c <- w.calls
      ensures CallOk(db.operations, w.drawn, c)
    {
      CallStays(w.db, db, w.drawn, c);
    }
    forall answer <- w.answers
      ensures AnswerOk(db.operations, db.attempts, answer)
    {
      AnswerStays(w.db, db, answer);
    }
  }

  lemma MachineReads(w: World, next: World, executed: seq<Execution>, drawn: map<Id, Id>, id: Id, m: Machine)
    requires next.db == w.db && MachineOk(w, executed, drawn, id, m)
    ensures MachineOk(next, executed, drawn, id, m)
  {
    hide PcOk, JournalOk;
  }

  lemma AnswerKeepsWorld(ours: set<Principal>, w: World, answer: Answer)
    requires WorldOk(ours, w) && AnswerOk(w.db.operations, w.db.attempts, answer)
    ensures WorldOk(ours, w.(answers := w.answers + {answer}))
  {
    hide Inv, MachineOk, CallOk, AtWorkOk, AnswerOk, MessageOk, VerdictsSent, SentHeld;
    var next := w.(answers := w.answers + {answer});
    forall id <- w.machines
      ensures MachineOk(next, w.executed, w.drawn, id, w.machines[id])
    {
      MachineReads(w, next, w.executed, w.drawn, id, w.machines[id]);
    }
  }

  // ----- The control plane's moves -----

  /** Nobody but a machine of ours adds a verdict under one of our credentials. */
  lemma VerdictsKept(ours: set<Principal>, w: World, action: Action, next: Db)
    requires WorldOk(ours, w) && StepsTo(w.db, action, next)
    requires action.Finish? ==> action.p !in ours || FinishMessage(action.p, action.a, action.result) in w.sent
    ensures VerdictsSent(ours, next.attempts, next.epochs, w.sent)
  {
    hide Inv, Linked, Enabled, Apply, AnswerOk, MachinesOk, CallsOk, ExecutionsOk, Grows, MessageOk, SentHeld;
    StepKept(w.db, action);
    StepTouches(w.db, action);
    forall a | a in next.attempts && a in next.epochs && next.attempts[a].result.Some?
               && Verdict(next.attempts[a].result.value) && LeaseCredential(next.attempts, next.epochs, a) in ours
      ensures FinishMessage(LeaseCredential(next.attempts, next.epochs, a), a, next.attempts[a].result.value) in w.sent
    {
      EpochKept(w.db, next, a);
      if a in w.db.attempts && w.db.attempts[a].result.Some? {
        SettledKept(w.db, next, a);
      } else {
        NewVerdict(ours, w, action, next, a);
      }
    }
  }

  lemma EpochKept(before: Db, after: Db, a: Id)
    requires Grows(before, after) && Inv(before) && a in after.attempts && a in after.epochs
    ensures a in before.attempts ==>
              && a in before.epochs
              && LeaseCredential(after.attempts, after.epochs, a) == LeaseCredential(before.attempts, before.epochs, a)
  {
    hide MissionsGrow, TasksGrow, WorkersGrow;
    if a in before.attempts {
      CreditedEpoch(before, a);
    }
  }

  lemma CreditedEpoch(db: Db, a: Id)
    requires Inv(db) && a in db.attempts
    ensures a in db.epochs
  {
    hide Life, LedgerOk, ClaimsOk, FilesOk, OriginsOk, ResultsOk, Numbered, Generations, Reported, WorkersOk;
  }

  lemma SettledKept(before: Db, after: Db, a: Id)
    requires Grows(before, after) && Inv(before) && a in before.attempts && before.attempts[a].result.Some?
    ensures a in after.attempts && after.attempts[a] == before.attempts[a]
  {
    hide MissionsGrow, TasksGrow, WorkersGrow;
    ReportedIsSettled(before, a);
  }

  lemma ReportedIsSettled(db: Db, a: Id)
    requires Inv(db) && a in db.attempts && db.attempts[a].result.Some?
    ensures Settled(db.attempts[a].state)
  {
    hide Life, LedgerOk, ClaimsOk, FilesOk, OriginsOk, ResultsOk, Numbered, Generations, Credited, WorkersOk;
  }

  lemma NewVerdict(ours: set<Principal>, w: World, action: Action, next: Db, a: Id)
    requires TouchedOrAccepted(w.db, action, next)
    requires a in next.attempts && a in next.epochs && next.attempts[a].result.Some?
    requires a !in w.db.attempts || w.db.attempts[a].result == None
    requires a in w.db.attempts ==>
               && a in w.db.epochs
               && LeaseCredential(next.attempts, next.epochs, a) == LeaseCredential(w.db.attempts, w.db.epochs, a)
    requires Verdict(next.attempts[a].result.value) && LeaseCredential(next.attempts, next.epochs, a) in ours
    requires action.Finish? ==> action.p !in ours || FinishMessage(action.p, action.a, action.result) in w.sent
    ensures FinishMessage(LeaseCredential(next.attempts, next.epochs, a), a, next.attempts[a].result.value) in w.sent
  {
    hide NoVerdict, Policy;
    assert action.Finish? && action.a == a;
    assert action.p == LeaseCredential(w.db.attempts, w.db.epochs, a);
  }

  lemma ServeKeepsWorld(ours: set<Principal>, w: World, action: Action, next: Db)
    requires WorldOk(ours, w) && StepsTo(w.db, action, next)
    requires action.Finish? ==> action.p !in ours || FinishMessage(action.p, action.a, action.result) in w.sent
    ensures WorldOk(ours, w.(db := next))
  {
    hide Inv, Linked, Enabled, Apply, MachinesOk, CallsOk, ExecutionsOk, AnswerOk, MessageOk, VerdictsSent, Grows;
    StepKept(w.db, action);
    VerdictsKept(ours, w, action, next);
    GrowthKeepsWorld(ours, w, next);
  }

  lemma ClaimAnswered(db: Db, p: Principal, claim: Id, inputs: ClaimInputs)
    requires Linked(db) && (forall a <- inputs.rows :: a in db.attempts)
    requires ClaimCall(db, p, claim, inputs).1.Ok?
    ensures Recorded(ClaimCall(db, p, claim, inputs).0.operations, p, claim, ClaimCall(db, p, claim, inputs).1.value)
  {
    hide ClaimEffect, Policy;
  }

  lemma ReportIsSettled(db: Db, p: Principal, a: Id, result: ExecutionResult, ids: FreshIds, now: real)
    requires Inv(db) && NewIds(db, ids) && Linked(db) && FinishTx(db, p, a, result, ids, now).1.Ok?
    ensures SettledIn(FinishTx(db, p, a, result, ids, now).0.attempts, a)
  {
    hide Inv, Linked, NewIds, FinishTx, Grows, Authorize;
    FinishKeepsInv(db, p, a, result, ids, now);
    ReportedIsSettled(FinishTx(db, p, a, result, ids, now).0, a);
  }

  lemma ReadStatus(db: Db, p: Principal, a: Id)
    requires StatusOf(db, p, a).Some?
    ensures Settled(StatusOf(db, p, a).value.state) ==> SettledIn(db.attempts, a)
  {
  }

  lemma ServeClaimKeepsWorld(ours: set<Principal>, w: World, p: Principal, claim: Id, inputs: ClaimInputs, next: World)
    requires WorldOk(ours, w) && Moves(ours, w, ServeClaim(p, claim, inputs), next)
    ensures WorldOk(ours, next)
  {
    hide WorldOk, ClaimCall, Recorded, NewLease, LeasedRows, Linked;
    LeasedRowsKnown(w.db, None, inputs.rows);
    ServeKeepsWorld(ours, w, Claim(p, claim, inputs), next.db);
    if ClaimCall(w.db, p, claim, inputs).1.Ok? {
      ClaimAnswered(w.db, p, claim, inputs);
      AnswerKeepsWorld(ours, w.(db := next.db), ClaimAnswer(p, claim, ClaimCall(w.db, p, claim, inputs).1.value));
    }
  }

  lemma ServeFinishKeepsWorld(
    ours: set<Principal>, w: World, p: Principal, a: Id, result: ExecutionResult, ids: FreshIds, now: real, next: World)
    requires WorldOk(ours, w) && Moves(ours, w, ServeFinish(p, a, result, ids, now), next)
    ensures WorldOk(ours, next)
  {
    hide WorldOk, FinishTx, SettledIn, MessageOk, NewIds, Linked;
    WorldParts(ours, w);
    ServeKeepsWorld(ours, w, Finish(p, a, result, ids, now), next.db);
    if FinishTx(w.db, p, a, result, ids, now).1.Ok? {
      ReportIsSettled(w.db, p, a, result, ids, now);
      AnswerKeepsWorld(ours, w.(db := next.db),
                       FinishAnswer(p, a, result, FinishTx(w.db, p, a, result, ids, now).1.value.mission));
    }
  }

  lemma WorldParts(ours: set<Principal>, w: World)
    requires WorldOk(ours, w)
    ensures Inv(w.db)
    ensures forall message <- w.sent :: MessageOk(w.executed, message)
    ensures forall answer <- w.answers :: AnswerOk(w.db.operations, w.db.attempts, answer)
    ensures MachinesOk(w) && CallsOk(w) && ExecutionsOk(w) && SentHeld(w.machines, w.sent)
    ensures VerdictsSent(ours, w.db.attempts, w.db.epochs, w.sent)
  {
    hide Inv, MachinesOk, CallsOk, ExecutionsOk, VerdictsSent, MessageOk, AnswerOk, SentHeld;
  }

  lemma ServeStateKeepsWorld(ours: set<Principal>, w: World, p: Principal, a: Id, next: World)
    requires WorldOk(ours, w) && Moves(ours, w, ServeState(p, a), next)
    ensures WorldOk(ours, next)
  {
    hide WorldOk, StatusOf, SettledIn;
    if StatusOf(w.db, p, a).Some? {
      ReadStatus(w.db, p, a);
      AnswerKeepsWorld(ours, w, StateAnswer(p, a, StatusOf(w.db, p, a).value));
    }
  }

  // ----- A machine's moves -----

  /** Two claims whose responses name one attempt are the same claim. */
  lemma SameAttemptSameClaim(db: Db, p: Principal, claim: Id, r: Request, q: Principal, other: Id, u: Request)
    requires Inv(db) && Recorded(db.operations, p, claim, Work(r)) && Recorded(db.operations, q, other, Work(u))
    requires r.attempt == u.attempt
    ensures claim == other && p.identity == q.identity && p.epoch == q.epoch
  {
    hide Life, LedgerOk, LeasesOk, FilesOk, OriginsOk, ResultsOk, RequestMatches;
    var key, same := WorkerOperation(p.identity, p.epoch.value, claim), WorkerOperation(q.identity, q.epoch.value, other);
    assert ClaimRecorded(db.operations, key) && ClaimRecorded(db.operations, same);
    assert ClaimedAttempt(db.operations, key) == ClaimedAttempt(db.operations, same);
  }

  /** Two machines never hold the same attempt. */
  lemma HoldersAreOne(w: World, id: Id, other: Id)
    requires Inv(w.db) && MachinesOk(w) && id in w.machines && other in w.machines
    requires w.machines[id].disk.Some? && w.machines[id].disk.value.request.Some?
    requires w.machines[other].disk.Some? && w.machines[other].disk.value.request.Some?
    requires w.machines[id].disk.value.request.value.attempt == w.machines[other].disk.value.request.value.attempt
    ensures id == other
  {
    hide Inv, Recorded, SettledIn, Made, PcOk;
    var j, k := w.machines[id].disk.value, w.machines[other].disk.value;
    assert MachineOk(w, w.executed, w.drawn, id, w.machines[id]);
    assert MachineOk(w, w.executed, w.drawn, other, w.machines[other]);
    SameAttemptSameClaim(w.db, j.credential, j.claim, j.request.value, k.credential, k.claim, k.request.value);
  }

  /** What a machine sends at the end of a run is what its journal holds. */
  lemma SendsItsJournal(w: World, id: Id)
    requires MachinesOk(w) && id in w.machines && Outgoing(w.machines[id]).Some?
    requires Outgoing(w.machines[id]).value.FinishMessage?
    ensures var m, message := w.machines[id], Outgoing(w.machines[id]).value;
            && m.disk.Some? && m.disk.value.request.Some? && m.disk.value.request.value.attempt == message.a
            && m.disk.value.result == Some(message.result) && m.disk.value.credential == message.p
            && (Verdict(message.result) ==> Made(w.executed, m.disk.value.claim, message.a, message.result))
  {
    hide Recorded, SettledIn, Made;
    assert MachineOk(w, w.executed, w.drawn, id, w.machines[id]);
  }

  lemma TransmitHeld(w: World, id: Id, next: World)
    requires Inv(w.db) && MachinesOk(w) && SentHeld(w.machines, w.sent) && id in w.machines
    requires Outgoing(w.machines[id]).Some? && next == w.(sent := w.sent + {Outgoing(w.machines[id]).value})
    ensures SentHeld(next.machines, next.sent)
  {
    hide Inv, MachinesOk, Outgoing;
    var message := Outgoing(w.machines[id]).value;
    if message.FinishMessage? {
      SendsItsJournal(w, id);
      forall other | other in w.machines && w.machines[other].disk.Some? && w.machines[other].disk.value.request.Some?
                     && w.machines[other].disk.value.request.value.attempt == message.a
        ensures w.machines[other].disk.value.result.Some?
      {
        HoldersAreOne(w, id, other);
      }
    }
  }

  lemma TransmitKeepsWorld(ours: set<Principal>, w: World, id: Id, next: World)
    requires WorldOk(ours, w) && Moves(ours, w, Transmit(id), next)
    ensures WorldOk(ours, next)
  {
    hide Inv, MachineOk, CallOk, AtWorkOk, AnswerOk, MessageOk, VerdictsSent, SentHeld, Outgoing;
    TransmitHeld(w, id, next);
    SentIsMade(w, id);
    forall other <- w.machines
      ensures MachineOk(next, w.executed, w.drawn, other, w.machines[other])
    {
      MachineReads(w, next, w.executed, w.drawn, other, w.machines[other]);
    }
    MoreSent(ours, w.db.attempts, w.db.epochs, w.sent, next.sent);
  }

  lemma SentIsMade(w: World, id: Id)
    requires MachinesOk(w) && id in w.machines && Outgoing(w.machines[id]).Some?
    ensures MessageOk(w.executed, Outgoing(w.machines[id]).value)
  {
    hide MachinesOk, Outgoing, Made;
    if Outgoing(w.machines[id]).value.FinishMessage? {
      SendsItsJournal(w, id);
    }
  }

  lemma MoreSent(ours: set<Principal>, attempts: map<Id, Attempt>, epochs: map<Id, nat>, sent: set<Message>,
      more: set<Message>)
    requires VerdictsSent(ours, attempts, epochs, sent) && sent <= more
    ensures VerdictsSent(ours, attempts, epochs, more)
  {
  }

  lemma MadeStays(executed: seq<Execution>, more: seq<Execution>, claim: Id, a: Id, result: ExecutionResult)
    requires Made(executed, claim, a, result) && executed <= more
    ensures Made(more, claim, a, result)
  {
    var i :| 0 <= i < |executed| && executed[i].call.claim == claim && executed[i].call.attempt == a
             && Gives(executed[i], result);
    assert more[i] == executed[i];
  }

  lemma ClaimSignalOk(w: World, id: Id, m: Machine, response: Response)
    requires MachineOk(w, w.executed, w.drawn, id, m) && m.pc.AtClaim?
    requires Recorded(w.db.operations, m.disk.value.credential, m.disk.value.claim, response)
    ensures MachineOk(w, w.executed, w.drawn, id, AfterClaim(m, m.disk.value, m.pc.recovering, response))
  {
    hide Recorded, SettledIn, Made, RequestFits;
  }

  lemma CheckSignalOk(w: World, id: Id, m: Machine, status: Status)
    requires MachineOk(w, w.executed, w.drawn, id, m) && m.pc.AtCheck? && m.disk.value.request.Some?
    requires Settled(status.state) ==> SettledIn(w.db.attempts, m.disk.value.request.value.attempt)
    ensures MachineOk(w, w.executed, w.drawn, id,
                      AfterCheck(m, m.disk.value, m.disk.value.request.value, m.pc.recovering, status))
  {
    hide Recorded, SettledIn, Made, Replayable;
  }

  lemma ObserveSignalOk(w: World, id: Id, m: Machine, status: Status)
    requires MachineOk(w, w.executed, w.drawn, id, m) && m.pc.AtObserve? && m.disk.value.request.Some?
    requires Settled(status.state) ==> SettledIn(w.db.attempts, m.disk.value.request.value.attempt)
    ensures MachineOk(w, w.executed, w.drawn, id, AfterObserve(m, m.disk.value, m.disk.value.request.value, status))
  {
    hide Recorded, SettledIn, Made;
  }

  lemma FinishSignalOk(w: World, id: Id, m: Machine, mission: Id)
    requires MachineOk(w, w.executed, w.drawn, id, m) && m.pc.AtFinish? && m.disk.value.request.Some?
    requires SettledIn(w.db.attempts, m.disk.value.request.value.attempt)
    ensures MachineOk(w, w.executed, w.drawn, id, After(m, Acknowledged(mission)).value)
  {
    hide Recorded, SettledIn, Made;
  }

  lemma BeginSignalOk(w: World, id: Id, m: Machine, p: Principal, recover: bool, claim: Id)
    requires MachineOk(w, w.executed, w.drawn, id, m) && m.pc == Off && claim !in w.drawn
    ensures MachineOk(w, w.executed, w.drawn[claim := id], id, Started(m, p, recover, claim))
  {
    hide Recorded, SettledIn, Made, RequestFits;
  }

  lemma CallSignalOk(w: World, id: Id, m: Machine)
    requires MachineOk(w, w.executed, w.drawn, id, m) && m.pc == AtExecute && m.disk.value.request.Some?
    ensures MachineOk(w, w.executed, w.drawn, id, m.(pc := AtWork))
  {
    hide Recorded, SettledIn, Made;
  }

  lemma ExecuteSignalOk(w: World, id: Id, m: Machine, outcome: Outcome)
    requires MachineOk(w, w.executed, w.drawn, id, m) && m.pc == AtWork && m.disk.value.request.Some?
    ensures var j := m.disk.value;
            var result := ResultOf(j.request.value, outcome);
            MachineOk(w, w.executed + [Execution(CallOf(id, j), j.request.value, outcome)], w.drawn, id, m.(pc := AtSave(result)))
  {
    hide Recorded, SettledIn;
    var j := m.disk.value;
    var r := j.request.value;
    var more := w.executed + [Execution(CallOf(id, j), r, outcome)];
    if Verdict(ResultOf(r, outcome)) {
      assert Gives(more[|w.executed|], ResultOf(r, outcome));
    }
    if j.result.Some? && Verdict(j.result.value) {
      MadeStays(w.executed, more, j.claim, r.attempt, j.result.value);
    }
  }

  lemma SaveSignalOk(w: World, id: Id, m: Machine)
    requires MachineOk(w, w.executed, w.drawn, id, m) && m.pc.AtSave? && m.disk.value.request.Some?
    ensures MachineOk(w, w.executed, w.drawn, id, After(m, Saved).value)
  {
    hide Recorded, SettledIn, Made;
  }

  /** A machine keeps the claim of its journal, or begins a new one; only a new one has yet to reach its executor. */
  lemma ClaimAfter(m: Machine, e: Signal)
    requires After(m, e).Some?
    requires m.pc != Off ==> m.disk.Some?
    ensures var next := After(m, e).value;
            next.disk.Some? ==>
              || (m.disk.Some? && next.disk.value.claim == m.disk.value.claim
                  && (Unexecuted(next.pc) ==> Unexecuted(m.pc) && !e.Called?))
              || (e.Begin? && next.disk.value.claim == e.claim)
    ensures e.Called? ==> m.pc == AtExecute && m.disk.Some? && m.disk.value.request.Some?
  {
    hide RequestFits, Replayable;
  }

  lemma HeardOk(w: World, j: Journal, e: Signal)
    requires forall answer <- w.answers :: AnswerOk(w.db.operations, w.db.attempts, answer)
    requires Heard(w.answers, j, e)
    ensures e.Claimed? ==> Recorded(w.db.operations, j.credential, j.claim, e.response)
    ensures e.Checked? || e.Observed? ==>
              j.request.Some? && (Settled(e.status.state) ==> SettledIn(w.db.attempts, j.request.value.attempt))
    ensures e.Acknowledged? ==> j.request.Some? && SettledIn(w.db.attempts, j.request.value.attempt)
  {
    hide Recorded, SettledIn;
    match e
    case Claimed(response) =>
      assert AnswerOk(w.db.operations, w.db.attempts, ClaimAnswer(j.credential, j.claim, response));
    case Checked(status) =>
      assert AnswerOk(w.db.operations, w.db.attempts, StateAnswer(j.credential, j.request.value.attempt, status));
    case Observed(status) =>
      assert AnswerOk(w.db.operations, w.db.attempts, StateAnswer(j.credential, j.request.value.attempt, status));
    case Acknowledged(mission) =>
      assert AnswerOk(w.db.operations, w.db.attempts,
                      FinishAnswer(j.credential, j.request.value.attempt, j.result.value, mission));
    case _ =>
  }

  lemma StopSignalOk(w: World, id: Id, m: Machine)
    requires MachineOk(w, w.executed, w.drawn, id, m)
    ensures MachineOk(w, w.executed, w.drawn, id, Stopped(m))
  {
    hide Recorded, SettledIn, Made;
  }

  lemma RunningHasJournal(w: World, id: Id, m: Machine)
    requires MachineOk(w, w.executed, w.drawn, id, m) && m.pc != Off
    ensures m.disk.Some? && (m.pc.AtClaim? || m.disk.value.request.Some?)
  {
  }

  lemma LocalMachineOk(ours: set<Principal>, w: World, id: Id, e: Signal, next: World)
    requires LocalStep(ours, w, id, e, next)
    requires MachineOk(w, w.executed, w.drawn, id, w.machines[id])
    requires forall answer <- w.answers :: AnswerOk(w.db.operations, w.db.attempts, answer)
    ensures MachineOk(w, next.executed, next.drawn, id, next.machines[id])
  {
    hide MachineOk, AnswerOk, Recorded, SettledIn, Heard, AfterClaim, AfterCheck, AfterObserve, Started, Save, Stopped;
    var m := w.machines[id];
    if m.pc != Off {
      RunningHasJournal(w, id, m);
      HeardOk(w, m.disk.value, e);
    }
    match e
    case Stop => StopSignalOk(w, id, m);
    case Begin(p, recover, claim) => BeginSignalOk(w, id, m, p, recover, claim);
    case Claimed(response) => ClaimSignalOk(w, id, m, response);
    case Checked(status) => CheckSignalOk(w, id, m, status);
    case Called => CallSignalOk(w, id, m);
    case Executed(outcome) => ExecuteSignalOk(w, id, m, outcome);
    case Saved => SaveSignalOk(w, id, m);
    case Observed(status) => ObserveSignalOk(w, id, m, status);
    case Acknowledged(mission) => FinishSignalOk(w, id, m, mission);
  }

  lemma MachineFramed(w: World, executed: seq<Execution>, drawn: map<Id, Id>, id: Id, m: Machine)
    requires MachineOk(w, w.executed, w.drawn, id, m) && w.executed <= executed && Extends(w.drawn, drawn)
    ensures MachineOk(w, executed, drawn, id, m)
  {
    hide Recorded, SettledIn, Made;
    if m.disk.Some? {
      var j := m.disk.value;
      if j.result.Some? && Verdict(j.result.value) {
        MadeStays(w.executed, executed, j.claim, j.request.value.attempt, j.result.value);
      }
      if m.pc.AtSave? && Verdict(m.pc.result) {
        MadeStays(w.executed, executed, j.claim, j.request.value.attempt, m.pc.result);
      }
    }
  }

  lemma DrawnExtends(ours: set<Principal>, w: World, id: Id, e: Signal, next: World)
    requires LocalStep(ours, w, id, e, next)
    ensures Extends(w.drawn, next.drawn) && w.calls <= next.calls && w.executed <= next.executed && next.db == w.db
    ensures next.machines.Keys == w.machines.Keys && (forall o <- w.machines | o != id :: next.machines[o] == w.machines[o])
  {
    hide After, Heard;
  }

  lemma LocalMachines(ours: set<Principal>, w: World, id: Id, e: Signal, next: World)
    requires WorldOk(ours, w) && LocalStep(ours, w, id, e, next)
    ensures MachinesOk(next)
  {
    hide MachineOk, CallsOk, ExecutionsOk, Inv, Extends, WorldOk, LocalStep, AnswerOk;
    WorldParts(ours, w);
    DrawnExtends(ours, w, id, e, next);
    StepMachine(ours, w, id, e, next);
    LocalMachineOk(ours, w, id, e, next);
    forall other <- next.machines
      ensures MachineOk(next, next.executed, next.drawn, other, next.machines[other])
    {
      if other != id {
        MachineFramed(w, next.executed, next.drawn, other, w.machines[other]);
      }
      MachineReads(w, next, next.executed, next.drawn, other, next.machines[other]);
    }
  }

  lemma StepMachine(ours: set<Principal>, w: World, id: Id, e: Signal, next: World)
    requires LocalStep(ours, w, id, e, next)
    ensures id in w.machines && id in next.machines
    ensures After(w.machines[id], e) == Some(next.machines[id])
    ensures e.Begin? ==> e.claim !in w.drawn
  {
    hide After, Heard;
  }

  lemma NewCallOk(w: World, id: Id)
    requires MachinesOk(w) && id in w.machines && w.machines[id].disk.Some? && w.machines[id].disk.value.request.Some?
    ensures CallOk(w.db.operations, w.drawn, CallOf(id, w.machines[id].disk.value))
  {
    hide Recorded, SettledIn, Made, PcOk;
    assert MachineOk(w, w.executed, w.drawn, id, w.machines[id]);
  }

  lemma CallDrawn(operations: map<OperationKey, Operation>, drawn: map<Id, Id>, more: map<Id, Id>, c: Call)
    requires CallOk(operations, drawn, c) && Extends(drawn, more)
    ensures CallOk(operations, more, c) && c.claim in drawn
  {
    hide Recorded;
  }

  lemma ClaimIsDrawn(w: World, id: Id)
    requires MachinesOk(w) && id in w.machines && w.machines[id].disk.Some?
    ensures w.machines[id].disk.value.claim in w.drawn && w.drawn[w.machines[id].disk.value.claim] == id
  {
    hide Recorded, SettledIn, Made, PcOk;
    assert MachineOk(w, w.executed, w.drawn, id, w.machines[id]);
  }

  lemma LocalCalled(ours: set<Principal>, w: World, id: Id, e: Signal, next: World)
    requires MachinesOk(w) && CallsOk(w) && LocalStep(ours, w, id, e, next) && e.Called?
    requires w.machines[id].pc == AtExecute && w.machines[id].disk.Some? && w.machines[id].disk.value.request.Some?
    ensures next.calls == w.calls + [CallOf(id, w.machines[id].disk.value)]
    ensures CallOk(w.db.operations, w.drawn, CallOf(id, w.machines[id].disk.value))
    ensures forall i | 0 <= i < |w.calls| :: w.calls[i].claim != w.machines[id].disk.value.claim
  {
    hide MachinesOk, CallOk, After;
    NewCallOk(w, id);
    forall i | 0 <= i < |w.calls|
      ensures w.calls[i].claim != w.machines[id].disk.value.claim
    {
      assert w.calls[i] in w.calls;
    }
  }

  lemma NotCalled(ours: set<Principal>, w: World, id: Id, e: Signal, next: World)
    requires LocalStep(ours, w, id, e, next) && !e.Called?
    ensures next.calls == w.calls
  {
    hide After, Heard;
  }

  lemma LocalCalls(ours: set<Principal>, w: World, id: Id, e: Signal, next: World)
    requires MachinesOk(w) && CallsOk(w) && LocalStep(ours, w, id, e, next)
    requires w.machines[id].pc != Off ==> w.machines[id].disk.Some?
    ensures CallsOk(next)
  {
    hide MachinesOk, LocalStep, CallOk, After, Extends;
    DrawnExtends(ours, w, id, e, next);
    StepMachine(ours, w, id, e, next);
    ClaimAfter(w.machines[id], e);
    if e.Called? {
      LocalCalled(ours, w, id, e, next);
    } else {
      NotCalled(ours, w, id, e, next);
    }
    forall c <- w.calls
      ensures CallOk(next.db.operations, next.drawn, c) && c.claim in w.drawn
    {
      CallDrawn(w.db.operations, w.drawn, next.drawn, c);
    }
    if e.Called? {
      CallDrawn(w.db.operations, w.drawn, next.drawn, next.calls[|w.calls|]);
      ClaimIsDrawn(w, id);
    }
    if w.machines[id].disk.Some? {
      ResultAfter(w.machines[id], e);
      ClaimIsDrawn(w, id);
      if w.machines[id].pc.AtClaim? {
        PcHasNoRequest(w, id);
      }
    }
    forall c, other | c in next.calls && other in next.machines && next.machines[other].disk.Some?
                      && next.machines[other].disk.value.claim == c.claim
      ensures !Unexecuted(next.machines[other].pc) && next.machines[other].disk.value.request.Some?
    {
      if other != id {
        ClaimIsDrawn(w, other);
      }
    }
  }

  // Calls return once.

  /** A machine comes to work by calling its executor, and leaves when the call returns. */
  lemma WorkAfter(m: Machine, e: Signal)
    requires After(m, e).Some?
    ensures e.Executed? ==> m.pc == AtWork && After(m, e).value.pc != AtWork
    ensures After(m, e).value.pc == AtWork ==>
              e.Called? && m.pc == AtExecute && m.disk.Some? && m.disk.value.request.Some? && After(m, e).value.disk == m.disk
  {
    hide RequestFits, Replayable;
  }

  lemma NotExecuted(ours: set<Principal>, w: World, id: Id, e: Signal, next: World)
    requires LocalStep(ours, w, id, e, next) && !e.Executed?
    ensures next.executed == w.executed
  {
    hide After, Heard;
  }

  lemma LocalExecuted(ours: set<Principal>, w: World, id: Id, e: Signal, next: World)
    requires ExecutionsOk(w) && LocalStep(ours, w, id, e, next) && e.Executed? && w.machines[id].pc == AtWork
    ensures w.machines[id].disk.Some? && w.machines[id].disk.value.request.Some?
    ensures next.executed == w.executed + [next.executed[|w.executed|]]
    ensures next.executed[|w.executed|].call == CallOf(id, w.machines[id].disk.value)
    ensures next.executed[|w.executed|].call in w.calls
    ensures forall i | 0 <= i < |w.executed| :: w.executed[i].call.claim != w.machines[id].disk.value.claim
  {
    hide After;
    assert AtWorkOk(w.calls, w.executed, id, w.machines[id]);
    forall i | 0 <= i < |w.executed|
      ensures w.executed[i].call.claim != w.machines[id].disk.value.claim
    {
      assert w.executed[i] in w.executed;
    }
  }

  /** A new call is not among those that returned: it was not even among those made. */
  lemma CalledAtWork(ours: set<Principal>, w: World, id: Id, e: Signal, next: World)
    requires MachinesOk(w) && CallsOk(w) && ExecutionsOk(w) && LocalStep(ours, w, id, e, next) && e.Called?
    requires w.machines[id].pc == AtExecute && w.machines[id].disk.Some? && w.machines[id].disk.value.request.Some?
    requires next.machines[id].disk == w.machines[id].disk
    ensures AtWorkOk(next.calls, next.executed, id, next.machines[id])
  {
    hide MachinesOk, CallsOk, LocalStep;
    LocalCalled(ours, w, id, e, next);
    NotExecuted(ours, w, id, e, next);
    assert next.calls[|w.calls|] in next.calls;
  }

  lemma OthersAtWork(ours: set<Principal>, w: World, id: Id, e: Signal, next: World, other: Id)
    requires MachinesOk(w) && ExecutionsOk(w) && LocalStep(ours, w, id, e, next)
    requires other in w.machines && other != id && id in w.machines
    requires e.Executed? ==> w.machines[id].pc == AtWork
    ensures AtWorkOk(next.calls, next.executed, other, w.machines[other])
  {
    hide MachinesOk, LocalStep, After;
    DrawnExtends(ours, w, id, e, next);
    assert AtWorkOk(w.calls, w.executed, other, w.machines[other]);
    if w.machines[other].pc == AtWork {
      if e.Executed? {
        LocalExecuted(ours, w, id, e, next);
        ClaimIsDrawn(w, id);
        ClaimIsDrawn(w, other);
      } else {
        NotExecuted(ours, w, id, e, next);
      }
    }
  }

  lemma LocalExecutions(ours: set<Principal>, w: World, id: Id, e: Signal, next: World)
    requires MachinesOk(w) && CallsOk(w) && ExecutionsOk(w) && LocalStep(ours, w, id, e, next)
    ensures ExecutionsOk(next)
  {
    hide MachinesOk, CallsOk, LocalStep, AtWorkOk, After, Extends;
    DrawnExtends(ours, w, id, e, next);
    StepMachine(ours, w, id, e, next);
    WorkAfter(w.machines[id], e);
    if e.Executed? {
      LocalExecuted(ours, w, id, e, next);
    } else {
      NotExecuted(ours, w, id, e, next);
    }
    forall other <- next.machines
      ensures AtWorkOk(next.calls, next.executed, other, next.machines[other])
    {
      if other != id {
        OthersAtWork(ours, w, id, e, next, other);
      } else {
        MoverAtWork(ours, w, id, e, next);
      }
    }
  }

  lemma MoverAtWork(ours: set<Principal>, w: World, id: Id, e: Signal, next: World)
    requires MachinesOk(w) && CallsOk(w) && ExecutionsOk(w) && LocalStep(ours, w, id, e, next)
    ensures id in next.machines && AtWorkOk(next.calls, next.executed, id, next.machines[id])
  {
    hide MachinesOk, CallsOk, ExecutionsOk, LocalStep, After;
    StepMachine(ours, w, id, e, next);
    WorkAfter(w.machines[id], e);
    if next.machines[id].pc == AtWork {
      CalledAtWork(ours, w, id, e, next);
    }
  }

  // A machine keeps its result.

  lemma ResultAfter(m: Machine, e: Signal)
    requires After(m, e).Some? && m.disk.Some?
    ensures var next := After(m, e).value;
            && next.disk.Some?
            && (e.Begin? || next.disk.value.request == m.disk.value.request
                || (e.Claimed? && m.disk.value.request == None && e.response.Work?
                    && next.disk.value.request == Some(e.response.request)
                    && next.disk.value.claim == m.disk.value.claim && next.disk.value.credential == m.disk.value.credential)
                || (m.pc.AtClaim? && m.disk.value.request.Some?))
            && (e.Begin? ==> next.disk == m.disk || (next.disk.value.claim == e.claim && next.disk.value.request == None))
            && (!e.Begin? && m.disk.value.result.Some? ==> next.disk.value.result.Some?)
  {
    hide RequestFits, Replayable;
  }

  lemma BeganWithoutRequest(m: Machine, e: Signal)
    requires After(m, e).Some? && m.disk == None
    ensures After(m, e).value.disk.Some? ==> After(m, e).value.disk.value.request == None
  {
  }

  /** A request that has only now arrived belongs to an attempt on which nobody has sent a verdict. */
  lemma ArrivalIsUnsent(w: World, id: Id, response: Response, message: Message)
    requires Inv(w.db) && MachinesOk(w) && CallsOk(w) && ExecutionsOk(w) && id in w.machines
    requires w.machines[id].disk.Some? && w.machines[id].disk.value.request == None
    requires response.Work?
    requires var j := w.machines[id].disk.value; Recorded(w.db.operations, j.credential, j.claim, response)
    requires MessageOk(w.executed, message) && message.FinishMessage? && Verdict(message.result)
    ensures message.a != response.request.attempt
  {
    hide Inv, MachinesOk, Recorded;
    if message.a == response.request.attempt {
      var claim :| Made(w.executed, claim, message.a, message.result);
      var i :| 0 <= i < |w.executed| && w.executed[i].call.claim == claim && w.executed[i].call.attempt == message.a
               && Gives(w.executed[i], message.result);
      assert w.executed[i] in w.executed;
      var c := w.executed[i].call;
      assert c in w.calls && CallOk(w.db.operations, w.drawn, c);
      var r: Request :| r.attempt == c.attempt && Recorded(w.db.operations, c.credential, c.claim, Work(r));
      SameAttemptSameClaim(w.db, c.credential, c.claim, r, w.machines[id].disk.value.credential,
                           w.machines[id].disk.value.claim, response.request);
      assert false;
    }
  }

  lemma ClaimHeard(ours: set<Principal>, w: World, id: Id, e: Signal, next: World)
    requires LocalStep(ours, w, id, e, next) && w.machines[id].disk.Some?
    requires forall answer <- w.answers :: AnswerOk(w.db.operations, w.db.attempts, answer)
    ensures var j := w.machines[id].disk.value; e.Claimed? ==> Recorded(w.db.operations, j.credential, j.claim, e.response)
  {
    hide After, Heard, AnswerOk, Recorded;
    HeardOk(w, w.machines[id].disk.value, e);
  }

  lemma PcHasNoRequest(w: World, id: Id)
    requires MachinesOk(w) && id in w.machines && w.machines[id].pc.AtClaim?
    ensures w.machines[id].disk.Some? && w.machines[id].disk.value.request == None
  {
    hide JournalOk;
    assert MachineOk(w, w.executed, w.drawn, id, w.machines[id]);
  }

  lemma LocalHeld(ours: set<Principal>, w: World, id: Id, e: Signal, next: World)
    requires WorldOk(ours, w) && LocalStep(ours, w, id, e, next)
    ensures SentHeld(next.machines, next.sent)
  {
    hide WorldOk, Inv, MachinesOk, CallsOk, ExecutionsOk, MessageOk, AnswerOk, LocalStep, After, Recorded;
    WorldParts(ours, w);
    DrawnExtends(ours, w, id, e, next);
    StepMachine(ours, w, id, e, next);
    SentFramed(ours, w, id, e, next);
    var m := w.machines[id];
    if m.disk == None {
      BeganWithoutRequest(m, e);
    } else {
      ResultAfter(m, e);
      ClaimHeard(ours, w, id, e, next);
      if m.pc.AtClaim? {
        PcHasNoRequest(w, id);
      }
    }
    forall message, other | message in next.sent && message.FinishMessage? && Verdict(message.result) && other in next.machines
                            && next.machines[other].disk.Some? && next.machines[other].disk.value.request.Some?
                            && next.machines[other].disk.value.request.value.attempt == message.a
      ensures next.machines[other].disk.value.result.Some?
    {
      if other == id && m.disk.Some? && m.disk.value.request == None && e.Claimed? && e.response.Work? {
        ArrivalIsUnsent(w, id, e.response, message);
      }
    }
  }

  lemma SentFramed(ours: set<Principal>, w: World, id: Id, e: Signal, next: World)
    requires LocalStep(ours, w, id, e, next)
    ensures next.sent == w.sent && next.answers == w.answers
  {
    hide After, Heard;
  }

  lemma LocalKeepsWorld(ours: set<Principal>, w: World, id: Id, e: Signal, next: World)
    requires WorldOk(ours, w) && LocalStep(ours, w, id, e, next)
    ensures WorldOk(ours, next)
  {
    hide Inv, MachinesOk, CallsOk, ExecutionsOk, AnswerOk, MessageOk, VerdictsSent, SentHeld, Made, LocalStep, Extends;
    LocalMachines(ours, w, id, e, next);
    StepMachine(ours, w, id, e, next);
    RunningMachine(w, id);
    LocalCalls(ours, w, id, e, next);
    LocalExecutions(ours, w, id, e, next);
    LocalHeld(ours, w, id, e, next);
    SentFramed(ours, w, id, e, next);
    DrawnExtends(ours, w, id, e, next);
    forall message <- next.sent
      ensures MessageOk(next.executed, message)
    {
      MessageStays(w.executed, next.executed, message);
    }
  }

  lemma RunningMachine(w: World, id: Id)
    requires MachinesOk(w) && id in w.machines
    ensures w.machines[id].pc != Off ==> w.machines[id].disk.Some?
  {
    assert MachineOk(w, w.executed, w.drawn, id, w.machines[id]);
    hide JournalOk;
  }

  lemma MessageStays(executed: seq<Execution>, more: seq<Execution>, message: Message)
    requires MessageOk(executed, message) && executed <= more
    ensures MessageOk(more, message)
  {
    hide Made;
    if message.FinishMessage? && Verdict(message.result) {
      var claim :| Made(executed, claim, message.a, message.result);
      MadeStays(executed, more, claim, message.a, message.result);
    }
  }

  // ----- Whole histories -----

  lemma MoveKeepsWorld(ours: set<Principal>, w: World, move: Move, next: World)
    requires WorldOk(ours, w) && Moves(ours, w, move, next)
    ensures WorldOk(ours, next)
  {
    hide WorldOk, StepsTo, ClaimCall, FinishTx, StatusOf, LocalStep, Outgoing, MessageOk;
    match move
    case Serve(action) => ServeKeepsWorld(ours, w, action, next.db);
    case ServeClaim(p, claim, inputs) => ServeClaimKeepsWorld(ours, w, p, claim, inputs, next);
    case ServeState(p, a) => ServeStateKeepsWorld(ours, w, p, a, next);
    case ServeFinish(p, a, result, ids, now) => ServeFinishKeepsWorld(ours, w, p, a, result, ids, now, next);
    case Transmit(id) => TransmitKeepsWorld(ours, w, id, next);
    case Local(id, e) => LocalKeepsWorld(ours, w, id, e, next);
  }

  lemma FreshWorldOk(ours: set<Principal>, w: World)
    requires Fresh(ours, w)
    ensures WorldOk(ours, w)
  {
    hide Inv, Begins;
    BeginsInv(w.db);
  }

  /** In every world of every history, the machines, the network and the index agree. */
  lemma {:induction false} HistoryKeepsWorld(ours: set<Principal>, worlds: seq<World>, moves: seq<Move>, i: nat)
    requires History(ours, worlds, moves) && i < |worlds|
    ensures WorldOk(ours, worlds[i])
  {
    hide WorldOk, Moves, Fresh;
    if i == 0 {
      FreshWorldOk(ours, worlds[0]);
    } else {
      HistoryKeepsWorld(ours, worlds, moves, i - 1);
      MoveKeepsWorld(ours, worlds[i - 1], moves[i - 1], worlds[i]);
    }
  }
}
