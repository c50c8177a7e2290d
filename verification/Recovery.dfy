/** Replay or interrupt, never recompute: what the machines' crashes and the network cannot break. */
module Recovery {
  import opened Base
  import opened Contracts
  import opened Tables
  import opened Transactions
  import opened Lifecycle
  import opened Ledger
  import opened Attempts
  import opened Files
  import opened Growth
  import opened Invariant
  import opened Delivery
  import opened Runs
  import opened Worker
  import opened Fleet
  import opened FleetInvariant
  import opened Acceptance
  import Requests
  import opened Runner

  // ----- What stays -----

  ghost predicate Later(w: World, next: World) {
    && Grows(w.db, next.db)
    && w.sent <= next.sent && w.answers <= next.answers && w.calls <= next.calls && w.executed <= next.executed
    && next.machines.Keys == w.machines.Keys
    && Extends(w.drawn, next.drawn)
  }

  lemma ServedLater(w: World, action: Action, next: Db)
    requires Inv(w.db) && StepsTo(w.db, action, next)
    ensures Grows(w.db, next)
  {
    hide Inv, Linked, Enabled, Apply, Grows;
    StepKept(w.db, action);
  }

  lemma MoveIsLater(ours: set<Principal>, w: World, move: Move, next: World)
    requires WorldOk(ours, w) && Moves(ours, w, move, next)
    ensures Later(w, next)
  {
    hide WorldOk, Inv, StepsTo, ClaimCall, FinishTx, StatusOf, Grows, After, Heard, Outgoing;
    WorldParts(ours, w);
    GrowsNothing(w.db);
    match move
    case Serve(action) => ServedLater(w, action, next.db);
    case ServeClaim(p, claim, inputs) => ServedLater(w, Claim(p, claim, inputs), next.db);
    case ServeState(p, a) =>
    case ServeFinish(p, a, result, ids, now) => ServedLater(w, Finish(p, a, result, ids, now), next.db);
    case Transmit(id) =>
    case Local(id, e) =>
  }

  lemma {:induction false} HistoryIsLater(ours: set<Principal>, worlds: seq<World>, moves: seq<Move>, i: nat, j: nat)
    requires History(ours, worlds, moves) && i <= j < |worlds|
    ensures Later(worlds[i], worlds[j])
    decreases j - i
  {
    hide WorldOk, Moves, Fresh, Grows;
    if i == j {
      GrowsNothing(worlds[i].db);
    } else {
      HistoryIsLater(ours, worlds, moves, i, j - 1);
      HistoryKeepsWorld(ours, worlds, moves, j - 1);
      MoveIsLater(ours, worlds[j - 1], moves[j - 1], worlds[j]);
      GrowsTransitive(worlds[i].db, worlds[j - 1].db, worlds[j].db);
    }
  }

  // ----- At most once -----

  lemma CallRecorded(w: World, c: Call) returns (r: Request)
    requires CallsOk(w) && c in w.calls
    ensures r.attempt == c.attempt && Recorded(w.db.operations, c.credential, c.claim, Work(r))
  {
    hide Recorded;
    assert CallOk(w.db.operations, w.drawn, c);
    r :| r.attempt == c.attempt && Recorded(w.db.operations, c.credential, c.claim, Work(r));
  }

  lemma CallsShareClaim(ours: set<Principal>, w: World, c: Call, d: Call)
    requires WorldOk(ours, w) && c in w.calls && d in w.calls && c.attempt == d.attempt
    ensures c.claim == d.claim
  {
    hide WorldOk, Inv, CallsOk, Recorded;
    WorldParts(ours, w);
    var r := CallRecorded(w, c);
    var u := CallRecorded(w, d);
    SameAttemptSameClaim(w.db, c.credential, c.claim, r, d.credential, d.claim, u);
  }

  lemma OneExecution(ours: set<Principal>, w: World, x: nat, y: nat)
    requires WorldOk(ours, w) && x < |w.executed| && y < |w.executed|
    requires w.executed[x].call.attempt == w.executed[y].call.attempt
    ensures x == y
  {
    hide WorldOk, CallsOk, AtWorkOk;
    WorldParts(ours, w);
    assert w.executed[x] in w.executed && w.executed[y] in w.executed;
    CallsShareClaim(ours, w, w.executed[x].call, w.executed[y].call);
  }

  /**
   * Whatever is lost, late or repeated, and whichever machines crash, also in the middle of an execution, no executor
   * is called twice for one attempt; every result that an execution made came from such a call.
   */
  lemma ExecutedAtMostOnce(ours: set<Principal>, worlds: seq<World>, moves: seq<Move>, i: nat, x: nat, y: nat)
    requires History(ours, worlds, moves) && i < |worlds|
    requires x < y < |worlds[i].calls|
    ensures worlds[i].calls[x].attempt != worlds[i].calls[y].attempt
    ensures forall e <- worlds[i].executed :: e.call in worlds[i].calls
  {
    hide History, WorldOk, CallOk, AtWorkOk;
    var w := worlds[i];
    HistoryKeepsWorld(ours, worlds, moves, i);
    WorldParts(ours, w);
    if w.calls[x].attempt == w.calls[y].attempt {
      CallsShareClaim(ours, w, w.calls[x], w.calls[y]);
    }
  }

  lemma SentWasMade(ours: set<Principal>, w: World, message: Message) returns (x: nat)
    requires WorldOk(ours, w) && message in w.sent && message.FinishMessage? && Verdict(message.result)
    ensures x < |w.executed| && w.executed[x].call.attempt == message.a && Gives(w.executed[x], message.result)
  {
    hide WorldOk;
    WorldParts(ours, w);
    assert MessageOk(w.executed, message);
    var claim :| Made(w.executed, claim, message.a, message.result);
    x :| 0 <= x < |w.executed| && w.executed[x].call.claim == claim && w.executed[x].call.attempt == message.a
         && Gives(w.executed[x], message.result);
  }

  /** Every machine that reports success or failure on an attempt reports what its one execution made. */
  lemma OneVerdictPerAttempt(
    ours: set<Principal>, worlds: seq<World>, moves: seq<Move>, i: nat, message: Message, other: Message)
    requires History(ours, worlds, moves) && i < |worlds|
    requires message in worlds[i].sent && message.FinishMessage? && Verdict(message.result)
    requires other in worlds[i].sent && other.FinishMessage? && Verdict(other.result) && other.a == message.a
    ensures other.result == message.result
  {
    hide History, WorldOk;
    HistoryKeepsWorld(ours, worlds, moves, i);
    var x := SentWasMade(ours, worlds[i], message);
    var y := SentWasMade(ours, worlds[i], other);
    OneExecution(ours, worlds[i], x, y);
  }

  /** The index holds a success or a failure of this attempt, leased under one of our credentials. */
  ghost predicate VerdictStored(ours: set<Principal>, db: Db, a: Id) {
    && a in db.attempts && a in db.epochs && LeaseCredential(db.attempts, db.epochs, a) in ours
    && db.attempts[a].result.Some? && Verdict(db.attempts[a].result.value)
  }

  /** A stored result belongs to its attempt, under the lease of that attempt, and is the attempt's state. */
  lemma StoredIsOwn(db: Db, a: Id)
    requires Inv(db) && a in db.attempts && db.attempts[a].result.Some?
    ensures var row := db.attempts[a];
            row.result.value.attempt == a && row.result.value.generation == row.generation
            && row.result.value.status == row.state
  {
    hide Life, LedgerOk, ClaimsOk, FilesOk, OriginsOk, ResultsOk;
  }

  /**
   * A verdict that the index stores under one of our credentials comes from the only execution of its attempt: a
   * success was returned by its executor, and a failure was returned or is what a refusal stands for.
   */
  lemma StoredVerdictWasExecuted(ours: set<Principal>, worlds: seq<World>, moves: seq<Move>, i: nat, a: Id)
    returns (x: nat)
    requires History(ours, worlds, moves) && i < |worlds|
    requires VerdictStored(ours, worlds[i].db, a)
    ensures x < |worlds[i].executed|
    ensures worlds[i].executed[x].call.attempt == a
    ensures var row, outcome := worlds[i].db.attempts[a], worlds[i].executed[x].outcome;
            match row.state
            case Completed => outcome == Returned(row.result.value)
            case Failed =>
              || outcome == Returned(row.result.value)
              || (outcome == Refusal
                  && row.result.value == ExecutionResult(a, row.generation, Failed, [], Some(CpuExecutionFailed)))
            case _ => false
    ensures forall y | 0 <= y < |worlds[i].executed| && worlds[i].executed[y].call.attempt == a :: y == x
  {
    hide History, WorldOk;
    var w := worlds[i];
    HistoryKeepsWorld(ours, worlds, moves, i);
    WorldParts(ours, w);
    StoredIsOwn(w.db, a);
    x := SentWasMade(ours, w, FinishMessage(LeaseCredential(w.db.attempts, w.db.epochs, a), a,
        w.db.attempts[a].result.value));
    forall y | 0 <= y < |w.executed| && w.executed[y].call.attempt == a
      ensures y == x
    {
      OneExecution(ours, w, x, y);
    }
  }

  /** Nobody has sent a verdict on this attempt. */
  ghost predicate Unsent(sent: set<Message>, a: Id) {
    forall message | message in sent && message.FinishMessage? && Verdict(message.result) :: message.a != a
  }

  /** No execution of this attempt has returned or been refused. */
  ghost predicate NeverAnswered(executed: seq<Execution>, a: Id) {
    forall x <- executed | x.call.attempt == a :: x.outcome == Interruption
  }

  /** Where executions of an attempt were only interrupted or cut off by crashes, there is no verdict on it. */
  lemma NoVerdictWithoutAnswer(ours: set<Principal>, worlds: seq<World>, moves: seq<Move>, i: nat, a: Id)
    requires History(ours, worlds, moves) && i < |worlds| && NeverAnswered(worlds[i].executed, a)
    ensures Unsent(worlds[i].sent, a) && !VerdictStored(ours, worlds[i].db, a)
  {
    hide History, WorldOk;
    HistoryKeepsWorld(ours, worlds, moves, i);
    WorldParts(ours, worlds[i]);
    forall message | message in worlds[i].sent && message.FinishMessage? && Verdict(message.result)
      ensures message.a != a
    {
      var x := SentWasMade(ours, worlds[i], message);
      assert worlds[i].executed[x] in worlds[i].executed;
    }
  }

  /** Once an execution was interrupted, nobody ever reports a verdict on its attempt and none of ours is stored. */
  lemma InterruptedForever(
    ours: set<Principal>, worlds: seq<World>, moves: seq<Move>, i: nat, j: nat, x: nat)
    requires History(ours, worlds, moves) && i <= j < |worlds| && x < |worlds[i].executed|
    requires worlds[i].executed[x].outcome == Interruption
    ensures Unsent(worlds[j].sent, worlds[i].executed[x].call.attempt)
    ensures !VerdictStored(ours, worlds[j].db, worlds[i].executed[x].call.attempt)
  {
    hide History, WorldOk, Grows, Extends, Unsent, VerdictStored;
    HistoryIsLater(ours, worlds, moves, i, j);
    HistoryKeepsWorld(ours, worlds, moves, j);
    var a := worlds[i].executed[x].call.attempt;
    forall e | e in worlds[j].executed && e.call.attempt == a
      ensures e.outcome == Interruption
    {
      var y :| 0 <= y < |worlds[j].executed| && worlds[j].executed[y] == e;
      assert worlds[j].executed[x] == worlds[i].executed[x];
      OneExecution(ours, worlds[j], x, y);
    }
    NoVerdictWithoutAnswer(ours, worlds, moves, j, a);
  }

  // ----- What a machine makes up itself -----

  /**
   * A machine never makes up a report that the index must refuse: for a request that it was given and that fits it, its
   * own interruption and its own failure fit a running attempt, and its own cancellation one that was asked to stop.
   */
  lemma OwnResultsAreGood(db: Db, p: Principal, claim: Id, r: Request, worker: Id, result: ExecutionResult)
    requires Inv(db) && Linked(db) && Recorded(db.operations, p, claim, Work(r)) && RequestFits(worker, r)
    ensures r.attempt in db.attempts && db.attempts[r.attempt].worker in db.workers
    ensures db.attempts[r.attempt].state == Running
            && (Bare(r, result, State.Interrupted, Some(CpuInterrupted))
                || Bare(r, result, Failed, Some(CpuExecutionFailed))) ==>
              GoodReport(db, r.attempt, result)
    ensures db.attempts[r.attempt].state == CancelRequested && Bare(r, result, Cancelled, None) ==>
              GoodReport(db, r.attempt, result)
  {
    hide Inv, Recorded, Linked, GoodOutput, CleanText;
    LeaseOf(db, p, claim, r);
  }

  lemma LeaseOf(db: Db, p: Principal, claim: Id, r: Request)
    requires Inv(db) && Recorded(db.operations, p, claim, Work(r))
    ensures r.attempt in db.attempts && db.attempts[r.attempt].worker in db.workers
    ensures db.attempts[r.attempt].task in db.tasks && db.attempts[r.attempt].generation == r.generation
    ensures db.tasks[db.attempts[r.attempt].task].capability == r.capability
  {
    hide Life, LedgerOk, FilesOk, OriginsOk, ResultsOk, Numbered, Generations, Reported;
    var key := WorkerOperation(p.identity, p.epoch.value, claim);
    assert ClaimRecorded(db.operations, key);
    assert r.attempt in db.attempts;
  }

  /**
   * The machine of a worker takes on each lease that the index gives for a mission drafted for its capability, as long as
   * the deadline is one that it can read; the leases of other capabilities it refuses.
   */
  lemma LeasedWorkFits(states: seq<Db>, actions: seq<Action>, i: nat, j: nat, key: OperationKey)
    requires Run(states, actions) && i < j < |states| && Requests.Created(states[i], actions[i], states[i + 1])
    requires key in states[j].operations && states[j].operations[key].response.Work?
    requires states[j].operations[key].response.request.mission == actions[i].identity
    ensures var r := states[j].operations[key].response.request;
            RequestFits(r.worker, r) <==> actions[i].capability == CpuDigest && 0.0 < r.deadline <= 253402300799.0
  {
    hide Begins, StepsTo, Requests.Created, CleanText;
    Requests.WorkIsTheDraft(states, actions, i, j, key);
    DraftWasChecked(states[i], actions[i], states[i + 1]);
  }

  lemma DraftWasChecked(db: Db, action: Action, next: Db)
    requires Requests.Created(db, action, next)
    ensures CheckDraft(action.capability, action.draft).Ok?
  {
    hide Linked, CheckDraft, CreateEffect;
  }

  // ----- Before sending, after finishing -----

  /** A report leaves a machine only while its durable journal holds that very result for that very attempt. */
  lemma JournalledBeforeSent(ours: set<Principal>, worlds: seq<World>, moves: seq<Move>, i: nat, id: Id)
    requires History(ours, worlds, moves) && i < |moves| && moves[i] == Transmit(id)
    requires id in worlds[i].machines && Outgoing(worlds[i].machines[id]).Some?
    requires Outgoing(worlds[i].machines[id]).value.FinishMessage?
    ensures var m, message := worlds[i].machines[id], Outgoing(worlds[i].machines[id]).value;
            && m.disk.Some? && m.disk.value.request.Some? && m.disk.value.request.value.attempt == message.a
            && m.disk.value.result == Some(message.result)
            && (Verdict(message.result) ==> Made(worlds[i].executed, m.disk.value.claim, message.a, message.result))
  {
    hide Moves, Fresh, WorldOk, MachinesOk, Outgoing;
    HistoryKeepsWorld(ours, worlds, moves, i);
    WorldParts(ours, worlds[i]);
    SendsItsJournal(worlds[i], id);
  }

  /** A journal marked done means that the index answered "no work", or that the attempt is settled for good. */
  lemma DoneIsForever(ours: set<Principal>, worlds: seq<World>, moves: seq<Move>, i: nat, j: nat, id: Id)
    requires History(ours, worlds, moves) && i <= j < |worlds|
    requires id in worlds[i].machines && worlds[i].machines[id].disk.Some? && worlds[i].machines[id].disk.value.done
    ensures var journal := worlds[i].machines[id].disk.value;
            if journal.request == None then Recorded(worlds[j].db.operations, journal.credential, journal.claim, NoWork)
            else
              var a := journal.request.value.attempt;
              && SettledIn(worlds[i].db.attempts, a) && a in worlds[j].db.attempts
              && worlds[j].db.attempts[a] == worlds[i].db.attempts[a]
  {
    hide History, WorldOk, Grows, Recorded, PcOk, Made;
    HistoryKeepsWorld(ours, worlds, moves, i);
    WorldParts(ours, worlds[i]);
    assert MachineOk(worlds[i], worlds[i].executed, worlds[i].drawn, id, worlds[i].machines[id]);
    HistoryIsLater(ours, worlds, moves, i, j);
    var journal := worlds[i].machines[id].disk.value;
    if journal.request == None {
      RecordedStays(worlds[i].db, worlds[j].db, journal.credential, journal.claim, NoWork);
    } else {
      SettledIsFinal(worlds[i].db, worlds[j].db, journal.request.value.attempt);
    }
  }

  lemma SettledIsFinal(before: Db, after: Db, a: Id)
    requires Grows(before, after) && SettledIn(before.attempts, a)
    ensures a in after.attempts && after.attempts[a] == before.attempts[a]
  {
    hide MissionsGrow, TasksGrow, WorkersGrow;
  }

  // ----- Lost replies -----

  /** However often a claim is repeated, and whenever it is answered, all its answers are the same. */
  lemma AnswersNeverDiffer(
    ours: set<Principal>, worlds: seq<World>, moves: seq<Move>, i: nat, j: nat, p: Principal, claim: Id,
    response: Response, other: Response)
    requires History(ours, worlds, moves) && i <= j < |worlds|
    requires ClaimAnswer(p, claim, response) in worlds[i].answers && ClaimAnswer(p, claim, other) in worlds[j].answers
    ensures response == other
  {
    hide History, WorldOk, Grows;
    HistoryIsLater(ours, worlds, moves, i, j);
    HistoryKeepsWorld(ours, worlds, moves, j);
    WorldParts(ours, worlds[j]);
    assert AnswerOk(worlds[j].db.operations, worlds[j].db.attempts, ClaimAnswer(p, claim, response));
    assert AnswerOk(worlds[j].db.operations, worlds[j].db.attempts, ClaimAnswer(p, claim, other));
  }

  // ----- A lost execution stays lost -----

  /** Neither executing nor about to: a run that stopped, or one that only recovers. */
  predicate Recovering(pc: Pc) {
    pc == Off || pc == AtClaim(true) || pc == AtCheck(true) || pc == AtObserve || pc == AtFinish
  }

  /** The machine's journal of this claim, while it still has it, holds no verdict and will get none. */
  predicate GivenUp(m: Machine, claim: Id) {
    && m.disk.Some?
    && (m.disk.value.claim == claim ==>
          Recovering(m.pc) && (m.disk.value.result.Some? ==> !Verdict(m.disk.value.result.value)))
  }

  ghost predicate Resigned(w: World, id: Id, claim: Id, a: Id) {
    && claim in w.drawn && w.drawn[claim] == id
    && id in w.machines && GivenUp(w.machines[id], claim)
    && Unsent(w.sent, a)
  }

  /** In the end, or already now, the index names this attempt in its answer to the claim. */
  ghost predicate Named(w: World, final: Db, p: Principal, claim: Id, r: Request) {
    Inv(final) && Grows(w.db, final) && Recorded(final.operations, p, claim, Work(r))
  }

  lemma GivenUpStays(m: Machine, e: Signal, claim: Id)
    requires GivenUp(m, claim) && After(m, e).Some? && (e.Begin? ==> e.claim != claim)
    ensures GivenUp(After(m, e).value, claim)
  {
    hide RequestFits, Replayable;
  }

  lemma JournalRecorded(w: World, id: Id)
    requires MachinesOk(w) && id in w.machines && w.machines[id].disk.Some? && w.machines[id].disk.value.request.Some?
    ensures var j := w.machines[id].disk.value;
            Recorded(w.db.operations, j.credential, j.claim, Work(j.request.value))
  {
    hide Recorded, Made, SettledIn, PcOk;
    assert MachineOk(w, w.executed, w.drawn, id, w.machines[id]);
  }

  /** Whichever machine holds the attempt holds it under the named claim. */
  lemma HeldUnderClaim(w: World, final: Db, p: Principal, claim: Id, r: Request, holder: Id)
    requires MachinesOk(w) && Named(w, final, p, claim, r)
    requires holder in w.machines && w.machines[holder].disk.Some? && w.machines[holder].disk.value.request.Some?
    requires w.machines[holder].disk.value.request.value.attempt == r.attempt
    ensures w.machines[holder].disk.value.claim == claim && claim in w.drawn && w.drawn[claim] == holder
  {
    hide Inv, Grows, MachinesOk, Recorded;
    var j := w.machines[holder].disk.value;
    JournalRecorded(w, holder);
    RecordedStays(w.db, final, j.credential, j.claim, Work(j.request.value));
    SameAttemptSameClaim(final, p, claim, r, j.credential, j.claim, j.request.value);
    ClaimIsDrawn(w, holder);
  }

  lemma ResignedSends(w: World, final: Db, id: Id, p: Principal, claim: Id, r: Request, sender: Id)
    requires MachinesOk(w) && Named(w, final, p, claim, r) && Resigned(w, id, claim, r.attempt)
    requires sender in w.machines && Outgoing(w.machines[sender]).Some?
    ensures Unsent(w.sent + {Outgoing(w.machines[sender]).value}, r.attempt)
  {
    hide Named, MachinesOk, Outgoing;
    var message := Outgoing(w.machines[sender]).value;
    if message.FinishMessage? && Verdict(message.result) && message.a == r.attempt {
      SendsItsJournal(w, sender);
      HeldUnderClaim(w, final, p, claim, r, sender);
      assert false;
    }
  }

  lemma LocalResigned(ours: set<Principal>, w: World, mover: Id, e: Signal, next: World, id: Id, claim: Id)
    requires LocalStep(ours, w, mover, e, next)
    requires claim in w.drawn && id in w.machines && GivenUp(w.machines[id], claim)
    ensures id in next.machines && GivenUp(next.machines[id], claim)
  {
    hide GivenUp, After, Heard;
    StepMachine(ours, w, mover, e, next);
    if mover == id {
      GivenUpStays(w.machines[id], e, claim);
    }
  }

  lemma MoveResigned(
    ours: set<Principal>, w: World, move: Move, next: World, final: Db, id: Id, p: Principal, claim: Id, r: Request)
    requires WorldOk(ours, w) && Moves(ours, w, move, next)
    requires Named(w, final, p, claim, r) && Resigned(w, id, claim, r.attempt)
    ensures Resigned(next, id, claim, r.attempt) && Untouched(w, next, r.attempt)
  {
    hide WorldOk, Inv, MachinesOk, StepsTo, ClaimCall, FinishTx, StatusOf, GivenUp, Outgoing, LocalStep, Named,
        Grows, Unsent, OutOfHand, Untouched;
    WorldParts(ours, w);
    MoveIsLater(ours, w, move, next);
    ResignedOutOfHand(w, final, id, p, claim, r);
    MoveUntouched(ours, w, move, next, r.attempt);
    match move
    case Transmit(sender) => ResignedSends(w, final, id, p, claim, r, sender);
    case Local(mover, e) =>
      LocalResigned(ours, w, mover, e, next, id, claim);
      SentFramed(ours, w, mover, e, next);
    case _ =>
  }

  /** No machine is about to execute this attempt, executes it, or has an unsaved result of it. */
  ghost predicate OutOfHand(machines: map<Id, Machine>, a: Id) {
    forall id | id in machines && machines[id].disk.Some? && machines[id].disk.value.request.Some?
                && machines[id].disk.value.request.value.attempt == a :: Recovering(machines[id].pc)
  }

  lemma ResignedOutOfHand(w: World, final: Db, id: Id, p: Principal, claim: Id, r: Request)
    requires MachinesOk(w) && Named(w, final, p, claim, r) && Resigned(w, id, claim, r.attempt)
    ensures OutOfHand(w.machines, r.attempt)
  {
    hide Named, MachinesOk, Unsent, Recovering;
    forall holder | holder in w.machines && w.machines[holder].disk.Some? && w.machines[holder].disk.value.request.Some?
                    && w.machines[holder].disk.value.request.value.attempt == r.attempt
      ensures Recovering(w.machines[holder].pc)
    {
      HeldUnderClaim(w, final, p, claim, r, holder);
    }
  }

  /** From one world to a later one, no executor is called for this attempt, and no call for it returns. */
  ghost predicate Untouched(w: World, next: World, a: Id) {
    && w.calls <= next.calls && w.executed <= next.executed
    && (forall k | |w.calls| <= k < |next.calls| :: next.calls[k].attempt != a)
    && (forall k | |w.executed| <= k < |next.executed| :: next.executed[k].call.attempt != a)
  }

  lemma MoveUntouched(ours: set<Principal>, w: World, move: Move, next: World, a: Id)
    requires Moves(ours, w, move, next) && OutOfHand(w.machines, a)
    ensures Untouched(w, next, a)
  {
    hide StepsTo, ClaimCall, FinishTx, StatusOf, Outgoing, OutOfHand, After, Heard;
    if move.Local? {
      LocalUntouched(ours, w, move.machine, move.signal, next, a);
    }
  }

  lemma LocalUntouched(ours: set<Principal>, w: World, id: Id, e: Signal, next: World, a: Id)
    requires LocalStep(ours, w, id, e, next) && OutOfHand(w.machines, a)
    ensures Untouched(w, next, a)
  {
    hide Heard, Started, AfterClaim, AfterCheck, AfterObserve, Save, Stopped;
    assert e.Called? ==> w.machines[id].pc == AtExecute;
    assert e.Executed? ==> w.machines[id].pc == AtWork;
  }

  lemma UntouchedAtFirst(w: World, a: Id)
    ensures Untouched(w, w, a)
  {
  }

  lemma UntouchedThrough(w: World, middle: World, next: World, a: Id)
    requires Untouched(w, middle, a) && Untouched(middle, next, a)
    ensures Untouched(w, next, a)
  {
  }

  lemma {:induction false} ResignedForever(
    ours: set<Principal>, worlds: seq<World>, moves: seq<Move>, i: nat, j: nat, end: nat, id: Id, p: Principal,
    claim: Id, r: Request)
    requires History(ours, worlds, moves) && i <= j <= end < |worlds| && Resigned(worlds[i], id, claim, r.attempt)
    requires Recorded(worlds[end].db.operations, p, claim, Work(r))
    ensures Resigned(worlds[j], id, claim, r.attempt) && Untouched(worlds[i], worlds[j], r.attempt)
    decreases j - i
  {
    hide WorldOk, Moves, Fresh, Resigned, Recorded, Untouched, Inv, Grows, MachinesOk, CallsOk, ExecutionsOk;
    hide VerdictsSent, SentHeld;
    if i == j {
      UntouchedAtFirst(worlds[i], r.attempt);
    } else {
      ResignedForever(ours, worlds, moves, i, j - 1, end, id, p, claim, r);
      NamedInTheEnd(ours, worlds, moves, j - 1, end, p, claim, r);
      HistoryKeepsWorld(ours, worlds, moves, j - 1);
      MoveResigned(ours, worlds[j - 1], moves[j - 1], worlds[j], worlds[end].db, id, p, claim, r);
      UntouchedThrough(worlds[i], worlds[j - 1], worlds[j], r.attempt);
    }
  }

  lemma NamedInTheEnd(
    ours: set<Principal>, worlds: seq<World>, moves: seq<Move>, i: nat, end: nat, p: Principal, claim: Id, r: Request)
    requires History(ours, worlds, moves) && i <= end < |worlds|
    requires Recorded(worlds[end].db.operations, p, claim, Work(r))
    ensures Named(worlds[i], worlds[end].db, p, claim, r)
  {
    hide History, WorldOk, Recorded, Inv, Grows, MachinesOk, CallsOk, ExecutionsOk, VerdictsSent, SentHeld;
    HistoryIsLater(ours, worlds, moves, i, end);
    HistoryKeepsWorld(ours, worlds, moves, end);
    WorldParts(ours, worlds[end]);
  }

  /** A machine that stopped without a journalled result, whether or not its journal has the request already. */
  predicate StoppedEarly(m: Machine) {
    m.pc == Off && m.disk.Some? && m.disk.value.result == None
  }

  /** Of a verdict that was sent the run under the claim had called its executor, so its journal held the request. */
  lemma NothingSent(ours: set<Principal>, w: World, final: Db, id: Id, r: Request)
    requires WorldOk(ours, w) && id in w.machines && StoppedEarly(w.machines[id])
    requires Named(w, final, w.machines[id].disk.value.credential, w.machines[id].disk.value.claim, r)
    ensures Unsent(w.sent, r.attempt)
  {
    hide WorldOk, Inv, Grows, MachinesOk, ExecutionsOk, Recorded, CallOk;
    WorldParts(ours, w);
    var j := w.machines[id].disk.value;
    forall message | message in w.sent && message.FinishMessage? && Verdict(message.result)
      ensures message.a != r.attempt
    {
      var x := SentWasMade(ours, w, message);
      if message.a == r.attempt {
        ExecutedWasCalled(w, x);
        var c := w.executed[x].call;
        var u := CallRecorded(w, c);
        RecordedStays(w.db, final, c.credential, c.claim, Work(u));
        SameAttemptSameClaim(final, j.credential, j.claim, r, c.credential, c.claim, u);
        JournalNames(w, final, id, r);
        assert false;
      }
    }
  }

  lemma ExecutedWasCalled(w: World, x: nat)
    requires ExecutionsOk(w) && x < |w.executed|
    ensures w.executed[x].call in w.calls
  {
    hide AtWorkOk;
    assert w.executed[x] in w.executed;
  }

  /** A request in the journal of the named claim is the named one. */
  lemma JournalNames(w: World, final: Db, id: Id, r: Request)
    requires MachinesOk(w) && id in w.machines && w.machines[id].disk.Some?
    requires Named(w, final, w.machines[id].disk.value.credential, w.machines[id].disk.value.claim, r)
    ensures w.machines[id].disk.value.request.Some? ==> w.machines[id].disk.value.request.value == r
  {
    hide Inv, Grows, MachinesOk;
    var j := w.machines[id].disk.value;
    if j.request.Some? {
      JournalRecorded(w, id);
      RecordedStays(w.db, final, j.credential, j.claim, Work(j.request.value));
    }
  }

  lemma StopResigns(ours: set<Principal>, w: World, final: Db, id: Id, r: Request)
    requires WorldOk(ours, w) && id in w.machines && StoppedEarly(w.machines[id])
    requires Named(w, final, w.machines[id].disk.value.credential, w.machines[id].disk.value.claim, r)
    ensures Resigned(w, id, w.machines[id].disk.value.claim, r.attempt)
  {
    hide WorldOk, MachinesOk, Named, Unsent;
    WorldParts(ours, w);
    ClaimIsDrawn(w, id);
    NothingSent(ours, w, final, id, r);
  }

  /**
   * A machine stopped before it journalled a result: perhaps while its executor was at work, perhaps before the answer
   * to its claim arrived, perhaps even before the index had made that answer. From then on no machine stands before, in or
   * after an execution of the attempt that the answer names, no executor is called for it and no call for it returns;
   * nobody reports a success or a failure on it, and the index never stores one from us.
   */
  lemma NeverRecomputed(
    ours: set<Principal>, worlds: seq<World>, moves: seq<Move>, i: nat, j: nat, id: Id, r: Request)
    requires History(ours, worlds, moves) && i <= j < |worlds|
    requires id in worlds[i].machines && StoppedEarly(worlds[i].machines[id])
    requires var journal := worlds[i].machines[id].disk.value;
             Recorded(worlds[j].db.operations, journal.credential, journal.claim, Work(r))
    ensures OutOfHand(worlds[j].machines, r.attempt) && Untouched(worlds[i], worlds[j], r.attempt)
    ensures Unsent(worlds[j].sent, r.attempt) && !VerdictStored(ours, worlds[j].db, r.attempt)
    ensures var journal := worlds[i].machines[id].disk.value;
            journal.request.Some? ==> journal.request.value == r
  {
    hide History, WorldOk, Recorded, OutOfHand, Untouched, MachinesOk, CallsOk, ExecutionsOk, Named, Inv, Grows;
    var journal := worlds[i].machines[id].disk.value;
    HistoryKeepsWorld(ours, worlds, moves, i);
    WorldParts(ours, worlds[i]);
    NamedInTheEnd(ours, worlds, moves, i, j, journal.credential, journal.claim, r);
    JournalNames(worlds[i], worlds[j].db, id, r);
    StopResigns(ours, worlds[i], worlds[j].db, id, r);
    ResignedForever(ours, worlds, moves, i, j, j, id, journal.credential, journal.claim, r);
    NamedInTheEnd(ours, worlds, moves, j, j, journal.credential, journal.claim, r);
    HistoryKeepsWorld(ours, worlds, moves, j);
    WorldParts(ours, worlds[j]);
    ResignedOutOfHand(worlds[j], worlds[j].db, id, journal.credential, journal.claim, r);
  }
}
