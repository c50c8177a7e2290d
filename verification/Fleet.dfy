/** Many worker machines and the control plane, over a network that loses, delays and repeats messages. */
module Fleet {
  import opened Base
  import opened Contracts
  import opened Tables
  import opened Transactions
  import opened Runs
  import opened Worker

  datatype Answer =
    | ClaimAnswer(p: Principal, claim: Id, response: Response)
    | StateAnswer(p: Principal, a: Id, status: Status)
    | FinishAnswer(p: Principal, a: Id, result: ExecutionResult, mission: Id)

  /** A call of an executor, made for an attempt in the run that drew this claim; it may never return. */
  datatype Call = Call(machine: Id, credential: Principal, claim: Id, attempt: Id)

  /** A call that ended, the request that it was given, and how the executor ended it. */
  datatype Execution = Execution(call: Call, request: Request, outcome: Outcome)

  /**
   * Messages and answers stay on the network forever, so any of them may arrive late, again, or never.
   * `calls` grows when a machine calls its executor, `executed` when the call ends. `drawn` tells which machine drew
   * each claim identifier.
   */
  datatype World = World(
    db: Db, machines: map<Id, Machine>, sent: set<Message>, answers: set<Answer>, calls: seq<Call>,
    executed: seq<Execution>, drawn: map<Id, Id>)

  datatype Move =
    | Serve(action: Action)
    | ServeClaim(p: Principal, claim: Id, inputs: ClaimInputs)
    | ServeState(p: Principal, a: Id)
    | ServeFinish(p: Principal, a: Id, result: ExecutionResult, ids: FreshIds, now: real)
    | Transmit(machine: Id)
    | Local(machine: Id, signal: Signal)

  ghost function StatusOf(db: Db, p: Principal, a: Id): Option<Status> {
    if AttemptState(db, p, a).Ok? then Some(Status(db.attempts[a].state, db.attempts[a].deadline)) else None
  }

  /** A signal that reports an answer needs that answer on the network. */
  predicate Heard(answers: set<Answer>, j: Journal, e: Signal) {
    match e
    case Claimed(response) => ClaimAnswer(j.credential, j.claim, response) in answers
    case Checked(status) => j.request.Some? && StateAnswer(j.credential, j.request.value.attempt, status) in answers
    case Observed(status) => j.request.Some? && StateAnswer(j.credential, j.request.value.attempt, status) in answers
    case Acknowledged(mission) =>
      j.request.Some? && j.result.Some?
      && FinishAnswer(j.credential, j.request.value.attempt, j.result.value, mission) in answers
    case _ => true
  }

  /** The call that a machine makes for the request in its journal. */
  function CallOf(id: Id, j: Journal): Call
    requires j.request.Some?
  {
    Call(id, j.credential, j.claim, j.request.value.attempt)
  }

  ghost predicate LocalStep(ours: set<Principal>, w: World, id: Id, e: Signal, next: World) {
    && id in w.machines
    && var m := w.machines[id];
    && After(m, e).Some?
    && (m.disk.Some? ==> Heard(w.answers, m.disk.value, e))
    && (e.Begin? ==> e.p in ours && e.claim !in w.drawn)
    && next == w.(
      machines := w.machines[id := After(m, e).value],
      drawn := if e.Begin? then w.drawn[e.claim := id] else w.drawn,
      calls :=
        if e.Called? && m.disk.Some? && m.disk.value.request.Some? then w.calls + [CallOf(id, m.disk.value)]
        else w.calls,
      executed :=
        if e.Executed? && m.disk.Some? && m.disk.value.request.Some? then
          w.executed + [Execution(CallOf(id, m.disk.value), m.disk.value.request.value, e.outcome)]
        else w.executed)
  }

  /** The control plane acts on a message; somebody else may also act, but cannot report under our credentials. */
  ghost predicate Moves(ours: set<Principal>, w: World, move: Move, next: World) {
    match move
    case Serve(action) =>
      && StepsTo(w.db, action, next.db) && next == w.(db := next.db)
      && (action.Finish? ==> action.p !in ours)
    case ServeClaim(p, claim, inputs) =>
      && ClaimMessage(p, claim) in w.sent
      && StepsTo(w.db, Claim(p, claim, inputs), next.db)
      && var answer := ClaimCall(w.db, p, claim, inputs).1;
         next == w.(db := next.db,
                    answers := if answer.Ok? then w.answers + {ClaimAnswer(p, claim, answer.value)} else w.answers)
    case ServeState(p, a) =>
      && StateMessage(p, a) in w.sent
      && var status := StatusOf(w.db, p, a);
         next == w.(answers := if status.Some? then w.answers + {StateAnswer(p, a, status.value)} else w.answers)
    case ServeFinish(p, a, result, ids, now) =>
      && FinishMessage(p, a, result) in w.sent
      && StepsTo(w.db, Finish(p, a, result, ids, now), next.db)
      && var answer := FinishTx(w.db, p, a, result, ids, now).1;
         next == w.(db := next.db,
                    answers := if answer.Ok? then w.answers + {FinishAnswer(p, a, result,
                        answer.value.mission)} else w.answers)
    case Transmit(id) =>
      && id in w.machines && Outgoing(w.machines[id]).Some?
      && next == w.(sent := w.sent + {Outgoing(w.machines[id]).value})
    case Local(id, e) => LocalStep(ours, w, id, e, next)
  }

  /** The credential that an attempt was leased under. */
  function LeaseCredential(attempts: map<Id, Attempt>, epochs: map<Id, nat>, a: Id): Principal
    requires a in attempts && a in epochs
  {
    Principal(attempts[a].worker, WorkerRole, Some(epochs[a]))
  }

  /** Idle machines, an empty network, and nothing reported yet under the credentials that the machines will use. */
  ghost predicate Fresh(ours: set<Principal>, w: World) {
    && Begins(w.db)
    && (forall id <- w.machines :: w.machines[id].disk == None && w.machines[id].pc == Off)
    && w.sent == {} && w.answers == {} && w.calls == [] && w.executed == [] && w.drawn == map[]
    && (forall a | a in w.db.attempts && a in w.db.epochs && w.db.attempts[a].result.Some? ::
          LeaseCredential(w.db.attempts, w.db.epochs, a) !in ours)
  }

  ghost predicate History(ours: set<Principal>, worlds: seq<World>, moves: seq<Move>) {
    && |worlds| == |moves| + 1
    && Fresh(ours, worlds[0])
    && forall i | 0 <= i < |moves| :: Moves(ours, worlds[i], moves[i], worlds[i + 1])
  }
}
