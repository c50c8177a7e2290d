/** What an execution of one source does with its surroundings, as a log of events. */
module SourceLog {
  import opened Base
  import opened RetryAfter

  type Resource = nat

  datatype Status = Success | Deferred | Failed

  datatype Reason =
    | Authentication | Forbidden | TargetUnavailable | NimTagUnavailable | Quota | Provider | HttpError | Redirect
    | CacheRequired | Timeout | Connection | InvalidJson | InvalidSchema | Identity | Selection | Incomplete
    | RequestBudget | AttemptBudget | TimeBudget | RetryAfterBudget | RetryAfterExtreme | DelayLimit | WaitInterrupted
    | Runtime | Unexpected

  /** What a Retry-After header held: nothing, something unreadable, or a value. */
  datatype Header = NoHeader | BrokenHeader | Asked(wish: Wish)

  /** The ordinary exceptions, by what the classification looks at. */
  datatype Failure =
    | Execution(reason: Reason)
    | Http(code: Option<int>, header: Header)
    | TimedOut | Disconnected | Undecodable | Malformed | Other

  datatype Policy = Policy(
    maxRequests: nat, maxAttempts: nat, totalSeconds: real, maxDelay: real, backoff: real,
    resources: set<Resource>, retryStatuses: set<int>, retryTransport: bool)

  predicate ValidPolicy(p: Policy) {
    && p.maxAttempts >= 1 && p.totalSeconds > 0.0 && 0.0 <= p.backoff <= p.maxDelay
    && p.resources != {} && p.retryStatuses <= {429, 500, 502, 503, 504}
  }

  datatype Classified = Classified(reason: Reason, retryable: bool, wish: Option<Wish>)

  function StatusReason(code: int, nim: bool): Reason {
    if code == 401 then Authentication
    else if code == 403 then Forbidden
    else if code == 404 then (if nim then NimTagUnavailable else TargetUnavailable)
    else if code == 429 then Quota
    else if code == 304 then CacheRequired
    else if code in {500, 502, 503, 504} then Provider
    else if 300 <= code < 400 then Redirect
    else HttpError
  }

  function Classify(f: Failure, p: Policy, nim: bool): Classified {
    match f
    case Execution(reason) => Classified(reason, false, None)
    case Http(code, header) =>
      if code == None || !(100 <= code.value <= 599) || header == BrokenHeader then Classified(InvalidSchema, false, None)
      else
        Classified(StatusReason(code.value, nim), code.value in p.retryStatuses,
            if header.Asked? then Some(header.wish) else None)
    case TimedOut => Classified(Timeout, p.retryTransport, None)
    case Disconnected => Classified(Connection, p.retryTransport, None)
    case Undecodable => Classified(InvalidJson, false, None)
    case Malformed => Classified(InvalidSchema, false, None)
    case Other => Classified(Unexpected, false, None)
  }

  // ----- The surroundings, as whatever they answer each time -----

  /** What an execution does with its surroundings, one thing after the other; None is an exception or a broken value. */
  datatype Event =
    | Read(now: Option<real>)
    | Looked(wall: Option<WallTime>)
    | Slept(delay: real, whole: bool)
    | Jittered(base: real, jitter: Option<real>)
    | Called(call: nat)
    | Sent(resource: Resource)

  /** The answer to the event of each turn is arbitrary. */
  datatype Surroundings = Surroundings(
    monotonic: nat -> Option<real>, wall: nat -> Option<WallTime>, sleep: nat -> bool, jitter: nat -> Option<real>)

  /** One dispatch that an operation tries: its callback fails or not, and the operation may swallow any exception. */
  datatype Dispatch = Dispatch(resource: Resource, failure: Option<Failure>, swallow: bool)

  datatype Ending = Observes(snapshot: nat, complete: bool) | ReturnsNonsense | Raises(failure: Failure)

  /** What an operation does in one call. */
  datatype Script = Script(dispatches: seq<Dispatch>, ending: Ending)

  /** `check` is the validation of an observed snapshot against the plan. */
  datatype Task = Task(
    nim: bool, resources: set<Resource>, policy: Policy, operation: nat -> Script, idempotent: bool,
    check: nat -> Option<Failure>)

  datatype SourceResult = SourceResult(
    status: Status, reason: Option<Reason>, lastError: Option<Reason>, attempts: nat, requests: nat,
    elapsed: real, waited: real, snapshot: Option<nat>)

  /** The checks of a result's constructor. */
  predicate Constructible(t: Task, r: SourceResult) {
    && r.attempts <= t.policy.maxAttempts && r.requests <= t.policy.maxRequests
    && r.elapsed >= 0.0 && r.waited >= 0.0
    && (if r.status == Success then r.reason == None && r.snapshot.Some? && t.check(r.snapshot.value) == None
                                    && t.resources <= t.policy.resources
        else r.reason.Some? && r.snapshot == None)
  }

  // ----- Logs of events -----

  type Log = seq<Event>

  /** The answers in a log are those of the surroundings. */
  ghost predicate Faithful(world: Surroundings, log: Log) {
    forall i | 0 <= i < |log| ::
      match log[i]
      case Read(now) => now == world.monotonic(i)
      case Looked(wall) => wall == world.wall(i)
      case Slept(_, whole) => whole == world.sleep(i)
      case Jittered(_, jitter) => jitter == world.jitter(i)
      case _ => true
  }

  ghost function Calls(log: Log): nat {
    if log == [] then 0 else Calls(log[..|log| - 1]) + (if log[|log| - 1].Called? then 1 else 0)
  }

  ghost function Sends(log: Log): nat {
    if log == [] then 0 else Sends(log[..|log| - 1]) + (if log[|log| - 1].Sent? then 1 else 0)
  }

  lemma CountsMore(log: Log, e: Event)
    ensures Calls(log + [e]) == Calls(log) + (if e.Called? then 1 else 0)
    ensures Sends(log + [e]) == Sends(log) + (if e.Sent? then 1 else 0)
  {
    assert (log + [e])[..|log|] == log;
  }

  lemma {:induction false} SendsGrow(log: Log, more: Log)
    requires log <= more
    ensures Sends(log) <= Sends(more)
    decreases |more|
  {
    if |log| < |more| {
      SendsGrow(log, more[..|more| - 1]);
    } else {
      assert log == more;
    }
  }

  /** A good reading of the clock. */
  predicate IsRead(log: Log, i: int) {
    0 <= i < |log| && log[i].Read? && log[i].now.Some?
  }

  /** What a good reading read. */
  function At(log: Log, i: int): real {
    if IsRead(log, i) then log[i].now.value else 0.0
  }

  /** The time that a reading leaves, counted from the first one. */
  function Left(p: Policy, log: Log, i: int): real {
    p.totalSeconds - (At(log, i) - At(log, 0))
  }

  /** Some reading was at the time limit, or after it. */
  ghost predicate Spent(p: Policy, log: Log) {
    exists i :: IsRead(log, i) && Left(p, log, i) <= 0.0
  }

  /** Here the surroundings failed, gave a broken value, or turned the clock back. */
  ghost predicate Fault(log: Log, i: int)
    requires 0 <= i < |log|
  {
    match log[i]
    case Read(now) => now == None || exists j :: 0 <= j < i && IsRead(log, j) && now.value < At(log, j)
    case Looked(wall) => wall == None || wall.value.date == None
    case Slept(_, whole) => !whole
    case Jittered(_, jitter) => jitter == None || jitter.value < 0.0
    case _ => false
  }

  ghost predicate Faulty(log: Log) {
    exists i :: 0 <= i < |log| && Fault(log, i)
  }

  lemma FaultyStays(p: Policy, log: Log, more: Log)
    requires log <= more && log != []
    ensures Faulty(log) ==> Faulty(more)
    ensures Spent(p, log) ==> Spent(p, more)
  {
    if Faulty(log) {
      var i :| 0 <= i < |log| && Fault(log, i);
      if log[i].Read? && log[i].now.Some? {
        var j :| 0 <= j < i && IsRead(log, j) && log[i].now.value < At(log, j);
        assert IsRead(more, j) && At(more, j) == At(log, j);
      }
      assert Fault(more, i);
    }
    if Spent(p, log) {
      var i :| IsRead(log, i) && Left(p, log, i) <= 0.0;
      assert IsRead(more, i) && At(more, 0) == At(log, 0);
    }
  }

  predicate Planned(t: Task, resource: Resource) {
    resource in t.resources && resource in t.policy.resources
  }

  /** The event before this one is a reading within the time limit. */
  predicate InTime(p: Policy, log: Log, i: int) {
    IsRead(log, i - 1) && Left(p, log, i - 1) > 0.0
  }

  /** Every call and every dispatch follows a reading within the time limit, and only planned resources are sent to. */
  ghost predicate Orderly(t: Task, log: Log) {
    forall i | 0 <= i < |log| ::
      && (log[i].Called? ==> InTime(t.policy, log, i))
      && (log[i].Sent? ==> Planned(t, log[i].resource) && InTime(t.policy, log, i))
  }

  lemma OrderlyMore(t: Task, log: Log, e: Event)
    requires Orderly(t, log)
    requires e.Called? ==> InTime(t.policy, log, |log|)
    requires e.Sent? ==> Planned(t, e.resource) && InTime(t.policy, log, |log|)
    ensures Orderly(t, log + [e])
  {
    var more := log + [e];
    forall i | 0 <= i < |more|
      ensures more[i].Called? ==> InTime(t.policy, more, i)
      ensures more[i].Sent? ==> Planned(t, more[i].resource) && InTime(t.policy, more, i)
    {
      if i < |log| {
        assert more[i] == log[i] && (i > 0 ==> more[i - 1] == log[i - 1]);
      }
    }
  }

  /** The clocks, the sleep, the jitter and the operation, as an execution uses them. */
  class Runtime {
    const world: Surroundings
    var turn: nat
    ghost var log: Log

    constructor (world: Surroundings)
      ensures Valid() && this.world == world && log == []
    {
      this.world := world;
      turn, log := 0, [];
    }

    ghost predicate Valid()
      reads this
    {
      |log| == turn && Faithful(world, log)
    }

    method Monotonic() returns (now: Option<real>)
      requires Valid()
      modifies this
      ensures Valid() && log == old(log) + [Read(now)]
    {
      now := world.monotonic(turn);
      turn, log := turn + 1, log + [Read(now)];
    }

    method Wall() returns (wall: Option<WallTime>)
      requires Valid()
      modifies this
      ensures Valid() && log == old(log) + [Looked(wall)]
    {
      wall := world.wall(turn);
      turn, log := turn + 1, log + [Looked(wall)];
    }

    method Sleep(delay: real) returns (whole: bool)
      requires Valid()
      modifies this
      ensures Valid() && log == old(log) + [Slept(delay, whole)]
    {
      whole := world.sleep(turn);
      turn, log := turn + 1, log + [Slept(delay, whole)];
    }

    method Jitter(base: real) returns (jitter: Option<real>)
      requires Valid()
      modifies this
      ensures Valid() && log == old(log) + [Jittered(base, jitter)]
    {
      jitter := world.jitter(turn);
      turn, log := turn + 1, log + [Jittered(base, jitter)];
    }

    method Call(t: Task, call: nat) returns (script: Script)
      requires Valid()
      modifies this
      ensures Valid() && log == old(log) + [Called(call)] && script == t.operation(call)
    {
      turn, log := turn + 1, log + [Called(call)];
      return t.operation(call);
    }

    method Send(d: Dispatch) returns (failure: Option<Failure>)
      requires Valid()
      modifies this
      ensures Valid() && log == old(log) + [Sent(d.resource)] && failure == d.failure
    {
      turn, log := turn + 1, log + [Sent(d.resource)];
      return d.failure;
    }
  }
}
