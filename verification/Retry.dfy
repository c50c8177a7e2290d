/** One source, executed under budgets of attempts, requests, time and delay, against any surroundings. */
module Retry {
  import opened Base
  import opened RetryAfter
  import opened SourceLog

  // ----- Budgets -----

  class Budget {
    const policy: Policy
    const runtime: Runtime
    const start: real
    var attempts: nat
    var requests: nat
    var elapsed: real
    var waited: real
    var last: real
    ghost var latest: nat

    constructor (policy: Policy, runtime: Runtime, start: real)
      requires ValidPolicy(policy) && runtime.Valid() && runtime.log == [Read(Some(start))]
      ensures Valid() && this.policy == policy && this.runtime == runtime
      ensures attempts == 0 && requests == 0 && elapsed == 0.0 && waited == 0.0
    {
      this.policy, this.runtime, this.start := policy, runtime, start;
      attempts, requests, elapsed, waited, last, latest := 0, 0, 0.0, 0.0, start, 0;
      CountsMore([], Read(Some(start)));
    }

    /**
     * The counters count the log, and no counter exceeds its limit. The first reading is the start, the latest good one
     * gives the elapsed time, time only moves forward, and waiting is part of it.
     */
    ghost predicate Valid()
      reads this, runtime
    {
      && ValidPolicy(policy) && runtime.Valid()
      && attempts == Calls(runtime.log) <= policy.maxAttempts
      && requests == Sends(runtime.log) <= policy.maxRequests
      && latest < |runtime.log| && runtime.log[0] == Read(Some(start)) && runtime.log[latest] == Read(Some(last))
      && start <= last && elapsed == last - start && 0.0 <= waited <= elapsed
    }

    /** Read the clock; a broken, failing or backward clock is a runtime error and changes nothing measured. */
    method Sample() returns (r: Result<real, Reason>)
      requires Valid()
      modifies this`last, this`elapsed, this`latest, runtime
      ensures Valid() && old(last) <= last
      ensures |runtime.log| == |old(runtime.log)| + 1 && runtime.log[|old(runtime.log)|].Read?
      ensures runtime.log == old(runtime.log) + [runtime.log[|old(runtime.log)|]]
      ensures r.Ok? ==>
                && latest == |old(runtime.log)| && IsRead(runtime.log, latest)
                && r.value == RealMax(0.0, Left(policy, runtime.log, latest))
                && Left(policy, runtime.log, latest) == policy.totalSeconds - elapsed
      ensures r.Refused? ==> r.error == Runtime && last == old(last) && elapsed == old(elapsed) && Faulty(runtime.log)
    {
      ghost var before := runtime.log;
      var now := runtime.Monotonic();
      CountsMore(before, Read(now));
      if now == None || now.value < last {
        assert now.Some? ==> IsRead(runtime.log, latest) && At(runtime.log, latest) == last;
        assert Fault(runtime.log, |before|);
        return Refused(Runtime);
      }
      last, elapsed, latest := now.value, now.value - start, |before|;
      return Ok(RealMax(0.0, policy.totalSeconds - elapsed));
    }

    method CheckTime() returns (r: Result<real, Reason>)
      requires Valid()
      modifies this`last, this`elapsed, this`latest, runtime
      ensures Valid() && old(last) <= last
      ensures |runtime.log| == |old(runtime.log)| + 1 && runtime.log[|old(runtime.log)|].Read?
      ensures runtime.log == old(runtime.log) + [runtime.log[|old(runtime.log)|]]
      ensures r.Ok? ==>
                && latest == |old(runtime.log)| && InTime(policy, runtime.log, |runtime.log|)
                && r.value == Left(policy, runtime.log, latest) == policy.totalSeconds - elapsed
      ensures r.Refused? ==> r.error in {Runtime, TimeBudget} && OutOf(policy, runtime.log, r.error)
    {
      r := Sample();
      if r.Ok? && r.value <= 0.0 {
        return Refused(TimeBudget);
      }
    }
  }

  // ----- What an operation may do -----

  /** No time, no request or no working surroundings are left. */
  ghost predicate OutOf(p: Policy, log: Log, reason: Reason) {
    match reason
    case RequestBudget => Sends(log) >= p.maxRequests
    case TimeBudget => Spent(p, log)
    case Runtime => Faulty(log)
    case _ => false
  }

  lemma OutOfStays(p: Policy, log: Log, more: Log, reason: Reason)
    requires OutOf(p, log, reason) && log <= more && log != []
    ensures OutOf(p, more, reason)
  {
    hide Faulty, Spent, Sends;
    FaultyStays(p, log, more);
    SendsGrow(log, more);
  }

  /** What makes the executor itself fail a call. */
  ghost predicate Blame(t: Task, log: Log, script: Script, reason: Reason) {
    || OutOf(t.policy, log, reason)
    || (reason == Selection && exists d <- script.dispatches :: !Planned(t, d.resource))
    || (reason == InvalidSchema && script.ending == ReturnsNonsense)
    || (reason == Incomplete && script.ending.Observes? && !script.ending.complete)
  }

  /** This dispatch fails like this, and the operation lets it. */
  predicate Escapes(d: Dispatch, failure: Failure) {
    d.failure == Some(failure) && !d.swallow
  }

  /** The operation gets past so many of its dispatches, since they do not fail or it swallows their failures. */
  predicate Passes(dispatches: seq<Dispatch>, count: nat)
    requires count <= |dispatches|
  {
    forall i | 0 <= i < count :: dispatches[i].failure == None || dispatches[i].swallow
  }

  /** The failures that one call of the operation can end in: its own first one, or one that the executor is to blame for. */
  ghost predicate FailsWith(t: Task, log: Log, script: Script, failure: Failure) {
    || (failure.Execution? && Blame(t, log, script, failure.reason))
    || (exists i :: 0 <= i < |script.dispatches| && Escapes(script.dispatches[i], failure) && Passes(script.dispatches, i))
    || (script.ending == Raises(failure) && Passes(script.dispatches, |script.dispatches|))
    || (script.ending.Observes? && t.check(script.ending.snapshot) == Some(failure)
        && Passes(script.dispatches, |script.dispatches|))
  }

  lemma FailsWithStays(t: Task, log: Log, more: Log, script: Script, failure: Failure)
    requires FailsWith(t, log, script, failure) && log <= more && log != []
    ensures FailsWith(t, more, script, failure)
  {
    hide OutOf;
    if failure.Execution? && OutOf(t.policy, log, failure.reason) {
      OutOfStays(t.policy, log, more, failure.reason);
    }
  }

  /** Every dispatch of an operation goes through here. */
  class AttemptContext {
    const task: Task
    const budget: Budget
    var active: bool

    constructor (task: Task, budget: Budget)
      ensures this.task == task && this.budget == budget && active
    {
      this.task, this.budget, active := task, budget, true;
    }

    method Close()
      modifies this
      ensures !active
    {
      active := false;
    }

    /**
     * Dispatch one request, if the context is open, the resource planned and allowed, and time and requests remain; one
     * dispatch at most, right after the reading that left time.
     */
    method Request(d: Dispatch) returns (failure: Option<Failure>)
      requires budget.Valid() && budget.policy == task.policy && Orderly(task, budget.runtime.log)
      modifies budget`last, budget`elapsed, budget`latest, budget`requests, budget.runtime
      ensures budget.Valid() && old(budget.last) <= budget.last
      ensures old(budget.runtime.log) <= budget.runtime.log && Orderly(task, budget.runtime.log)
      ensures forall i | |old(budget.runtime.log)| <= i < |budget.runtime.log| && !budget.runtime.log[i].Read? ::
                && i == |old(budget.runtime.log)| + 1 && budget.runtime.log[i] == Sent(d.resource)
                && active && old(budget.requests) < task.policy.maxRequests
      ensures !active ==> failure == Some(Execution(Selection)) && budget.runtime.log == old(budget.runtime.log)
      ensures active && failure == None ==> d.failure == None
      ensures active && failure.Some? ==>
                || failure == d.failure
                || (failure.value.Execution? && OutOf(task.policy, budget.runtime.log, failure.value.reason))
                || (failure.value == Execution(Selection) && !Planned(task, d.resource))
    {
      hide Faithful, Faulty, Spent, Calls, Sends, Orderly;
      ghost var before := budget.runtime.log;
      if !active || d.resource !in task.resources || d.resource !in task.policy.resources {
        return Some(Execution(Selection));
      }
      var remaining := budget.CheckTime();
      ghost var looked := budget.runtime.log;
      OrderlyMore(task, before, looked[|before|]);
      if remaining.Refused? {
        return Some(Execution(remaining.error));
      }
      if budget.requests >= task.policy.maxRequests {
        return Some(Execution(RequestBudget));
      }
      OrderlyMore(task, looked, Sent(d.resource));
      CountsMore(looked, Sent(d.resource));
      budget.requests := budget.requests + 1;
      var failed := budget.runtime.Send(d);
      if failed.Some? {
        return failed;
      }
      ghost var sent := budget.runtime.log;
      var after := budget.CheckTime();
      OrderlyMore(task, sent, budget.runtime.log[|sent|]);
      if after.Refused? {
        return Some(Execution(after.error));
      }
      return None;
    }

    /** Run an operation's script in this context. */
    method Operate(script: Script) returns (r: Result<Ending, Failure>)
      requires budget.Valid() && budget.policy == task.policy && Orderly(task, budget.runtime.log) && active
      modifies budget`last, budget`elapsed, budget`latest, budget`requests, budget.runtime
      ensures budget.Valid() && old(budget.last) <= budget.last
      ensures old(budget.runtime.log) <= budget.runtime.log && Orderly(task, budget.runtime.log)
      ensures OnlySends(budget.runtime.log, |old(budget.runtime.log)|)
      ensures r.Ok? ==> r.value == script.ending && !r.value.Raises? && Passes(script.dispatches, |script.dispatches|)
      ensures r.Refused? ==> FailsWith(task, budget.runtime.log, script, r.error)
    {
      hide Faithful, OutOf, Calls, Sends, Orderly, InTime;
      for i := 0 to |script.dispatches|
        invariant budget.Valid() && old(budget.last) <= budget.last
        invariant old(budget.runtime.log) <= budget.runtime.log && Orderly(task, budget.runtime.log)
        invariant OnlySends(budget.runtime.log, |old(budget.runtime.log)|) && Passes(script.dispatches, i)
      {
        var failure := Request(script.dispatches[i]);
        if failure.Some? && !script.dispatches[i].swallow {
          assert script.dispatches[i] in script.dispatches;
          assert failure == script.dispatches[i].failure ==> Escapes(script.dispatches[i], failure.value);
          return Refused(failure.value);
        }
      }
      if script.ending.Raises? {
        return Refused(script.ending.failure);
      }
      return Ok(script.ending);
    }
  }

  /** From here on there are readings of the clock and dispatches alone. */
  predicate OnlySends(log: Log, since: nat) {
    forall i | since <= i < |log| :: log[i].Read? || log[i].Sent?
  }

  // ----- Backoff -----

  /** A backoff after n doublings. */
  function Doubled(b: real, n: nat): real {
    if n == 0 then b else 2.0 * Doubled(b, n - 1)
  }

  /** Exponential backoff with a ceiling. */
  function BackoffOf(p: Policy, attempt: nat): real
    requires attempt >= 1
  {
    RealMin(Doubled(p.backoff, attempt - 1), p.maxDelay)
  }

  function Power2(n: nat): real {
    if n == 0 then 1.0 else 2.0 * Power2(n - 1)
  }

  /** The doublings are the powers of two. */
  lemma {:induction false} DoubledIsPower(b: real, n: nat)
    ensures Doubled(b, n) == b * Power2(n)
  {
    if n > 0 {
      DoubledIsPower(b, n - 1);
      Twice(b, Power2(n - 1));
    }
  }

  lemma Twice(b: real, x: real)
    ensures b * (2.0 * x) == 2.0 * (b * x)
  {
  }

  /** The loop stops doubling once the ceiling is certain, and still gives the exact minimum. */
  method Backoff(p: Policy, attempt: nat) returns (delay: real)
    requires ValidPolicy(p) && attempt >= 1
    ensures delay == BackoffOf(p, attempt)
  {
    delay := p.backoff;
    for i := 0 to attempt - 1
      invariant delay == Doubled(p.backoff, i)
    {
      DoubledGrows(p.backoff, i, attempt - 1);
      if delay == 0.0 {
        return 0.0;
      }
      if delay >= p.maxDelay / 2.0 {
        return p.maxDelay;
      }
      delay := delay * 2.0;
    }
    return RealMin(delay, p.maxDelay);
  }

  lemma {:induction false} DoubledGrows(b: real, m: nat, n: nat)
    requires b >= 0.0 && m <= n
    ensures 0.0 <= Doubled(b, m) <= Doubled(b, n)
    ensures m < n ==> 2.0 * Doubled(b, m) <= Doubled(b, n)
    ensures Doubled(b, m) == 0.0 ==> Doubled(b, n) == 0.0
  {
    if m < n {
      DoubledGrows(b, m, n - 1);
    } else if n > 0 {
      DoubledGrows(b, m - 1, n - 1);
    }
  }

  // ----- The executor -----

  /** One call of the operation, and how it ended: with a snapshot that was complete, valid and in time, or an error. */
  datatype Try = Try(called: nat, error: Option<Classified>, snapshot: Option<nat>)

  /**
   * A delay between two calls, and the events that belong to it: the reading of the wall clock for the server's delay,
   * the jitter, and the readings of the clock before and after it.
   */
  datatype Wait = Wait(
    wall: Option<WallTime>, looked: nat, base: real, server: real, jittered: nat, delay: real, began: nat, ended: nat)

  /** A date needs the wall clock. */
  predicate NeedsWall(wish: Option<Wish>) {
    wish.Some? && (wish.value.NotBefore? || wish.value.LegacyDate?)
  }

  /** The server's delay is the one that the failure asked for, by the wall clock where it asked for a date. */
  predicate Asks(log: Log, wish: Option<Wish>, w: Wait) {
    && ServerDelay(wish, w.wall) == Ok(w.server)
    && (NeedsWall(wish) ==> w.looked < |log| && log[w.looked] == Looked(w.wall))
  }

  /** A delay is the larger of the server's and of the backoff with its jitter, which stays below the ceiling. */
  predicate DelayOf(p: Policy, log: Log, attempt: nat, wish: Option<Wish>, w: Wait)
    requires attempt >= 1
  {
    && Asks(log, wish, w) && w.base == BackoffOf(p, attempt)
    && (NeedsWall(wish) ==> w.looked < w.jittered)
    && w.jittered < w.began && IsRead(log, 0) && IsRead(log, w.began)
    && log[w.jittered].Jittered? && log[w.jittered].base == w.base && log[w.jittered].jitter.Some?
    && w.delay == RealMax(w.server, w.base + RealMin(log[w.jittered].jitter.value, p.maxDelay - w.base))
  }

  /** The wait was planned at one reading and over at the next, with nothing but its sleep between them. */
  predicate Timed(log: Log, w: Wait) {
    && IsRead(log, w.began) && IsRead(log, w.ended)
    && (if w.delay == 0.0 then w.ended == w.began + 1
        else w.ended == w.began + 2 && log[w.began + 1] == Slept(w.delay, true))
  }

  /** A wait follows the policy and the server, fits into the time left, and the clock has gone on by it at its end. */
  predicate WaitOk(p: Policy, log: Log, attempt: nat, wish: Option<Wish>, w: Wait)
    requires attempt >= 1
  {
    && DelayOf(p, log, attempt, wish, w) && Timed(log, w)
    && w.delay >= w.base && w.delay >= w.server >= 0.0
    && w.delay <= p.maxDelay && w.delay < Left(p, log, w.began)
    && At(log, w.ended) - At(log, w.began) >= w.delay
    && Left(p, log, w.ended) > 0.0
  }

  lemma WaitStays(p: Policy, log: Log, more: Log, attempt: nat, wish: Option<Wish>, w: Wait)
    requires attempt >= 1 && log <= more
    ensures DelayOf(p, log, attempt, wish, w) ==> DelayOf(p, more, attempt, wish, w)
    ensures WaitOk(p, log, attempt, wish, w) ==> WaitOk(p, more, attempt, wish, w)
  {
    hide BackoffOf, ServerDelay;
  }

  /** The first event of a wait. */
  function First(wish: Option<Wish>, w: Wait): nat {
    if NeedsWall(wish) then w.looked else w.jittered
  }

  /** Why a failed call was the last one. */
  ghost predicate Stops(t: Task, log: Log, attempt: nat, e: Classified, status: Status, reason: Reason)
    requires attempt >= 1
  {
    || (status == Deferred && reason == e.reason && reason in {RequestBudget, TimeBudget})
    || (status == Failed && reason == e.reason && (!e.retryable || !t.idempotent))
    || (status == (if reason == Runtime then Failed else Deferred) && OutOf(t.policy, log, reason))
    || (status == Deferred && reason == AttemptBudget && attempt >= t.policy.maxAttempts)
    || (status == Deferred && reason == RetryAfterExtreme && e.wish == Some(Excessive))
    || (status == Deferred && reason == DelayLimit && exists w :: Asks(log, e.wish, w) && w.server > t.policy.maxDelay)
    || (status == Deferred && reason == RetryAfterBudget
        && exists w :: Asks(log, e.wish, w) && IsRead(log, w.began) && w.server >= Left(t.policy, log, w.began))
    || (status == Deferred && reason == TimeBudget
        && exists w :: DelayOf(t.policy, log, attempt, e.wish, w) && w.delay >= Left(t.policy, log, w.began))
    || (status == Deferred && reason == WaitInterrupted
        && exists w :: DelayOf(t.policy, log, attempt, e.wish, w) && Timed(log, w)
                       && At(log, w.ended) - At(log, w.began) < w.delay)
  }

  lemma StopsStays(t: Task, log: Log, more: Log, attempt: nat, e: Classified, status: Status, reason: Reason)
    requires attempt >= 1 && log <= more && log != [] && IsRead(log, 0) && Stops(t, log, attempt, e, status, reason)
    ensures Stops(t, more, attempt, e, status, reason)
  {
    hide BackoffOf, ServerDelay, OutOf;
    if OutOf(t.policy, log, reason) {
      OutOfStays(t.policy, log, more, reason);
    }
    forall w | Asks(log, e.wish, w)
      ensures Asks(more, e.wish, w)
    {
    }
    forall w | DelayOf(t.policy, log, attempt, e.wish, w)
      ensures DelayOf(t.policy, more, attempt, e.wish, w)
    {
    }
  }

  /** What follows a failed call: another one, an end, or an error of the execution itself. */
  datatype Next = Again | Stop(status: Status, reason: Reason) | Throw(reason: Reason)

  /** The status that the execution ends with on an error of its own. */
  function Thrown(reason: Reason): Status {
    if reason == TimeBudget || reason == RetryAfterExtreme then Deferred else Failed
  }

  function StatusOf(next: Next): Status
    requires next != Again
  {
    if next.Stop? then next.status else Thrown(next.reason)
  }

  /**
   * Call k stands in the log. Its error is the classification of a failure that this call could end in; without an error
   * it observed a complete snapshot that is valid.
   */
  ghost predicate Explained(t: Task, log: Log, k: nat, tried: Try) {
    && tried.called < |log| && log[tried.called] == Called(k)
    && (tried.error.Some? ==>
          && tried.snapshot == None
          && exists f :: FailsWith(t, log, t.operation(k), f) && tried.error.value == Classify(f, t.policy, t.nim))
    && (tried.error == None ==>
          && tried.snapshot.Some? && t.operation(k).ending == Observes(tried.snapshot.value, true)
          && t.check(tried.snapshot.value) == None)
  }

  lemma ExplainedStays(t: Task, log: Log, more: Log, k: nat, tried: Try)
    requires Explained(t, log, k, tried) && log <= more
    ensures Explained(t, more, k, tried)
  {
    hide FailsWith, Classify;
    if tried.error.Some? {
      var f :| FailsWith(t, log, t.operation(k), f) && tried.error.value == Classify(f, t.policy, t.nim);
      FailsWithStays(t, log, more, t.operation(k), f);
    }
  }

  /** One call of the operation in a fresh context, and the validation of what it observed. */
  method TryOnce(t: Task, b: Budget) returns (r: Try)
    requires b.Valid() && b.policy == t.policy && b.attempts < t.policy.maxAttempts
    requires Orderly(t, b.runtime.log) && InTime(t.policy, b.runtime.log, |b.runtime.log|)
    modifies b, b.runtime
    ensures b.Valid() && b.attempts == old(b.attempts) + 1 && b.waited == old(b.waited) && old(b.last) <= b.last
    ensures old(b.runtime.log) <= b.runtime.log && Orderly(t, b.runtime.log)
    ensures r.called == |old(b.runtime.log)| < |b.runtime.log| && Explained(t, b.runtime.log, old(b.attempts), r)
  {
    hide Faithful, OutOf, Calls, Sends, Orderly, InTime, Classify;
    var turn := b.runtime.turn;
    ghost var before := b.runtime.log;
    OrderlyMore(t, before, Called(b.attempts));
    CountsMore(before, Called(b.attempts));
    var script := b.runtime.Call(t, b.attempts);
    b.attempts := b.attempts + 1;
    var context := new AttemptContext(t, b);
    var ended := context.Operate(script);
    context.Close();
    var failure: Option<Failure> := None;
    var snapshot := 0;
    if ended.Refused? {
      failure := Some(ended.error);
    } else if ended.value == ReturnsNonsense {
      failure := Some(Execution(InvalidSchema));
    } else if !ended.value.complete {
      failure := Some(Execution(Incomplete));
    } else {
      snapshot := ended.value.snapshot;
      failure := t.check(snapshot);
      if failure == None {
        ghost var operated := b.runtime.log;
        var time := b.CheckTime();
        OrderlyMore(t, operated, b.runtime.log[|operated|]);
        if time.Refused? {
          failure := Some(Execution(time.error));
        }
      }
    }
    if failure.Some? {
      assert FailsWith(t, b.runtime.log, t.operation(old(b.attempts)), failure.value);
      return Try(turn, Some(Classify(failure.value, t.policy, t.nim)), None);
    }
    return Try(turn, None, Some(snapshot));
  }

  /** Wait for a delay; the time it really took counts as waited even when the sleep fails. */
  method WaitFor(b: Budget, delay: real) returns (next: Next)
    requires b.Valid() && delay >= 0.0 && b.latest == |b.runtime.log| - 1
    modifies b, b.runtime
    ensures b.Valid() && b.attempts == old(b.attempts) && b.requests == old(b.requests) && old(b.last) <= b.last
    ensures old(b.runtime.log) <= b.runtime.log
    ensures !next.Throw? ==>
              && b.runtime.log
                 == old(b.runtime.log) + (if delay == 0.0 then [] else [Slept(delay, true)]) + [Read(Some(b.last))]
              && b.latest == |b.runtime.log| - 1
              && b.waited == old(b.waited) + (if delay == 0.0 then 0.0 else b.last - old(b.last))
    ensures next == Again ==> b.last - old(b.last) >= delay && Left(b.policy, b.runtime.log, b.latest) > 0.0
    ensures next.Stop? ==>
              && next.status == Deferred
              && ((next.reason == TimeBudget && Spent(b.policy, b.runtime.log))
                  || (next.reason == WaitInterrupted && b.last - old(b.last) < delay))
    ensures next.Throw? ==> next.reason == Runtime && Faulty(b.runtime.log)
    ensures forall i | |old(b.runtime.log)| <= i < |b.runtime.log| :: b.runtime.log[i].Read? || b.runtime.log[i].Slept?
  {
    hide Faithful, Faulty, Calls, Sends;
    var before := b.last;
    if delay != 0.0 {
      ghost var log := b.runtime.log;
      var whole := b.runtime.Sleep(delay);
      CountsMore(log, Slept(delay, whole));
      if !whole {
        SleptBadly(b.runtime.log, |log|);
        var sampled := b.Sample();
        FaultyStays(b.policy, log + [Slept(delay, false)], b.runtime.log);
        if sampled.Ok? {
          b.waited := b.waited + (b.last - before);
        }
        return Throw(Runtime);
      }
    }
    var remaining := b.Sample();
    if remaining.Refused? {
      return Throw(remaining.error);
    }
    if delay != 0.0 {
      b.waited := b.waited + (b.last - before);
    }
    if remaining.value <= 0.0 {
      return Stop(Deferred, TimeBudget);
    }
    if b.last - before < delay {
      return Stop(Deferred, WaitInterrupted);
    }
    return Again;
  }

  lemma SleptBadly(log: Log, i: nat)
    requires i < |log| && log[i].Slept? && !log[i].whole
    ensures Faulty(log)
  {
    assert Fault(log, i);
  }

  /** What the wait adds to the time waited. */
  function Part(log: Log, w: Wait): real {
    if w.delay == 0.0 then 0.0 else At(log, w.ended) - At(log, w.began)
  }

  /** From here on the operation is not called and nothing is sent. */
  predicate Quiet(log: Log, since: nat) {
    forall i | since <= i < |log| :: !log[i].Called? && !log[i].Sent?
  }

  lemma QuietIsOrderly(t: Task, log: Log, more: Log)
    requires Orderly(t, log) && log <= more && Quiet(more, |log|)
    ensures Orderly(t, more)
  {
    forall i | 0 <= i < |log|
      ensures InTime(t.policy, log, i) ==> InTime(t.policy, more, i)
    {
    }
  }

  /** After a failed call: stop, or plan a delay from the server, the backoff and the jitter, and wait. */
  method AfterFailure(t: Task, b: Budget, e: Classified) returns (next: Next, ghost w: Wait)
    requires b.Valid() && b.policy == t.policy && b.attempts >= 1
    modifies b, b.runtime
    ensures b.Valid() && b.attempts == old(b.attempts) && old(b.last) <= b.last
    ensures old(b.runtime.log) <= b.runtime.log && Quiet(b.runtime.log, |old(b.runtime.log)|)
    ensures next == Again ==>
              && e.retryable && t.idempotent && b.attempts < t.policy.maxAttempts && b.requests < t.policy.maxRequests
              && WaitOk(t.policy, b.runtime.log, b.attempts, e.wish, w)
              && |old(b.runtime.log)| <= First(e.wish, w) && w.ended == |b.runtime.log| - 1
              && b.waited == old(b.waited) + Part(b.runtime.log, w)
    ensures next != Again ==>
              StatusOf(next) != Success && Stops(t, b.runtime.log, b.attempts, e, StatusOf(next), next.reason)
  {
    hide Faithful, Faulty, Spent, Calls, Sends, WaitOk, DelayOf, ServerDelay, BackoffOf;
    w := Wait(None, 0, 0.0, 0.0, 0, 0.0, 0, 0);
    var early, remaining := Worthwhile(t, b, e);
    if early != Again {
      return early, w;
    }
    ghost var looked := |b.runtime.log|;
    var asked, wall := AskServer(b, e.wish);
    if asked.Refused? {
      return Throw(if asked.error == TooExtreme then RetryAfterExtreme else Runtime), w;
    }
    var server := asked.value;
    w := w.(wall := wall, looked := looked, server := server, began := b.latest);
    assert Asks(b.runtime.log, e.wish, w);
    if server >= remaining {
      return Stop(Deferred, RetryAfterBudget), w;
    }
    if server > t.policy.maxDelay {
      return Stop(Deferred, DelayLimit), w;
    }
    next, w := PlanAndWait(t, b, server, e, w);
  }

  /** After a failed call, whether another one is allowed at all. */
  method Worthwhile(t: Task, b: Budget, e: Classified) returns (next: Next, remaining: real)
    requires b.Valid() && b.policy == t.policy && b.attempts >= 1
    modifies b, b.runtime
    ensures b.Valid() && b.attempts == old(b.attempts) && b.requests == old(b.requests) && old(b.last) <= b.last
    ensures b.waited == old(b.waited)
    ensures old(b.runtime.log) <= b.runtime.log && Quiet(b.runtime.log, |old(b.runtime.log)|)
    ensures next == Again ==>
              && e.retryable && t.idempotent && b.attempts < t.policy.maxAttempts && b.requests < t.policy.maxRequests
              && IsRead(b.runtime.log, b.latest) && remaining == Left(t.policy, b.runtime.log, b.latest) > 0.0
    ensures next != Again ==>
              StatusOf(next) != Success && Stops(t, b.runtime.log, b.attempts, e, StatusOf(next), next.reason)
  {
    hide Faithful, Faulty, Spent, Calls, Sends, Asks, DelayOf, Timed;
    var sampled := b.Sample();
    if sampled.Refused? {
      return Throw(sampled.error), 0.0;
    }
    remaining := sampled.value;
    if e.reason == RequestBudget || e.reason == TimeBudget {
      return Stop(Deferred, e.reason), remaining;
    }
    if !e.retryable || !t.idempotent {
      return Stop(Failed, e.reason), remaining;
    }
    if remaining <= 0.0 {
      SpentHere(t.policy, b.runtime.log, b.latest);
      return Stop(Deferred, TimeBudget), remaining;
    }
    if b.requests >= t.policy.maxRequests {
      return Stop(Deferred, RequestBudget), remaining;
    }
    if b.attempts >= t.policy.maxAttempts {
      return Stop(Deferred, AttemptBudget), remaining;
    }
    return Again, remaining;
  }

  lemma SpentHere(p: Policy, log: Log, i: int)
    requires IsRead(log, i) && Left(p, log, i) <= 0.0
    ensures Spent(p, log)
  {
  }

  /** The delay that the server asks for; the wall clock is read only for a date. */
  method AskServer(b: Budget, wish: Option<Wish>) returns (asked: Result<real, DelayFault>, wall: Option<WallTime>)
    requires b.Valid()
    modifies b.runtime
    ensures b.Valid() && asked == ServerDelay(wish, wall) && (asked.Ok? ==> asked.value >= 0.0)
    ensures b.runtime.log == old(b.runtime.log) + (if NeedsWall(wish) then [Looked(wall)] else [])
    ensures asked.Refused? ==>
              if asked.error == TooExtreme then wish == Some(Excessive) else Faulty(b.runtime.log)
  {
    hide Faithful, Faulty, Calls, Sends;
    ghost var log := b.runtime.log;
    wall := None;
    if NeedsWall(wish) {
      wall := b.runtime.Wall();
      CountsMore(log, Looked(wall));
    }
    DelayIsNotNegative(wish, wall);
    asked := ServerDelay(wish, wall);
    if asked == Refused(BadClock) {
      LookedBadly(b.runtime.log, |log|);
    }
  }

  lemma LookedBadly(log: Log, i: nat)
    requires i < |log| && log[i].Looked? && (log[i].wall == None || log[i].wall.value.date == None)
    ensures Faulty(log)
  {
    assert Fault(log, i);
  }

  method PlanAndWait(t: Task, b: Budget, server: real, ghost e: Classified, ghost asked: Wait)
    returns (next: Next, ghost w: Wait)
    requires b.Valid() && b.policy == t.policy
    requires 1 <= b.attempts < t.policy.maxAttempts && b.requests < t.policy.maxRequests
    requires 0.0 <= server <= t.policy.maxDelay && asked.server == server && Asks(b.runtime.log, e.wish, asked)
    modifies b, b.runtime
    ensures b.Valid() && b.attempts == old(b.attempts) && b.requests == old(b.requests) && old(b.last) <= b.last
    ensures old(b.runtime.log) <= b.runtime.log && Quiet(b.runtime.log, |old(b.runtime.log)|)
    ensures next == Again ==>
              && WaitOk(t.policy, b.runtime.log, b.attempts, e.wish, w)
              && w.looked == asked.looked && |old(b.runtime.log)| <= w.jittered && w.ended == |b.runtime.log| - 1
              && b.waited == old(b.waited) + Part(b.runtime.log, w)
    ensures next != Again ==>
              StatusOf(next) != Success && Stops(t, b.runtime.log, b.attempts, e, StatusOf(next), next.reason)
  {
    hide Faithful, Faulty, Calls, Sends, ServerDelay, BackoffOf;
    w := asked;
    var base := Backoff(t.policy, b.attempts);
    ghost var log := b.runtime.log;
    var jitter := b.runtime.Jitter(base);
    CountsMore(log, Jittered(base, jitter));
    if jitter == None || jitter.value < 0.0 {
      JitteredBadly(b.runtime.log, |log|);
      return Throw(Runtime), w;
    }
    var remaining := b.CheckTime();
    if remaining.Refused? {
      return Throw(remaining.error), w;
    }
    w := w.(base := base, jittered := |log|, began := b.latest);
    if server >= remaining.value {
      return Stop(Deferred, RetryAfterBudget), w;
    }
    BackoffBounds(t.policy, b.attempts);
    var delay := RealMax(server, base + RealMin(jitter.value, t.policy.maxDelay - base));
    w := w.(delay := delay);
    assert DelayOf(t.policy, b.runtime.log, b.attempts, e.wish, w);
    if delay >= remaining.value {
      return Stop(Deferred, TimeBudget), w;
    }
    next, w := WaitOut(t, b, delay, e, w);
  }

  /** Wait for a delay that was planned at the latest reading and fits into the time that it left. */
  method WaitOut(t: Task, b: Budget, delay: real, ghost e: Classified, ghost planned: Wait)
    returns (next: Next, ghost w: Wait)
    requires b.Valid() && b.policy == t.policy && b.attempts >= 1
    requires planned.delay == delay && planned.began == b.latest == |b.runtime.log| - 1
    requires DelayOf(t.policy, b.runtime.log, b.attempts, e.wish, planned)
    requires delay < Left(t.policy, b.runtime.log, b.latest)
    requires 0.0 <= planned.server <= delay <= t.policy.maxDelay && planned.base <= delay
    modifies b, b.runtime
    ensures b.Valid() && b.attempts == old(b.attempts) && b.requests == old(b.requests) && old(b.last) <= b.last
    ensures old(b.runtime.log) <= b.runtime.log && Quiet(b.runtime.log, |old(b.runtime.log)|)
    ensures next == Again ==>
              && WaitOk(t.policy, b.runtime.log, b.attempts, e.wish, w)
              && w == planned.(ended := w.ended) && w.ended == |b.runtime.log| - 1
              && b.waited == old(b.waited) + Part(b.runtime.log, w)
    ensures next != Again ==>
              StatusOf(next) != Success && Stops(t, b.runtime.log, b.attempts, e, StatusOf(next), next.reason)
  {
    hide Faithful, Faulty, Spent, Calls, Sends, Asks, DelayOf;
    ghost var log := b.runtime.log;
    next := WaitFor(b, delay);
    w := planned.(ended := b.latest);
    WaitStays(t.policy, log, b.runtime.log, b.attempts, e.wish, planned);
    DelayEnds(t.policy, b.runtime.log, b.attempts, e.wish, planned, w);
  }

  lemma DelayEnds(p: Policy, log: Log, attempt: nat, wish: Option<Wish>, w: Wait, ended: Wait)
    requires attempt >= 1 && DelayOf(p, log, attempt, wish, w) && ended == w.(ended := ended.ended)
    ensures DelayOf(p, log, attempt, wish, ended)
  {
    hide ServerDelay, BackoffOf;
  }

  lemma JitteredBadly(log: Log, i: nat)
    requires i < |log| && log[i].Jittered? && (log[i].jitter == None || log[i].jitter.value < 0.0)
    ensures Faulty(log)
  {
    assert Fault(log, i);
  }

  lemma BackoffBounds(p: Policy, attempt: nat)
    requires ValidPolicy(p) && attempt >= 1
    ensures 0.0 <= BackoffOf(p, attempt) <= p.maxDelay
  {
    DoubledGrows(p.backoff, 0, attempt - 1);
  }

  // ----- Whole executions -----

  /** Call k failed in a retryable way, its task is idempotent, and after it this wait began. */
  ghost predicate Followed(t: Task, log: Log, k: nat, tried: Try, w: Wait) {
    && tried.error.Some? && tried.error.value.retryable && t.idempotent
    && WaitOk(t.policy, log, k + 1, tried.error.value.wish, w)
    && tried.called < First(tried.error.value.wish, w)
  }

  /** Between two calls the first has failed in a retryable way, the task is idempotent, and a wait is over. */
  ghost predicate Spaced(t: Task, log: Log, tries: seq<Try>, waits: seq<Wait>) {
    && |waits| <= |tries| <= |waits| + 1
    && (forall k | 0 <= k < |tries| :: Explained(t, log, k, tries[k]))
    && (forall k | 0 <= k < |waits| :: Followed(t, log, k, tries[k], waits[k]))
    && (forall k | 0 <= k < |waits| && k + 1 < |tries| :: waits[k].ended < tries[k + 1].called)
  }

  ghost function Waited(log: Log, waits: seq<Wait>): real {
    if waits == [] then 0.0 else Waited(log, waits[..|waits| - 1]) + Part(log, waits[|waits| - 1])
  }

  lemma {:induction false} WaitedStays(log: Log, more: Log, waits: seq<Wait>)
    requires log <= more && forall w <- waits :: IsRead(log, w.began) && IsRead(log, w.ended)
    ensures Waited(more, waits) == Waited(log, waits)
  {
    if waits != [] {
      WaitedStays(log, more, waits[..|waits| - 1]);
      assert waits[|waits| - 1] in waits;
    }
  }

  lemma WaitedMore(log: Log, waits: seq<Wait>, w: Wait)
    ensures Waited(log, waits + [w]) == Waited(log, waits) + Part(log, w)
  {
    assert (waits + [w])[..|waits|] == waits;
  }

  /** Why an execution ended without success. */
  ghost predicate Ends(t: Task, log: Log, tries: seq<Try>, status: Status, reason: Reason) {
    || (status == Failed && reason == Selection && tries == [] && !(t.resources <= t.policy.resources))
    || (status == Failed && reason == Runtime && Faulty(log))
    || (status == Deferred && reason == TimeBudget && Spent(t.policy, log))
    || (|tries| > 0 && tries[|tries| - 1].error.Some?
        && Stops(t, log, |tries|, tries[|tries| - 1].error.value, status, reason))
  }

  /** The reason of the last failed call. */
  function LastError(tries: seq<Try>): Option<Reason> {
    if tries == [] then None
    else if tries[|tries| - 1].error.Some? then Some(tries[|tries| - 1].error.value.reason)
    else LastError(tries[..|tries| - 1])
  }

  /** The elapsed time is what one good reading shows since the first one. */
  ghost predicate Measured(log: Log, elapsed: real) {
    || (IsRead(log, 0) && exists i :: IsRead(log, i) && elapsed == At(log, i) - At(log, 0))
    || (log == [Read(None)] && elapsed == 0.0)
  }

  function Report(b: Budget, status: Status, reason: Option<Reason>, lastError: Option<Reason>,
      snapshot: Option<nat>): SourceResult
    reads b
  {
    SourceResult(status, reason, lastError, b.attempts, b.requests, b.elapsed, b.waited, snapshot)
  }

  /** End on an error of the execution itself; the measured time is brought up to date if the clock still works. */
  method Escape(t: Task, b: Budget, lastError: Option<Reason>, reason: Reason) returns (r: SourceResult)
    requires b.Valid() && b.policy == t.policy
    modifies b, b.runtime
    ensures b.Valid() && b.attempts == old(b.attempts)
    ensures old(b.runtime.log) <= b.runtime.log && Quiet(b.runtime.log, |old(b.runtime.log)|)
    ensures Constructible(t, r) && r == Report(b, Thrown(reason), Some(reason), lastError, None)
  {
    hide Faithful, Faulty, Calls, Sends;
    if reason != TimeBudget {
      var _ := b.Sample();
    }
    return Report(b, Thrown(reason), Some(reason), lastError, None);
  }

  lemma SpacedStays(t: Task, log: Log, more: Log, tries: seq<Try>, waits: seq<Wait>)
    requires Spaced(t, log, tries, waits) && log <= more
    ensures Spaced(t, more, tries, waits) && Waited(more, waits) == Waited(log, waits)
  {
    hide Explained, WaitOk;
    forall k | 0 <= k < |tries|
      ensures Explained(t, more, k, tries[k])
    {
      ExplainedStays(t, log, more, k, tries[k]);
    }
    forall k | 0 <= k < |waits|
      ensures Followed(t, more, k, tries[k], waits[k])
      ensures IsRead(log, waits[k].began) && IsRead(log, waits[k].ended)
    {
      assert Followed(t, log, k, tries[k], waits[k]);
      WaitReads(t.policy, log, k + 1, tries[k].error.value.wish, waits[k]);
      WaitStays(t.policy, log, more, k + 1, tries[k].error.value.wish, waits[k]);
    }
    WaitedStays(log, more, waits);
  }

  lemma WaitReads(p: Policy, log: Log, attempt: nat, wish: Option<Wish>, w: Wait)
    requires attempt >= 1 && WaitOk(p, log, attempt, wish, w)
    ensures IsRead(log, w.began) && IsRead(log, w.ended)
  {
  }

  lemma SpacedTry(t: Task, log: Log, tries: seq<Try>, waits: seq<Wait>, tried: Try)
    requires Spaced(t, log, tries, waits) && |tries| == |waits| && Explained(t, log, |tries|, tried)
    requires forall w <- waits :: w.ended < tried.called
    ensures Spaced(t, log, tries + [tried], waits)
  {
    hide Followed, Explained;
    var longer := tries + [tried];
    forall k | 0 <= k < |waits|
      ensures Followed(t, log, k, longer[k], waits[k]) && (k + 1 < |longer| ==> waits[k].ended < longer[k + 1].called)
    {
      assert longer[k] == tries[k] && waits[k] in waits;
    }
  }

  lemma SpacedWait(t: Task, log: Log, tries: seq<Try>, waits: seq<Wait>, w: Wait)
    requires Spaced(t, log, tries, waits) && |tries| == |waits| + 1 && Followed(t, log, |waits|, tries[|waits|], w)
    ensures Spaced(t, log, tries, waits + [w])
  {
    hide Followed, Explained;
  }

  /** At the head of the loop every call so far has failed and has been waited for. */
  ghost predicate Going(t: Task, log: Log, tries: seq<Try>, waits: seq<Wait>, waited: real, lastError: Option<Reason>) {
    && Orderly(t, log) && Spaced(t, log, tries, waits) && |tries| == |waits|
    && (forall w <- waits :: w.ended < |log|)
    && waited == Waited(log, waits) && lastError == LastError(tries)
  }

  lemma GoingStays(
    t: Task, log: Log, more: Log, tries: seq<Try>, waits: seq<Wait>, waited: real, lastError: Option<Reason>)
    requires Going(t, log, tries, waits, waited, lastError) && log <= more && Quiet(more, |log|)
    ensures Going(t, more, tries, waits, waited, lastError)
  {
    hide Orderly, Spaced, Quiet;
    QuietIsOrderly(t, log, more);
    SpacedStays(t, log, more, tries, waits);
  }

  lemma GoingTry(
    t: Task, log: Log, more: Log, tries: seq<Try>, waits: seq<Wait>, waited: real, lastError: Option<Reason>, tried: Try)
    requires Going(t, log, tries, waits, waited, lastError) && log <= more && tried.called == |log|
    requires Explained(t, more, |tries|, tried)
    ensures Spaced(t, more, tries + [tried], waits) && Waited(more, waits) == waited
    ensures LastError(tries + [tried]) == if tried.error.Some? then Some(tried.error.value.reason) else lastError
  {
    hide Orderly, Spaced, Explained;
    SpacedStays(t, log, more, tries, waits);
    SpacedLonger(t, more, tries, waits);
    SpacedTry(t, more, tries, waits, tried);
    assert (tries + [tried])[..|tries|] == tries;
  }

  lemma SpacedLonger(t: Task, log: Log, tries: seq<Try>, waits: seq<Wait>)
    requires Spaced(t, log, tries, waits)
    ensures |waits| <= |tries| <= |waits| + 1
  {
  }

  lemma GoingWait(
    t: Task, log: Log, more: Log, tries: seq<Try>, waits: seq<Wait>, waited: real, w: Wait)
    requires Spaced(t, log, tries, waits) && Waited(log, waits) == waited && |tries| == |waits| + 1
    requires Orderly(t, more) && log <= more && Followed(t, more, |waits|, tries[|waits|], w)
    requires w.ended < |more| && forall v <- waits :: v.ended < |log|
    ensures Going(t, more, tries, waits + [w], waited + Part(more, w), LastError(tries))
  {
    hide Orderly, Spaced, Followed;
    SpacedStays(t, log, more, tries, waits);
    SpacedWait(t, more, tries, waits, w);
    WaitedMore(more, waits, w);
  }

  lemma FirstFails(t: Task, log: Log)
    requires log == [Read(None)]
    ensures Faulty(log) && NothingYet(t, log) && Measured(log, 0.0)
  {
    assert Fault(log, 0);
    CountsMore([], log[0]);
    assert log == [] + [log[0]];
  }

  ghost predicate NothingYet(t: Task, log: Log) {
    Orderly(t, log) && Spaced(t, log, [], []) && Calls(log) == 0 && Sends(log) == 0
  }

  lemma Begun(t: Task, log: Log, start: real)
    requires log == [Read(Some(start))]
    ensures NothingYet(t, log) && Going(t, log, [], [], 0.0, None) && Measured(log, 0.0)
  {
    CountsMore([], log[0]);
    assert log == [] + [log[0]];
    assert IsRead(log, 0);
  }

  /** Why a single look at the clock ended the execution. */
  lemma EndsWithout(t: Task, log: Log, tries: seq<Try>, reason: Reason)
    requires reason in {Runtime, TimeBudget} && OutOf(t.policy, log, reason)
    ensures Ends(t, log, tries, Thrown(reason), reason)
  {
  }

  lemma EndsStays(t: Task, log: Log, more: Log, tries: seq<Try>, status: Status, reason: Reason)
    requires Ends(t, log, tries, status, reason) && log <= more && IsRead(log, 0)
    ensures Ends(t, more, tries, status, reason)
  {
    hide Stops, Faulty, Spent;
    FaultyStays(t.policy, log, more);
    if |tries| > 0 && tries[|tries| - 1].error.Some?
       && Stops(t, log, |tries|, tries[|tries| - 1].error.value, status, reason) {
      StopsStays(t, log, more, |tries|, tries[|tries| - 1].error.value, status, reason);
    }
  }

  lemma MeasuredAt(log: Log, i: nat, start: real, last: real)
    requires i < |log| && log[0] == Read(Some(start)) && log[i] == Read(Some(last))
    ensures Measured(log, last - start) && IsRead(log, i) && IsRead(log, 0) && At(log, i) - At(log, 0) == last - start
  {
    assert IsRead(log, i);
  }

  /** What an execution promises of its log, its tries, its waits and its result. */
  ghost predicate Executed(t: Task, log: Log, tries: seq<Try>, waits: seq<Wait>, r: SourceResult) {
    && Orderly(t, log) && Spaced(t, log, tries, waits)
    && Constructible(t, r) && r.waited <= r.elapsed && Measured(log, r.elapsed)
    && r.attempts == |tries| == Calls(log) && r.requests == Sends(log) && r.lastError == LastError(tries)
    && (if r.status == Success then
          && |tries| > 0 && tries[|tries| - 1].error == None && r.snapshot == tries[|tries| - 1].snapshot
          && IsRead(log, |log| - 1) && r.elapsed == At(log, |log| - 1) - At(log, 0) < t.policy.totalSeconds
          && r.waited == Waited(log, waits)
        else Ends(t, log, tries, r.status, r.reason.value))
  }

  /** End without success, and with the clock read once more where the reason is not the time. */
  method Finish(t: Task, b: Budget, lastError: Option<Reason>, next: Next, ghost tries: seq<Try>, ghost waits: seq<Wait>)
    returns (r: SourceResult)
    requires b.Valid() && b.policy == t.policy && next != Again && StatusOf(next) != Success && b.attempts == |tries|
    requires Orderly(t, b.runtime.log) && Spaced(t, b.runtime.log, tries, waits) && lastError == LastError(tries)
    requires Ends(t, b.runtime.log, tries, StatusOf(next), next.reason)
    modifies b, b.runtime
    ensures b.Valid() && Executed(t, b.runtime.log, tries, waits, r)
  {
    hide Faithful, Faulty, Spent, Calls, Sends, Orderly, Spaced, Ends, Quiet, Waited, LastError;
    ghost var log := b.runtime.log;
    MeasuredAt(log, b.latest, b.start, b.last);
    if next.Throw? {
      r := Escape(t, b, lastError, next.reason);
      QuietIsOrderly(t, log, b.runtime.log);
      SpacedStays(t, log, b.runtime.log, tries, waits);
      EndsStays(t, log, b.runtime.log, tries, Thrown(next.reason), next.reason);
    } else {
      r := Report(b, next.status, Some(next.reason), lastError, None);
    }
    MeasuredAt(b.runtime.log, b.latest, b.start, b.last);
  }

  /** The operation was successful: the result needs one more look at the clock. */
  method Succeed(
    t: Task, b: Budget, lastError: Option<Reason>, snapshot: Option<nat>, ghost tries: seq<Try>, ghost waits: seq<Wait>)
    returns (r: SourceResult)
    requires b.Valid() && b.policy == t.policy && b.attempts == |tries| > 0 && t.resources <= t.policy.resources
    requires Orderly(t, b.runtime.log) && Spaced(t, b.runtime.log, tries, waits) && lastError == LastError(tries)
    requires tries[|tries| - 1].error == None && tries[|tries| - 1].snapshot == snapshot
    requires b.waited == Waited(b.runtime.log, waits)
    modifies b, b.runtime
    ensures b.Valid() && Executed(t, b.runtime.log, tries, waits, r)
  {
    hide Faithful, Faulty, Spent, Calls, Sends, Orderly, Spaced, Ends, Waited, LastError;
    ghost var log := b.runtime.log;
    TriedWell(t, log, tries, waits);
    var time := b.CheckTime();
    QuietIsOrderly(t, log, b.runtime.log);
    SpacedStays(t, log, b.runtime.log, tries, waits);
    if time.Refused? {
      EndsWithout(t, b.runtime.log, tries, time.error);
      r := Finish(t, b, lastError, Throw(time.error), tries, waits);
    } else {
      MeasuredAt(b.runtime.log, b.latest, b.start, b.last);
      r := Report(b, Success, None, lastError, snapshot);
    }
  }

  lemma TriedWell(t: Task, log: Log, tries: seq<Try>, waits: seq<Wait>)
    requires Spaced(t, log, tries, waits) && |tries| > 0 && tries[|tries| - 1].error == None
    ensures tries[|tries| - 1].snapshot.Some? && t.check(tries[|tries| - 1].snapshot.value) == None
  {
    assert Explained(t, log, |tries| - 1, tries[|tries| - 1]);
  }

  /**
   * Whatever the operation, the clocks, the sleeps and the jitter do, the execution ends in a result that can be
   * constructed, within its budgets and for a reason that the log shows. Between two calls the clock has gone on by a
   * delay of at least the backoff and of what the server asked for in the failure before.
   */
  method ExecuteSource(t: Task, world: Surroundings)
    returns (r: SourceResult, ghost log: Log, ghost tries: seq<Try>, ghost waits: seq<Wait>)
    requires ValidPolicy(t.policy)
    ensures Faithful(world, log) && Executed(t, log, tries, waits, r)
  {
    hide Faithful, Faulty, Spent, Calls, Sends, Orderly, Spaced, Explained, WaitOk, Waited, Stops, Going, Executed,
        OutOf, Ends, InTime, LastError, Measured;
    tries, waits := [], [];
    var runtime := new Runtime(world);
    var first := runtime.Monotonic();
    if first == None {
      r := SourceResult(Failed, Some(Runtime), None, 0, 0, 0.0, 0.0, None);
      NoClock(t, runtime.log, r);
      return r, runtime.log, tries, waits;
    }
    var b := new Budget(t.policy, runtime, first.value);
    Begun(t, runtime.log, first.value);
    if !(t.resources <= t.policy.resources) {
      r := Report(b, Failed, Some(Selection), None, None);
      NotAllowed(t, runtime.log, r);
      return r, runtime.log, tries, waits;
    }
    var lastError: Option<Reason> := None;
    while b.attempts < t.policy.maxAttempts
      invariant fresh(b) && fresh(runtime) && b.runtime == runtime && runtime.world == world && b.policy == t.policy
      invariant b.Valid() && |tries| == b.attempts < t.policy.maxAttempts
      invariant Going(t, runtime.log, tries, waits, b.waited, lastError)
      decreases t.policy.maxAttempts - b.attempts
    {
      ghost var head := runtime.log;
      var time := b.CheckTime();
      GoingStays(t, head, runtime.log, tries, waits, b.waited, lastError);
      GoingMeans(t, runtime.log, tries, waits, b.waited, lastError);
      if time.Refused? {
        EndsWithout(t, runtime.log, tries, time.error);
        r := Finish(t, b, lastError, Throw(time.error), tries, waits);
        return r, runtime.log, tries, waits;
      }
      head := runtime.log;
      var tried := TryOnce(t, b);
      GoingTry(t, head, runtime.log, tries, waits, b.waited, lastError, tried);
      tries := tries + [tried];
      if tried.error == None {
        r := Succeed(t, b, lastError, tried.snapshot, tries, waits);
        return r, runtime.log, tries, waits;
      }
      lastError := Some(tried.error.value.reason);
      head := runtime.log;
      ghost var waited := b.waited;
      var next: Next;
      ghost var w: Wait;
      next, w := AfterFailure(t, b, tried.error.value);
      QuietIsOrderly(t, head, runtime.log);
      SpacedStays(t, head, runtime.log, tries, waits);
      if next != Again {
        EndsLast(t, runtime.log, tries, StatusOf(next), next.reason);
        r := Finish(t, b, lastError, next, tries, waits);
        return r, runtime.log, tries, waits;
      }
      assert Followed(t, runtime.log, |waits|, tries[|waits|], w);
      GoingWait(t, head, runtime.log, tries, waits, waited, w);
      waits := waits + [w];
    }
    assert false;
  }

  lemma EndsLast(t: Task, log: Log, tries: seq<Try>, status: Status, reason: Reason)
    requires |tries| > 0 && tries[|tries| - 1].error.Some?
    requires Stops(t, log, |tries|, tries[|tries| - 1].error.value, status, reason)
    ensures Ends(t, log, tries, status, reason)
  {
    hide Stops;
  }

  lemma GoingMeans(t: Task, log: Log, tries: seq<Try>, waits: seq<Wait>, waited: real, lastError: Option<Reason>)
    requires Going(t, log, tries, waits, waited, lastError)
    ensures Orderly(t, log) && Spaced(t, log, tries, waits) && |tries| == |waits| && lastError == LastError(tries)
    ensures forall w <- waits :: w.ended < |log|
  {
    hide Orderly, Spaced;
  }

  lemma NoClock(t: Task, log: Log, r: SourceResult)
    requires log == [Read(None)] && r == SourceResult(Failed, Some(Runtime), None, 0, 0, 0.0, 0.0, None)
    ensures Executed(t, log, [], [], r)
  {
    FirstFails(t, log);
  }

  lemma NotAllowed(t: Task, log: Log, r: SourceResult)
    requires NothingYet(t, log) && Measured(log, 0.0) && !(t.resources <= t.policy.resources)
    requires r == SourceResult(Failed, Some(Selection), None, 0, 0, 0.0, 0.0, None)
    ensures Executed(t, log, [], [], r)
  {
  }

  /** A call of the operation that dispatches without a failure and observes a complete, valid snapshot. */
  ghost predicate Healthy(t: Task, script: Script) {
    && (forall d <- script.dispatches :: Planned(t, d.resource) && d.failure == None)
    && script.ending.Observes? && script.ending.complete && t.check(script.ending.snapshot) == None
  }

  /**
   * With surroundings that never fail, time and requests to spare and an allowed plan, the operation is called, and its
   * first healthy call is the last one and makes the execution a success.
   */
  lemma HealthySucceeds(t: Task, log: Log, tries: seq<Try>, waits: seq<Wait>, r: SourceResult, k: nat)
    requires Executed(t, log, tries, waits, r) && t.resources <= t.policy.resources
    requires !Faulty(log) && !Spent(t.policy, log) && Sends(log) < t.policy.maxRequests
    ensures tries != []
    ensures k < |tries| && Healthy(t, t.operation(k)) ==> k == |tries| - 1 && r.status == Success
  {
    hide Faulty, Spent, WaitOk, Stops, Explained, Healthy;
    if k < |tries| && Healthy(t, t.operation(k)) {
      assert Explained(t, log, k, tries[k]);
      HealthyHasNoError(t, log, k, tries[k]);
      assert forall j | 0 <= j < |waits| :: Followed(t, log, j, tries[j], waits[j]);
    }
  }

  lemma HealthyHasNoError(t: Task, log: Log, k: nat, tried: Try)
    requires Explained(t, log, k, tried) && Healthy(t, t.operation(k))
    requires !Faulty(log) && !Spent(t.policy, log) && Sends(log) < t.policy.maxRequests
    ensures tried.error == None
  {
    hide Faulty, Spent, Sends, Classify;
    forall f
      ensures !FailsWith(t, log, t.operation(k), f)
    {
    }
  }
}
