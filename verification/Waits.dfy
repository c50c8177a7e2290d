/** What a failed call of a source makes of the wait before the next one, in the words of the failure itself. */
module Waits {
  import opened Base
  import opened RetryAfter
  import opened SourceLog
  import opened Retry

  // ----- Which failures are retried -----

  /** A failure that may pass: a status that the policy names, on a readable answer, or a failing transport. */
  predicate MayPass(p: Policy, f: Failure) {
    match f
    case Http(Some(code), NoHeader) => code in p.retryStatuses
    case Http(Some(code), Asked(_)) => code in p.retryStatuses
    case TimedOut => p.retryTransport
    case Disconnected => p.retryTransport
    case _ => false
  }

  /** What the answer to a failed request asks for. */
  function WishOf(f: Failure): Option<Wish> {
    match f
    case Http(_, Asked(wish)) => Some(wish)
    case _ => None
  }

  /** Exactly these failures are retried, and only with what their own answer asks for. */
  lemma RetriedExactly(f: Failure, p: Policy, nim: bool)
    requires ValidPolicy(p)
    ensures Classify(f, p, nim).retryable <==> MayPass(p, f)
    ensures MayPass(p, f) ==> Classify(f, p, nim).wish == WishOf(f)
    ensures f.Http? && MayPass(p, f) ==> f.code.value in {429, 500, 502, 503, 504}
  {
  }

  /** The reason of each kind of failure. */
  lemma ReasonsOf(f: Failure, p: Policy, nim: bool)
    ensures f.Execution? ==> Classify(f, p, nim).reason == f.reason
    ensures f.Http? && (f.code == None || f.header == BrokenHeader) ==> Classify(f, p, nim).reason == InvalidSchema
    ensures f.Http? && f.code.Some? && f.header != BrokenHeader ==>
              var code, reason := f.code.value, Classify(f, p, nim).reason;
              && (code == 401 ==> reason == Authentication) && (code == 403 ==> reason == Forbidden)
              && (code == 404 ==> reason == if nim then NimTagUnavailable else TargetUnavailable)
              && (code == 429 ==> reason == Quota) && (code == 304 ==> reason == CacheRequired)
              && (code == 500 || code == 502 || code == 503 || code == 504 ==> reason == Provider)
              && (300 <= code <= 303 || 305 <= code <= 399 ==> reason == Redirect)
              && (code < 100 || code > 599 ==> reason == InvalidSchema)
              && ((100 <= code <= 299 || code in {400, 402, 501} || 405 <= code <= 428 || 430 <= code <= 499
                   || 505 <= code <= 599) ==> reason == HttpError)
    ensures f == TimedOut ==> Classify(f, p, nim).reason == Timeout
    ensures f == Disconnected ==> Classify(f, p, nim).reason == Connection
    ensures f == Undecodable ==> Classify(f, p, nim).reason == InvalidJson
    ensures f == Malformed ==> Classify(f, p, nim).reason == InvalidSchema
    ensures f == Other ==> Classify(f, p, nim).reason == Unexpected
  {
  }

  // ----- What a two-digit year means -----

  /**
   * The date with these digits in the century of now; or in the century before, when that date of this century lies more
   * than fifty years ahead.
   */
  predicate Meant(wish: Wish, now: Civil, date: Civil)
    requires wish.LegacyDate?
  {
    && ValidCivil(date)
    && date.year % 100 == wish.yy && date.month == wish.month && date.day == wish.day && date.second == wish.second as real
    && (if date.year / 100 == now.year / 100 then now.year > 9949 || !Later(date, FiftyYearsOn(now))
        else
          && date.year / 100 == now.year / 100 - 1 && now.year <= 9949
          && ValidCivil(date.(year := date.year + 100)) && Later(date.(year := date.year + 100), FiftyYearsOn(now)))
  }

  lemma MeantIsResolved(wish: Wish, now: Civil, date: Civil)
    requires wish.LegacyDate? && wish.yy < 100
    ensures Meant(wish, now, date) <==> Resolve(wish, now) == Some(date)
  {
    hide FiftyYearsOn, Later;
    var here := Civil(now.year / 100 * 100 + wish.yy, wish.month, wish.day, wish.second as real);
    assert here.year / 100 == now.year / 100 && here.year % 100 == wish.yy;
    var before := here.(year := here.year - 100);
    assert before.year / 100 == now.year / 100 - 1 && before.year % 100 == wish.yy;
    assert date.year == date.year / 100 * 100 + date.year % 100;
  }

  // ----- What the server adds to a wait -----

  /** The wall clock was read for this wait, before it was planned. */
  predicate SeenAt(log: Log, w: Wait, wall: WallTime) {
    w.looked < w.jittered && w.looked < |log| && log[w.looked] == Looked(Some(wall))
  }

  /** What is left until a date with the right weekday; any other date asks for nothing. */
  ghost predicate LegacyShare(wish: Wish, wall: WallTime, share: real)
    requires wish.LegacyDate? && wall.date.Some?
  {
    && (forall date | Meant(wish, wall.date.value, date) ::
          share == if Weekday(date) == wish.weekday then RealMax(0.0, Timestamp(date) - wall.instant) else 0.0)
    && ((forall date :: !Meant(wish, wall.date.value, date)) ==> share == 0.0)
  }

  /**
   * The part of a wait that the failure asked for: its seconds; what is left until its instant, or until its date; and
   * nothing without a header. A value that is too large is never waited for.
   */
  ghost predicate ShareOf(log: Log, f: Failure, w: Wait, share: real) {
    match WishOf(f)
    case None => share == 0.0
    case Some(Seconds(n)) => share == n as real
    case Some(NotBefore(instant)) => exists wall :: SeenAt(log, w, wall) && share == RealMax(0.0, instant - wall.instant)
    case Some(LegacyDate(yy, month, day, second, weekday)) =>
      exists wall :: SeenAt(log, w, wall) && wall.date.Some? && LegacyShare(WishOf(f).value, wall, share)
    case Some(Excessive) => false
  }

  lemma LegacyDelay(wish: Wish, wall: WallTime, share: real)
    requires wish.LegacyDate? && wish.yy < 100 && wall.date.Some? && ServerDelay(Some(wish), Some(wall)) == Ok(share)
    ensures LegacyShare(wish, wall, share)
  {
    hide Resolve, Meant, Timestamp, Weekday, ValidCivil;
    var now := wall.date.value;
    var resolved := Resolve(wish, now);
    forall date
      ensures Meant(wish, now, date) <==> resolved == Some(date)
    {
      MeantIsResolved(wish, now, date);
    }
    if resolved.Some? {
      MeantMonth(wish, now, resolved.value);
    }
  }

  lemma MeantMonth(wish: Wish, now: Civil, date: Civil)
    requires wish.LegacyDate? && Meant(wish, now, date)
    ensures 1 <= date.month <= 12
  {
  }

  /** A legacy date has the digits of a year. */
  predicate Readable(f: Failure) {
    WishOf(f).Some? && WishOf(f).value.LegacyDate? ==> WishOf(f).value.yy < 100
  }

  lemma ShareIsDelay(p: Policy, log: Log, attempt: nat, f: Failure, w: Wait)
    requires attempt >= 1 && DelayOf(p, log, attempt, WishOf(f), w) && Readable(f)
    ensures ShareOf(log, f, w, w.server)
  {
    hide BackoffOf, LegacyShare;
    match WishOf(f)
    case None =>
    case Some(Seconds(n)) =>
    case Some(NotBefore(instant)) =>
      assert SeenAt(log, w, w.wall.value);
    case Some(LegacyDate(yy, month, day, second, weekday)) =>
      assert SeenAt(log, w, w.wall.value);
      LegacyDelay(WishOf(f).value, w.wall.value, w.server);
    case Some(Excessive) =>
  }

  // ----- Every wait of every execution -----

  /** The backoff after so many failed calls, under its ceiling. */
  function BaseOf(p: Policy, failed: nat): real
    requires failed >= 1
  {
    RealMin(p.backoff * Power2(failed - 1), p.maxDelay)
  }

  /**
   * A wait after this failure: planned by a reading, over at a reading, and between the two the clock has gone on by its
   * delay, which is the larger of the server's share and of the backoff with its jitter below the ceiling.
   */
  ghost predicate Earned(t: Task, log: Log, failed: nat, f: Failure, w: Wait, share: real)
    requires failed >= 1
  {
    && t.idempotent && MayPass(t.policy, f)
    && ShareOf(log, f, w, share)
    && w.jittered < w.began < w.ended && IsRead(log, w.began) && IsRead(log, w.ended)
    && log[w.jittered].Jittered? && log[w.jittered].jitter.Some?
    && w.delay
       == RealMax(share, BaseOf(t.policy, failed)
                         + RealMin(log[w.jittered].jitter.value, t.policy.maxDelay - BaseOf(t.policy, failed)))
    && w.delay <= t.policy.maxDelay
    && At(log, w.ended) - At(log, w.began) >= w.delay
  }

  lemma FollowedIsEarned(t: Task, log: Log, k: nat, tried: Try, w: Wait) returns (f: Failure)
    requires ValidPolicy(t.policy) && Explained(t, log, k, tried) && Followed(t, log, k, tried, w)
    ensures FailsWith(t, log, t.operation(k), f) && tried.called < w.jittered
    ensures Readable(f) ==> Earned(t, log, k + 1, f, w, w.server)
    ensures t.idempotent && MayPass(t.policy, f)
  {
    hide FailsWith, Classify, ServerDelay, MayPass, ShareOf, Power2, Doubled;
    f :| FailsWith(t, log, t.operation(k), f) && tried.error.value == Classify(f, t.policy, t.nim);
    RetriedExactly(f, t.policy, t.nim);
    DoubledIsPower(t.policy.backoff, k);
    if Readable(f) {
      ShareIsDelay(t.policy, log, k + 1, f, w);
    }
  }

  /**
   * Between two calls of an execution the first one has failed in a way that may pass, its task may be repeated, and the
   * wait has honoured what that very failure asked for, by the clock.
   */
  lemma ServerIsHonoured(t: Task, log: Log, tries: seq<Try>, waits: seq<Wait>, r: SourceResult, k: nat) returns (f: Failure)
    requires ValidPolicy(t.policy) && Executed(t, log, tries, waits, r) && k + 1 < |tries|
    ensures FailsWith(t, log, t.operation(k), f) && MayPass(t.policy, f) && t.idempotent
    ensures tries[k].called < |log| && log[tries[k].called] == Called(k)
    ensures tries[k + 1].called < |log| && log[tries[k + 1].called] == Called(k + 1)
    ensures k < |waits| && tries[k].called < waits[k].jittered && waits[k].ended < tries[k + 1].called
    ensures Readable(f) ==>
              var w := waits[k];
              var slept := At(log, w.ended) - At(log, w.began);
              && Earned(t, log, k + 1, f, w, w.server)
              && (match WishOf(f)
                  case None => w.server == 0.0
                  case Some(Seconds(n)) => slept >= n as real
                  case Some(NotBefore(instant)) => exists wall :: SeenAt(log, w, wall) && wall.instant + slept >= instant
                  case Some(LegacyDate(yy, month, day, second, weekday)) =>
                    exists wall :: SeenAt(log, w, wall) && wall.date.Some?
                                   && forall date | Meant(WishOf(f).value, wall.date.value, date) && Weekday(date) == weekday ::
                                        wall.instant + slept >= Timestamp(date)
                  case Some(Excessive) => false)
  {
    hide Explained, Followed, FailsWith, MayPass, Orderly, Constructible, Meant, Weekday, Timestamp, Ends, Waited, LastError,
        Measured;
    assert Explained(t, log, k, tries[k]) && Explained(t, log, k + 1, tries[k + 1]);
    assert Followed(t, log, k, tries[k], waits[k]);
    f := FollowedIsEarned(t, log, k, tries[k], waits[k]);
    CalledHere(t, log, k, tries[k]);
    CalledHere(t, log, k + 1, tries[k + 1]);
  }

  lemma CalledHere(t: Task, log: Log, k: nat, tried: Try)
    requires Explained(t, log, k, tried)
    ensures tried.called < |log| && log[tried.called] == Called(k)
  {
    hide FailsWith, Classify;
  }

  /** A call whose dispatches go well or are swallowed, and that raises, fails with what it raises when it is repeated. */
  lemma RaisedIsTheFailure(t: Task, log: Log, k: nat, f: Failure, raised: Failure)
    requires FailsWith(t, log, t.operation(k), f) && MayPass(t.policy, f)
    requires t.operation(k).ending == Raises(raised)
    requires Passes(t.operation(k).dispatches, |t.operation(k).dispatches|)
    ensures f == raised
  {
    hide Blame;
  }

  /** A failing dispatch that is the first one not to be swallowed is what the call fails with when it is repeated. */
  lemma FirstFailureIsTheFailure(t: Task, log: Log, k: nat, f: Failure, i: nat)
    requires FailsWith(t, log, t.operation(k), f) && MayPass(t.policy, f)
    requires i < |t.operation(k).dispatches| && Passes(t.operation(k).dispatches, i)
    requires t.operation(k).dispatches[i].failure.Some? && !t.operation(k).dispatches[i].swallow
    ensures t.operation(k).dispatches[i].failure == Some(f)
  {
    hide Blame;
  }
}
