/** The leases: numbering, credentials, reported results and recorded claims. */
module Attempts {
  import opened Base
  import opened Contracts
  import opened Tables
  import opened Transactions

  /** What an attempt is; only its state, result and error ever change. */
  ghost predicate SameLease(x: Attempt, y: Attempt) {
    && x.task == y.task && x.number == y.number && x.worker == y.worker && x.generation == y.generation
    && x.startedAt == y.startedAt && x.deadline == y.deadline && x.expected == y.expected
  }

  ghost predicate SameLeases(before: map<Id, Attempt>, after: map<Id, Attempt>) {
    before.Keys == after.Keys && forall a <- before :: SameLease(before[a], after[a])
  }

  ghost predicate NumberUsed(attempts: map<Id, Attempt>, t: Id, n: int) {
    exists a <- attempts :: attempts[a].task == t && attempts[a].number == n
  }

  /** The attempts of each task are numbered 1, 2, ... without a gap or a repetition. */
  ghost predicate Numbered(attempts: map<Id, Attempt>) {
    && (forall a <- attempts :: 1 <= attempts[a].number)
    && (forall a, b | a in attempts && b in attempts && attempts[a].task == attempts[b].task
                      && attempts[a].number == attempts[b].number :: a == b)
    && (forall a, n | a in attempts && 1 <= n < attempts[a].number :: NumberUsed(attempts, attempts[a].task, n))
  }

  /** No two attempts share a generation. */
  ghost predicate Generations(attempts: map<Id, Attempt>) {
    forall a, b | a in attempts && b in attempts && attempts[a].generation == attempts[b].generation :: a == b
  }

  /** Workers obey the policy, and tasks are given to known workers. */
  ghost predicate WorkersOk(settings: Settings, workers: map<Id, Worker>, tasks: map<Id, Task>) {
    && (forall w <- workers :: Policy(workers[w], settings) && workers[w].epoch >= 1)
    && (forall t <- tasks :: tasks[t].worker in workers)
  }

  /** Every attempt was leased under an epoch that its worker has reached, for the time its policy allows. */
  ghost predicate Credited(settings: Settings, workers: map<Id, Worker>, attempts: map<Id, Attempt>, epochs: map<Id, nat>) {
    && epochs.Keys == attempts.Keys
    && (forall a <- attempts ::
          && attempts[a].worker in workers
          && epochs[a] <= workers[attempts[a].worker].epoch
          && attempts[a].deadline
             == attempts[a].startedAt + Min(settings.attemptSeconds, workers[attempts[a].worker].lease) as real)
  }

  /** A result is stored exactly once, with the state it reports; only an interruption may come without one. */
  ghost predicate Reported(attempts: map<Id, Attempt>) {
    forall a <- attempts ::
      var row := attempts[a];
      && (row.result.Some? ==>
            row.state == row.result.value.status && Settled(row.state)
            && row.result.value.attempt == a && row.result.value.generation == row.generation)
      && (row.state in {Completed, Failed, Cancelled} ==> row.result.Some?)
  }

  /** The recorded claims that leased work. */
  ghost predicate ClaimRecorded(operations: map<OperationKey, Operation>, key: OperationKey) {
    key in operations && operations[key].response.Work?
  }

  ghost function ClaimedAttempt(operations: map<OperationKey, Operation>, key: OperationKey): Id
    requires ClaimRecorded(operations, key)
  {
    operations[key].response.request.attempt
  }

  /** A request repeats the lease it was made from, and the key under which it was claimed. */
  ghost predicate RequestMatches(attempts: map<Id, Attempt>, epochs: map<Id, nat>, key: OperationKey, request: Request) {
    && request.attempt in attempts && request.attempt in epochs
    && key.WorkerOperation?
    && key.actor == attempts[request.attempt].worker == request.worker
    && key.epoch == epochs[request.attempt]
    && request.generation == attempts[request.attempt].generation
    && request.deadline == attempts[request.attempt].deadline
    && request.task == attempts[request.attempt].task
    && request.expected == attempts[request.attempt].expected
  }

  /** A request describes the mission of its task as the mission itself does. */
  ghost predicate Described(missions: map<Id, Mission>, tasks: map<Id, Task>, request: Request) {
    && request.mission in missions && request.task in tasks
    && tasks[request.task].mission == request.mission
    && tasks[request.task].capability == request.capability
    && missions[request.mission].title == request.title
    && missions[request.mission].objective == request.objective
    && missions[request.mission].files == request.files
  }

  /** A recorded claim names a lease of its own actor and says what its work is; no other record names the same lease. */
  ghost predicate ClaimsOk(
    missions: map<Id, Mission>, tasks: map<Id, Task>, attempts: map<Id, Attempt>, epochs: map<Id, nat>,
    operations: map<OperationKey, Operation>) {
    && (forall key | ClaimRecorded(operations, key) ::
          && RequestMatches(attempts, epochs, key, operations[key].response.request)
          && Described(missions, tasks, operations[key].response.request))
    && (forall key, other | ClaimRecorded(operations, key) && ClaimRecorded(operations, other)
                            && ClaimedAttempt(operations, key) == ClaimedAttempt(operations, other) :: key == other)
  }

  ghost predicate LeasesOk(
    settings: Settings, workers: map<Id, Worker>, tasks: map<Id, Task>, attempts: map<Id, Attempt>, epochs: map<Id, nat>) {
    && WorkersOk(settings, workers, tasks)
    && Numbered(attempts) && Generations(attempts)
    && Credited(settings, workers, attempts, epochs)
    && Reported(attempts)
  }

  lemma SameLeasesNumbered(before: map<Id, Attempt>, after: map<Id, Attempt>)
    requires Numbered(before) && SameLeases(before, after)
    ensures Numbered(after)
  {
    forall a, n | a in after && 1 <= n < after[a].number
      ensures NumberUsed(after, after[a].task, n)
    {
      assert SameLease(before[a], after[a]);
      assert NumberUsed(before, before[a].task, n);
      var b :| b in before && before[b].task == before[a].task && before[b].number == n;
      assert SameLease(before[b], after[b]);
    }
    forall a <- after
      ensures 1 <= after[a].number
    {
      assert SameLease(before[a], after[a]);
    }
    forall a, b | a in after && b in after && after[a].task == after[b].task && after[a].number == after[b].number
      ensures a == b
    {
      assert SameLease(before[a], after[a]) && SameLease(before[b], after[b]);
    }
  }

  lemma SameLeasesGenerations(before: map<Id, Attempt>, after: map<Id, Attempt>)
    requires Generations(before) && SameLeases(before, after)
    ensures Generations(after)
  {
    forall a, b | a in after && b in after && after[a].generation == after[b].generation
      ensures a == b
    {
      assert SameLease(before[a], after[a]) && SameLease(before[b], after[b]);
    }
  }

  // ----- The next attempt number -----

  /** A finite table has a highest number for every task. */
  lemma {:induction false} HighestExists(attempts: map<Id, Attempt>, t: Id, seen: set<Id>)
    requires seen <= attempts.Keys
    ensures exists n: nat :: HighestIn(attempts, t, seen, n)
    decreases seen
  {
    if seen == {} {
      assert HighestIn(attempts, t, seen, 0);
    } else {
      var a :| a in seen;
      HighestExists(attempts, t, seen - {a});
      var n: nat :| HighestIn(attempts, t, seen - {a}, n);
      if attempts[a].task == t && n < attempts[a].number {
        assert HighestIn(attempts, t, seen, attempts[a].number);
      } else {
        assert HighestIn(attempts, t, seen, n);
      }
    }
  }

  ghost predicate HighestIn(attempts: map<Id, Attempt>, t: Id, seen: set<Id>, n: nat)
    requires seen <= attempts.Keys
  {
    && (forall a <- seen :: attempts[a].task == t ==> attempts[a].number <= n)
    && (n == 0 || exists a <- seen :: attempts[a].task == t && attempts[a].number == n)
  }

  /** The number that a claim continues from is the highest one. */
  lemma TopIsTopNumber(attempts: map<Id, Attempt>, t: Id)
    ensures TopNumber(attempts, t, Top(attempts, t))
  {
    HighestExists(attempts, t, attempts.Keys);
    var n: nat :| HighestIn(attempts, t, attempts.Keys, n);
    assert TopNumber(attempts, t, n);
  }

  lemma NextNumbered(attempts: map<Id, Attempt>, a: Id, row: Attempt, top: nat)
    requires Numbered(attempts) && a !in attempts && TopNumber(attempts, row.task, top) && row.number == top + 1
    ensures Numbered(attempts[a := row])
  {
    var after := attempts[a := row];
    forall b, n | b in after && 1 <= n < after[b].number
      ensures NumberUsed(after, after[b].task, n)
    {
      if b != a {
        assert NumberUsed(attempts, attempts[b].task, n);
        var c :| c in attempts && attempts[c].task == attempts[b].task && attempts[c].number == n;
        assert after[c] == attempts[c];
      } else {
        var c :| c in attempts && attempts[c].task == row.task && attempts[c].number == top;
        assert after[c] == attempts[c];
        if n < top {
          assert NumberUsed(attempts, attempts[c].task, n);
          var d :| d in attempts && attempts[d].task == row.task && attempts[d].number == n;
          assert after[d] == attempts[d];
        }
      }
    }
  }
}
