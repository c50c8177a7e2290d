/** What no transaction ever undoes: rows stay, settled attempts are final, epochs only rise. */
module Growth {
  import opened Base
  import opened Contracts
  import opened Tables
  import opened Attempts

  ghost predicate Extends<K(!new), V(!new)>(before: map<K, V>, after: map<K, V>) {
    before.Keys <= after.Keys && forall k <- before :: after[k] == before[k]
  }

  ghost predicate MissionsGrow(before: map<Id, Mission>, after: map<Id, Mission>) {
    && before.Keys <= after.Keys
    && (forall m <- before ::
          && after[m].(state := before[m].state) == before[m]
          && (before[m].state in {Completed, Cancelled} ==> after[m].state == before[m].state))
  }

  ghost predicate TasksGrow(before: map<Id, Task>, after: map<Id, Task>) {
    before.Keys <= after.Keys && forall t <- before :: after[t].(state := before[t].state) == before[t]
  }

  /** A lease never changes its terms, and a settled attempt never changes at all. */
  ghost predicate AttemptsGrow(before: map<Id, Attempt>, after: map<Id, Attempt>) {
    && before.Keys <= after.Keys
    && (forall a <- before ::
          && SameLease(before[a], after[a])
          && (Settled(before[a].state) ==> after[a] == before[a])
          && (before[a].state == CancelRequested ==> after[a].state == CancelRequested || Settled(after[a].state)))
  }

  ghost predicate WorkersGrow(before: map<Id, Worker>, after: map<Id, Worker>) {
    && before.Keys <= after.Keys
    && (forall w <- before ::
          && before[w].epoch <= after[w].epoch
          && (before[w].epoch == after[w].epoch ==> after[w] == before[w])
          && after[w].lease == before[w].lease && after[w].maxOutput == before[w].maxOutput
          && after[w].capability == before[w].capability)
  }

  ghost predicate Grows(before: Db, after: Db) {
    && after.settings == before.settings && after.workspaces == before.workspaces
    && MissionsGrow(before.missions, after.missions)
    && TasksGrow(before.tasks, after.tasks)
    && AttemptsGrow(before.attempts, after.attempts)
    && Extends(before.epochs, after.epochs)
    && Extends(before.files, after.files)
    && before.versions <= after.versions
    && Extends(before.results, after.results)
    && before.events <= after.events
    && Extends(before.operations, after.operations)
    && WorkersGrow(before.workers, after.workers)
    && Extends(before.objects, after.objects)
  }

  lemma GrowsTransitive(x: Db, y: Db, z: Db)
    requires Grows(x, y) && Grows(y, z)
    ensures Grows(x, z)
  {
    MissionsGrowTransitive(x.missions, y.missions, z.missions);
    AttemptsGrowTransitive(x.attempts, y.attempts, z.attempts);
    WorkersGrowTransitive(x.workers, y.workers, z.workers);
    TasksGrowTransitive(x.tasks, y.tasks, z.tasks);
  }

  lemma MissionsGrowTransitive(x: map<Id, Mission>, y: map<Id, Mission>, z: map<Id, Mission>)
    requires MissionsGrow(x, y) && MissionsGrow(y, z)
    ensures MissionsGrow(x, z)
  {
  }

  lemma TasksGrowTransitive(x: map<Id, Task>, y: map<Id, Task>, z: map<Id, Task>)
    requires TasksGrow(x, y) && TasksGrow(y, z)
    ensures TasksGrow(x, z)
  {
  }

  lemma AttemptsGrowTransitive(x: map<Id, Attempt>, y: map<Id, Attempt>, z: map<Id, Attempt>)
    requires AttemptsGrow(x, y) && AttemptsGrow(y, z)
    ensures AttemptsGrow(x, z)
  {
  }

  lemma WorkersGrowTransitive(x: map<Id, Worker>, y: map<Id, Worker>, z: map<Id, Worker>)
    requires WorkersGrow(x, y) && WorkersGrow(y, z)
    ensures WorkersGrow(x, z)
  {
  }

  // ----- What happens to a lease without its worker's report -----

  /** Untouched, asked to stop, or interrupted. */
  ghost predicate Touched(x: Attempt, y: Attempt) {
    || y == x
    || (x.state == Running && y == x.(state := CancelRequested))
    || (Active(x.state) && y == x.(state := Interrupted, error := y.error))
  }

  ghost predicate OnlyTouched(before: map<Id, Attempt>, after: map<Id, Attempt>) {
    && before.Keys <= after.Keys
    && (forall a <- before :: Touched(before[a], after[a]))
    && (forall a <- after | a !in before :: after[a].result == None)
  }

  /** No mission newly completes, fails or is cancelled. */
  ghost predicate NoVerdict(before: map<Id, Mission>, after: map<Id, Mission>) {
    forall m | m in before && m in after && after[m].state in {Completed, Failed, Cancelled} :: before[m].state == after[m].state
  }

  lemma NoVerdictTransitive(x: map<Id, Mission>, y: map<Id, Mission>, z: map<Id, Mission>)
    requires NoVerdict(x, y) && NoVerdict(y, z) && x.Keys <= y.Keys
    ensures NoVerdict(x, z)
  {
  }
}
