/** The lifecycle invariant: missions, tasks and attempts always agree. */
module Lifecycle {
  import opened Base
  import opened Contracts
  import opened Tables
  import opened Transactions

  ghost predicate HasTask(tasks: map<Id, Task>, m: Id) {
    exists t <- tasks :: tasks[t].mission == m
  }

  /** A mission has at most one task, and the task repeats the mission's state. */
  ghost predicate TasksMatch(missions: map<Id, Mission>, tasks: map<Id, Task>) {
    && (forall t <- tasks :: tasks[t].mission in missions && tasks[t].state == missions[tasks[t].mission].state)
    && (forall t, u | t in tasks && u in tasks && tasks[t].mission == tasks[u].mission :: t == u)
  }

  /** A mission is planned exactly from its approval on; approval itself is never observable. */
  ghost predicate Planned(missions: map<Id, Mission>, tasks: map<Id, Task>) {
    forall m <- missions ::
      && missions[m].state != Approved
      && (missions[m].state == Draft ==> !HasTask(tasks, m))
      && (missions[m].state !in {Draft, Cancelled} ==> HasTask(tasks, m))
  }

  /** An attempt belongs to its task's worker, and an active one has its task's state. */
  ghost predicate AttemptsMatch(tasks: map<Id, Task>, attempts: map<Id, Attempt>) {
    forall a <- attempts ::
      && attempts[a].task in tasks
      && attempts[a].worker == tasks[attempts[a].task].worker
      && (Active(attempts[a].state) || Settled(attempts[a].state))
      && (Active(attempts[a].state) ==> tasks[attempts[a].task].state == attempts[a].state)
  }

  /** Neither a task nor a worker has two active attempts. */
  ghost predicate OneActive(attempts: map<Id, Attempt>) {
    forall a, b | a in attempts && b in attempts && Active(attempts[a].state) && Active(attempts[b].state)
                  && (attempts[a].task == attempts[b].task || attempts[a].worker == attempts[b].worker) :: a == b
  }

  ghost predicate ActiveOn(attempts: map<Id, Attempt>, t: Id, a: Id) {
    a in attempts && attempts[a].task == t && Active(attempts[a].state)
  }

  /** A task that is running, or is asked to stop, has an active attempt. */
  ghost predicate ActiveCovered(tasks: map<Id, Task>, attempts: map<Id, Attempt>) {
    forall t <- tasks | Active(tasks[t].state) :: exists a :: ActiveOn(attempts, t, a)
  }

  ghost predicate Life(missions: map<Id, Mission>, tasks: map<Id, Task>, attempts: map<Id, Attempt>) {
    && TasksMatch(missions, tasks)
    && Planned(missions, tasks)
    && AttemptsMatch(tasks, attempts)
    && OneActive(attempts)
    && ActiveCovered(tasks, attempts)
  }

  ghost predicate LifeOf(db: Db) {
    Life(db.missions, db.tasks, db.attempts)
  }

  lemma LifeLinked(db: Db)
    requires LifeOf(db)
    ensures Linked(db)
  {
  }

  // ----- Moving one mission, its task and its attempt to a new state -----

  function MissionTo(missions: map<Id, Mission>, m: Id, target: State): map<Id, Mission>
    requires m in missions
  {
    missions[m := missions[m].(state := target)]
  }

  function TaskTo(tasks: map<Id, Task>, t: Id, target: State): map<Id, Task>
    requires t in tasks
  {
    tasks[t := tasks[t].(state := target)]
  }

  lemma TaskToKeepsTasks(tasks: map<Id, Task>, t: Id, target: State, n: Id)
    requires t in tasks
    ensures HasTask(TaskTo(tasks, t, target), n) == HasTask(tasks, n)
  {
    if HasTask(tasks, n) {
      var u :| u in tasks && tasks[u].mission == n;
      assert TaskTo(tasks, t, target)[u].mission == n;
    }
  }

  lemma TasksToIsTaskTo(missions: map<Id, Mission>, tasks: map<Id, Task>, t: Id, target: State)
    requires TasksMatch(missions, tasks) && t in tasks
    ensures TasksTo(tasks, tasks[t].mission, target) == TaskTo(tasks, t, target)
  {
  }

  lemma MoveMatches(missions: map<Id, Mission>, tasks: map<Id, Task>, t: Id, target: State)
    requires TasksMatch(missions, tasks) && t in tasks
    ensures TasksMatch(MissionTo(missions, tasks[t].mission, target), TaskTo(tasks, t, target))
  {
  }

  lemma MoveStaysPlanned(missions: map<Id, Mission>, tasks: map<Id, Task>, t: Id, target: State)
    requires TasksMatch(missions, tasks) && Planned(missions, tasks) && t in tasks
    requires target !in {Draft, Approved}
    ensures Planned(MissionTo(missions, tasks[t].mission, target), TaskTo(tasks, t, target))
  {
    var m := tasks[t].mission;
    assert HasTask(tasks, m);
    forall n <- MissionTo(missions, m, target)
      ensures HasTask(TaskTo(tasks, t, target), n) == HasTask(tasks, n)
    {
      TaskToKeepsTasks(tasks, t, target, n);
    }
  }

  /** Rewriting the active attempt of a task, with the task, keeps attempts in line with tasks. */
  lemma RewriteKeepsAttempts(tasks: map<Id, Task>, attempts: map<Id, Attempt>, a: Id, row: Attempt)
    requires AttemptsMatch(tasks, attempts) && OneActive(attempts) && ActiveCovered(tasks, attempts)
    requires a in attempts && Active(attempts[a].state)
    requires row.task == attempts[a].task && row.worker == attempts[a].worker
    requires Settled(row.state) || row.state == CancelRequested
    ensures AttemptsMatch(TaskTo(tasks, row.task, row.state), attempts[a := row])
    ensures OneActive(attempts[a := row])
    ensures ActiveCovered(TaskTo(tasks, row.task, row.state), attempts[a := row])
  {
    var after, rows := TaskTo(tasks, row.task, row.state), attempts[a := row];
    forall u <- after | Active(after[u].state)
      ensures exists b :: ActiveOn(rows, u, b)
    {
      if u == row.task {
        assert ActiveOn(rows, u, a);
      } else {
        var b :| ActiveOn(attempts, u, b);
        assert ActiveOn(rows, u, b);
      }
    }
  }

  /** Moving a task that has no active attempt keeps attempts in line with tasks. */
  lemma IdleMoveKeepsAttempts(tasks: map<Id, Task>, attempts: map<Id, Attempt>, t: Id, target: State)
    requires AttemptsMatch(tasks, attempts) && ActiveCovered(tasks, attempts)
    requires t in tasks && !Active(tasks[t].state) && !Active(target)
    ensures AttemptsMatch(TaskTo(tasks, t, target), attempts)
    ensures ActiveCovered(TaskTo(tasks, t, target), attempts)
  {
    var after := TaskTo(tasks, t, target);
    forall u <- after | Active(after[u].state)
      ensures exists b :: ActiveOn(attempts, u, b)
    {
      assert Active(tasks[u].state);
    }
  }

  lemma SettleMoves(db: Db, actor: Actor, a: Id, row: Attempt, reason: string)
    requires LifeOf(db) && a in db.attempts && Active(db.attempts[a].state)
    requires row.task == db.attempts[a].task && Allowed(db.attempts[a].state, row.state)
    ensures var t := row.task;
            var m := db.tasks[t].mission;
            Settle(db, actor, a, row, reason)
            == Ok(db.(attempts := db.attempts[a := row], tasks := TaskTo(db.tasks, t, row.state),
                      missions := MissionTo(db.missions, m, row.state),
                      events := db.events + [Event(Some(m), db.missions[m].workspace, actor, MissionState(row.state,
                          reason))]))
  {
  }

  /** Settling an active attempt on a permitted state succeeds and keeps the three tables in agreement. */
  lemma SettleKeepsLife(db: Db, actor: Actor, a: Id, row: Attempt, reason: string)
    requires LifeOf(db) && a in db.attempts && Active(db.attempts[a].state)
    requires row.task == db.attempts[a].task && row.worker == db.attempts[a].worker
    requires Allowed(db.attempts[a].state, row.state) && Settled(row.state)
    ensures Settle(db, actor, a, row, reason).Ok?
    ensures LifeOf(Settle(db, actor, a, row, reason).value)
  {
    SettleMoves(db, actor, a, row, reason);
    MoveMatches(db.missions, db.tasks, row.task, row.state);
    MoveStaysPlanned(db.missions, db.tasks, row.task, row.state);
    RewriteKeepsAttempts(db.tasks, db.attempts, a, row);
  }

  // ----- Cancel and retry -----

  /** With no running attempt on a mission, the bulk update of its attempts changes none. */
  lemma NoRunningAttempt(tasks: map<Id, Task>, missions: map<Id, Mission>, attempts: map<Id, Attempt>, m: Id, target: State)
    requires TasksMatch(missions, tasks) && AttemptsMatch(tasks, attempts)
    requires m in missions && missions[m].state != Running
    ensures AttemptsTo(tasks, attempts, m, target) == attempts
  {
  }

  /** On a running mission the bulk update rewrites exactly its one active attempt. */
  lemma OneRunningAttempt(missions: map<Id, Mission>, tasks: map<Id, Task>, attempts: map<Id, Attempt>, t: Id, target: State)
    returns (a: Id)
    requires TasksMatch(missions, tasks) && AttemptsMatch(tasks, attempts) && OneActive(attempts)
    requires ActiveCovered(tasks, attempts)
    requires t in tasks && tasks[t].state == Running
    ensures ActiveOn(attempts, t, a)
    ensures AttemptsTo(tasks, attempts, tasks[t].mission, target) == attempts[a := attempts[a].(state := target)]
  {
    a :| ActiveOn(attempts, t, a);
    forall b <- attempts
      ensures AttemptsTo(tasks, attempts, tasks[t].mission, target)[b]
              == (if b == a then attempts[a].(state := target) else attempts[b])
    {
    }
  }

  /** A mission without a task only moves from draft to cancelled. */
  lemma LoneMoveKeepsLife(db: Db, m: Id)
    requires LifeOf(db) && m in db.missions && !HasTask(db.tasks, m)
    ensures Life(MissionTo(db.missions, m, Cancelled), TasksTo(db.tasks, m, Cancelled), db.attempts)
  {
    assert TasksTo(db.tasks, m, Cancelled) == db.tasks;
  }

  lemma IdleMoveKeepsLife(db: Db, m: Id, target: State)
    requires LifeOf(db) && m in db.missions && HasTask(db.tasks, m)
    requires !Active(db.missions[m].state) && target in {Queued, Cancelled}
    ensures Life(MissionTo(db.missions, m, target), TasksTo(db.tasks, m, target), db.attempts)
  {
    var t :| t in db.tasks && db.tasks[t].mission == m;
    TasksToIsTaskTo(db.missions, db.tasks, t, target);
    MoveMatches(db.missions, db.tasks, t, target);
    MoveStaysPlanned(db.missions, db.tasks, t, target);
    IdleMoveKeepsAttempts(db.tasks, db.attempts, t, target);
  }

  lemma CancelKeepsLife(db: Db, p: Principal, m: Id)
    requires LifeOf(db)
    ensures CancelEffect(db, p, m).Ok? ==> LifeOf(CancelEffect(db, p, m).value.0)
  {
    var outcome := CancelEffect(db, p, m);
    if outcome.Ok? && db.missions[m].state != CancelRequested {
      var after := outcome.value.0;
      if db.missions[m].state == Running {
        assert HasTask(db.tasks, m);
        var t :| t in db.tasks && db.tasks[t].mission == m;
        var a := OneRunningAttempt(db.missions, db.tasks, db.attempts, t, CancelRequested);
        TasksToIsTaskTo(db.missions, db.tasks, t, CancelRequested);
        assert after.missions == MissionTo(db.missions, m, CancelRequested);
        MoveMatches(db.missions, db.tasks, t, CancelRequested);
        MoveStaysPlanned(db.missions, db.tasks, t, CancelRequested);
        RewriteKeepsAttempts(db.tasks, db.attempts, a, db.attempts[a].(state := CancelRequested));
      } else {
        NoRunningAttempt(db.tasks, db.missions, db.attempts, m, Cancelled);
        assert after.missions == MissionTo(db.missions, m, Cancelled);
        if HasTask(db.tasks, m) {
          IdleMoveKeepsLife(db, m, Cancelled);
        } else {
          LoneMoveKeepsLife(db, m);
        }
      }
    }
  }

  lemma RetryKeepsLife(db: Db, p: Principal, m: Id)
    requires LifeOf(db)
    ensures RetryEffect(db, p, m).Ok? ==> LifeOf(RetryEffect(db, p, m).value.0)
  {
    if RetryEffect(db, p, m).Ok? {
      IdleMoveKeepsLife(db, m, Queued);
    }
  }

  // ----- Approve and claim -----

  lemma PlanStaysPlanned(missions: map<Id, Mission>, tasks: map<Id, Task>, t: Id, task: Task)
    requires Planned(missions, tasks)
    requires t !in tasks && task.mission in missions && task.state == Queued
    ensures Planned(MissionTo(missions, task.mission, Queued), tasks[t := task])
  {
    var after := tasks[t := task];
    assert after[t].mission == task.mission;
    forall n <- missions
      ensures HasTask(after, n) == (HasTask(tasks, n) || n == task.mission)
    {
      if HasTask(tasks, n) {
        var u :| u in tasks && tasks[u].mission == n;
        assert after[u].mission == n;
      }
    }
  }

  lemma PlanMatches(missions: map<Id, Mission>, tasks: map<Id, Task>, t: Id, task: Task)
    requires TasksMatch(missions, tasks) && !HasTask(tasks, task.mission)
    requires t !in tasks && task.mission in missions && task.state == Queued
    ensures TasksMatch(MissionTo(missions, task.mission, Queued), tasks[t := task])
  {
  }

  lemma PlanKeepsAttempts(tasks: map<Id, Task>, attempts: map<Id, Attempt>, t: Id, task: Task)
    requires AttemptsMatch(tasks, attempts) && ActiveCovered(tasks, attempts)
    requires t !in tasks && task.state == Queued
    ensures AttemptsMatch(tasks[t := task], attempts) && ActiveCovered(tasks[t := task], attempts)
  {
    var after := tasks[t := task];
    forall u <- after | Active(after[u].state)
      ensures exists b :: ActiveOn(attempts, u, b)
    {
      assert Active(tasks[u].state);
    }
  }

  lemma ApproveKeepsLife(db: Db, p: Principal, m: Id, plan: Plan, identity: Id)
    requires LifeOf(db) && identity !in db.tasks
    ensures ApproveEffect(db, p, m, plan, identity).Ok? ==> LifeOf(ApproveEffect(db, p, m, plan, identity).value.0)
  {
    var outcome := ApproveEffect(db, p, m, plan, identity);
    if outcome.Ok? {
      var task := Task(m, plan.capability, plan.worker, Queued);
      var after := outcome.value.0;
      assert after.missions == MissionTo(db.missions, m, Queued);
      assert after.tasks == db.tasks[identity := task];
      PlanMatches(db.missions, db.tasks, identity, task);
      PlanStaysPlanned(db.missions, db.tasks, identity, task);
      PlanKeepsAttempts(db.tasks, db.attempts, identity, task);
    }
  }

  /** Leasing a queued task to a worker without active attempts keeps attempts in line with tasks. */
  lemma LeaseKeepsAttempts(tasks: map<Id, Task>, attempts: map<Id, Attempt>, a: Id, row: Attempt)
    requires AttemptsMatch(tasks, attempts) && OneActive(attempts) && ActiveCovered(tasks, attempts)
    requires a !in attempts && row.state == Running
    requires row.task in tasks && tasks[row.task].state == Queued && tasks[row.task].worker == row.worker
    requires forall b <- attempts :: attempts[b].worker == row.worker ==> !Active(attempts[b].state)
    ensures AttemptsMatch(TaskTo(tasks, row.task, Running), attempts[a := row])
    ensures OneActive(attempts[a := row])
    ensures ActiveCovered(TaskTo(tasks, row.task, Running), attempts[a := row])
  {
    var after, rows := TaskTo(tasks, row.task, Running), attempts[a := row];
    forall u <- after | Active(after[u].state)
      ensures exists b :: ActiveOn(rows, u, b)
    {
      if u == row.task {
        assert ActiveOn(rows, u, a);
      } else {
        var b :| ActiveOn(attempts, u, b);
        assert ActiveOn(rows, u, b);
      }
    }
  }

  lemma StartKeepsLife(db: Db, p: Principal, w: Worker, t: Id, top: nat, c: ClaimInputs)
    requires LifeOf(db) && p.epoch.Some? && c.attempt !in db.attempts
    requires Queueable(db, t, p.identity)
    requires forall a <- db.attempts :: db.attempts[a].worker == p.identity ==> !Active(db.attempts[a].state)
    ensures StartAttempt(db, p, w, t, top, c).Ok? ==> LifeOf(StartAttempt(db, p, w, t, top, c).value.0)
    ensures StartAttempt(db, p, w, t, top, c).Refused? <==> c.now < 0.0
  {
    var outcome := StartAttempt(db, p, w, t, top, c);
    if outcome.Ok? {
      var after := outcome.value.0;
      assert after.missions == MissionTo(db.missions, db.tasks[t].mission, Running);
      MoveMatches(db.missions, db.tasks, t, Running);
      MoveStaysPlanned(db.missions, db.tasks, t, Running);
      LeaseKeepsAttempts(db.tasks, db.attempts, c.attempt, after.attempts[c.attempt]);
    }
  }
}
