/** The audit ledger: it holds each mission's whole lifecycle and its declared execution contract. */
module Ledger {
  import opened Base
  import opened Contracts
  import opened Tables
  import opened Transactions

  /** The states that the ledger gives a mission, oldest first. */
  ghost function StatesOf(events: seq<Event>, m: Id): seq<State> {
    if events == [] then []
    else
      var last := events[|events| - 1];
      StatesOf(events[..|events| - 1], m)
      + (if last.mission == Some(m) && last.kind.MissionState? then [last.kind.state] else [])
  }

  function Prior(path: seq<State>, i: nat): State
    requires i < |path|
  {
    if i == 0 then Draft else path[i - 1]
  }

  /** Every step of a path is in the lifecycle table, starting from draft. */
  ghost predicate LegalPath(path: seq<State>) {
    forall i | 0 <= i < |path| :: Allowed(Prior(path, i), path[i])
  }

  function Final(path: seq<State>): State {
    if path == [] then Draft else path[|path| - 1]
  }

  /** Missions and events name only known missions and workspaces. */
  ghost predicate LedgerLinked(workspaces: map<Id, Id>, missions: map<Id, Mission>, events: seq<Event>) {
    && (forall e <- events :: (e.mission.Some? ==> e.mission.value in missions) && e.workspace in workspaces)
    && (forall m <- missions :: missions[m].workspace in workspaces)
  }

  /** The ledger of each mission is a legal path from draft to the mission's present state. */
  ghost predicate HistoryOk(missions: map<Id, Mission>, events: seq<Event>) {
    forall m <- missions :: LegalPath(StatesOf(events, m)) && Final(StatesOf(events, m)) == missions[m].state
  }

  /** A mission declares nothing, or declares the processor contract once; its task obeys the declaration. */
  ghost predicate DeclaredOk(tasks: map<Id, Task>, missions: map<Id, Mission>, events: seq<Event>) {
    && (forall m <- missions :: RequiredCapability(events, m).Ok?)
    && (forall t <- tasks :: RequiredCapability(events, tasks[t].mission) == Ok(tasks[t].capability))
  }

  ghost predicate LedgerOk(workspaces: map<Id, Id>, missions: map<Id, Mission>, tasks: map<Id, Task>, events: seq<Event>) {
    LedgerLinked(workspaces, missions, events) && HistoryOk(missions, events) && DeclaredOk(tasks, missions, events)
  }

  lemma Appended(events: seq<Event>, e: Event, m: Id)
    ensures StatesOf(events + [e], m)
            == StatesOf(events, m) + (if e.mission == Some(m) && e.kind.MissionState? then [e.kind.state] else [])
    ensures DeclaredContracts(events + [e], m)
            == DeclaredContracts(events, m)
               + (if e.mission == Some(m) && e.kind.ExecutionContract? then [e.kind.capability] else [])
  {
    assert (events + [e])[..|events + [e]| - 1] == events;
  }

  /** A mission that no event names has no history and no declaration. */
  lemma {:induction false} Unmentioned(events: seq<Event>, m: Id)
    requires forall e <- events :: e.mission != Some(m)
    ensures StatesOf(events, m) == [] && DeclaredContracts(events, m) == []
  {
    if events != [] {
      Unmentioned(events[..|events| - 1], m);
    }
  }

  lemma LongerPath(path: seq<State>, target: State)
    requires LegalPath(path) && Allowed(Final(path), target)
    ensures LegalPath(path + [target]) && Final(path + [target]) == target
  {
    var longer := path + [target];
    forall i | 0 <= i < |longer|
      ensures Allowed(Prior(longer, i), longer[i])
    {
      if i < |path| {
        assert Allowed(Prior(path, i), path[i]);
      }
    }
  }

  /** Recording a permitted move keeps every mission's history. */
  lemma MoveKeepsHistory(missions: map<Id, Mission>, events: seq<Event>, m: Id, target: State, e: Event)
    requires HistoryOk(missions, events)
    requires m in missions && Allowed(missions[m].state, target)
    requires e.mission == Some(m) && e.kind.MissionState? && e.kind.state == target
    ensures HistoryOk(missions[m := missions[m].(state := target)], events + [e])
  {
    var after := missions[m := missions[m].(state := target)];
    forall n <- after
      ensures LegalPath(StatesOf(events + [e], n)) && Final(StatesOf(events + [e], n)) == after[n].state
    {
      Appended(events, e, n);
      if n == m {
        LongerPath(StatesOf(events, m), target);
      } else {
        assert StatesOf(events, n) + [] == StatesOf(events, n);
      }
    }
  }

  /** Recording anything but a move keeps every mission's history. */
  lemma NoteKeepsHistory(missions: map<Id, Mission>, events: seq<Event>, e: Event)
    requires HistoryOk(missions, events) && !e.kind.MissionState?
    ensures HistoryOk(missions, events + [e])
  {
    forall n <- missions
      ensures StatesOf(events + [e], n) == StatesOf(events, n)
    {
      Appended(events, e, n);
    }
  }

  /** Recording anything but a contract keeps every declaration. */
  lemma NoteKeepsDeclared(tasks: map<Id, Task>, missions: map<Id, Mission>, events: seq<Event>, e: Event)
    requires DeclaredOk(tasks, missions, events) && !e.kind.ExecutionContract?
    ensures DeclaredOk(tasks, missions, events + [e])
  {
    forall m: Id
      ensures DeclaredContracts(events + [e], m) == DeclaredContracts(events, m)
    {
      Appended(events, e, m);
    }
  }

  /** Recording anything but a move or a contract keeps the ledger. */
  lemma NoteKeepsLedger(workspaces: map<Id, Id>, missions: map<Id, Mission>, tasks: map<Id, Task>,
      events: seq<Event>, e: Event)
    requires LedgerOk(workspaces, missions, tasks, events)
    requires !e.kind.MissionState? && !e.kind.ExecutionContract?
    requires e.workspace in workspaces && (e.mission.Some? ==> e.mission.value in missions)
    ensures LedgerOk(workspaces, missions, tasks, events + [e])
  {
    NoteKeepsHistory(missions, events, e);
    NoteKeepsDeclared(tasks, missions, events, e);
  }

  /** Tasks that keep their missions and capabilities stay as declared. */
  ghost predicate SamePlans(before: map<Id, Task>, after: map<Id, Task>) {
    before.Keys == after.Keys
    && forall t <- before :: after[t].mission == before[t].mission && after[t].capability == before[t].capability
  }

  /** Recording a permitted move keeps the ledger, whatever the move does to task states. */
  lemma MoveKeepsLedger(
    workspaces: map<Id, Id>, missions: map<Id, Mission>, tasks: map<Id, Task>, after: map<Id, Task>,
    events: seq<Event>, m: Id, target: State, e: Event)
    requires LedgerOk(workspaces, missions, tasks, events) && SamePlans(tasks, after)
    requires m in missions && Allowed(missions[m].state, target)
    requires e.mission == Some(m) && e.kind.MissionState? && e.kind.state == target && e.workspace in workspaces
    ensures LedgerOk(workspaces, missions[m := missions[m].(state := target)], after, events + [e])
  {
    MoveKeepsHistory(missions, events, m, target, e);
    NoteKeepsDeclared(tasks, missions, events, e);
    forall t <- after
      ensures RequiredCapability(events + [e], after[t].mission) == Ok(after[t].capability)
    {
      assert after[t].mission == tasks[t].mission && after[t].capability == tasks[t].capability;
    }
  }

  /** A new mission starts with an empty history and no declaration. */
  lemma NewMissionKeepsLedger(
    workspaces: map<Id, Id>, missions: map<Id, Mission>, tasks: map<Id, Task>, events: seq<Event>, m: Id, row: Mission)
    requires LedgerOk(workspaces, missions, tasks, events)
    requires m !in missions && row.state == Draft && row.workspace in workspaces
    ensures LedgerOk(workspaces, missions[m := row], tasks, events)
    ensures DeclaredContracts(events, m) == []
  {
    Unmentioned(events, m);
  }

  /** Declaring a contract for a mission that has no task and no declaration yet. */
  lemma DeclareKeepsLedger(
    workspaces: map<Id, Id>, missions: map<Id, Mission>, tasks: map<Id, Task>, events: seq<Event>, m: Id, e: Event)
    requires LedgerOk(workspaces, missions, tasks, events)
    requires m in missions && e.workspace in workspaces
    requires e.mission == Some(m) && e.kind == ExecutionContract(CpuDigest)
    requires DeclaredContracts(events, m) == [] && (forall t <- tasks :: tasks[t].mission != m)
    ensures LedgerOk(workspaces, missions, tasks, events + [e])
  {
    NoteKeepsHistory(missions, events, e);
    DeclareKeepsDeclared(missions, tasks, events, m, e);
    hide HistoryOk, DeclaredOk;
  }

  lemma DeclaredAfter(events: seq<Event>, m: Id, e: Event, n: Id)
    requires e.mission == Some(m) && e.kind == ExecutionContract(CpuDigest) && DeclaredContracts(events, m) == []
    ensures RequiredCapability(events + [e], n) == if n == m then Ok(CpuDigest) else RequiredCapability(events, n)
  {
    Appended(events, e, n);
  }

  lemma DeclareKeepsDeclared(missions: map<Id, Mission>, tasks: map<Id, Task>, events: seq<Event>, m: Id, e: Event)
    requires DeclaredOk(tasks, missions, events)
    requires e.mission == Some(m) && e.kind == ExecutionContract(CpuDigest)
    requires DeclaredContracts(events, m) == [] && (forall t <- tasks :: tasks[t].mission != m)
    ensures DeclaredOk(tasks, missions, events + [e])
  {
    hide RequiredCapability;
    forall n <- missions
      ensures RequiredCapability(events + [e], n).Ok?
    {
      DeclaredAfter(events, m, e, n);
    }
    forall t <- tasks
      ensures RequiredCapability(events + [e], tasks[t].mission) == Ok(tasks[t].capability)
    {
      DeclaredAfter(events, m, e, tasks[t].mission);
    }
  }
}
