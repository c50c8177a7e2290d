# Verified model of the control plane, its worker and its discovery imports

This project models the parts of the repository whose correctness spans several operations, and proves what they
promise. It is written in Dafny and checked by the Dafny verifier alone (`dafny verify dfyconfig.toml`).

## What is modelled

**The mission and attempt protocol** (`Contracts`, `Tables`, `Transactions`, `ControlPlane`). `Transactions` gives each
transaction of the control plane as a function of the index it starts from: create, approve, claim, finish, cancel,
retry, expire, restart, upload, enrol, rotate, revoke, and a crash that leaves an object behind. `ControlPlane` is the
program itself, a class whose methods run statement by statement on the tables, with the loops and the rollbacks; every
method is proved to take exactly steps of the transition system. `Lifecycle`, `Ledger`, `Attempts`, `Files`, `Growth`
and `Invariant` say what holds of the tables; `Effects`, `Planning`, `Delivery` and `Identities` prove that each
transaction keeps it; `Runs` and `Safety` draw the conclusions for whole runs of any interleaving. `Requests`, `Leases`,
`Decisions` and `Acceptance` say, in the caller's terms and field by field, exactly which calls succeed and what each
leaves: what a draft becomes on its way to a worker, which claim is given which lease, what an owner may decide, and
which reports and uploads are accepted.

**The checker and the backups** (`VerifyIndex`, `Backup`, `Restore`). The repository's own checker of a stored index
holds in every reachable state. Creating and restoring a backup are programs over a disk that records every state a
crash could leave; runs may begin with a restored installation, so all theorems on runs hold after a restoration too.

**The crash-safe worker** (`Worker`, `Fleet`, `FleetInvariant`, `Recovery`, `Runner`). Machines with a durable journal
run against the control plane over a network that keeps every message for ever, so that any message may arrive late,
again or never, and a machine may stop between any two saves or calls, also while its executor is at work. `Runner` is
the worker's program, proved to be a path of that machine.

**Discovery** (`Snapshots`, `Imports`, `ImportPlan`, `Batches`, `Ingestion`, `RetryAfter`, `SourceLog`, `Retry`,
`Waits`, `Caches`, `Checkpoints`, `ManualRuns`). Canonical snapshots; two guarded imports of different shapes that mean the same;
the plan that such an import carries out; bounded batches and their confirmed delivery; the retry executor under its
budgets, judged by the log of all it did, and what each failure makes of the wait after it; validated caches with their provenance; immutable checkpoints and the runs
that resume from them.

**Readers and walks** (`DeadlineReader`, `SecretWalk`). The deadline-bound buffered reader, and the walk that refuses
credential-like keys on graphs with sharing and cycles.

## How to read it

- Digests, canonical documents and keys are free constructors, so equal digests have equal contents. Random identifiers
  are arbitrary values that are required to be new. Clocks are arbitrary functions that may jump, fail or go back.
- The request digest of an operation is its `Intent`; the digest of a result is the result itself.
- A query that returns rows is an expression or a choice over the table; where it returns one row, that row is proved to
  be the only one. The order of the rows that a fence selects is arbitrary.
- The network, the clocks, the operations of a source, the executor and the failures of writes are parameters over
  which every theorem quantifies.

## Where the code and its promises part

- **Two engines, one column.** The relational import stages its rows as text, where an empty revision becomes no value;
  the document import keeps the empty text. The tables agree in every column exactly when no record has an empty
  revision (`Imports.SameIffNoEmptyRevision`, `Imports.ImportKeepsSameIff`, `Imports.EmptyRevisionDiffers`).
- **Two generators, three limits.** One generator refuses text over several lines. The other refuses a transaction above
  its byte budget, and a capture time that its offset takes out of the years 1 to 9999 in universal time. So they accept
  the same snapshots only under the condition of `Imports.AcceptSameIff` (`Imports.MultilineDiffers`,
  `Imports.OutOfCalendarDiffers`).
- **The empty directory of a restoration.** Right after the destination is made it is empty, and the service would take
  it for a new installation; every later unfinished state is refused (`Restore.UnfinishedRefused`).
- **Bytes that arrive with the deadline.** The reader drops what it received when the deadline passes during a receive,
  and what a failing `read` had collected. A failing `read` loses bytes exactly when some were asked for and the buffer
  held one or the first receive gives one; a failing `readline` exactly when its last receive gives bytes while the
  deadline passes (`DeadlineReader.DeadlineInput.Read`, `DeadlineReader.DeadlineInput.Readline`).
- **Two-digit years.** The bound of fifty years holds in every year, also for the years that the code exempts from its
  comparison (`RetryAfter.NeverBeyondFiftyYears`).
- **Deep metadata.** The walk also refuses ways that are deeper than the recursion limit; without cycles a limit above
  the number of objects never does (`SecretWalk.AcceptsIff`, `SecretWalk.AcyclicIsShallow`).

## Model

| member | source | states |
|---|---|---|
| `Lifecycle.SettleKeepsLife` | control_plane/execution.py:20-28 | moving an active attempt, its task and its mission to one permitted state is never refused and keeps the three tables in agreement |
| `Lifecycle.OneRunningAttempt` | control_plane/execution.py:61-69 | the bulk update of a cancellation rewrites exactly the one active attempt of a running mission |
| `Effects.FenceKeepsInv` | control_plane/execution.py:20-28 | a fence over leased rows never meets a forbidden transition, interrupts exactly the due rows, and gives no mission a verdict |
| `Effects.CancelKeepsInv` | control_plane/execution.py:57-70 | cancelling keeps every relation between the tables and only lets the index grow |
| `Effects.RetryKeepsInv` | control_plane/execution.py:72-83 | retrying keeps every relation between the tables and only lets the index grow |
| `Planning.CreateKeepsInv` | control_plane/service.py:120-145 | creating a mission keeps every relation, including one declared contract at most for each mission |
| `Planning.ApproveKeepsInv` | control_plane/execution.py:34-55 | approval gives the mission its only task and walks it from draft over approved to queued; every relation is kept |
| `Planning.ClaimKeepsInv` | control_plane/execution.py:85-117 | a claim sweeps, then leases at most one task under a new number, generation and deadline; every relation is kept and any lease in its answer is brand new |
| `Attempts.TopIsTopNumber` | control_plane/execution.py:100 | the number a claim continues from is the highest one of its task |
| `Attempts.NextNumbered` | control_plane/execution.py:100-106 | attempts of a task stay numbered from one without a gap or a repetition |
| `Files.PublishAdvances` | control_plane/workspace.py:76-96 | a publication succeeds only when the caller names the current version, and then exactly one version follows it, within quota, file and version limits |
| `Files.PublishKeepsFiles` | control_plane/workspace.py:49-96 | publishing keeps names unique whatever their case, histories linear, bytes stored under their digest, and all limits |
| `Files.NewestIsLast` | control_plane/workspace.py:78 | on a line the highest-numbered version is the last one and its number is the length of the line |
| `Files.NeverCorrupted` | control_plane/workspace.py:60-71 | an object is never found under content other than its own |
| `Delivery.PublishKeepsInv` | control_plane/workspace.py:76-96 | a publication with known origins keeps every relation between the tables |
| `Delivery.OrphanKeepsInv` | control_plane/workspace.py:49-74 | content stored without a commit changes nothing else |
| `Delivery.FinishKeepsInv` | control_plane/execution.py:119-167 | a report either changes no table, or is an exact duplicate, or settles one active attempt on time with its task, mission, version and result; every relation is kept |
| `Identities.RevokeKeepsInv` | control_plane/service.py:185-193 | revocation raises the epoch of an active worker, interrupts all its leases in the same transaction, and leaves no verdict |
| `Identities.RotateKeepsInv` | control_plane/worker_registry.py:126-139 | rotation keeps every relation and only raises the epoch |
| `Identities.EnrollKeepsInv` | control_plane/worker_registry.py:114-124 | enrolment keeps every relation |
| `Identities.ReinstatedInv` | control_plane/backup.py:214-259 | every relation between the tables survives a backup and its restoration |
| `Runs.StepKept` | control_plane/storage.py:152-167 | each of the thirteen atomic actions keeps every relation and only lets the index grow |
| `Runs.RunKeepsInv` | control_plane/service.py:74-107 | in every state of every interleaving, from a new or a restored installation on, all the tables agree |
| `Runs.RunGrows` | control_plane/storage.py:152-167 | between any two moments rows stay, settled attempts are final, epochs only rise, records and objects remain |
| `Safety.MissionsAndTasksAgree` | control_plane/execution.py:34-55 | at any moment of any run a task has its mission's state, no mission has two tasks, attempts are numbered from one without a gap, and no mission is left approved |
| `Safety.ActiveExactlyOnce` | control_plane/execution.py:20-70 | a mission is running or asked to stop exactly when one attempt is active on it, and then they share their state |
| `Safety.OneLeasePerWorker` | control_plane/execution.py:91-92 | no worker ever has two active attempts |
| `Safety.ResultsArriveOnTime` | control_plane/execution.py:126-166 | a result that appears was read before the deadline, which is the claim time plus the shorter limit, under an active identity with the epoch of its claim |
| `Safety.VerdictsComeFromReports` | control_plane/execution.py:57-167 | a mission completes, fails or is cancelled only when its own active attempt is accepted on time with that status, or when its owner cancels it while no attempt is active on it; a mission asked to stop ends by a cancelled report and no other mission does |
| `Safety.SettledForever` | control_plane/execution.py:135-166 | a settled attempt is never written again, so a result is stored at most once |
| `Safety.ClaimTakesTheOldest` | control_plane/execution.py:89-96 | after its sweep an idle worker with a queue always gets its oldest task, and any other worker gets nothing |
| `Safety.CutOffNeverReports` | control_plane/worker_registry.py:82-90 | after a revocation or a rotation, no lease of the old credential is ever reported, over any further run |
| `Safety.RotationCutsOff` | control_plane/worker_registry.py:126-139 | a rotation cuts off every lease of the worker |
| `Safety.SweepsAreComplete` | control_plane/execution.py:16-32 | an expiry sweep interrupts exactly the overdue leases, and a restart every lease |
| `Safety.EffectsCommitOnce` | control_plane/service.py:91-107 | of all the calls of a run that share an actor and an operation identifier at most one changes the index; every later one leaves it as it is, and succeeds only for the same payload and then with the same answer |
| `Safety.RepeatsAreAnswered` | control_plane/service.py:100-104 | a call that succeeded once, repeated at any later time by a permitted caller, succeeds with the same answer and changes nothing, whatever has become of what it was about |
| `Safety.ChangeIsRecorded` | control_plane/service.py:91-107 | a call that changes the index had no record before it, and leaves one with its own payload and answer |
| `Safety.RecordedForever` | control_plane/service.py:100-107 | a recorded operation keeps its payload and its response for the rest of the run |
| `Safety.StaleEpochNeverReplays` | control_plane/service.py:97-99 | a claim under a stale epoch is refused before any record is read |
| `Safety.LostClaimRecovered` | control_plane/service.py:100-104 | the same claim, repeated later under the same credential, names the same lease |
| `Safety.PublishedForever` | control_plane/workspace.py:49-96 | every published version keeps its row and its bytes, which hash to its digest, in all later states |
| `Requests.LeasesSayTheirWork` | control_plane/execution.py:106-116 | in every state of a run each recorded lease repeats its attempt and, word for word, the mission and the task of that attempt: title, objective, files, capability, worker, generation, deadline and expected version |
| `Requests.AnswersAreRecorded` | control_plane/service.py:91-107 | whatever a claim answers, now or replayed, stands in the record that the claim is kept under, from then on |
| `Requests.ContractStays` | control_plane/service.py:64-72 | what a mission must be executed with never changes once the mission is there |
| `Requests.MissionsKeepTheirDraft` | control_plane/service.py:120-145 | a mission keeps the owner, the workspace, the title, the objective and the files of its draft for ever, under the contract that was chosen when it was created |
| `Requests.WorkIsTheDraft` | control_plane/execution.py:112-116 | a lease of a mission, whenever and however often it is given, asks for exactly what its owner drafted |
| `Leases.CredentialsDecide` | control_plane/worker_registry.py:82-90 | on a sound index exactly the active workers under their current epoch are authorized |
| `Leases.WorkGivenIff` | control_plane/execution.py:85-96 | a new claim is given work exactly when an active worker makes it under its current epoch, each of its leases is over and a task is queued for it; otherwise it is told that there is none |
| `Leases.LeaseIsGiven` | control_plane/execution.py:93-116 | the lease is on the task of the oldest queued mission, under the next number of that task and the epoch of the claim, and ends with the shorter of the worker's and the installation's limits |
| `Leases.StateIsRead` | control_plane/execution.py:184-197 | a worker reads the state of exactly the attempts that it was given under its present credential |
| `Leases.EnrolledIff` | control_plane/worker_registry.py:114-124 | a worker is enrolled exactly within the limits of the installation, active and in its first epoch |
| `Leases.RotatedIff` | control_plane/worker_registry.py:126-139 | a credential is rotated exactly for a known worker that is active or is to be reactivated, to the next epoch, and nothing else changes |
| `Leases.RevokedIff` | control_plane/service.py:185-193 | every known worker can be revoked: it is then inactive under a higher epoch, exactly its leases are interrupted, and nothing of other workers changes |
| `Decisions.CreateSucceedsIff` | control_plane/service.py:120-145 | a mission is created exactly by the owner of its workspace, from a clean title and objective over at most 32 distinct versions of that workspace |
| `Decisions.ApproveSucceedsIff` | control_plane/execution.py:34-55 | a mission is approved exactly when its owner asks for it, it is still a draft, and the plan repeats the contract that the mission was created with for an active worker that has the capability; it then has one queued task of that worker |
| `Decisions.CancelSucceedsIff` | control_plane/execution.py:57-70 | a cancellation succeeds exactly for the owner's mission that has not completed, failed or been cancelled; a running one is asked to stop with its attempt, any other is cancelled |
| `Decisions.RetrySucceedsIff` | control_plane/execution.py:72-83 | a retry succeeds exactly for the owner's mission that has failed or been interrupted, which is queued again with its task |
| `Decisions.UploadSucceedsIff` | control_plane/workspace.py:98-106 | an upload succeeds exactly for the owner of the workspace, with a safely named file within the limit, whose bytes are those it declares, over the current version and within quota, file and version limits |
| `Decisions.LeaseExpectsCurrent` | control_plane/execution.py:97-98 | a lease expects the version of the agreed file that is current when it is given |
| `Acceptance.CurrentIsKnown` | control_plane/workspace.py:77-80 | the expected version is the current one exactly when it is the highest-numbered one of the file of that name, or none where there is no such file |
| `Acceptance.NewestDecides` | control_plane/workspace.py:76-88 | a publication succeeds exactly when the caller names the current version and quota, file and version limits leave room |
| `Acceptance.PublicationAppends` | control_plane/workspace.py:88-96 | a publication appends one version, with these bytes, their size and digest and its origin, under the next number of the file of that name, and answers with it |
| `Acceptance.AcceptedExactly` | control_plane/execution.py:119-167 | a report is accepted exactly when the worker of an active unreported attempt makes it in time, under the credential of the claim, and it fits: completed with one good agreed file over the expected version, or failed, interrupted or cancelled without output and with an error code of the capability |
| `Acceptance.AcceptedSettles` | control_plane/execution.py:143-167 | an accepted report gives its status to the attempt, its task and its mission, keeps the report and its error code, and a completed one appends exactly its output as one version with its result row |
| `Acceptance.ReportedOnce` | control_plane/execution.py:137-140 | once an attempt has its report, the same report is a duplicate and any other is refused; nothing changes |
| `Acceptance.AcceptedAgain` | control_plane/execution.py:137-140 | a report that was accepted, sent again at any later time of the run under a credential that is still good, is a duplicate |
| `VerifyIndex.EveryNumber` | control_plane/backup.py:54-55 | a file's versions carry every number from one to their count |
| `VerifyIndex.InvIsVerified` | control_plane/backup.py:31-73 | the invariant of the service implies every relational check of a stored index |
| `VerifyIndex.RunIsVerified` | control_plane/backup.py:31-73 | at any moment of any run the stored index passes those checks |
| `VerifyIndex.RunHistoriesAreLegal` | control_plane/contracts.py:91-98 | folding a mission's state events gives a legal path from draft to its present state, and its contract is always readable |
| `VerifyIndex.CollectObjects` | control_plane/backup.py:65-73 | the loop over the version rows accepts exactly when one digest has one size, none above a mebibyte, and returns those sizes |
| `VerifyIndex.TenThousandVersions` | control_plane/backup.py:178 | an installation with one workspace never holds more than ten thousand versions |
| `VerifyIndex.ObjectsWithinQuota` | control_plane/workspace.py:81-83 | distinct objects together take no more than the workspace quota |
| `VerifyIndex.VerifiedHasNoGap` | control_plane/backup.py:54-55 | with unique numbers the comparison of the least and the greatest number with the count leaves no gap: in an index that passes, each number up to the count is that of exactly one version |
| `VerifyIndex.VerifiedCompletes` | control_plane/backup.py:56-59 | in an index that passes, a completed mission has a version in its own workspace by a completed attempt of its own |
| `ControlPlane.ControlPlane.Fence` | control_plane/execution.py:20-28 | the loop over selected rows computes exactly the specified fence, reading the clock again for each row |
| `ControlPlane.ControlPlane.Move` | control_plane/service.py:81-89 | a transition outside the table is refused and changes nothing; any other writes the state and its event |
| `ControlPlane.ControlPlane.Commit` | control_plane/service.py:105-107 | ending an operation records its response, or rolls the tables back |
| `ControlPlane.ControlPlane.CreateMission` | control_plane/service.py:120-145 | one step of the transition system with its reply |
| `ControlPlane.ControlPlane.ApproveMission` | control_plane/execution.py:34-55 | one step of the transition system with its reply |
| `ControlPlane.ControlPlane.CancelMission` | control_plane/execution.py:57-70 | a sweep, then the cancellation: two steps of the transition system with the reply of the second |
| `ControlPlane.ControlPlane.RetryMission` | control_plane/execution.py:72-83 | a sweep, then the retry: two steps with the reply of the second |
| `ControlPlane.ControlPlane.ClaimWork` | control_plane/execution.py:85-117 | one step of the transition system with its reply, replayed or new |
| `ControlPlane.ControlPlane.FinishAttempt` | control_plane/execution.py:119-167 | a refusal of the role, the form or the attempt comes before the sweep; a sweep step and a Finish step with its reply otherwise |
| `ControlPlane.ControlPlane.ReadState` | control_plane/execution.py:184-197 | a sweep, then what the worker may read about its own attempt |
| `ControlPlane.ControlPlane.RevokeWorker` | control_plane/service.py:185-193 | one step of the transition system with its reply |
| `ControlPlane.ControlPlane.EnrollWorker` | control_plane/worker_registry.py:114-124 | one step of the transition system |
| `ControlPlane.ControlPlane.RotateWorker` | control_plane/worker_registry.py:126-139 | one step of the transition system |
| `ControlPlane.ControlPlane.PublishIn` | control_plane/workspace.py:76-96 | the checks and statements of a publication compute exactly the specified one |
| `ControlPlane.ControlPlane.UploadFile` | control_plane/workspace.py:98-106 | one step of the transition system with its reply |
| `ControlPlane.ControlPlane.Download` | control_plane/workspace.py:138-156 | on a sound index an owner can read back every published version, whole and under its own digest, and is refused nothing else |
| `ControlPlane.ControlPlane.RecoverLeases` | control_plane/execution.py:16-18 | the sweep after a restart is one step of the transition system |
| `ControlPlane.ControlPlane.SelectTask` | control_plane/execution.py:93-95 | the query's first row is the only task that is oldest in the worker's queue |
| `ControlPlane.ControlPlane.SelectTop` | control_plane/execution.py:100 | the query gives the highest attempt number of a task, or zero |
| `Backup.Inspect` | control_plane/backup.py:171-211 | the reader accepts exactly the directories that the acceptance predicate describes |
| `Backup.AcceptedIsSealed` | control_plane/backup.py:171-211 | a directory is accepted exactly when its manifest lists every other file once, with its size and the checksum of its content, and nothing else, within the limits, and the files are those of an installation with every referenced object whole and no other |
| `Backup.ManifestSeals` | control_plane/backup.py:184-198 | no two accepted backups share a manifest: any change of a file, a missing one or a further one is refused |
| `Backup.CheckEntries` | control_plane/backup.py:184-198 | the loop over the manifest accepts exactly distinct entries that match their files, and returns their paths and total |
| `Backup.CreateBackup` | control_plane/backup.py:140-168 | a backup succeeds exactly when its source is sound and within the limits; of all the states a crash can leave, only the last one of a success is accepted |
| `Backup.MarkedIsAccepted` | control_plane/backup.py:171-211 | a complete copy with its marker is accepted exactly when it is within the limits on files and bytes |
| `Backup.ManifestIsShort` | control_plane/backup.py:180 | a manifest entry takes at most two hundred and one bytes, so the manifest limit is never the one that is met |
| `Restore.ReachableCanBeSaved` | control_plane/backup.py:140-168 | at any moment of any run of an installation with one workspace, a backup is possible |
| `Restore.RestoreBackup` | control_plane/backup.py:214-259 | a restoration succeeds exactly on an accepted backup and makes no directory for any other; of all the states of its directory the service opens only the last, and would take only the empty one for a new installation |
| `Restore.UnfinishedRefused` | control_plane/storage.py:110-113 | an unfinished restoration is refused, except while its directory is still empty |
| `Restore.BackedUpAndRestored` | control_plane/backup.py:214-259 | the restored index is the saved one with every worker revoked under a higher epoch; missions, events and versions are unchanged, and exactly the referenced objects are there |
| `Restore.RestoredLeasesStaySilent` | control_plane/backup.py:245 | whatever a restored installation does, a lease from before its backup is never reported |
| `Runner.IndependentRunner.RunOnce` | pepeuch_worker/runner.py:40-118 | one run is a path of the machine that starts and ends at rest, hears only what it was told, and calls the executor at most once, whether or not the call returns, and never when it recovers; when it ends well, is idle or has nothing to recover is told exactly by what it hears, and so is the result in its journal; what it says it finished is marked done |
| `Runner.IndependentRunner.ClaimWork` | pepeuch_worker/runner.py:64-73 | asking for work ends with the answered request in the journal exactly when it fits, and is idle exactly when there was no work |
| `Runner.IndependentRunner.ExecuteOnce` | pepeuch_worker/runner.py:88-99 | the executor is called once at most; then the journal holds what it returned, or after an interruption an interrupted result with its code and no output, or after a refusal a failed one |
| `Runner.IndependentRunner.Obtain` | pepeuch_worker/runner.py:74-99 | the run comes to the result that it wants to report exactly when its looks, its journal and its executor account for one |
| `Runner.IndependentRunner.Conclude` | pepeuch_worker/runner.py:74-118 | from the first look at the attempt on, the run ends in exactly one state with exactly one result, read off what it heard: cancelled on demand, replayed, interrupted in a recovery, or what the executor left |
| `Runner.IndependentRunner.Report` | pepeuch_worker/runner.py:100-118 | from the second look on, the run reports what its journal holds, or a cancellation on demand, and marks it done exactly when acknowledged or when the attempt is over |
| `FleetInvariant.SameAttemptSameClaim` | control_plane/service.py:91-107 | two claims whose answers name one attempt are the same claim |
| `FleetInvariant.HistoryKeepsWorld` | pepeuch_worker/runner.py:40-118 | any number of machines, the network and the index agree in every world of every history |
| `Recovery.ExecutedAtMostOnce` | pepeuch_worker/runner.py:88-97 | whatever is lost, late or repeated, and whichever machines crash, also in the middle of an execution, no executor is called twice for one attempt, and every execution that returned is such a call |
| `Recovery.OneVerdictPerAttempt` | pepeuch_worker/runner.py:84-99 | all reports of success or failure on an attempt carry the one result that its execution made |
| `Recovery.StoredVerdictWasExecuted` | pepeuch_worker/runner.py:98-118 | a verdict that the index stores under a machine's credential comes from the only execution of its attempt: a success was returned by its executor, and a failure was returned or is the one, field by field, that stands for a refusal |
| `Recovery.NoVerdictWithoutAnswer` | pepeuch_worker/runner.py:88-97 | where executions of an attempt were only interrupted or cut off by crashes, nobody has reported a success or failure on it and the index holds none from a machine |
| `Recovery.InterruptedForever` | pepeuch_worker/runner.py:92-95 | once an execution was interrupted, nobody ever reports a success or failure on its attempt |
| `Recovery.OwnResultsAreGood` | pepeuch_worker/runner.py:82-97 | the cancellations, interruptions and failures that a machine makes up itself are reports that the index accepts for its capability in the state that they are made for |
| `Recovery.LeasedWorkFits` | pepeuch_worker/runner.py:27-30 | a machine takes on every lease of a mission that was drafted for its capability, as long as it can read the deadline, and no other |
| `Recovery.JournalledBeforeSent` | pepeuch_worker/runner.py:98-111 | a report leaves a machine only while its durable journal holds that very result for that very attempt |
| `Recovery.DoneIsForever` | pepeuch_worker/runner.py:68-81 | a journal marked done means that the index answered no work, or that the attempt is settled for good |
| `Recovery.AnswersNeverDiffer` | pepeuch_worker/runner.py:64-73 | however often a claim is repeated, and whenever it is answered, all its answers are the same |
| `Recovery.NeverRecomputed` | pepeuch_worker/runner.py:64-99 | once a machine has stopped before it journalled a result, perhaps while its executor was at work, perhaps before the answer to its claim arrived or was even made, no machine ever stands before, in or after an execution of the attempt that the answer names, no executor is called for it and no call for it returns, nobody reports a success or failure on it, and the index never stores one from a machine |
| `Snapshots.MakeSnapshot` | database/poc/discovery_cache.py:78-111 | the loop succeeds exactly for a declared scope, a valid time, and valid records that do not conflict, and returns the canonical snapshot |
| `Snapshots.MadeExactly` | database/poc/discovery_cache.py:78-99 | a snapshot is made exactly of a declared scope, a readable time and some good records of which no two contradict each other about one resource |
| `Snapshots.MadeNames` | database/poc/discovery_cache.py:101-111 | the records stand in the order of their keys under their own keys and digests, and the identifier names the scope and then each of them |
| `Snapshots.IdentifierBinds` | database/poc/discovery_cache.py:102-107 | valid snapshots have one identifier exactly when they observe the same records in the same scope, whenever that was |
| `Snapshots.MakeIgnoresOrderAndRepetition` | database/poc/discovery_cache.py:88-111 | neither the order of the records nor their repetition matters |
| `Snapshots.ValidateSnapshot` | database/poc/discovery_cache.py:125-152 | the checks accept exactly a snapshot that equals its own rebuilding |
| `Snapshots.ValidIffMade` | database/poc/discovery_cache.py:125-152 | a snapshot is accepted exactly when some records make it |
| `Snapshots.MadeRecords` | database/poc/discovery_cache.py:101-111 | the entries are exactly the given records, each once, with their own keys and digests |
| `Snapshots.ComparePartitions` | database/poc/discovery_cache.py:155-171 | the comparison splits both key sets into added, changed, unchanged and not observed, and unchanged means the same record |
| `Snapshots.CompareMirrors` | database/poc/discovery_cache.py:155-171 | swapping the arguments swaps added with not observed and nothing else |
| `Imports.PgCache.Import` | database/poc/emit_discovery_import.py:51-107 | stage, check all, write all: the specified import, or nothing |
| `Imports.SurrealCache.Import` | database/poc/emit_discovery_import.py:110-140 | check and write record by record with a rollback: the specified import, or nothing |
| `Imports.RowsSayTheirRecords` | database/poc/emit_discovery_import.py:25-107 | after an accepted relational import the row of each record holds, column by column, what the record says, an empty revision as none, with the snapshot and its instant; no other row changed |
| `Imports.DocumentsSayTheirRecords` | database/poc/emit_discovery_import.py:43-137 | after an accepted document import the document of each record holds, field by field, what the record says, with the snapshot and its time; no other document changed |
| `Imports.AcceptedExactly` | database/poc/emit_discovery_import.py:80-93 | a validated snapshot is accepted exactly when each row that it meets was seen before it or already says in every column what the record says |
| `Imports.HistoriesKeepKeys` | database/poc/emit_discovery_import.py:94-107 | over any sequence of imports each row stands under the key of its own identity columns |
| `Imports.StepsAreCheckThenWrite` | database/poc/emit_discovery_import.py:121-135 | with one entry for a key, checking and writing by turns is checking everything and then writing everything |
| `Imports.EnginesAgree` | database/poc/emit_discovery_import.py:80-140 | from matching tables both engines accept or both refuse any validated snapshot, and the tables still match |
| `Imports.HistoriesAgree` | database/poc/emit_discovery_import.py:80-140 | over any sequence of imports both engines accept the same snapshots and hold matching tables |
| `Imports.SameIffNoEmptyRevision` | database/poc/emit_discovery_import.py:73-77 | matching tables hold the same values exactly when no record has an empty revision |
| `Imports.ImportKeepsSameIff` | database/poc/emit_discovery_import.py:73-77 | an accepted import keeps the two tables the same in every column exactly when it brings no empty revision |
| `Imports.EmptyRevisionDiffers` | database/poc/emit_discovery_import.py:75 | a valid snapshot, accepted by both engines, has an empty revision that one engine loses and the other keeps |
| `Imports.MultilineDiffers` | database/poc/emit_discovery_import.py:54-58 | a valid snapshot with a display name over two lines is refused by one generator and stored by the other engine |
| `Imports.OutOfCalendarDiffers` | database/poc/emit_discovery_import.py:35-40 | a valid snapshot whose capture time leaves the years 1 to 9999 in universal time is refused by one generator and stored by the other engine |
| `Imports.AcceptSameIff` | database/poc/emit_discovery_import.py:35-140 | with the limits of the generators, which are single lines for one, and a capture time in the calendar and a byte budget for the other, the engines decide alike exactly when the snapshot is stale or both generators decide alike |
| `Imports.LatestObservationWins` | database/poc/emit_discovery_import.py:124-135 | after any history each key holds the latest of the accepted observations of it |
| `Imports.LatestIsUnique` | database/poc/emit_discovery_import.py:124-135 | which observations were accepted decides the table, whatever their order |
| `Imports.ImportMovesForward` | database/poc/emit_discovery_import.py:94-107 | an accepted import removes no key, takes no row back in time, and repeated at once changes nothing |
| `ImportPlan.PlanImport` | database/poc/incremental_import_plan.py:14-53 | caches that cannot be made are refused first, the other checks refuse in their order, and an accepted plan has one action with its expectation for each record |
| `ImportPlan.PlanRefusedIff` | database/poc/incremental_import_plan.py:14-34 | a plan is refused exactly without a known origin, or when the new cache is of another source, selection, context, origin or scope than the baseline, or neither later nor identical |
| `ImportPlan.ChangesAre` | database/poc/incremental_import_plan.py:31-37 | the changes are the keys only in the new records, those whose record differs, and those only in the old ones |
| `ImportPlan.PlanIsCarriedOut` | database/poc/incremental_import_plan.py:19-46 | the guarded import of an accepted plan succeeds on the table that holds exactly its baseline, meets every expectation, and gives the plan's records and the unobserved rows |
| `Batches.SqlBatches` | database/poc/isolated_bench_workload.py:182-195 | the batches are the statements in order, each within both bounds and each ended only where the next statement would not fit; exactly an oversized statement is refused |
| `Batches.BatchesKeepText` | database/poc/isolated_bench_workload.py:190-195 | joining the batches gives the same text as joining the statements |
| `Batches.MakePlan` | database/poc/confirmed_sql_batches.py:36-43 | a plan exists exactly for a nonempty list without oversized statements; it is numbered, digested and complete |
| `Batches.WrappedFits` | database/poc/isolated_bench_ingestion.py:13-29 | below a million batches no planned batch is too large once it is wrapped with its receipt, in either engine |
| `Ingestion.Deliver` | database/poc/confirmed_sql_batches.py:51-72 | only an exact acknowledged prefix is resumed; whatever fails, what is applied stays an exact prefix of the plan; all is delivered exactly when every send and every confirmation works and no interruption is asked |
| `Ingestion.Ingest` | database/poc/isolated_bench_ingestion.py:32-50 | one run takes its own database further along the plan or changes nothing, a database of another plan is refused unchanged, and a run succeeds exactly when nothing in it goes wrong; a success applies exactly the missing batches |
| `Ingestion.AppliedIsAlwaysAPrefix` | database/poc/isolated_bench_ingestion.py:32-50 | over any number of broken and resumed runs the effects are a prefix of one plan, in order and each once, and never shrink |
| `Ingestion.OtherPlansAreRefused` | database/poc/isolated_bench_ingestion.py:35-37 | the plan that first claims a database keeps it |
| `Ingestion.FinishedIsFinal` | database/poc/confirmed_sql_batches.py:60-72 | no further run changes a database that holds its whole plan |
| `Ingestion.SameManifestSamePlan` | database/poc/confirmed_sql_batches.py:46-48 | plans with one manifest are one plan |
| `RetryAfter.DigitsGiveTheirValue` | database/poc/retry_after.py:55-59 | a digit string, whatever zeros lead it, gives its value when that is below ten to the eighteenth and is excessive otherwise (section 10.2.3 of RFC 9110) |
| `RetryAfter.NeverBeyondFiftyYears` | database/poc/discovery_execution.py:146-161 | a date with a two-digit year keeps its digits and never resolves more than fifty years ahead, in any year (section 5.6.7 of RFC 9110) |
| `RetryAfter.LegacyDelayIsBounded` | database/poc/discovery_execution.py:146-163 | such a date never asks to wait longer than until this day in fifty years |
| `RetryAfter.DatesInOrder` | database/poc/discovery_execution.py:156-163 | later dates of the calendar have later timestamps |
| `RetryAfter.DaysFollow` | database/poc/discovery_execution.py:156-163 | days are counted from the epoch, a Thursday, and each date is a day after the one before it |
| `Waits.RetriedExactly` | database/poc/discovery_execution.py:32-64 | exactly a readable answer with a status that the policy names and a failing transport that the policy retries may be called again, with what that very answer asks for |
| `Waits.ReasonsOf` | database/poc/discovery_execution.py:36-64 | each kind of failure and each status has its own reason |
| `Waits.MeantIsResolved` | database/poc/discovery_execution.py:146-161 | a two-digit year means the century of now, or the one before when that date would lie more than fifty years ahead (section 5.6.7 of RFC 9110) |
| `Waits.ServerIsHonoured` | database/poc/discovery_execution.py:217-259 | between two calls the clock goes on by at least the seconds that the failed answer asks for, or past its instant, or past its date when the weekday is right; without a header the server adds nothing, and only a failure that may pass is followed by a call (section 10.2.3 of RFC 9110) |
| `Waits.RaisedIsTheFailure` | database/poc/discovery_execution.py:200-217 | a call whose dispatches go well and that raises is retried as what it raised |
| `Waits.FirstFailureIsTheFailure` | database/poc/discovery_execution.py:200-217 | the first dispatch that fails and is not swallowed is what the call is retried as |
| `Retry.Budget.Sample` | database/poc/discovery_execution.py:83-88 | a broken, failing or backward clock is a runtime error and changes nothing measured; otherwise the elapsed time is this reading minus the first |
| `Retry.AttemptContext.Request` | database/poc/discovery_execution.py:111-121 | at most one dispatch, only in an open context, for a planned and allowed resource, right after a clock reading within the time limit, and with a request left; a refusal names what was missing |
| `Retry.Backoff` | database/poc/discovery_execution.py:124-131 | the loop that saturates early gives exactly the smaller of the doubled backoff and the ceiling |
| `Retry.DoubledIsPower` | database/poc/discovery_execution.py:124-131 | the doubled backoff is the backoff times a power of two |
| `Retry.AfterFailure` | database/poc/discovery_execution.py:217-259 | another call follows only a retryable failure of an idempotent task, within every budget, after a wait for the delay that the failure itself asked for; each stop is justified by its own guard |
| `Retry.PlanAndWait` | database/poc/discovery_execution.py:229-259 | the delay is the larger of the server's and of the backoff with its jitter below the ceiling, it is below what the limit leaves at a clock reading, and the next reading, with only the sleep between them, is later by at least as much |
| `Retry.ExecuteSource` | database/poc/discovery_execution.py:171-269 | for every behaviour of operation, clocks, sleep and jitter the execution ends in a constructible result within its budgets; the log of its events shows every call and dispatch right after a reading in time, between two calls a wait of at least the backoff and of what the server asked for in the failure before, measured by the clock, and the cause of every end without success; on success the elapsed time is the last reading minus the first, below the limit, and the snapshot is complete and valid |
| `Retry.HealthySucceeds` | database/poc/discovery_execution.py:188-213 | with surroundings that never fail, time and requests to spare and an allowed plan, the operation is called, and its first healthy call is the last one and makes the execution a success |
| `SecretWalk.Walker.Visit` | database/poc/metadata_primitives.py:46-66 | the walk ends on every graph, restores its ancestors, and accepts exactly the fit values |
| `SecretWalk.FitRef` | database/poc/metadata_primitives.py:49-66 | an object is fit when it is not above itself, its keys are fit, and its children are fit below it |
| `SecretWalk.KeysMeetTheirNames` | database/poc/metadata_primitives.py:57-60 | a key is refused exactly when its letters and digits, in small letters, spell a name on the list; the case of a letter and any other character make no difference |
| `SecretWalk.AcceptsIff` | database/poc/metadata_primitives.py:39-70 | the walk accepts exactly when no cycle, no key that is not text and no credential-like key is reachable and no way exceeds the recursion limit |
| `SecretWalk.AcyclicIsShallow` | database/poc/metadata_primitives.py:67-70 | without a cycle a recursion limit above the number of objects never refuses |
| `DeadlineReader.DeadlineInput.Readline` | control_plane/http_io.py:30-46 | a line depends only on what is left and the limit, not on its fragments; returned, buffered and unread bytes make up the stream, and no reading of the clock was late; a failing call loses bytes exactly when its last receive works before the end of the stream while the deadline passes |
| `DeadlineReader.DeadlineInput.Read` | control_plane/http_io.py:48-59 | exactly the asked bytes or all that is left; a failing call loses bytes exactly when some were asked for and the buffer held one, or the first receive is in time, does not fail and is before the end of the stream |
| `DeadlineReader.DeadlineInput.HeaderLine` | control_plane/http_io.py:76-81 | an accepted header line is ended properly and bounded by itself and in sum |
| `DeadlineReader.DeadlineInput.NothingAfterTheDeadline` | control_plane/http_io.py:18-22 | with a clock that never goes back nothing is returned once the deadline has been seen |
| `DeadlineReader.LineFromBuffer` | control_plane/http_io.py:35-40 | what the buffer decides does not depend on what is still unread |
| `DeadlineReader.LineIsFirst` | control_plane/http_io.py:30-46 | a line begins what is left and has no newline but at its end; it ends at a newline, at its limit or with everything |
| `Checkpoints.Archive.Save` | database/poc/discovery_checkpoints.py:92-135 | in every state of the directory, also between two written bytes, each published name is absent or whole and what was published before is still there; a save is successful exactly for a valid entry that is small enough and already there or written without a fault, and leaves no pending file |
| `Checkpoints.Archive.Load` | database/poc/discovery_checkpoints.py:138-153 | from any directory an entry is loaded exactly for its own canonical request, from its own whole and valid document |
| `Checkpoints.SavedIsLoaded` | database/poc/discovery_checkpoints.py:92-153 | what was saved is what is loaded, from then on, whatever else is published and wherever a crash comes |
| `ManualRuns.EntryMadeIff` | database/poc/manual_discovery_run.py:109-117 | from an observation of a planned task an entry is made exactly when its revisions can be expected and its scope need not be attested or may be; the entry is valid and belongs to the task |
| `ManualRuns.ExecuteTask` | database/poc/manual_discovery_run.py:95-120 | a task is executed once; on a working disk what it observed is archived unless it is from the future, makes no entry or is too large, and the event names the archived entry |
| `ManualRuns.RunManual` | database/poc/manual_discovery_run.py:37-127 | a bad plan or one bad descriptor executes and writes nothing; otherwise exactly the tasks without a young entry are executed, once each and in order, each event is the kept entry or what that execution observed, and at every moment each published checkpoint is whole |
| `ManualRuns.EventIsBacked` | database/poc/manual_discovery_run.py:90-120 | every complete event points to a checkpoint from which its own task can be resumed, with the same snapshot |
| `ManualRuns.RunAgain` | database/poc/manual_discovery_run.py:72-127 | the same tasks, run again from the descriptors of a complete run within the age limit, execute nothing, write nothing and report the same snapshots |
| `Caches.RequestIsFixed` | database/poc/validated_discovery_cache.py:18-47 | rebuilding a request that was built changes nothing |
| `Caches.RequestIgnoresOrder` | database/poc/validated_discovery_cache.py:18-35 | the order in which the resources are named does not matter |
| `Caches.RequestMadeIff` | database/poc/validated_discovery_cache.py:18-35 | a request is made exactly from good parts and has those parts, with its resources in ascending order |
| `Caches.MadeIsAcceptedIff` | database/poc/discovery_provenance.py:55-105 | a provenance that was made is accepted exactly when it was not attested, or attested with the enrolled key of its issuer |
| `Caches.ProvenanceAcceptedIff` | database/poc/discovery_provenance.py:81-105 | a provenance is accepted exactly when it names the snapshot, its content and its scope, and is attested with the enrolled key of its issuer where the origin is controlled and not at all elsewhere |
| `Caches.RevisionIsLast` | database/poc/validated_discovery_cache.py:67 | the revision of a resource is that of its last record |
| `Caches.CacheMadeIff` | database/poc/validated_discovery_cache.py:62-75 | a cache is made exactly of a canonical request, a snapshot that answers it with the expected revisions, an accepted provenance of its context and validators that may be sent, and has just these parts |
| `Caches.ProvenanceBinds` | database/poc/discovery_provenance.py:81-105 | a provenance is accepted for one snapshot only; an accepted attestation was made with the enrolled key for exactly this snapshot, and never for a synthetic scope |
| `Caches.CacheIffMade` | database/poc/validated_discovery_cache.py:62-88 | the check accepts exactly the caches that can be made, and changes none of them |
| `Caches.MadeIsReused` | database/poc/validated_discovery_cache.py:91-108 | a cache answers the request for its resources in any order exactly when its origin is known and the validators that were sent are its own and say something, and then with its own snapshot |

## Left out

- The engines: schema text, integrity and migration history checks, isolation levels, locks, and the text of the emitted statements.
- Operating system details: permissions, links, file locks, synchronisation of directories. Writes are ordered, creation is exclusive, and replacement and index commits are atomic.
- The HTTP server, its routing, authentication by token comparison, and the JSON views of missions; a response keeps only identifiers and states. A credential is its identity and epoch.
- Field-level parsing of requests (unknown fields, identifier shapes, base64); typed values stand for decoded ones.
- Audit timestamps: an event has no time, so an invalid clock refuses only creations and claims in the model, while in the program it refuses every transaction that writes an event.
- Credential files of workers: issuing a credential is only the new epoch.
- `Transactions.CleanText`: blank characters are listed by code point; no other text normalisation is modelled.
- `Snapshots.NonBlank`: knows the plain blank characters only.
- `SecretWalk.FoldKey`: folds plain letters and digits; other characters are dropped, while the program folds their case too.
- `Backup.CreateBackup`: the destination is always new; its refusal of an existing or unsafe destination is not modelled.
- `Restore.RestoreBackup`: backups of the current schema only, and the backup does not change while it is restored.
- `Retry.ExecuteSource`: exceptions that are not ordinary, such as an interruption from the keyboard, end the program and are not modelled; times are exact numbers, so rounding is not.
- `RetryAfter.ServerDelay`: the three textual date forms are given as parsed values.
- `Checkpoints.Archive.Load`: a file holds the beginning of some document; a file changed from outside into something else is not modelled.
- `Checkpoints.Archive.Save`: one writer at a time, as its lock demands; removing a pending file does not fail.
- `ManualRuns.RunManual`: the executor answers with an observation that fits the task, or with nothing; `Retry.ExecuteSource` says what goes on inside. The callback for each event is not modelled.
- `Imports.AcceptSameIff`: values that only a database engine refuses, such as a zero character or a form of time that it cannot read, are not modelled.
- `Ingestion.Ingest`: one run at a time on a database; rows that others add to its tables are not modelled.
- `Worker.After`: one backend, so a journal of another backend is not distinguished; a journal too large to save stops the run like any failed save.
- Validated caches: the parsing of single fields and the copying of documents; the fields that a source prescribes for its selections are one parameter.
- Provider adapters, source probes, the registry of sources, benchmarks, isolation verification and the web page: normalisation and observation without a property that spans operations.
