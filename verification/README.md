# Proofs about FounderOS and Atlas

This project models the parts of the repository that keep state over long runs,
and proves what their design promises. Each part is modelled in the form its code
has: stores and services are classes whose methods change fields step by step, and
each method is proved to do what a function on values says; what the design
promises is then proved about those functions, over every history of operations.

| files | what they model |
|---|---|
| `Runtime`, `RuntimeEvents`, `RuntimeRuns`, `RuntimeHistory`, `RuntimeEffects`, `RuntimeStore` | the event-sourced project aggregate: repositories, guarded transitions, run lifecycles, evidence records |
| `LocalDisk`, `LocalSaving`, `LocalStore`, `LocalCrash` | the local store: snapshot formats, load, save, backup and recovery, cut off between any two file operations |
| `CommandBodies`, `Commands`, `CommandHistory` | commands as sequences of service calls, and keyed commands over the local store with several calls under way at once |
| `Schedules`, `SchedulePass`, `ScheduleHistory`, `ScheduleRetention`, `ScheduleEffects`, `ScheduleStore` | durable schedules: recurrence, claims, leases, retries, retention |
| `Ordering` | dependency detection and the recommended order of planned changes |
| `Lifecycle`, `PlanHistory`, `PlanEffects` | the change plan lifecycle and the evidence it asks for |
| `Closure` | the dependency closure work list |
| `Identity`, `Annotations`, `Bulk`, `BulkConvergence`, `BulkEffects` | scoped change annotations, their audit log, and bulk triage |
| `RateLimit` | the fixed-window rate limiter |

A crash is a return of the method that was running: between any two file steps the
methods of `LocalProjectStore` may stop. Concurrency of calls is a history of steps
over the same disk. Failing audit appends, colliding identifiers and failing schema
validation are inputs or free choices, so every rollback branch is covered; where a
call validates a record and its event at different times, each has its own input, and
a failing agent run, whose call validates two events, takes the correlation identifier
they are built from.

## What turned out not to hold

The code is modelled as it is. These expectations fail, and each is settled by a
lemma that says exactly when the code meets it or shows the input on which it fails.

- A pass that keeps the last 1000 runs can cut off a run that is still claimed, and
  the catalog can then never be read again: `SchedulePass.PassIsUnreadableIff` says
  when, in terms of the catalog the pass is called on,
  `ScheduleRetention.PassCanTrimClaimed` gives a history that gets there, and
  `ScheduleHistory.RetentionDecides` what follows.
- A paused schedule is enabled again when a run it still holds ends as failed with
  retries left, whether the run is reported failed or its lease is found expired by a
  pass; nothing else enables it: `ScheduleHistory.PausedStaysUnlessRetried`.
- Recovery makes store revisions repeat. A call that was loaded before a recovery can
  be saved after it over a commit it never saw: `CommandHistory.SaveKeepsCommitsIff`,
  `CommandHistory.RecoveryCanLoseUpdate`. Without such calls nothing is lost:
  `CommandHistory.CommittedStays`.
- A crash between the events and the state can leave a primary that loads with old
  records and new events: `LocalSaving.OldStateNewEvents` says when,
  `LocalCrash.CrashLeavesNewEvents` that any stored project can get there.
- A lifecycle event may name a project that does not exist; a project created later
  under that identifier cannot be replayed. It is the only way to break replay:
  `RuntimeHistory.HistoryReplaysIff`, `RuntimeHistory.PhantomStreamBreaksReplay`.
- The failure of an agent run is stored before its workflow run is ended. The second
  step is refused when the run names an old revision of its workflow run, when the
  correlation identifier of the call is longer than 191 characters, so that it does not
  fit the event contract with what the cascade adds, or when the new event's identifier
  collides; an exhausted run is then left in an open workflow run. A run that names an
  old revision is refused on every failure, also with attempts left.
  `RuntimeRuns.FailureIsCascadedIff`, `RuntimeHistory.HistorySettlesIff`,
  `RuntimeHistory.PinnedReferenceStopsCascade`,
  `RuntimeHistory.LongCorrelationStopsCascade`.
- Taking back an annotation uncovers a legacy record that says the same:
  `BulkConvergence.ConvergesIff`, `BulkConvergence.TwinComesBack`. The single-row
  writes of the annotation store are not undone when the log cannot be written:
  `Annotations.UnloggedSetAgreesIff`.
- Readiness can be withdrawn during review, and the plan approved without it:
  `PlanHistory.ReviewEditKeepsReadinessIff`, `PlanHistory.ApprovedUnprepared`.
- Two upgrades of one device are always reported as a circular dependency:
  `ChangeOrdering.TwoUpgradesAreCircular`.
- A marker that an extra switches off makes the dependency closure depend on the order
  of the work list: `DependencyClosure.SafeMarkerIffMonotone`.

## Model

| member | source | states |
|---|---|---|
| RuntimeHistory.HistoryReplaysIff | src/founderos_runtime/project_state.py:14-155 | over any sequence of service calls, failing or not and with any identifiers, replaying each stored project's stream gives its state, revision and last event at all times, exactly when no project was created under an identifier that had events |
| RuntimeHistory.HistorySettlesIff | src/founderos_runtime/runs.py:158-244 | over any such sequence no exhausted failed run is in an open workflow run at any time, exactly when no cascade was refused for such a run; and attempts stay within the workflow's bound exactly when, besides, none was started beyond it and no workflow was recorded that allows none |
| RuntimeHistory.HistoryKeepsRecords | src/founderos_runtime/state_machine.py:314-417 | after any such sequence stored transitions are guarded and routed, and the correlation caches name stored records |
| RuntimeHistory.StepKeepsEvents | src/founderos_runtime/state_machine.py:130-417 | each single call keeps the replay invariant exactly unless it is such a creation, also when identifiers collide and it is rolled back |
| RuntimeHistory.StepKeepsRuns | src/founderos_runtime/runs.py:44-244 | each single call keeps the run invariant exactly unless it stores a last failure without ending the workflow run |
| RuntimeHistory.HistoryKeepsKeys | src/founderos_runtime/repositories.py:87-105 | projects and runs are always stored under their own identifiers |
| RuntimeHistory.HistoryFollowsRoutes | src/founderos_runtime/state_machine.py:25-92 | while replay is unbroken, the applied transitions in a project's stream are a path of the route table from the initial state to the stored state |
| RuntimeEvents.AppliedNeedsEvidence | src/founderos_runtime/state_machine.py:143-207 | a transition is applied only to an active project at the expected revision and state, with every kind of evidence its route asks for |
| RuntimeEvents.ResultsShape | src/founderos_runtime/state_machine.py:212-229 | the recorded guard results all passed when no guard fails, and otherwise all but the last did |
| RuntimeHistory.TransitCommitsTogether | src/founderos_runtime/state_machine.py:348-417 | a new decision commits record, cache entry, event and project change together |
| RuntimeEffects.AppliedMovesProject | src/founderos_runtime/state_machine.py:374-398 | an applied transition adds behind the completed references exactly those of the command that were not there, in their order and each version once, strikes from the pending kinds exactly those it delivers, moves state, revision, event number and next action on, and changes nothing else of its project and no other project |
| RuntimeEffects.AddedAreSelected | src/founderos_runtime/state_machine.py:384-391 | the completed references afterwards are those before and, behind them in order, exactly the positions of the command that name nothing named before |
| RuntimeEffects.VerdictIs | src/founderos_runtime/state_machine.py:139-210 | a new command is applied exactly when its project is active, at the expected revision and in the expected state, the route is there, and the run, artifacts, evaluations, decisions and human consent it asks for stand, each told from the records; otherwise it is rejected for the first of these that fails |
| RuntimeEffects.DecisionIsLogged | src/founderos_runtime/state_machine.py:314-417 | the event of a decision says what was decided for the route that was asked for, ends the project's stream, and nothing but decisions, the project and its stream is touched |
| RuntimeEffects.CreatedProject | src/founderos_runtime/project_state.py:54-110 | a created project is active, in the initial state, at revision one and empty; its event and it are all that is added |
| RuntimeEffects.UpdatedProject | src/founderos_runtime/project_state.py:115-155 | an update is taken only at the expected revision and changes the next action, if given, and the counters, and appends its event |
| RuntimeHistory.FailedTransitChangesNothing | src/founderos_runtime/state_machine.py:336-345 | a transition call that raises leaves every repository as before |
| RuntimeHistory.RepeatChangesNothing | src/founderos_runtime/state_machine.py:131-135 | once a correlation key is decided, repeating it at any later time returns the same record and changes nothing |
| RuntimeEvents.CreateKeepsReplayIff | src/founderos_runtime/project_state.py:72-113 | creating a project keeps the replay invariant exactly when no event names its identifier yet |
| RuntimeHistory.PhantomStreamBreaksReplay | src/founderos_runtime/lifecycle.py:13-22 | a concrete history in which an event for a missing project makes the later project unreplayable |
| RuntimeRuns.CascadeSettles | src/founderos_runtime/runs.py:222-244 | the cascade is refused exactly for a stale reference or, where the workflow run is owed its end, a correlation identifier that leaves no room for what is added to it or a colliding event identifier; refused, it leaves the store as it was |
| RuntimeRuns.AgentStatusSettles | src/founderos_runtime/runs.py:204-244 | setting an agent status keeps the run invariant exactly unless a last failure is stored and the cascade refused |
| RuntimeRuns.FailureIsCascadedIff | src/founderos_runtime/runs.py:213-244 | a failing call succeeds exactly when the run refers to its workflow run without a revision or by the current one and, if it is exhausted and that run open, the correlation identifier has at most 191 characters and the second event is new; it then ends exactly the exhausted run's open workflow run as failed; otherwise the run is stored failed, the workflow run is untouched, and the invariant breaks exactly when the run was exhausted and its workflow run open |
| RuntimeRuns.RetryKeepsRuns | src/founderos_runtime/runs.py:191-202 | a retry stays within the attempts its workflow allows |
| RuntimeEffects.RetryIsNextAttempt | src/founderos_runtime/runs.py:191-202 | a retry goes through exactly for a retryable failed run whose workflow run still takes agents, and queues the next attempt of the same run of the same project |
| RuntimeEffects.WorkflowRunStarts | src/founderos_runtime/runs.py:110-150 | a workflow run starts exactly for an active project in its entry state, with references that fit, and is queued |
| RuntimeEffects.AgentRunStarts | src/founderos_runtime/runs.py:158-190 | an agent run starts exactly in a workflow run of its project that runs or waits for input, and is queued |
| RuntimeEffects.WorkflowStatusIsStored | src/founderos_runtime/runs.py:44-98 | a status change needs the expected revision and a status that is not final; it alters that run alone and announces it by one event where it starts or ends |
| RuntimeEffects.AgentStatusIsStored | src/founderos_runtime/runs.py:204-224 | the same for an agent run, where a failure also says whether it may be retried |
| RuntimeEffects.ArtifactIsApproved | src/founderos_runtime/lifecycle.py:37-53 | approving an artifact marks that record, moves its revision and appends an event to its project, and nothing else |
| RuntimeEffects.ApprovalIsGranted | src/founderos_runtime/lifecycle.py:81-100 | only a human grants an approval, only a pending one, and once |
| RuntimeEffects.RecordIsNew | src/founderos_runtime/lifecycle.py:26-113 | a new record is stored under an identifier that was unused, with an event of its project, and nothing else is touched |
| RuntimeHistory.PinnedReferenceStopsCascade | src/founderos_runtime/runs.py:204-227 | a history from empty repositories: an agent run pinned to a revision its workflow run has left fails for the last time, the call is refused, the failure is stored, and the workflow run waits on |
| RuntimeHistory.LongCorrelationStopsCascade | src/founderos_runtime/runs.py:228-236 | for every correlation identifier of 192 to 200 characters a history from empty repositories: a run with a sound reference fails for the last time, its own event is accepted, the one that ends the workflow run is not, and the workflow run waits on |
| RuntimeStore.ReplayProjectEvents | src/founderos_runtime/project_state.py:14-44 | the replay loop with its early errors computes the replay that the invariant is stated about |
| RuntimeStore.Runtime.AppendEvent | src/founderos_runtime/repositories.py:138-148 | an event is taken exactly with the next sequence number of its project and a new identifier, and then ends the stream |
| RuntimeStore.Runtime.Create | src/founderos_runtime/project_state.py:54-110 | the stepwise creation with rollback has the proved effect and answer |
| RuntimeStore.Runtime.Update | src/founderos_runtime/project_state.py:115-155 | the stepwise update with rollback has the proved effect and answer |
| RuntimeStore.Runtime.Evaluate | src/founderos_runtime/state_machine.py:139-209 | guards looked at one by one, each only when all before it hold, give the recorded results and the code of the first failure |
| RuntimeStore.Runtime.CheckArtifacts | src/founderos_runtime/state_machine.py:242-251 | collecting approved types and subtracting them decides that every required type has an approved artifact of the project |
| RuntimeStore.Runtime.CheckApprovals | src/founderos_runtime/state_machine.py:273-287 | the loop decides that there is an approval and all are approved, current and human |
| RuntimeStore.Runtime.CommitDecision | src/founderos_runtime/state_machine.py:401-416 | insert, append and replace happen together, or every repository is put back |
| RuntimeStore.Runtime.Transition | src/founderos_runtime/state_machine.py:130-210 | a transition call, step by step, decides and changes what the two theorems on verdict and effect say |
| RuntimeStore.AddRefsIsUnion | src/founderos_runtime/state_machine.py:384-391 | completed references keep their place, gain every asked key, and gain no key twice |
| RuntimeStore.Runtime.SetAgentRunStatus | src/founderos_runtime/runs.py:204-244 | status change and cascade as two separate commits have the proved effect |
| RuntimeStore.Runtime.SetWorkflowRunStatus | src/founderos_runtime/runs.py:44-98 | a status change with its event is committed together, or put back |
| RuntimeStore.Runtime.Record | src/founderos_runtime/lifecycle.py:17-113 | the record is validated and written first, and stays when its event is then not valid or cannot be appended |
| LocalDisk.MigrateIff | src/founderos_runtime/local_store.py:310-336 | exactly the snapshots of format 0 to 2 with readable fields migrate; they keep what they hold and get defaults for the rest |
| LocalDisk.MigrateIdempotent | src/founderos_runtime/local_store.py:310-336 | migrating a migrated snapshot changes nothing |
| LocalDisk.LoadedIsWellFormed | src/founderos_runtime/local_store.py:103-111 | a load gives a runtime that can be saved, and records, revision and journal are what the state file says |
| LocalSaving.WrittenLoads | src/founderos_runtime/local_store.py:128-158 | once contents, events and state are written the directory loads as what was saved, one revision on, whatever other contents lie about |
| LocalSaving.SaveLoadRoundTrip | src/founderos_runtime/local_store.py:113-158 | after a save the next load gives the same records, event order, contents and journal, and the backup is the directory before |
| LocalSaving.SaveIsCrashSafe | src/founderos_runtime/local_store.py:113-158 | at every crash point the primary loads with records and journal of this revision or the next, or the backup loads as what was stored |
| LocalSaving.FirstSaveIsCrashSafe | src/founderos_runtime/local_store.py:113-158 | a first save that is cut off leaves no project or the whole one |
| LocalSaving.SaveMovesState | src/founderos_runtime/local_store.py:143-154 | the next revision of the state file appears only where everything that belongs to it is in place |
| LocalSaving.BackupIsGuarded | src/founderos_runtime/local_store.py:344-358 | a backup goes only while the primary loads, and is replaced only by a copy of it |
| LocalSaving.AtMostOneSaves | src/founderos_runtime/local_store.py:118-124 | of two runtimes at the same revision the second is refused and changes nothing |
| LocalSaving.OldStateNewEvents | src/founderos_runtime/local_store.py:143-154 | a save cut off between events and state leaves a directory that loads exactly when the new events replay to the old state and revision and no recorded artifact was given new content; it then has the old records |
| LocalCrash.CrashLeavesNewEvents | src/founderos_runtime/local_store.py:143-154 | from any stored project, a save that adds one evaluation and is cut off there leaves a directory that loads with the old records and one event more |
| LocalSaving.QuietEventReplaysSame | src/founderos_runtime/project_state.py:18-41 | an event of a kind that replay skips does not change what a stream replays to |
| LocalSaving.RecoverIsRestartable | src/founderos_runtime/local_store.py:218-240 | recovery keeps the backup at every crash point, gives up exactly when no backup loads, and ends with the primary loading as the backup |
| LocalStoring.MigrateSnapshot | src/founderos_runtime/local_store.py:310-336 | the migration loop ends and computes the migration |
| LocalStoring.LocalProjectStore.CreateBackup | src/founderos_runtime/local_store.py:344-358 | copy, delete and rename, file by file, end in the outcomes above |
| LocalStoring.LocalProjectStore.Save | src/founderos_runtime/local_store.py:113-158 | saving file by file, stopped anywhere, leaves only the disks the crash theorems speak of |
| LocalStoring.LocalProjectStore.Recover | src/founderos_runtime/local_store.py:218-240 | recovering file by file, stopped anywhere, leaves only the disks the recovery theorem speaks of |
| Commands.JournalIsLog | src/founderos_runtime/application.py:190-209 | a key is in the journal exactly when one commit of the chain that made the records carried it, with that commit's result |
| Commands.StepKeepsInv | src/founderos_runtime/application.py:59-83 | every start, save and recovery, crashed or not, keeps the store explained by its commits, whatever service calls the commands make |
| CommandBodies.PerformKeepsOrder | src/founderos_runtime/founder_setup.py:105-151 | any sequence of service calls on a loaded project that ends with one project keeps replay, streams and artifact contents in order |
| CommandBodies.PerformPasses | src/founderos_runtime/founder_setup.py:105-151 | a body that is performed passes through one store after another, each the former with exactly the next service call, which returned, and each content put under an address not used before |
| CommandBodies.PassesPerform | src/founderos_runtime/founder_setup.py:105-151 | and whatever passes through such stores is what the body performs |
| CommandBodies.ProducedFits | src/founderos_runtime/founder_setup.py:125-138 | content put under a new address with the artifact made for it fits, and every other artifact still does |
| Commands.ExecuteIsWellFormed | src/founderos_runtime/application.py:24-42 | so a command leaves a runtime that can be saved and loaded, or one with several projects that is refused |
| Commands.ExecutedIsServed | src/founderos_runtime/application.py:59-83 | what a command leaves is the last of the stores its service calls pass through from what was loaded, with the contents they made; the journal gains its key and result and nothing else |
| Commands.SavedOverItsLog | src/founderos_runtime/local_store.py:118-124 | a call saves only over as many commits as it was started from |
| Commands.RemnantLoadsSame | src/founderos_runtime/local_store.py:356-358 | a half-deleted backup that still loads, loads as the whole one |
| CommandHistory.ExactlyOnce | src/founderos_runtime/application.py:59-83 | over any interleaving of calls, crashes and recoveries the stored records are the fold of the service calls of all commits, each from the records the one before it left; a key is in the journal exactly when its commit is one of them |
| CommandHistory.CommitIsStored | src/founderos_runtime/application.py:80-83 | a save that goes through leaves a store that loads as what the service calls of its command made |
| CommandHistory.NewCallIsServed | src/founderos_runtime/application.py:59-83 | a call with a key that is not journalled makes all its service calls on what was loaded |
| CommandHistory.StoredProjectExists | src/founderos_runtime/founder_setup.py:105-151 | such histories exist: a project set up by one command and saved is a store they can begin with |
| CommandHistory.NeverLostForGood | src/founderos_runtime/local_store.py:218-240 | a stored project always loads or can be recovered, and a recovery undoes at most one commit |
| CommandHistory.RetryIsAnswered | src/founderos_runtime/application.py:190-202 | a call with a journalled key is answered from the journal, or refused for another operation, and changes nothing |
| CommandHistory.SaveKeepsCommitsIff | src/founderos_runtime/local_store.py:118-124 | a save that goes through keeps a stored key exactly when the call had loaded it or carried it itself |
| CommandHistory.CommittedStays | src/founderos_runtime/local_store.py:118-124 | when recovery never runs under open calls, commits stay until the next recovery |
| CommandHistory.RetryReturnsSame | src/founderos_runtime/application.py:190-209 | every later retry of a committed call then returns its result and commits nothing |
| CommandHistory.RecoveryCanLoseUpdate | src/founderos_runtime/local_store.py:218-240 | from any stored project, a history in which a commit vanishes without a recovery after it |
| Schedules.NextOnGridIsLeast | src/founderos_atlas/scheduling.py:1035-1042 | the next run is the least grid point after the moment |
| Schedules.NextCandidate | src/founderos_atlas/scheduling.py:1037-1041 | the loop over candidates finds that grid point |
| ScheduleEffects.TerminalCloses | src/founderos_atlas/scheduling.py:992-1021 | an attempt that failed with retries left is followed by the next attempt of the same occurrence, due at the whole second of now plus the retry delay in minutes; any other is the last of its occurrence |
| ScheduleEffects.AdvanceMovesOn | src/founderos_atlas/scheduling.py:1024-1061 | after an occurrence a one-time schedule is disabled, an interval one is due at the least point of its grid after now, a daily one at the instant its time resolves to; only what belongs to the lease, the outcome and the retry changes besides |
| ScheduleEffects.CompleteReports | src/founderos_atlas/scheduling.py:767-827 | a report gives a claimed run its status and the second it ended, moves its schedule on as above, and changes nothing else; a run already ended is answered as it is |
| ScheduleEffects.ClaimDuePasses | src/founderos_atlas/scheduling.py:503-651 | a pass leaves every schedule as its own fields and the runs before the pass say: held, expired and retried, misfired, reconciled or launched; the runs are those before, expired ones failed, then the launched ones in order, cut to the last 1000 |
| ScheduleEffects.RenewalExtends | src/founderos_atlas/scheduling.py:653-765 | renewing or attaching moves the lease of the claimed run the worker holds to now plus the seconds asked for, at least half a minute, and sets the job, and nothing else |
| ScheduleEffects.RefusedIsHeldByOther | src/founderos_atlas/scheduling.py:715-765 | a renewal is refused only when no schedule holds the run for the worker |
| ScheduleEffects.SettingToggles | src/founderos_atlas/scheduling.py:461-501 | enabling or disabling changes that flag of the one schedule and the two revisions |
| Schedules.ClaimedIffActive | src/founderos_atlas/scheduling.py:308-326 | a run is claimed exactly when it is the active run of its schedule |
| Schedules.OneClaimPerSchedule | src/founderos_atlas/scheduling.py:308-326 | at most one run of a schedule is claimed |
| Schedules.ActiveRunIsClaimed | src/founderos_atlas/scheduling.py:534-575 | an active run is there and claimed, so the branch that repairs a stale lease is never taken |
| Schedules.CompleteMovesHolder | src/founderos_atlas/scheduling.py:799-817 | completing moves exactly the schedule that holds the run, so the branch for late results is never taken |
| Schedules.ClaimDueKeepsInv | src/founderos_atlas/scheduling.py:503-651 | a claiming pass keeps the strengthened catalog invariant exactly when it trims no claimed run |
| SchedulePass.PassIsUnreadableIff | src/founderos_atlas/scheduling.py:525-650 | a pass makes the catalog unreadable exactly when it touches a schedule and, by what the catalog held before, launches more than 1000 runs or pushes out a claimed run whose lease is live |
| Schedules.TrimmedIsReadable | src/founderos_atlas/scheduling.py:646-650 | the trimmed catalog can be read again exactly when no claimed run was cut off |
| Schedules.CompleteKeepsInv | src/founderos_atlas/scheduling.py:767-827 | completing a run keeps the invariant |
| Schedules.AttachKeepsInv | src/founderos_atlas/scheduling.py:653-765 | attaching a job and renewing a lease keep the invariant |
| Schedules.SetEnabledKeepsInv | src/founderos_atlas/scheduling.py:461-501 | pausing and resuming keep the invariant |
| ScheduleHistory.HistoryIsOk | src/founderos_atlas/scheduling.py:503-827 | over any history with a clock that does not go back, every schedule follows its grid and its launches, as long as the catalog can be read |
| ScheduleHistory.NeverLaunchedTwice | src/founderos_atlas/scheduling.py:598-645 | each launch of a recurring schedule is due strictly later than all its launches before |
| ScheduleHistory.RetainedIsNotRelaunched | src/founderos_atlas/scheduling.py:598-645 | no pass launches an occurrence whose run is still in the catalog, whatever the recurrence |
| ScheduleHistory.NoDuplicate | src/founderos_atlas/scheduling.py:600-623 | for recurring schedules the branch that reconciles a duplicate is never taken |
| ScheduleHistory.CadenceIsKept | src/founderos_atlas/scheduling.py:1001-1045 | every launched occurrence of an interval schedule lies on the grid of its first run |
| ScheduleHistory.RetriesAreBounded | src/founderos_atlas/scheduling.py:1001-1020 | one occurrence of a recurring schedule is launched at most `max_retries + 1` times |
| ScheduleHistory.RetentionDecides | src/founderos_atlas/scheduling.py:646-650 | the catalog has the invariant at every time until a pass trims a claimed run, and after that can never be changed again |
| ScheduleHistory.EndedRunsNeverChange | src/founderos_atlas/scheduling.py:767-827 | a run that has ended is never rewritten |
| ScheduleHistory.LiveLeaseIsSafe | src/founderos_atlas/scheduling.py:525-582 | a pass touches neither a schedule with a live lease nor its run |
| ScheduleHistory.PausedStaysUnlessRetried | src/founderos_atlas/scheduling.py:534-567 | under any operation but its being enabled a paused schedule stays paused exactly unless the operation ends a run it still holds as failed, by report or by an expired lease, with retries left |
| ScheduleHistory.PausedIdleStays | src/founderos_atlas/scheduling.py:576-582 | a schedule paused while it holds no run stays paused until it is enabled |
| ScheduleRetention.PassCanTrimClaimed | src/founderos_atlas/scheduling.py:646-650 | a history in which a pass trims a run that is still claimed, after which the catalog cannot be read |
| ScheduleStoring.ScheduleStore.ClaimDue | src/founderos_atlas/scheduling.py:503-651 | the claiming loop writes the proved catalog and returns the launched runs, with the effect told from the catalog before it |
| ScheduleStoring.ScheduleStore.CreateSchedule | src/founderos_atlas/scheduling.py:406-459 | a schedule is added exactly when its settings and the catalog are valid, enabled and due at the whole second of its first run |
| ScheduleStoring.ScheduleStore.SetEnabled | src/founderos_atlas/scheduling.py:461-501 | only the enabled flag and the revision of that schedule change, or the call is refused |
| ScheduleStoring.ScheduleStore.AttachJob | src/founderos_atlas/scheduling.py:653-713 | only the worker that holds the lease of a claimed run attaches a job and renews the lease; anyone else is refused and changes nothing |
| ScheduleStoring.ScheduleStore.RenewLease | src/founderos_atlas/scheduling.py:715-765 | only the holder of a claimed run renews its lease, and anyone is refused only when not the holder |
| ScheduleStoring.ScheduleStore.CompleteRun | src/founderos_atlas/scheduling.py:767-827 | completing writes the proved catalog and returns the run with its status and the second it ended, answers a run already ended as it is, and refuses the rest |
| ChangeOrdering.PicksArePermutation | src/founderos_atlas/compass/engine.py:350-423 | the order contains each change exactly once |
| ChangeOrdering.AcyclicIsRespected | src/founderos_atlas/compass/engine.py:354-371 | without a cycle every dependency's before-step precedes its after-step |
| ChangeOrdering.BrokenIffCyclic | src/founderos_atlas/compass/engine.py:359-370 | a cycle is broken exactly when the dependencies have one |
| ChangeOrdering.ViolationOnlyAtBreak | src/founderos_atlas/compass/engine.py:354-371 | a dependency is violated only by a step that was emitted as a reported cycle break |
| ChangeOrdering.OrderIsLeast | src/founderos_atlas/compass/engine.py:340-371 | among the orders that respect the dependencies the recommended one is least under the sort key, position by position |
| ChangeOrdering.ArrangementIsIrrelevant | src/founderos_atlas/compass/engine.py:322-348 | rearranging or repeating changes, analyses or dependencies changes nothing |
| ChangeOrdering.TwoUpgradesAreCircular | src/founderos_atlas/compass/engine.py:198-218 | two upgrades of one device always make a cycle |
| ChangeOrdering.KeyOrder | src/founderos_atlas/compass/engine.py:340-348 | the sort key orders different changes totally |
| ChangeOrdering.PresentedRecommends | src/founderos_atlas/compass/engine.py:332-424 | told from changes and analyses: each step waits for everything it depends on unless all that are left wait for each other; before every later one that could have run in its place it is the one with the small blast, then the lower risk, then the fewer devices, then the earlier title and identifier; exactly the large blasts are flagged |
| ChangeOrdering.StringLessIff | src/founderos_atlas/compass/engine.py:340-348 | titles and identifiers are compared in dictionary order |
| ChangeOrdering.EvidentMeans | src/founderos_atlas/compass/engine.py:173-218 | a change waits for another exactly when its blast holds that one's device, or it upgrades the device both work on |
| ChangeOrdering.RecommendOrder | src/founderos_atlas/compass/engine.py:307-424 | the loop that shrinks the remaining changes gives the proved order, safest first in terms of blast, risk, title and identifier, and reports exactly the breaks |
| ChangeOrdering.DetectDependencies | src/founderos_atlas/compass/engine.py:168-227 | the detected dependencies are exactly the pairs with evidence in blast or upgrade, each once |
| ChangeOrdering.AnalysePlan | src/founderos_atlas/compass/engine.py:168-424 | detection and ordering together give that order and report a circular dependency exactly when there is one |
| PlanLifecycle.ValidateOrder | src/founderos_atlas/compass/lifecycle.py:72-96 | the two loops list the problems of an order |
| PlanLifecycle.NoProblemsIff | src/founderos_atlas/compass/lifecycle.py:72-96 | there are none exactly when everything a change needs is in the plan and runs before it or in its group |
| PlanLifecycle.ChangeCheckpoints | src/founderos_atlas/compass/lifecycle.py:367-375 | the loop over the log gives the latest mark of each change |
| PlanHistory.HistoryIsOk | src/founderos_atlas/compass/lifecycle.py:242-452 | over any history, plans in review or beyond have a valid order, approved ones were approved, and finished ones have the evidence for it |
| PlanHistory.CompleteIff | src/founderos_atlas/compass/lifecycle.py:378-415 | a plan completes exactly when it runs, every change's latest mark is done or skipped, and every post-check passed |
| PlanHistory.MarkIsLatest | src/founderos_atlas/compass/lifecycle.py:367-375 | the mark of a change is the last one logged for it |
| PlanHistory.LogOnlyGrows | src/founderos_atlas/compass/lifecycle.py:284-289 | the execution log of a later plan extends that of an earlier one |
| PlanHistory.FinishedIsFinal | src/founderos_atlas/compass/lifecycle.py:441-452 | a completed, rolled-back or cancelled plan never changes again |
| PlanHistory.ChangesAreFrozen | src/founderos_atlas/compass/lifecycle.py:99-154 | from review on no operation touches the changes |
| PlanHistory.ReorderIsUndone | src/founderos_atlas/compass/lifecycle.py:99-122 | a move permutes the changes, and moving back undoes it exactly when the former order is valid |
| PlanHistory.ReviewEditKeepsReadinessIff | src/founderos_atlas/compass/lifecycle.py:159-217 | an edit during review keeps a plan prepared exactly when no field is blank |
| PlanHistory.ApprovedUnprepared | src/founderos_atlas/compass/lifecycle.py:242-272 | a history that approves a plan without rollback plan and checks |
| PlanEffects.StartsIff | src/founderos_atlas/compass/lifecycle.py:326-343 | execution starts exactly from a scheduled plan whose pre-checks have all passed |
| PlanEffects.CheckIsNoted | src/founderos_atlas/compass/lifecycle.py:292-323 | a check is noted exactly while the plan runs or, before, for pre-checks; the named one gets the outcome, all others stay |
| PlanEffects.SubmitsIff | src/founderos_atlas/compass/lifecycle.py:220-248 | review is asked for exactly with changes in a valid order, a rollback plan, criteria and both kinds of checks |
| PlanEffects.DecidesIff | src/founderos_atlas/compass/lifecycle.py:251-266 | a review is decided once, a refusal needs a reason and makes the plan a draft again |
| PlanEffects.SchedulesIff | src/founderos_atlas/compass/lifecycle.py:269-281 | an approved plan is scheduled exactly for a window that begins before it ends |
| PlanEffects.MarksIff | src/founderos_atlas/compass/lifecycle.py:346-364 | a mark is logged exactly for a change of a running plan, with a note where it failed |
| PlanEffects.EndsIff | src/founderos_atlas/compass/lifecycle.py:418-452 | when a plan can fail, be rolled back or be cancelled, and what that logs |
| PlanEffects.DependenciesAreSet | src/founderos_atlas/compass/lifecycle.py:125-156 | edited dependencies are the stripped, non-blank ones other than the change itself; the order stays valid and no other change is touched |
| PlanEffects.ReorderMoves | src/founderos_atlas/compass/lifecycle.py:99-122 | a move exchanges the change with its neighbour on the side asked for |
| PlanEffects.ReadinessIsSet | src/founderos_atlas/compass/lifecycle.py:159-217 | an edit replaces exactly the fields given; new checks are the non-blank ones and pending |
| DependencyClosure.ClosureIsLeast | scripts/compliance_core.py:213-298 | the closure is closed under the allowed dependencies of pinned members, and the least set that is |
| DependencyClosure.AnyOrderFindsClosure | scripts/compliance_core.py:241-298 | in whatever order the queue is emptied the members are those of the closure and the problems are its broken packages |
| DependencyClosure.OrdersAgree | scripts/compliance_core.py:241-298 | two orders agree on members, platforms, parents and the packages that are blamed |
| DependencyClosure.PopDecreases | scripts/compliance_core.py:265-290 | each turn leaves fewer unexpanded pairs, or as many and a shorter queue |
| DependencyClosure.EmptyIsClosure | scripts/compliance_core.py:241-298 | an emptied queue never holds more than the closure, and all of it for safe markers |
| DependencyClosure.SafeMarkerIffMonotone | scripts/compliance_core.py:203-210 | a marker keeps the result independent of the order exactly when no extra switches it off |
| DependencyClosure.SwitchedOffMarkerMisses | scripts/compliance_core.py:241-290 | with such a marker the order the code uses misses a member |
| DependencyClosure.PositiveMarkersAreSafe | scripts/compliance_core.py:203-210 | markers that only ask for named extras are safe |
| DependencyClosure.NormalizeIdempotent | scripts/compliance_core.py:119-126 | normalizing a normalized name changes nothing |
| DependencyClosure.NormalizedIsCanonical | scripts/compliance_core.py:119-126 | a normalized name has no capital letter, no underscore, no dot and no two dashes in a row |
| DependencyClosure.CanonicalIsKept | scripts/compliance_core.py:119-126 | a name that has none of these is left as it is |
| DependencyClosure.NormalizeIffAlike | scripts/compliance_core.py:119-126 | two names are normalized alike exactly when they differ only in the case of letters and in which separators, and how many, stand in each run |
| DependencyClosure.Resolve | scripts/compliance_core.py:213-298 | the work list loop ends; what it returns describes requests of the closure, and all of them when the markers are safe, with every root that spells a pin in its own way under that pin and its version; or it names the broken packages among them, truthfully |
| ChangeIdentity.SubjectReadsBackIff | src/founderos_atlas/change/identity.py:60-90 | a scoped subject reads back as its scope and digest exactly when the digest is not empty and has no colon |
| ChangeIdentity.SubjectsAreDistinct | src/founderos_atlas/change/identity.py:75-90 | scoped subjects with the same scope and digest are the same |
| ChangeIdentity.LegacyIsNeverScoped | src/founderos_atlas/change/identity.py:100-105 | a legacy subject never reads as a scoped one |
| ChangeIdentity.StripKeepsTrimmed | src/founderos_atlas/change/identity.py:63-66 | stripping leaves exactly the trimmed texts as they are |
| ChangeIdentity.StripCutsSpace | src/founderos_atlas/change/identity.py:63-66 | what is stripped is white space on both sides and nothing else |
| Annotations.LogAlwaysAgrees | src/founderos_atlas/audit/annotations.py:138-258 | whichever batches fail, replaying the audit log gives the annotations, and each event carries the record it found |
| Annotations.SetAllWrites | src/founderos_atlas/audit/annotations.py:138-185 | a batch of sets writes exactly its subjects and logs one event each, in order, as a set with the record that was there |
| Annotations.ClearAllWrites | src/founderos_atlas/audit/annotations.py:187-236 | a batch of clears removes exactly its subjects and logs what was there as a clear |
| Annotations.UnloggedSetAgreesIff | src/founderos_atlas/audit/annotations.py:91-123 | a single set whose log append fails leaves log and annotations in agreement only if nothing changed |
| Annotations.UnloggedClearDisagrees | src/founderos_atlas/audit/annotations.py:260-283 | a single clear whose log append fails leaves them in disagreement |
| Annotations.AnnotationStore.SetMany | src/founderos_atlas/audit/annotations.py:138-185 | a batch is written and logged as a whole, or undone |
| Annotations.AnnotationStore.SetSingle | src/founderos_atlas/audit/annotations.py:91-123 | a single set stays written when its event cannot be logged |
| Annotations.AnnotationStore.ClearSingle | src/founderos_atlas/audit/annotations.py:260-283 | a single clear of a missing record is refused; of a present one it stays cleared when its event cannot be logged |
| Annotations.AnnotationStore.ClearMany | src/founderos_atlas/audit/annotations.py:187-236 | a batch of clears is written and logged as a whole, or undone |
| BulkTriage.Classify | src/founderos_atlas/change/bulk.py:128-204 | the loop gives one entry for each requested subject |
| BulkTriage.DedupeIsDistinct | src/founderos_atlas/change/bulk.py:63-69 | the subjects acted on are the trimmed, non-empty ones requested, each once |
| BulkTriage.Execute | src/founderos_atlas/change/bulk.py:220-283 | the blocks are carried out in order, and a block that cannot be logged is undone and ends the batch |
| BulkConvergence.CarriedOutWrites | src/founderos_atlas/change/bulk.py:239-279 | exactly the updated subjects are written, with one audit event each |
| BulkEffects.UpdatedIffNeeded | src/founderos_atlas/change/bulk.py:149-198 | a subject of the page is updated exactly when what is asked for does not hold of the record shown for it, and the operator is told which case it was |
| BulkEffects.ActionTakesEffect | src/founderos_atlas/change/bulk.py:128-283 | after a batch every requested subject of the page has what was asked for, whatever was there before |
| BulkConvergence.AtMostTwoBlocks | src/founderos_atlas/change/bulk.py:239-279 | a batch logs at most two blocks |
| BulkConvergence.CarriedOutAgrees | src/founderos_atlas/change/bulk.py:220-283 | however many blocks succeed, log and annotations agree |
| BulkConvergence.OnlyUpdatesAreWritten | src/founderos_atlas/change/identity.py:108-129 | however many blocks succeed, legacy records, absent subjects, other scopes and other kinds are never written |
| BulkConvergence.ConvergesIff | src/founderos_atlas/change/bulk.py:128-283 | classifying again finds nothing to do exactly when nothing written was untrimmed and no cleared record had an asserting legacy twin |
| BulkConvergence.SecondRoundConverges | src/founderos_atlas/change/bulk.py:157-166 | taking back twice always converges |
| BulkConvergence.TwinComesBack | src/founderos_atlas/change/identity.py:124-129 | a change acknowledged before scoping, taken back, acknowledged and taken back again is acknowledged still |
| RateLimiting.PruningIsInvisible | src/founderos_atlas/access/ratelimit.py:48-54 | dropping old counters never changes a count that can still be asked for |
| RateLimiting.WindowSpans | src/founderos_atlas/access/ratelimit.py:39-47 | a moment lies in a window exactly when it lies in its stretch of seconds from the epoch |
| RateLimiting.PassedInWindow | src/founderos_atlas/access/ratelimit.py:39-55 | in each window the calls up to the limit pass and no more |
| RateLimiting.TwiceTheLimit | src/founderos_atlas/access/ratelimit.py:39-55 | in any interval of the window's length at most twice the limit pass |
| RateLimiting.TwiceTheLimitIsReached | src/founderos_atlas/access/ratelimit.py:39-55 | for every limit there are calls for which exactly that many pass |
| RateLimiting.RateLimiter.Allow | src/founderos_atlas/access/ratelimit.py:39-55 | pruning one by one and counting is the step the history theorems are about |

## Left out

- Schema validation is a yes-or-no input for each time an operation validates; field contents beyond those named in the model are not represented.
- The record and event that end a workflow run repeat stored and validated contents, apart from what the cascade fills in itself: the length of the correlation identifier is the only thing in them that can be refused.
- Names, texts, actors, timestamps and prose fields of records are left out where no branch reads them.
- Agent definitions and the references to them; references of a foreign record kind in a transition command.
- Correlation caches are not persisted by the code; after a load the model starts with empty ones as well.
- RuntimeStore.Runtime.StartAgentRun: the project reference of an agent run is an identifier without version or revision.
- Direct repository calls that bypass the services.
- Identifiers made by the process are inputs: they may collide in the runtime, and are fresh for runs, schedules and checks, where the code draws 128 or 32 random bits.
- File encoding, permissions, disk errors, temporary names of single-file writes, the writer lock and its stale-lock removal: a write of one file is one step, and one process writes at a time.
- JSON numbers: a boolean where an integer is expected counts as 0 or 1, as in the code.
- LocalDisk.LoadedIsWellFormed: does not say why a load fails, only that it does; the order in which damaged files are reported is not modelled.
- Command bodies: any choice of service calls, made from what was loaded; a call that raises ends the command. The only thing taken from the commands themselves is that setting up a project begins by creating it.
- ScheduleStoring.ScheduleStore.CreateSchedule: the checks on name, profile, time zone and daily time are one yes-or-no input.
- Maintenance windows, the audit events of schedule operations, and expected catalog revisions.
- The scheduler worker's tick: a pass is a finite sequence of the store operations modelled here; worker identifiers are not empty.
- Time zones: a daily schedule resolves to some instant after the moment, on a whole second.
- ScheduleHistory.NeverLaunchedTwice: is about recurring schedules; a one-time schedule that is enabled again is held back only while its run is retained, which RetainedIsNotRelaunched states.
- ScheduleHistory.RetriesAreBounded: is about recurring schedules for the same reason.
- Prediction, scores and generated reasons of a change analysis: risk scores and blast sets are inputs, case folding is done on input.
- The text of circular-dependency notices: the set of changes named is modelled.
- Environment markers: boolean combinations of comparisons with the target environment and the selected extra.
- Merging closures of several platforms and partitioning them into runtime and development sets.
- Plan analysis and editing of the change list in the service layer; analysis takes a draft to the analysed status.
- Reviewers, incident references and archiving of plans.
- Unicode white space beyond the Latin-1 range.
- Unknown bulk actions, actor roles and correlation identifiers of batches.
- Annotations of kinds other than the three that changes use; a kind without records is not told apart from a kind that is not there.
- The rate limiter with several window lengths at once: pruning compares window numbers across keys.
- Threads and locks inside one process: each method is one step.
