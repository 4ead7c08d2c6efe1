# Durable execution in memable: a verified model

memable runs workflows whose progress survives crashes. A workflow is an ordinary function that calls
`step`, `suspend`, `timer` and `fan_out`; the engine journals every result in a key-value store, and
after a crash it runs the function again and feeds it the journaled results. Three persistent tables
(steps, workflow metadata, timers) are changed by small atomic transactions, which come from workflow
tasks, signal callers, a timer poller, retention and crash recovery, all at the same time.

This project models that protocol in Dafny 4.11 and proves what it is for: replay preserves meaning,
at most one task writes an instance, no suspension is dead, claims are exclusive, timers are accounted
for, fan-outs are replayed exactly and never deadlock, range scans are prefix sets, and retention
removes exactly what has expired.

## How the model is laid out

| files | what they hold |
|---|---|
| `Storage.dfy`, `Workflows.dfy` | the tables under structured keys and their transactions; workflows as functions from what they were given so far to their next operation, and what a workflow means under a journal |
| `Keys.dfy`, `Database.dfy`, `Retention.dfy` | composite string keys and range scans; the class `Database` that is updated in place under string keys; which instances a retention pass removes |
| `Accounts.dfy` | where errors come from, and which changes of the tables leave them accounted for |
| `Protocol.dfy` | the protocol as a state machine: one transaction or one read is one action, actions of all threads interleave freely, a crash drops the threads and keeps the tables |
| `Ownership.dfy`, `Replay.dfy`, `Errors.dfy`, `Timers.dfy`, `Status.dfy` | the layers of the invariant |
| `Settled.dfy`, `Resumption.dfy` | what running a terminal instance again can execute |
| `Durability.dfy`, `Claims.dfy`, `Recovery.dfy`, `TimerKeys.dfy`, `TimerRows.dfy` | what holds in every reachable state and over every run |
| `Schedules.dfy`, `Counterexamples.dfy`, `LostTimers.dfy`, `FanOutCounterexamples.dfy` | concrete runs that show why results need their conditions |
| `FanOut.dfy`, `FanOutReplay.dfy`, `FanOutProgress.dfy`, `FanOutShared.dfy`, `Collectors.dfy`, `Joining.dfy` | trees of inline children under semaphores, their replay, their progress, why each fan-out has a semaphore of its own, the collectors that join them, and how the two agree |
| `FanOutWorld.dfy`, `FanOutFamilies.dfy` | the protocol with those trees in it: journaled result vectors, and families in retention |
| `Retry.dfy`, `Context.dfy`, `Runs.dfy`, `Engine.dfy` | backoff and the retry loop; the context, a whole task and the engine as objects with methods, each tied to the functions of the protocol |

A workflow is a value of type `History -> Op`: its next operation may depend on everything it was
given in this run, it may go on after an error, and it may run for ever. Step closures, children's
results, the clock and the schedule are arbitrary. A transaction function such as `Storage.ClaimTxn`
is defined once; the state machine takes it as an atomic action and a method of `Database` is proved
to perform it under string keys.

The functions of the state machine follow these places: `PerformEffect` src/context.rs:564-693 and
1043-1080, `ClosurePc` src/context.rs:1085-1169, `SaveTxn` src/context.rs:795-803, `SuspendedTxn`
src/context.rs:607-641 and 676-693, `ResultTxn` and `AnnounceState` src/engine/execution.rs:47-99,
`SignalTxn` and `ClaimOutcome` src/engine/execution.rs:141-210, `Fed` src/context.rs:1054-1077, `Explains` src/context.rs:1119-1158, `PollEffect`
src/engine/execution.rs:212-338, `SpawnTxn` src/engine/engine_impl.rs:811-829, `Recoverable`
src/engine/engine_impl.rs:221-254, `CanStep`, `StepNode` and `WriteOf` src/engine/fan_out.rs:44-120
and src/context.rs:1350-1393, `PollRow` src/engine/execution.rs:216-257, `DelayFor` src/retry.rs:103-112.

## Assumptions

- An instance id is invoked once, and ids are unique across workflows (they are generated). `resume`
  is called only when no task of the instance exists or is about to be spawned; the code does not check.
- Recovery in `start` ends before anything else happens: `start` borrows the engine exclusively, and the
  poller sleeps for a second first.
- Inline fan-out children contain steps, statuses and nested fan-outs only. An aborted child stops at once;
  in the code abort takes effect at the child's next await, so that a write under way can still land after
  the fan-out has given up.
- The error of a step is its cause, the text that is journaled; the wrapping text with the key, and the number
  of attempts, are left off. The record of a child carries its wrapped message (`Accounts.ChildFailure`).
- Auto-resume lists the ids of inline children as well and would run the parent's function under them.
  `Engines.Engine.Start` says so; the state machine re-runs the parents only.
- Storage and codecs do not fail, and the clock does not go backwards.

## What the proofs found

- A task writes its metadata first and sends its final status afterwards. A signal or resume that gets
  in between starts a run whose status the old task then overwrites, and the new run can complete with
  the old run's message. `Counterexamples.LateStatusReplacesMessage` is such a schedule; the status
  results hold exactly as long as this does not happen.
- A workflow that goes on after a step error can be Completed although the final journal never leads
  it to its end (`Counterexamples.SwallowedErrorLosesMeaning`). Replay preserves meaning for every run
  that was given no error but those that the journal determines (a type mismatch, an illegal timer key,
  a step under a suspended key), so for every workflow that passes errors on. More exactly: if a workflow
  uses no key again after it gave an error, as all do that pass errors on or use no key twice, a Completed
  instance has the output that its workflow denotes under the final journal if and only if that journal
  leaves nothing open, that is, if the workflow, fed from it, comes to no operation that would have to be
  executed or waited for (`Durability.MeaningIsExact`). A journal that leaves something open never leads to
  an end, whatever the workflow (`Replay.OpenMeansNothing`). If a key is tried again after an error, a journal
  that leaves nothing open can lead to another output than that of the run, which remembers the error
  (`Counterexamples.RetriedErrorChangesMeaning`).
- A Failed instance is in the same position: its journal leads to the recorded error if and only if it leaves
  nothing open, and otherwise a resume can execute something again (`Durability.FailureIsExact`;
  `Counterexamples.RetriedErrorIsForgotten` for a key that is tried again). Where errors come from is part
  of the invariant (`Errors.StandingStep`).
- A child that swallows an error gives a successful slot although its journal denotes nothing, without any
  interruption or deletion (`FanOutCounterexamples.SwallowedSlotDenotesNothing`). What a slot holds is always
  what a run came to which the tables bear out; a child that uses no key again after it gave an error denotes
  it if and only if its journal leaves nothing open (`FanOutReplay.ReturnedSlotsDenote`,
  `FanOutWorld.JournaledSlotsDenote`).
- For the same reason resuming a Completed instance is not always a pure replay: a dead letter is
  executed again (`Counterexamples.SwallowedErrorRunsAgain`). A terminal instance that is resumed can
  come to execute something exactly if its workflow, fed from the journal, comes to an open entry
  (`Durability.ResumeExecutesWhatIsOpen`); when no key is used again after it gave an
  error, a Completed one exactly if its last run was given an error that the journal does not determine
  (`Durability.SwallowedErrorsRunAgain`, and `Counterexamples.RetriedErrorOnlyReplays` for a key that is).
- A key that is used twice in one run restores the status of its first use
  (`Counterexamples.ReusedKeyRestoresOldStatus`), and a run can restore a status that only an older run
  set, on a way that this one did not take because a step succeeded this time
  (`Counterexamples.SwallowedErrorRestoresStatus`). What a run shows is always the last status that it
  set or that came with a result it was given (`Durability.ShowsLastStatus`); for workflows that
  pass errors on and use no key twice, that is the last status they set (`Durability.CleanRunShowsWhatItSet`).
- A suspended timer step can be without its row in more ways than one: the poll that removed it was
  skipped, or was cut off, or stopped at an error, or lost the claim to a resume, after which no row is
  left to wake the instance (`LostTimers.ResumeLosesTimer`); and after a restart of the process the
  serial starts at 0 again, so that a new row can replace an old one (`LostTimers.RestartLosesTimer`).
  `Durability.SuspendedTimerHasRow` names all of them. Within one process lifetime, as long as the
  instance is not deleted, a waiting timer step has its row if and only if none of them has happened
  to it (`TimerRows.RowOrLoss`).
- A fan-out whose concurrency is 0 and that has items never does anything
  (`FanOutProgress.ZeroLimitIsStuck`).
- With the largest retry count `max_retries + 1` overflows and the step panics (`Retry.RunClosure`).
- Retention looks at each instance for itself: a finished child of a parent that is still running can
  expire, and its steps go with it (last part of `Retention.LiveInstanceUntouched`). Then the vector
  that the parent collects can hold a value that the child no longer denotes
  (`FanOutCounterexamples.ExpiredSlotDenotesNothing`), and a child step that was Completed runs again when the
  parent is interrupted (`FanOutCounterexamples.ExpiredChildRunsAgain`). This happens only if retention deletes
  the child in between (`FanOutReplay.EntryStaysExactly`, `FanOutReplay.NoChildRunsAgain`).
- With one semaphore for a whole tree of fan-outs, of whatever size, the tree can deadlock
  (`FanOutShared.SharedSemaphoreDeadlocks`); with one for each fan-out, as the code has it, it cannot.

## Model

| member | source | states |
|---|---|---|
| Durability.SingleWriterTheorem | src/engine/execution.rs:141-210 | in every reachable state an instance has at most one thread that can still write its journal or metadata, and only while its metadata is Running |
| Durability.NoDeadSuspension | src/context.rs:676-693 | whatever crash comes in whatever reachable state, a known top-level instance is afterwards Running, terminal, or suspended with a claim on the named key succeeding |
| Durability.InputAndOutputDurable | src/engine/engine_impl.rs:818-829 | the input of an invocation stays in the journal unchanged, and a Completed instance has an output |
| Durability.InputIsDelivered | src/engine/engine_impl.rs:811-829 | the input of an invocation is what every run of the instance is built from, at any later time short of its deletion |
| Durability.RetentionSparesLive | src/engine/retention.rs:62-107 | in every reachable state a retention pass leaves metadata, journal and timers of every Running or Suspended top-level instance alone |
| Durability.ReplayPreservesMeaning | src/context.rs:1043-1170 | a Completed instance whose last run was given no error that the journal does not determine has exactly the output that its workflow denotes under the final journal; only such a run is accounted for by the journal alone |
| Durability.MeaningIsExact | src/context.rs:1072-1130 | for a workflow that uses no key again after it gave an error, the output of a Completed instance is what the workflow denotes under the final journal if and only if that journal, fed to the workflow, leads to no open entry, and so if and only if the last run was given no undetermined error |
| Durability.PropagatingWorkflowMeans | src/engine/workflow.rs:69-74 | a workflow that passes errors on is Completed only with the output that it denotes under the final journal |
| Durability.PropagatingRunIsDetermined | src/engine/workflow.rs:69-74 | a workflow that passes errors on never completes in a run that was given an error |
| Durability.FailedInstanceThrew | src/engine/execution.rs:86-97 | the error of a Failed instance is the one its own workflow ended with, in a run whose values the journal holds and whose errors the tables account for: the journal determines them, or the step has that error in its Failed entry or timed out, or a child of the fan-out panicked or is recorded as failed with it (or was, before retention took the record); if the key was used again later in that run, that failure was at least written once |
| Durability.FailureIsExact | src/context.rs:1072-1130 | for a workflow that uses no key again after it gave an error, the journal of a Failed instance leads the workflow to the recorded error if and only if it leads to no open entry; otherwise, and only then, a resume can execute something |
| Durability.EveryRunSawTheSame | src/context.rs:1054-1070 | every value that any run was ever given for a key is the one that the journal holds now |
| Durability.HistoryIsJournaled | src/context.rs:1054-1070 | what a run was given for a key is the entry of that key in every later state short of deletion |
| Durability.SightingStays | src/engine/retention.rs:124-131 | what runs were given stays on record until retention deletes it |
| Durability.RunsAgree | src/context.rs:1054-1070 | two runs of an instance, one of them any time later, are never given different values for one key |
| Durability.SignalIsDelivered | src/engine/execution.rs:141-210 | after a signal whose claim succeeds the entry of its step holds the payload in every later state short of deletion, every run that was given a value for that step was given the payload, and a run that comes to wait for a value of that type is given it |
| Durability.TimerIsDelivered | src/engine/execution.rs:224-256 | the same of a timer that fires, with unit |
| Durability.NothingRunsAgain | src/context.rs:1054-1080 | once an entry is Completed, no later state short of deletion by retention lets its closure return or its children write |
| Durability.CompletedStaysAlong | src/context.rs:795-803 | a Completed entry is never lost or changed along a run without deletion |
| Durability.CompletedInstanceOnlyReplays | src/engine/engine_impl.rs:334-342 | a Completed instance whose last run was given no undetermined error, run again in any way along any run without deletion, executes nothing, keeps its whole journal, output included, and is Running or Completed |
| Durability.ResumeExecutesWhatIsOpen | src/engine/engine_impl.rs:334-342 | a terminal instance that is run again can come to execute a closure or a fan-out, or to suspend, if and only if its workflow, fed from its journal, comes to an operation whose entry is open |
| Durability.SwallowedErrorsRunAgain | src/context.rs:1072-1080 | when no key is used again after it gave an error, a Completed instance that is run again can come to execute something if and only if its last run was given an error that the journal does not determine |
| Durability.NonInterference | src/context.rs:1048-1051 | an action for one instance changes no step or metadata outside that instance's subtree |
| Durability.ShowsLastStatus | src/context.rs:404-414 | a run shows the last status that it set, or that was stored with a result it was given, if and only if no older run's final status has come in late |
| Durability.CleanRunShowsWhatItSet | src/context.rs:1059-1070 | with distinct keys and errors passed on, that is the last status the workflow set on the way to where it is |
| Durability.CompletedMessage | src/engine/execution.rs:55-67 | the Completed message is the status that the last run set, or was given with a result, last; for distinct keys and errors passed on, the one set last on the history that the final journal leads to |
| Durability.MessageIndependentOfInterruptions | src/engine/execution.rs:55-67 | two schedules that complete an instance with the same journal and no undetermined error give it the same message, however they were interrupted |
| Durability.TimersPolledDueAndOnce | src/engine/execution.rs:264-287 | a row is polled only when its deadline has passed, and no more often than it was set |
| Durability.SuspendedTimerHasRow | src/context.rs:619-626 | a waiting timer step has its row, or a poller holds it, or the log says how it was lost |
| Durability.TimerIsWatched | src/context.rs:607-641 | from the moment a timer is set its step has a row; at any later time short of deletion the step is waiting or completed, and while it waits it has that row, or a poller holds it, or the log says how it was lost |
| Durability.StaleRowIsHarmless | src/engine/execution.rs:236-256 | once the step of a row is completed otherwise, no poll of that row, at any later time short of deletion of the instance, changes a table |
| Durability.InvStep | src/engine/execution.rs:47-338 | every action of every thread keeps all layers of the invariant |
| Ownership.OwnershipStep | src/engine/execution.rs:141-210 | every action keeps single writers, writers only on Running instances, and claimable suspensions |
| Replay.ReplayStep | src/context.rs:1043-1170 | every action keeps running histories borne out by the journal, recorded values unchanged and outputs equal to what workflows returned |
| Replay.GivenIsSeen | src/context.rs:1054-1070 | every value that a step of a task gives to its workflow is recorded as seen under the key of that operation |
| Replay.ConsistentComparable | src/context.rs:1043-1080 | a journal determines a run: of two histories fed from it one is a prefix of the other |
| Replay.DenoteUnique | src/context.rs:1043-1080 | the meaning of a workflow under a journal does not depend on the history chosen |
| Replay.OpenMeansNothing | src/context.rs:1072-1080 | a journal that leads a workflow to an open entry leads it to no end: it denotes nothing and fails with no error |
| Replay.PerformFeeds | src/context.rs:1054-1080 | performing an operation gives what the journal makes of it, and executes or waits exactly when the entry is open |
| Replay.PerformOk | src/context.rs:564-693 | performing an operation gives the workflow the journaled value of its key, or leaves its task where the entry is still open |
| Settled.SettledStep | src/context.rs:1054-1070 | every action short of deletion keeps the journal of a settled instance, and keeps it settled |
| Settled.ClosedStep | src/context.rs:1054-1070 | every action short of deletion keeps an instance whose journal leaves nothing open from executing anything |
| Errors.StandingStep | src/context.rs:1119-1158 | every action keeps the errors that running, completed and failed runs were given accounted for by the tables: by the journal, by a Failed or open entry, or by the record of a failed child, and after their key is used again by a failure that was once written |
| Errors.EndIsExact | src/context.rs:1072-1130 | a run that ended, used no key again after an error and is borne out by the tables was given determined errors only if and only if the journal leaves nothing open |
| Accounts.WriteStands | src/context.rs:795-803 | a write under the key of the next operation, its children included, leaves every other error of the run accounted for |
| Timers.TimersStep | src/engine/execution.rs:212-260 | every action keeps waiting timer steps accounted for, batches due, and removals paid for by insertions |
| Timers.PollIsCounted | src/engine/execution.rs:212-222 | the history of polls counts every row that a poll takes out of the table, and nothing else |
| Timers.RowIsCounted | src/context.rs:619-626 | the history of insertions counts every row that a task puts into the table, one at a time |
| Status.ReportingStep | src/context.rs:404-414 | every action keeps shown statuses, stored statuses and Completed messages equal to what the workflow set last |
| Status.OnePlace | src/context.rs:1059-1070 | with distinct keys and errors passed on, an entry is read at the very place where it was written |
| Status.TaintIsExact | src/engine/execution.rs:57-67 | an instance counts as tainted if and only if its last run wrote its result while it showed the late final status of an older run |
| Claims.AtMostOneClaim | src/engine/execution.rs:141-210 | of any claims on one instance at most one succeeds, and the tables end up as that one leaves them |
| Claims.FirstClaimWins | src/engine/execution.rs:141-210 | of concurrent claims on a suspended step the first commit succeeds and all others are superseded |
| Claims.ClaimFlips | src/engine/execution.rs:141-210 | a claim succeeds exactly on a waiting step of a suspended instance; it then completes that step with the value that it brings, turns Suspended into Running and touches nothing else; a refused one changes no table |
| Claims.SuspensionsBalance | src/engine/execution.rs:69-84 | over whole runs Suspended metadata writes equal claims plus resumes out of a suspension plus the suspension that still lasts |
| CrashRecovery.RecoveryIsExact | src/engine/engine_impl.rs:221-254 | from any state with the engine down, a start re-spawns an instance once if it is Running and registered and never otherwise |
| CrashRecovery.InterruptedIsRecoverable | src/engine/engine_impl.rs:407-426 | whatever thread owned an instance when a crash came, a claim without a task included, the next start finds the instance |
| TimerKeys.PolledAtMostOnce | src/context.rs:607-626 | in one process lifetime a row is polled at most once and never replaced by another |
| TimerRows.RowOrLoss | src/context.rs:607-626 | in one process lifetime and without deletion of its instance, a waiting timer step has its row, in the table or in the poller's hands, if and only if no loss of it is logged |
| TimerRows.RowsStep | src/engine/execution.rs:212-260 | every action keeps rows, what the poller holds and what was lost apart, each for one timer step only |
| LostTimers.ResumeLosesTimer | src/engine/execution.rs:224-256 | a reachable state in which an instance waits for a timer of which there is no row left, because it was resumed between the poll's check and its claim |
| LostTimers.RestartLosesTimer | src/engine/builder.rs:334-334 | a reachable state in which an instance waits for a timer whose row was replaced by another instance's after a restart of the process |
| Counterexamples.SwallowedErrorLosesMeaning | src/context.rs:1119-1130 | a reachable Completed instance whose workflow denotes nothing under the final journal |
| Counterexamples.SwallowedErrorRunsAgain | src/context.rs:1072-1080 | from a reachable Completed instance a resume comes to where the closure of its failed step can return |
| Counterexamples.RetriedErrorOnlyReplays | src/context.rs:1072-1080 | a reachable Completed instance whose last run was given an undetermined error, but which executes nothing when it is run again |
| Counterexamples.RetriedErrorChangesMeaning | src/context.rs:1072-1080 | a reachable Completed instance whose journal leaves nothing open but leads its workflow, which tries a failed step again, to another output |
| Counterexamples.RetriedErrorIsForgotten | src/context.rs:1072-1080 | a reachable Failed instance whose journal leaves nothing open but leads its workflow, which tries a failed step again, to a return |
| Counterexamples.SwallowedErrorRestoresStatus | src/context.rs:1059-1070 | a reachable Completed instance with a message that its last run never set, of a workflow that uses no key twice |
| Counterexamples.LateStatusReplacesMessage | src/engine/execution.rs:57-67 | a reachable Completed instance whose message is that of an older run, of a workflow that sets no status |
| Counterexamples.ReusedKeyRestoresOldStatus | src/context.rs:1059-1070 | a reachable Completed instance whose message is an older status, because a key was used twice |
| Keys.RangeIsPrefix | src/metadata.rs:218-231 | for all strings, the range from `p/` to `p0` holds exactly the keys that start with `p/` |
| Keys.MetaRangeIsWorkflow | src/metadata.rs:218-236 | the metadata range of a workflow holds exactly its instances, and what follows the prefix is the id |
| Keys.StepRangeIsSubtree | src/engine/retention.rs:115-131 | the step range of an instance holds exactly the steps of the instance and its descendants |
| Keys.StepKeyInjective | src/context.rs:1048-1051 | workflow, instance and key are recovered from a step key, nested children included |
| Keys.MetaKeyInjective | src/metadata.rs:172-172 | workflow and instance are recovered from a metadata key |
| Keys.KeyNameInjective | src/context.rs:464-469 | user keys, fan-out keys, `_input` and `_output` never alias |
| Keys.PrefixOfKeys | src/engine/retention.rs:115-117 | a string prefix that ends at a slash is a prefix in components, and the other way round |
| Keys.SplitJoin | src/context.rs:1048-1051 | components without a slash are read back from the composite key |
| Keys.SplitOnceFirst | src/engine/retention.rs:81-83 | splitting a metadata key at its first slash gives the workflow and the whole instance id |
| Keys.ChildInjective | src/context.rs:1278-1282 | parent, fan-out key and index are recovered from a child's id, whatever dashes and digits the key contains |
| Keys.ChildIsValid | src/context.rs:1278-1282 | a child's id is well formed and lies under its parent |
| Tables.StepPut | src/context.rs:795-803 | a write under one composite key changes what is read under no other |
| Tables.StepsRemoved | src/engine/retention.rs:124-131 | removing the step range of an instance removes its subtree from the structured table |
| Tables.TimersRemoved | src/engine/retention.rs:133-149 | removing the timers by names removes exactly those of the instance |
| Tables.Database.ReadStep | src/context.rs:781-792 | a read under the composite key gives what the structured table holds |
| Tables.Database.WriteStep | src/context.rs:795-803 | a write under the composite key is the write of that entry and of no other |
| Tables.Database.ReadMetadata | src/metadata.rs:186-211 | a read gives the record of that instance, or nothing |
| Tables.Database.WriteMetadata | src/metadata.rs:166-184 | a write changes the record of that instance and of no other |
| Tables.Database.ClaimSuspendedStep | src/engine/execution.rs:141-210 | claimed exactly if the step waits and the instance is suspended: then the entry is Completed with the value given, without a status, the instance is Running and nothing else has changed; otherwise nothing has, and the answer says whether step or metadata is missing |
| Tables.Database.MarkRunning | src/engine/engine_impl.rs:811-829 | Running metadata and, if given, the input, in one transaction |
| Tables.Database.SetTimer | src/context.rs:619-626 | the Suspended entry and the timer row in one transaction |
| Tables.Database.DropTimer | src/engine/execution.rs:217-222 | exactly that row goes |
| Tables.Database.ListMetadata | src/metadata.rs:214-245 | every instance of the workflow exactly once with its id recovered; the prefix can always be stripped |
| Tables.Database.CollectExpiredTimers | src/engine/execution.rs:264-287 | exactly the rows whose deadline has passed, each once |
| Tables.Database.CollectExpiredMetadata | src/engine/retention.rs:62-107 | exactly the instances with a time of completion whose own period, or else the default one, has passed since, in whole seconds, each once, child ids with slashes included |
| Tables.Database.DeleteInstanceData | src/engine/retention.rs:110-153 | metadata, step subtree and own timers of one instance go, nothing else |
| Tables.Database.CleanupExpired | src/engine/retention.rs:20-59 | a record goes exactly if it has a time of completion and nowSecs has reached that time plus the whole seconds of the period set for its workflow, or else of the default period, or that period is below a second; the pass leaves the tables without exactly these instances, and counts them |
| Retention.PassIsExact | src/engine/retention.rs:95-103 | a record goes if and only if it is terminal and nowSecs has reached its time of completion plus the whole seconds of the period set for its workflow, or else of the default period, or that period is below a second; then subtree and timers go with it; the others stay unchanged |
| Retention.LiveInstanceUntouched | src/engine/retention.rs:62-107 | a live top-level instance keeps metadata, steps and timers, and only expired descendants cost it steps below |
| Retention.FamilyExpiresTogether | src/engine/retention.rs:95-103 | a child that finished no later than its parent expires no later |
| Retention.DeleteNext | src/engine/retention.rs:35-53 | deleting instances one after the other adds up to the set deleted |
| Storage.NewMetadata | src/metadata.rs:112-122 | a record carries a time exactly if its status is terminal, and then it is the time given |
| FanOutReplay.ReturnedSlotsDenote | src/context.rs:1350-1393 | however a fan-out is interleaved, interrupted and re-run, slot n of what it returns is child n's and holds the value or the error of a run of child n whose values and errors the tables account for; if the child uses no key again after it gave an error, the journal leads it to that value or error if and only if it leaves nothing open, and if the child passes errors on, always to the value; or retention deleted that child during the run. The same holds of every result journaled deeper down |
| FanOutReplay.StepKeeps | src/engine/fan_out.rs:55-117 | every step of a child, at any depth, keeps the invariant of the tree |
| FanOutReplay.CollectedSlotsMean | src/engine/fan_out.rs:243-272 | at the moment of collection every successful slot is backed by a run of that child which the journal bears out |
| FanOutReplay.NoChildRunsAgain | src/context.rs:1499-1536 | a child step or nested fan-out that is Completed never returns, collects or aborts again, in this run of the parent or a later one, unless retention has deleted the child in between |
| FanOutReplay.ChildEntryStays | src/context.rs:795-803 | Completed entries of descendants survive every interleaving and every interruption, or retention has deleted the descendant |
| FanOutReplay.EntryStaysExactly | src/engine/retention.rs:124-131 | a Completed entry of a child is unchanged by an event if and only if the event is not retention deleting that child |
| FanOutReplay.ExpiryFollowsProtocol | src/engine/retention.rs:110-153 | deleting a finished child is an action of the state machine, while its parent runs as well |
| FanOutCounterexamples.SwallowedSlotDenotesNothing | src/context.rs:1119-1130 | a run without deletion in which a child swallows an error: its slot is successful, and the child denotes nothing |
| FanOutCounterexamples.ExpiredSlotDenotesNothing | src/engine/retention.rs:95-103 | a run in which a child is deleted before its parent collects: the slot is successful, and the child denotes nothing |
| FanOutCounterexamples.ExpiredChildRunsAgain | src/engine/retention.rs:95-103 | a run in which a child step that was Completed is executed again, after its child was deleted and its parent interrupted |
| FanOutReplay.CachedFanOutSpawnsNothing | src/engine/fan_out.rs:275-299 | a journaled fan-out returns its vector and starts no child |
| FanOutReplay.WriteInside | src/engine/fan_out.rs:55-117 | a child writes only inside its own subtree and never over a Completed entry |
| FanOutReplay.WriterIsOpen | src/engine/fan_out.rs:44-117 | whoever writes under a child of a fan-out does so while the entry of that fan-out is open |
| FanOutReplay.AbortsWithChildsError | src/engine/fan_out.rs:203-240 | the error with which a fan-out gives up is that of a child whose record says so, or of a panic |
| FanOutReplay.ChildrenFollowProtocol | src/engine/fan_out.rs:305-340 | writes of children are steps that the state machine allows a task in a fan-out |
| FanOutReplay.EndsFollowProtocol | src/engine/fan_out.rs:203-272 | so are the vector that a fan-out collects and the error with which it gives up |
| FanOutWorld.JournaledSlotsDenote | src/context.rs:1350-1393 | after every run of the protocol slot n of every journaled vector, of a top-level instance or of a child, holds the value or the error of a run of child n that the tables at the end account for; if the child uses no key again after it gave an error, the journal at the end leads it there if and only if it leaves nothing open, and if the child passes errors on, always to the value; unless retention deleted the child in the run |
| FanOutWorld.TurnKeeps | src/engine/fan_out.rs:55-117 | every action of every thread and every step of every child keeps forests, vectors to be saved and vectors journaled borne out by the journal |
| FanOutWorld.TurnFollowsProtocol | src/engine/fan_out.rs:305-340 | a step of a child, a collection and an abort are steps of the state machine, or change nothing |
| FanOutWorld.DescendantEntryStays | src/context.rs:795-803 | a Completed entry of a child, at any depth, survives every run in which retention does not delete the child |
| FanOutProgress.PermitBound | src/engine/fan_out.rs:44-57 | on every level of every reachable tree the children that have started and not ended never exceed the concurrency that is set there |
| FanOutProgress.WaitsExactlyAtLimit | src/context.rs:1284-1286 | a child that waits can start if and only if no concurrency is set or fewer children than it are under way |
| FanOutProgress.NeverStuck | src/engine/fan_out.rs:44-57 | with positive limits and children that end, every reachable state has a step that is not a panic |
| FanOutProgress.EveryScheduleHalts | src/engine/fan_out.rs:44-120 | every schedule of such a tree is finite, whatever closures return and whatever happens to the tables |
| FanOutProgress.ZeroLimitIsStuck | src/context.rs:1284-1286 | with limit 0 and an item no child ever moves and nothing can be collected |
| FanOutShared.SharedSemaphoreDeadlocks | src/engine/fan_out.rs:44-57 | with one semaphore of any number of permits for the whole tree, a fan-out over at least as many items that fan out themselves has a run into a state in which no child can make a step and nothing can be collected |
| FanOutFamilies.FamilyGoesTogether | src/engine/retention.rs:91-103 | in every run of the protocol in which no fan-out of an instance is broken off by a crash, a panic or an abort, the scan that selects the instance selects every descendant still present, whatever fan-outs, suspensions and resumes it had |
| FanOutFamilies.StepKeepsFamily | src/engine/fan_out.rs:95-117 | every step but a panic or an abort keeps finished children, and all descendants of collected ones, terminal and stamped no later than now |
| FanOutFamilies.TurnKeepsFamily | src/engine/execution.rs:47-99 | every turn that breaks off no fan-out of an instance keeps its family stamped no later than the instance |
| Collectors.CollectAll | src/engine/fan_out.rs:243-272 | every child's outcome in its own slot whatever the order of completion, no slot empty, or the first panic |
| Collectors.CollectFailFast | src/engine/fan_out.rs:203-240 | Ok if and only if all succeed, values in item order; otherwise the very error of the first child to finish that failed, or the message of its panic |
| Collectors.OrderIrrelevant | src/engine/fan_out.rs:243-272 | two orders of completion of the same outcomes give the same vector |
| Collectors.CollectorFillsSlots | src/engine/fan_out.rs:243-272 | the collector's vector is the result vector of the interleaved tree |
| Joining.CollectorGivesUp | src/engine/fan_out.rs:203-240 | if a collector gives up, with children joined in whatever order, its error is that of the first joined child that ends the fan-out, as the tree has it, and is accounted for by the record of that child or by a panic |
| Joining.CollectorAgrees | src/engine/fan_out.rs:203-272 | once all children have ended, a collector has a vector if and only if the tree may collect |
| Retry.DelayIsExact | src/retry.rs:103-112 | the delay is min(base * 2^i, max) for the first 32 retries and min(base * (2^32 - 1), max) from then on |
| Retry.DelayNeverShrinks | src/retry.rs:103-112 | delays are nondecreasing |
| Retry.TotalDelayBound | src/retry.rs:103-112 | n retries wait at most n * max and at most base * (2^n - 1) in total |
| Retry.TotalDelayIsExact | src/retry.rs:103-112 | n retries at a fixed delay d wait n * d in total, and n doubling ones that stay below the cap base * (2^n - 1) |
| Retry.BuiltPolicies | src/retry.rs:49-100 | the retry count of a built policy is the one given; exponential delays double from the base up to 30 seconds, or the cap that is set; fixed delays are the one given and have no cap |
| Retry.RunClosure | src/context.rs:1082-1170 | the closure runs up to the first success, permanent error or timeout and at most max_retries + 1 times, with the journal entry to match, as the protocol's attempts do, and the time slept is the sum of the delays of the policy, one for each retry made; it panics exactly on the largest count |
| Contexts.Context.SetStatus | src/context.rs:404-414 | the status is set, and subscribers are woken exactly if the run no longer replays |
| Contexts.Context.ReadInput | src/context.rs:362-374 | the input that the workflow body of this run is built from |
| Contexts.Context.RunStep | src/context.rs:1043-1170 | a journaled result is returned and restores its status. Otherwise the first attempt that does not ask for another decides, or the last one allowed by the policy of the step, by none if it is switched off, or by the default of the engine, if it has one: that attempt gives the result and the entry, and a timeout journals nothing. Nobody is woken |
| Contexts.Context.ExecuteStep | src/context.rs:1079-1170 | an open step ends as the first attempt that does not ask for another, or the last one that the policy of the step or the default of the engine allows; journaled or not; as the attempts of the protocol do; and the replay is over |
| Contexts.RetriedStepSucceeds | src/context.rs:1082-1130 | what these two contracts say of a step comes to this: if attempt n, within the retries allowed, is the first success and all before it asked for another, the step gives its value and journals it with the status then shown |
| Contexts.Context.ExecuteSuspend | src/context.rs:643-694 | a suspension sets, still waits or returns as the protocol says; a completed one ends the replay |
| Contexts.Context.SetTimer | src/context.rs:564-641 | a timer whose step is open is set: its step is suspended and its row put under the deadline, now plus the duration, and the serial, and the serial has grown by one, around its wrap; a timer that still waits or returns leaves tables and serial alone; the replay flag stays |
| Contexts.TwoTimersTwoRows | src/context.rs:607-626 | two timers that are set one after the other, of any instances and for whatever deadlines, have rows of their own and both rows stand |
| Contexts.TimerFollowsProtocol | src/context.rs:607-641 | what a timer that is set does to tables and serial is what the state machine does |
| Contexts.Context.RunFanOut | src/context.rs:1350-1393 | a journaled vector is returned; otherwise the joined children are collected in item order and journaled, or the very error or panic message of the first one that ends the fan-out is returned and nothing journaled |
| Contexts.Context.ExecuteFanOut | src/context.rs:1350-1393 | an open fan-out ends the replay, and its vector is journaled; if a joined child ends it, the error is that of the first such child and nothing is journaled |
| Contexts.Context.WriteOutput | src/engine/workflow.rs:34-53 | the output entry is written |
| Contexts.Context.ReadOutput | src/engine/workflow.rs:107-138 | an output is read exactly if there is a Completed one of the type asked for |
| Contexts.Context.HandleResult | src/engine/execution.rs:47-99 | metadata first, then the final status, which wakes subscribers: Completed with the last status, Suspended with the last status or else the key, Failed with the error, each record stamped exactly if it is final |
| Contexts.ChildInstanceIs | src/context.rs:1278-1282 | the id strings of children are the instance names of the structured ids |
| Runs.RunWorkflow | src/engine/workflow.rs:56-78 | subscribers are woken for exactly the statuses set from some operation on, and that operation is the first one that was executed or was given a signal: before it every operation was answered from the journal; a run ends at a return with its output written, a throw, a wait, the first operation with a key or a retry count that its builder refuses, or the cut |
| Runs.RunTask | src/engine/execution.rs:121-135 | a whole task: nobody is woken before the first operation that is executed or given a signal, and apart from the statuses set from there on only the final one wakes subscribers; afterwards the instance is finished with the output returned and the last status shown, or failed with the error thrown and shown, or claimable |
| Engines.Engine.GetOrCreateSender | src/engine/engine_impl.rs:852-869 | the instance has a sender that shows Started: its channel is kept and nobody woken if it had one, and otherwise it is new; all others are as they were |
| Engines.Engine.SpawnWorkflow | src/engine/engine_impl.rs:793-850 | accepted exactly if the name is legal, the engine runs and the workflow is registered; refused calls change nothing |
| Engines.Engine.Resume | src/engine/engine_impl.rs:334-342 | as a spawn without input, for ids without a slash |
| Engines.Engine.Signal | src/engine/engine_impl.rs:387-453 | after a claim the entry is Completed with the payload of the signal, the instance is Running and nothing else has changed; a refused claim changes nothing; a claim is committed even if the engine has stopped, and then leaves the instance Running without a task |
| Engines.Engine.ResumeRunningInstances | src/engine/engine_impl.rs:221-254 | exactly one task for each Running instance of each registered workflow, tables unchanged |
| Engines.Engine.Start | src/engine/engine_impl.rs:161-219 | running, and recovery as set, tables unchanged |
| Engines.Engine.PollTimer | src/engine/execution.rs:216-257 | the row goes; the step is Completed with unit and a task spawned exactly if the instance waits on it and is registered |
| Engines.Engine.PollTimers | src/engine/execution.rs:212-260 | the due rows one after the other, with a task for each claimed row of a registered workflow, until all are done, or up to the first row whose claim fails otherwise than by being superseded or is for an unregistered workflow, and no further |
| Engines.PollWakes | src/engine/execution.rs:212-260 | a poll that gets through wakes every instance that waits for one of its rows |
| Engines.PollTakesRows | src/engine/execution.rs:212-222 | the rows of a batch go and no other; only suspended instances change, and only to Running |
| Engines.PollFollowsProtocol | src/engine/execution.rs:216-257 | polling one row is what the state machine's removal, check, claim and spawn come to when nobody acts in between: tables, task, and whether the poll goes on |

## Left out

- Registered-workflow fan-out (`.workflow(&DEF)`): its children are ordinary instances that the parent waits for through their watch channel; only inline children are modelled.
- Custom status text on re-suspension, `subscribe`, `state`, `list_instances` and invocation handles: reads of data modelled here.
- Removal of senders after a terminal status, and their sharing between workflows with equal instance ids: `Engines.Engine` keeps one current status per instance and never removes it.
- Engines.Engine.Start: the poller and retention tasks that it spawns are threads of the state machine, not entries of `tasks`.
- Waiting in `stop` and `wait_all`: a stop is the running flag going down, its abort is a crash.
- Liveness under a fair scheduler: progress is stated as an enabled step plus finiteness of every schedule, for fan-out trees only.
- Cleanup interleaved between its scan and its deletes: in the state machine retention deletes one terminal instance per action, `CleanupExpired` is one uninterleaved pass.
- Fan-out manifests: they are written and never read.
- Statuses that inline children show: the message in the record of a finished child is arbitrary.
- A fail-fast abort leaves metadata of aborted children Running; what auto-resume then does under their ids is not followed.
- Durability.CleanRunShowsWhatItSet: needs a workflow that passes errors on and uses no key twice, because the code shows otherwise (`Counterexamples.ReusedKeyRestoresOldStatus`, `Counterexamples.SwallowedErrorRestoresStatus`).
- Durability.CompletedMessage: one direction only; a message that an older run replaced can be the right one by coincidence.
- Durability.ReplayPreservesMeaning: stated of the last run, for every workflow; `Durability.MeaningIsExact` is exact in terms of journal and workflow (nothing open), for workflows that use no key again after it gave an error.
- Durability.PropagatingWorkflowMeans: one direction only; which workflows that swallow errors return what they denote is `Durability.MeaningIsExact`.
- Durability.SuspendedTimerHasRow: one direction over restarts of the process; `TimerRows.RowOrLoss` has both within one lifetime.
- FanOutFamilies.FamilyGoesTogether: one direction only; a broken-off fan-out may leave no record behind, and then the family still goes together.
- Overflow of `u64` clocks and deadlines, and of the `u32` count of cleaned instances.
