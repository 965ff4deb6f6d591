# A verified model of the pipeline engine

This project models the part of a self-hosted CI/CD server that executes pipeline runs, and proves what it
keeps under concurrency. `dafny verify dfyconfig.toml` checks everything.

The core is the life of a run. A call of `execute` claims a pending run, works through its stages with SQL
statements that each commit on their own, and finalises it; duplicate calls, cancellations through the token
or the database, retries, configuration changes and the runs of other projects interleave freely. The rows
are safe because of an ownership argument that no single statement shows: two of the UPDATEs have no guard.

| file | what it holds |
|---|---|
| `Runs.dfy` | the rows of a run, the UPDATE statements, the shapes of its stage statuses |
| `ProjectLocks.dfy` | the table of weak per-project semaphores, and that it refines one eternal mutex a project |
| `Engine.dfy` | the step machine: a program counter for every call, one step a statement, transaction, mutex section or token check |
| `Ownership.dfy`, `EngineInvariant.dfy`, `EngineSteps.dfy` | what the claimant knows at each of its program points, the invariant, and that every event keeps it |
| `EngineTheorems.dfy`, `EngineSafety.dfy`, `EngineProgress.dfy` | stage patterns, absorption, the command trace, cancellation, permits; deadlock freedom and a measure |
| `Outcomes.dfy` | what the columns of a stage end up as |
| `TokenMap.dfy`, `TokenLoss.dfy`, `Cancellation.dfy`, `Overlap.dfy`, `EarlyFault.dfy` | what does not hold in general, with its exact condition: tokens that disappear, cancelled runs that fail, two rows running, a fault before the claim |
| `EngineLimits.dfy` | a concrete reachable state for each of these |
| `RunHistory.dfy`, `RunStore.dfy` | run numbers, retry lineage, paging a live log; the transactions of the HTTP handlers |
| `Continuations.dfy`, `Arrival.dfy`, `Interference.dfy` | how stretches of events compose, how a waiting call gets its permits, what a call may rely on while others run |
| `PipelineEngine.dfy` | the engine as an object with `execute` and `cancel`, whose every run is a run of the machine under interference by everybody else |
| `LogWriter.dfy`, `Capture.dfy`, `LogListing.dfy`, `CommandExecutor.dfy`, `CommandLogs.dfy` | the way of a byte from the command to the log listing, which outcome of a command wins, and both put together |
| `LoginLimiter.dfy`, `LimiterBound.dfy` | the login limiter, its accounting, its bound over any time span, and that the bound is reached |
| `ShellQuote.dfy`, `Credentials.dfy` | single-quoting against a POSIX word reader; the strict and the lenient credential parser |

## Assumptions

- All calls go through clones of one engine: they share the token map, the lock table and the semaphore.
- SQL statements that commit on their own, and transactions, are atomic. Each may fail after the claim; the two
  finaliser transactions commit. There is no database fault up to and including the claim.
- No project is deleted while one of its runs executes, and the engine starts on empty tables.
- Identifiers are opaque numbers and new ones are unused or rejected as repeated keys. The position of
  a stage is its index. A token is named after the call that made it.
- Adjacent statements that only read are one step. The lookup of a token by `cancel` and the cancellation are two.
- A command is a source of bytes that exits, runs out of time or is interrupted; a git synchronisation yields a
  commit, fails or is interrupted. Both end.
- Semaphores admit whoever polls first; their queueing order is not used.

## Properties that do not hold

Those of the engine each have a reachable state that shows them in `EngineLimits.dfy`, and their exact condition.

- A run whose cancellation was accepted need not end as cancelled (`CancelledRunMayFail`). While it is running it can
  still end as failed if and only if its claimant is at a point from which a statement, git or the command can fail
  before the token is looked at again, or another call of the run is a duplicate that has not finalised yet or can
  still meet the claimant's token (`Cancellation.CancelledRunFailsExactlyWhen`). If the token was cancelled before the
  claim, it can if and only if the token is in the map (`Cancellation.CancelledBeforeItsClaim`).
- It can still become a success if and only if the final check is behind the claimant (`CancelledRunMaySucceed`,
  `EngineSafety.CancellationStopsSuccess`), and can still start a command if and only if the check before the spawn is
  (`CancelledRunMayStartACommand`, `EngineSafety.CancellationStopsCommands`).
- A claimant's token need not stay registered until it returns (`TokenMayBeGone`). It does if and only if no other
  call of its run that was told `NotPending` or `AlreadyRunning` comes to its end (`TokenMap.TokenStaysExactlyWhen`).
  Without new calls for the run, that can happen if and only if another call of it has not returned
  (`TokenLoss.TokenMayGoExactlyWhen`); with new calls it always can (`TokenLoss.TokenMayAlwaysGo`).
- Two runs of one project can both have the status running (`TwoRowsMayBeRunning`), but only while the claimant of one
  of them waits for its finaliser (`Overlap.OneOfTwoAwaitsItsFinaliser`), and then they can
  (`Overlap.TwoRowsRunExactlyWhen`).
- A database fault before the claim is answered by `fail_running_run` for a run the call does not own, which is why
  it is excluded above. It breaks the stage pattern if and only if the run is pending with an enabled stage
  (`EarlyFaultMayBreakPattern`, `EarlyFault.PatternBreaksExactlyWhen`); a claimed run it fails is overwritten later if and only if its claimant has
  an unguarded write before it (`EarlyFaultMayBeOverwritten`, `EarlyFault.OverwrittenExactlyWhen`).
- A database error answered by `create`, `retry`, the HTTP `cancel` or `put` does not mean that nothing happened: the
  read after the commit can fail (`RunStore`).

## Model

| member | source | states |
|---|---|---|
| EngineTheorems.StagePatterns | src/pipeline_engine.rs:229-334 | in every reachable state of every interleaving the enabled stages of a run, in position order, match the pattern of its status (running = success\* running? pending\*, success\* failed pending\*, success\* failed skipped\*; and so on for the other statuses), and disabled stages are skipped |
| EngineTheorems.RunsEvolve | src/pipeline_engine.rs:143-334 | over any continuation a run is claimed at most once, success, failed and cancelled are final for all its columns, started commands are only added, the log listing read earlier is a prefix of the later one |
| EngineTheorems.OnlyTheseWrite | src/pipeline_engine.rs:273-287 | which events can change a row of a run: before the claim a cancel or the claim, afterwards the claimant or the finaliser of a duplicate, after the end nobody |
| EngineTheorems.ClaimantIsAlone | src/pipeline_engine.rs:151-299 | while the claimant is inside `execute_inner`, no event of anybody else changes a row of its run |
| EngineSafety.ClaimantMeetsNobody | src/pipeline_engine.rs:237-298 | every guarded UPDATE of the claimant finds its row (no StateConflict), the unguarded ones overwrite `running` only |
| EngineSteps.ReachableInv | src/pipeline_engine.rs:97-300 | the invariant over rows, program counters, tokens, locks and permits holds in every reachable state |
| EngineSteps.TokenFoundIsStale | src/pipeline_engine.rs:133-142 | who finds a token when registering finds that of a claimant which has already left `execute_inner` |
| Ownership.AdvanceKeepsKnown | src/pipeline_engine.rs:151-299 | each statement of the claimant leads from what it knows at one program point to what it knows at the next, with faults and log rows |
| Ownership.OwnFinaliserEnds | src/pipeline_engine.rs:302-334 | from whatever a claimant leaves behind, its finaliser ends the run in the right shape |
| Ownership.DuplicateFinaliserKeepsKnown | src/pipeline_engine.rs:107-110 | the finaliser of a duplicate, at any time after the claimant left, leaves rows the claimant can cope with |
| Ownership.EndedIsFinal | src/pipeline_engine.rs:302-334 | a finaliser changes nothing of a run that has ended |
| Outcomes.StagesEndWithTheRun | src/pipeline_engine.rs:302-334 | over any continuation after a claimant has given up a running run, whoever ends it: a stage at work ends cancelled if the run does and failed if the run does, one that had not begun is skipped, the others and all logs and flags stay |
| Outcomes.WritersFlagIsFinal | src/pipeline_engine.rs:263-267 | whatever the command came to, from the statement on that stores it the stage has the flag of its log writer for ever |
| EngineSafety.OneExecutorPerProject | src/pipeline_engine.rs:126 | no two calls are past the project permit for runs of one project |
| EngineSafety.PermitsAreConserved | src/pipeline_engine.rs:36 | free permits plus holders always equal max(max_concurrency, 1), and a holder is never waiting for its project |
| EngineSafety.StartsOnlyAfterSuccess | src/pipeline_engine.rs:229-258 | a command starts only for the next enabled stage, when every enabled stage before it is recorded as a success |
| EngineSafety.CommandTrace | src/pipeline_engine.rs:154-290 | the commands started for a run by all calls together are a prefix of its enabled stages in position order, each at most once, none disabled, none left out |
| EngineSafety.CancellationStopsCommands | src/command_executor.rs:90-92 | after its token is cancelled a run can start a command if and only if the claimant is past the last check and before the spawn, and then one |
| EngineSafety.CancellationStopsSuccess | src/pipeline_engine.rs:291-298 | after its token is cancelled a run can become a success if and only if the claimant is past the final check |
| EngineSafety.CancelledUnlessDuplicateFailedIt | src/pipeline_engine.rs:104-110 | the finaliser of a cancelled claimant, its last step alone: it makes the run cancelled if and only if the run is still running in the database |
| Cancellation.CancelledRunFailsExactlyWhen | src/pipeline_engine.rs:97-116 | from the moment the token of a running run is cancelled up to the finaliser: some continuation fails the run if and only if its claimant can fail by itself (it is not at a token check and has not seen the cancellation), or another call of the run is an unfinished duplicate, or the claimant's token is in the map and another call of the run is between its lookup and its registration |
| Cancellation.CancelledBeforeItsClaim | src/pipeline_engine.rs:132-153 | with the token cancelled between registration and claim, the run can end as failed if and only if the token is in the map |
| Cancellation.ThreatFails | src/pipeline_engine.rs:104-110 | with such a call there is a continuation that fails the run, whatever permits the call has to wait for |
| Cancellation.UnthreatenedNeverFails | src/pipeline_engine.rs:151-153 | without one, a claimant with only token checks before it can only cancel the run |
| EngineLimits.CancelledRunMayFail | src/pipeline_engine.rs:97-116 | a reachable state in which a run is failed although its cancellation was accepted and seen by its claimant |
| EngineLimits.CancelledRunMaySucceed | src/pipeline_engine.rs:291-298 | a reachable state with a cancelled token from which the run can become a success |
| EngineLimits.CancelledRunMayStartACommand | src/command_executor.rs:90-105 | a reachable state with a cancelled token from which a command of the run can start |
| EngineLimits.TokenMayBeGone | src/pipeline_engine.rs:97-116 | a reachable state in which the claimant has not returned and its token is not in the map |
| EngineLimits.TwoRowsMayBeRunning | src/pipeline_engine.rs:97-126 | a reachable state in which two runs of one project have the status running |
| TokenMap.TokenStaysExactlyWhen | src/pipeline_engine.rs:97-116 | over any stretch in which a claimant has not returned, its registered token is still in the map if and only if no other call of the run took its last step after NotPending or AlreadyRunning |
| TokenLoss.TokenMayGoExactlyWhen | src/pipeline_engine.rs:97-116 | told from the state alone: without new calls for the run, some continuation has the claimant's registered token gone before it returns if and only if another call of the run has not returned |
| TokenLoss.TokenMayAlwaysGo | src/pipeline_engine.rs:99-103 | with a new call for the run it can always go |
| Overlap.OneOfTwoAwaitsItsFinaliser | src/pipeline_engine.rs:97-126 | whenever two runs of a project are running, the claimant of one of them is cancelled or has failed and waits for its finaliser |
| Overlap.TwoRowsRunExactlyWhen | src/pipeline_engine.rs:97-126 | while its claimant does nothing, another run of the project can be running beside a running run if and only if one already is or its claimant waits for its finaliser |
| Arrival.ReachesRegister | src/pipeline_engine.rs:126-142 | a call past its lookup can get to its registration with nobody else moving but holders of project permits |
| EngineSafety.ReturnLeavesTerminal | src/pipeline_engine.rs:97-116 | when the claimant's call has returned its run is terminal, no stage is pending or running, and its token is not in the map |
| EngineSafety.EarlyFaultHarmlessExactlyWhen | src/pipeline_engine.rs:302-317 | running `fail_running_run` for a call that claimed nothing keeps what the claimant relies on if and only if the run is cancelled, has no enabled stage, has ended, or its claimant has left |
| EarlyFault.PatternBreaksExactlyWhen | src/pipeline_engine.rs:302-317 | it breaks the pattern of the stages at once if and only if the run is pending and has an enabled stage |
| EarlyFault.OverwrittenExactlyWhen | src/pipeline_engine.rs:242-288 | it leaves a claimed run terminal with nothing open, and some continuation changes these rows if and only if the claimant is between the launch of a command and its result with a write that differs |
| EngineLimits.EarlyFaultMayBreakPattern | src/pipeline_engine.rs:302-317 | a reachable state and a run whose pattern such a fault would break |
| EngineLimits.EarlyFaultMayBeOverwritten | src/pipeline_engine.rs:302-317 | a reachable state and a run that such a fault would fail and whose rows would change afterwards |
| EngineProgress.NoDeadlock | src/pipeline_engine.rs:126-131 | in every state the invariant allows with a call that has not returned some call can take a step |
| EngineProgress.TotalDescends | src/pipeline_engine.rs:229-290 | every step of a call lowers one measure over all calls; cancels and configuration changes leave it alone |
| EngineProgress.CallEnds | src/pipeline_engine.rs:97-116 | over any valid stretch, new calls, runs, retries and cancels included, a call takes at most as many more steps as its own measure says |
| EngineProgress.OpenCallsEnd | src/pipeline_engine.rs:97-116 | likewise all the calls made so far together |
| EngineProgress.CallsEnd | src/pipeline_engine.rs:97-116 | without new requests those are all the steps there are |
| EngineProgress.AllCanReturn | src/pipeline_engine.rs:97-116 | from every state the invariant allows the calls alone can bring every one of them to its return |
| ProjectLocks.TakeRefinesQueue | src/pipeline_engine.rs:340-353 | pruning, upgrading or installing a semaphore is queueing at the project's permanent mutex |
| ProjectLocks.AcquireRefinesEnter | src/pipeline_engine.rs:354-356 | the semaphore can be acquired if and only if the permanent mutex is free, and acquiring enters it |
| ProjectLocks.ReleaseRefinesExit | src/pipeline_engine.rs:126 | dropping the owned permit leaves the permanent mutex |
| ProjectLocks.TakeKeepsInv | src/pipeline_engine.rs:345-353 | pruning never loses an entry that somebody holds or waits for, and no two projects share a semaphore |
| ProjectLocks.TakePrunes | src/pipeline_engine.rs:345 | after the mutex section every entry of the table has a holder or a waiter |
| ProjectLocks.OneSemaphorePerProject | src/pipeline_engine.rs:336-357 | two live references are to one semaphore if and only if they are for one project |
| ProjectLocks.MutualExclusion | src/pipeline_engine.rs:336-357 | at most one holder a project |
| ProjectLocks.FreeProjectAdmits | src/pipeline_engine.rs:354-356 | with nobody inside its project a waiter can acquire |
| PipelineEngine.PipelineEngine.constructor | src/pipeline_engine.rs:27-40 | a new engine is the initial state of the machine, with at least one permit |
| PipelineEngine.PipelineEngine.Execute | src/pipeline_engine.rs:97-116 | the whole call is a stretch of events of the machine that starts with its Call; it ends returned, or queued for a permit that is taken at that moment, faulted only if something could fail, cancelled only if its token is; on return its token is gone and, if it claimed the run, the run is terminal with nothing open |
| PipelineEngine.PipelineEngine.Rows | src/pipeline_engine.rs:229-334 | at any time the rows of the object have the pattern of their status and its commands are a prefix of the enabled stages |
| PipelineEngine.PipelineEngine.ExecuteInner | src/pipeline_engine.rs:118-300 | a stretch of events from the lookup to the release of both permits |
| PipelineEngine.PipelineEngine.Lookup | src/pipeline_engine.rs:119-125 | goes on exactly for a run that exists and is pending |
| PipelineEngine.PipelineEngine.RunStages | src/pipeline_engine.rs:229-299 | the loop over the stages is a stretch of events from the first stage to the release of the permits; without faults it ends well or cancelled |
| PipelineEngine.PipelineEngine.RunStage | src/pipeline_engine.rs:237-289 | one enabled stage: either the next stage is next, or the call is on its way out; when the stage has a result, it is a success or failed with the run, and the flag the log writer returned is stored with it |
| PipelineEngine.PipelineEngine.Synchronise | src/pipeline_engine.rs:171-227 | the part with git, likewise; when it goes on, the run has a commit |
| PipelineEngine.PipelineEngine.TakeProjectLock | src/pipeline_engine.rs:340-353 | the mutex section as a step of the machine: the caller queues at the permanent mutex of its project, and no entry is left without a reference |
| PipelineEngine.PipelineEngine.PollProject | src/pipeline_engine.rs:354-356 | a poll succeeds if and only if the project's permanent mutex is free |
| PipelineEngine.PipelineEngine.PollGlobal | src/pipeline_engine.rs:127-131 | a poll succeeds if and only if a global permit is free |
| PipelineEngine.PipelineEngine.Register | src/pipeline_engine.rs:132-142 | the token is inserted if and only if the run has none |
| PipelineEngine.PipelineEngine.Claim | src/pipeline_engine.rs:143-150 | exactly a pending row becomes running, and the caller its only claimant; no other row changes |
| PipelineEngine.PipelineEngine.Check | src/pipeline_engine.rs:233-235 | the token check before a stage, and those at lines 151, 171, 215 and 291 |
| PipelineEngine.PipelineEngine.ClaimStage | src/pipeline_engine.rs:237-241 | unless the statement fails, the stage becomes running, with no conflict; nothing else changes |
| PipelineEngine.PipelineEngine.Spawn | src/command_executor.rs:105 | the command is started, and its stage added to the trace |
| PipelineEngine.PipelineEngine.InsertLog | src/pipeline_log_store.rs:30-37 | the row is the last of its stage; nothing else changes |
| PipelineEngine.PipelineEngine.SaveTruncated | src/pipeline_engine.rs:263-272 | unless the statement fails, the stage has the flag of its log writer, whatever the status of the command; nothing else changes |
| PipelineEngine.PipelineEngine.FinishStage | src/pipeline_engine.rs:273-279 | the unguarded UPDATE: success or failed, for this stage alone |
| PipelineEngine.PipelineEngine.SkipRest | src/pipeline_engine.rs:284 | every pending stage of the run is skipped, every other keeps its row |
| PipelineEngine.PipelineEngine.RecordCommit | src/pipeline_engine.rs:218-227 | the commit of the synchronisation is stored, with no conflict; nothing else changes |
| PipelineEngine.PipelineEngine.FailRun | src/pipeline_engine.rs:286-288 | the unguarded UPDATE to failed |
| PipelineEngine.PipelineEngine.MarkSuccess | src/pipeline_engine.rs:294-298 | the guarded UPDATE to success always finds the run running |
| PipelineEngine.PipelineEngine.FinishRun | src/pipeline_engine.rs:302-334 | both finaliser transactions, row by row: a running stage becomes cancelled after a cancellation and failed otherwise, a pending one skipped, others stay; the run becomes cancelled or failed only if it is running |
| PipelineEngine.PipelineEngine.RemoveRunning | src/pipeline_engine.rs:359-366 | the token entry of the run goes, whoever's it is |
| PipelineEngine.PipelineEngine.Cancel | src/pipeline_engine.rs:42-80 | a stretch of events; true means that the token found is cancelled, or that the run became cancelled before anybody claimed it |
| PipelineEngine.PipelineEngine.CancelPending | src/pipeline_engine.rs:52-79 | the transaction accepts exactly pending runs when no statement fails, and otherwise changes nothing |
| Interference.Rely | src/pipeline_engine.rs:118-300 | however long others run, the state stays reachable, a call is where it was and, inside, its run's rows are as they were |
| RunHistory.NumbersAreExact | src/pipeline_runs.rs:275-287 | the runs of a project have exactly the numbers 1..last_run_number, each once |
| RunHistory.RetriesKeepTheSnapshot | src/pipeline_runs.rs:289-314 | retry chains are well-founded, and each run in one has the project, branch and stage definitions of its root |
| RunHistory.RetryCopiesItsSource | src/pipeline_runs.rs:218-246 | whatever happened since the unlocked check, the source is still failed or cancelled, and the new run has its branch, commit and stages, the next number, and statuses from `enabled` |
| RunHistory.CreateTakesTheConfiguration | src/pipeline_runs.rs:92-106 | the new row has the next number, the branch asked for, and a stage row for every configured stage with a status from `enabled`; nothing else changes |
| RunHistory.LivePagingIsExact | src/pipeline_logs.rs:60-67 | paging by offset while the run executes and anything else happens neither repeats nor misses a row |
| RunStore.RunStore.InsertRun | src/pipeline_runs.rs:92-106 | number, run row and stage rows together if and only if the id is new and no statement fails, else nothing |
| RunStore.RunStore.InsertStages | src/pipeline_runs.rs:258-271 | up to the statement that fails, if one does, the stages are there in position order with statuses from `enabled` |
| RunStore.RunStore.AllocateRunNumber | src/pipeline_runs.rs:275-287 | the upsert returns the next number and stores it |
| RunStore.RunStore.Create | src/pipeline_runs.rs:74-108 | exactly when it commits and which error it answers, and the new row column by column: branch, number, no commit, no source, the present configuration |
| RunStore.RunStore.Retry | src/pipeline_runs.rs:218-246 | exactly when it commits and which error it answers; it is open to failed and cancelled runs only; after any events since the check the new row copies the source as it was checked, column by column |
| RunStore.RunStore.Cancel | src/pipeline_runs.rs:188-216 | exactly when it commits and which error it answers; a commit cancels a pending run with its stages |
| RunStore.RunStore.Put | src/pipelines.rs:53-107 | exactly when it commits and which error it answers, equal trimmed names included; a commit replaces the configuration of one project, and names stay different |
| RunStore.RunStore.InsertStage | migrations/0006_pipeline_stages.sql:6-16 | an INSERT succeeds if and only if the project has no stage of that name |
| RunStore.RunStore.InsertConfigured | src/pipelines.rs:92-104 | the insert loop ends well if and only if all names differ and no statement fails, and on a taken name if and only if one repeats before a statement fails |
| RunStore.RunStore.ReplaceStages | src/pipelines.rs:88-104 | DELETE and that loop over the stages, names trimmed |
| RunStore.RunStore.ReplaceConfig | src/pipelines.rs:80-105 | the transaction replaces the stages if and only if their trimmed names differ and no statement fails, else it changes nothing |
| RunHistory.NamesStayDistinct | src/pipelines.rs:92-104 | as configurations are stored with different names only, the stages of every run have different names |
| LogListing.AppendExtendsListing | src/pipeline_logs.rs:60-67 | a row of the last stage that has any is the last row of the listing |
| LogListing.ListingIsOrdered | src/pipeline_logs.rs:60-67 | the listing increases strictly in (position, sequence) |
| LogListing.ListingIsComplete | src/pipeline_logs.rs:60-67 | it has exactly the rows of the run |
| LogListing.PagingIsExact | src/pipeline_logs.rs:60-67 | pages read one after another from a growing listing make a prefix of it, and all of it after a short page |
| LogListing.PageContinues | src/pipeline_logs.rs:60-67 | the next page continues what was read, and a short one ends it; a page has at most `limit` rows |
| LogWriter.PersistStageLogs | src/pipeline_log_store.rs:6-43 | for every split into events, the rows 0..n-1 of 1 byte to 64 KiB hold exactly the first 8 MiB received, and the flag is true if and only if there was more; there are no more rows than 64 KiB chunks, and exactly as many under the cap; after a failed INSERT they hold a prefix |
| LogWriter.StoreChunk | src/pipeline_log_store.rs:20-40 | one chunk: what is kept, what is cut, what is counted |
| LogWriter.StageLogs.Insert | src/pipeline_log_store.rs:30-37 | the writer inserts only rows the step machine allows |
| LogWriter.OfStreamConcat | src/pipeline_log_store.rs:15-41 | projection on one stream distributes over what is received |
| Capture.ReadBounded | src/command_executor.rs:225-256 | keeps exactly the first `limit` bytes, says if there were more, sends every byte on, and fails if and only if a read or a send fails |
| Capture.StreamsSurviveMixing | src/command_executor.rs:116-117 | each stream comes out of the shared channel as it went in, for every interleaving |
| Capture.StoredStreamIsPrefix | src/pipeline_log_store.rs:15-41 | the stored rows of one stream are a prefix of its bytes, whenever the captures stop |
| Capture.CompleteStreamIsStored | src/pipeline_log_store.rs:15-41 | for a command read to the end and under the cap they are the whole stream |
| CommandLogs.RunWithLogs | src/pipeline_engine.rs:247-262 | captures, channel, log writer and executor together, for every order of the two streams and every failure: the result of the executor, the log a prefix of each stream, and for a finished command the first MiB of each stream returned, the flag exact, and both streams whole in the log unless it is set |
| CommandLogs.EveryMixArises | src/command_executor.rs:116-117 | the orders that RunWithLogs ranges over are all there are |
| CommandExecutor.Execute | src/command_executor.rs:83-148 | the first poll that ends the wait and the first later one that ends the collection fix the result, and it is unfinished if and only if one has not come; cancelled beats timed out beats exit status; output only after both streams ended in time and then their first MiB; every interrupted result is empty with both flags set |
| CommandExecutor.WaitForGroup | src/command_executor.rs:161-190 | the first poll that decides, and what it decides: success exactly if the process reports success, with its code |
| CommandExecutor.CollectOutput | src/command_executor.rs:201-215 | token before clock before the two capture tasks |
| LoginLimiter.TenFailuresPerWindow | src/auth.rs:97-140 | in any half-open span as long as the window at most ten failures of one key are recorded, despite eviction and attempts that outlive it |
| LimiterBound.BoundIsReached | src/auth.rs:97-140 | a run that records ten failures of one key in one such span, so the bound is exact |
| LoginLimiter.AtMostTwoWindows | src/auth.rs:114-120 | windows of a key that start a window apart put at most two of them into one span |
| LoginLimiter.Accounting | src/auth.rs:97-157 | in_flight is the number of unsettled attempts of the key, failures + in_flight never exceeds 5, at most 4096 entries |
| LoginLimiter.FinishFindsItsEntry | src/auth.rs:132-140 | an unsettled attempt never loses its entry |
| LoginLimiter.Limiter.Begin | src/auth.rs:97-130 | key by key: entries in flight or within their window stay, all others go; a new key is accepted if and only if fewer than 4096 stay, a known one if and only if its window can start anew or failures and attempts are below 5; with a clock reading of its own for every entry |
| LoginLimiter.BeginMeans | src/auth.rs:97-130 | the same of the functions the run of the limiter is built from |
| LoginLimiter.Limiter.Finish | src/auth.rs:132-140 | one attempt less in flight, one failure more if it failed, at the entry of the key alone; an error exactly without entry |
| LoginLimiter.Attempt.End | src/auth.rs:143-157 | an attempt is settled exactly once, as a failure if it is only dropped |
| LoginLimiter.Attempt.Drop | src/auth.rs:151-157 | dropping a finished attempt changes nothing |
| ShellQuote.QuotedReadsBack | src/git.rs:350-353 | the POSIX word reader reads any quoted value back as one word that ends with the quoting |
| ShellQuote.QuoteIsInjective | src/git.rs:373-376 | different values are quoted differently |
| ShellQuote.AskpassPrintsTheValue | src/git.rs:294-299 | a clause of the script is read as printf, its format and the very value, then the end of the clause |
| ShellQuote.AskpassAnswers | src/git.rs:292-300 | a prompt that contains `Username` is answered with the user name, any other with the token, whatever the two contain |
| Credentials.ParseStrict | src/pipeline_engine.rs:457-478 | accepts exactly the payloads of the two bare keys, each once, and returns what they mean |
| Credentials.ParseLenient | src/projects.rs:279-298 | the last value of each trimmed key, all else ignored |
| Credentials.ParseBoth | src/projects.rs:279-298 | whenever the strict parser accepts the lenient one agrees; they differ exactly on payloads that are not clean and still mean something |
| Credentials.PayloadReadsBack | src/pipeline_engine.rs:457-478 | a credential written on two lines is read back by both parsers |
| Credentials.TrimStrips | src/projects.rs:286 | blanks at both ends of a key go, nothing else does (and TrimForm: every string has this form) |
| Credentials.CarriageReturnEnds | src/projects.rs:282 | a line may end in CRLF as well |
| Credentials.LastLineCounts | src/projects.rs:286-290 | the value of a key is that of the last line that gives it one |
| Credentials.NoLineNoValue | src/projects.rs:286-290 | without such a line it has none |

## Left out

- HTTP routing, JSON, authentication, and the mapping of errors to responses.
- Argon2, SHA-256, the encryption of credentials, base64 and random tokens.
- SQLite itself: busy errors, timestamps, and the constraints that no modelled statement can violate.
- Processes, process groups, signals and git; the workspace and artifact directories.
- Conversion of log rows to text: it is done row by row and may split a character, so all claims are on bytes.
- The validators of names, refs and commands: `RunStore.Create` and `RunStore.Put` take them as parameters.
- PipelineEngine.PipelineEngine.Execute: a call that stays queued gives up after a number of polls in vain, because a method has to end; NoDeadlock, CallEnds and AllCanReturn in EngineProgress are about calls that wait as long as it takes.
- BEGIN of a transaction as a statement of its own, except in the engine's `cancel`.
- CommandExecutor.Execute: a mebibyte and the order of polls are modelled, the interval between polls is not.
- The text of a command and of an environment variable: a stage command is an opaque string.
- Mutex poisoning, a dropped `execute` future, restarts, and the deletion of projects.
- Triggers, deployment, environments and rollback, which are designed but not implemented.
