# LZUG operations core: a verified model

This project models the parts of the LZUG backend and operator CLI that keep an instance safe while it is
operated, and proves what they promise. Everything is Dafny 4.11; `dafny verify dfyconfig.toml` checks it all.

| files | what they model |
|---|---|
| `RuntimeTypes`, `RuntimeProtocol`, `RuntimeInvariant`, `RuntimeSafety`, `RuntimeHistory`, `RuntimeDurability`, `RuntimeTheorems`, `RuntimeReopening`, `RuntimeStopping`, `RuntimeLoading`, `RuntimeOutcomes`, `RuntimeEndings`, `RuntimeFailures`, `RuntimeSuccess`, `RuntimeLimits`, `RuntimeCoordinator` | the runtime coordinator: ownership, leases, exclusive operations, cancellation, stopping, and the one-record journal that survives crashes |
| `StreamFrames`, `StreamConnection`, `StreamUpload`, `StreamDownload`, `StreamReceiving` | the artifact stream between the Go client and the Python server, byte by byte, and the publication of a downloaded artifact |
| `SocketHistory`, `SocketWorkers`, `SocketTheorems`, `SocketServing`, `SocketStopping`, `SocketLimits` | the admin socket: listener, slots, workers, bounded job history, outcome records, stopping |
| `RateLimiter`, `RequestRateLimiter`, `RateLimiterOrder` | the sliding-window rate limiter and its Retry-After answer |
| `CommandTypes`, `CommandParser`, `CommandPrinter`, `CommandRoundTrip`, `CommandPlain`, `CommandConverse`, `CommandMeaning`, `CommandReading`, `CommandLines` | the CLI's option parser, the printer of interactive sessions, and the registry's rules for names |
| `FileLock`, `QualityEvidence`, `QualityMeaning`, `AdmissionMiddleware` | the re-entrant file lock, the selection of Quality evidence, and the ASGI middleware that holds an admission |
| `Wrappers` | the option type all of them use |

## How the models read

**Runtime.** One action is one section under the coordinator's condition, one step of a journal write, or one
event outside the coordinator (a callback that returns or raises, a wait that times out, a crash). Code of one thread
between two sections belongs to the earlier one. Any number of calls are in flight. A journal write reads the
job, replaces the file, and makes the directory entry durable; each of the last two may fail, and `Disk.maybe` holds every
record a crash may leave. A crash loses memory and all calls and keeps one of those records. Exceptions arise only where
foreign code is called (storage, probe, callbacks, file operations), and where a job id cannot be parsed. `damaged` is history: set
when an exclusive body starts, cleared when a recorded one completes, that is, when its post-check reports ready or, for an
operation nested in initialization, which has no post-check, when its body returns. A body that runs along inside another one,
as `operation` does when its caller already holds the exclusive lease, has no record of its own and clears nothing.

What is promised depends on the callers. Each condition is a predicate in `RuntimeProtocol`, and `RuntimeLimits` has a run for
each that shows what happens without it. `Reachable` says which conditions a run breaks: each run below breaks the one condition it
stands for and meets all others, except `SurvivingExclusiveChild`, which breaks the first two.

| condition | needed for | without it |
|---|---|---|
| `WellNested`: operations called inside an exclusive body end before it, leases opened inside end before its root | exclusion, lifecycle and all below | `OutlivingOperation` (an exclusive body beside an ordinary lease), `LeaseOutlivesRoot`, `SurvivingExclusiveChild` |
| `CalledInside`: inside an exclusive region only the body that it is for calls operations | exclusion, lifecycle and all below | `ProbeCallsOperation` (an exclusive body beside an ordinary lease) |
| `Stacked`: operations nested in one body are called one inside the other, not side by side | the journal's guarantee | `ConcurrentNestedOperations`; from every state: `CalledBesideUnbegun`, `CalledBesideReturned` |
| `Covered`: during initialization, a call made while the job runs is made inside the operation that runs it | the journal's guarantee | `UnrecordedBody` |
| `Ordered`: a nested operation's body ends after the calls that run along with it | the journal's guarantee | `OutlivingBody`; from every state: `EndedUnderRide` |
| `Propagates`: `prepare` does not return normally while the last body it ran had raised | the journal's guarantee | `SwallowedFailure`; from every state: `PreparedReopening` |

The first two are exact: a run keeps regions alone, and nested operations inside a region's body, in all its states if and only if all
its steps meet them (`ExclusionExactly`). The others are sufficient, and a breach leads to a body without a record from all the states
that the lemmas named above start from. It does not always: an uncovered body may find the start record of an earlier operation still
on disk (`RecordedByAnother`).

The statements about stopping (`RuntimeStopping`), about leases that ended, and about a busy flag nobody gives back hold of every run
without any condition.

**Streams.** A connection takes any part of each write, delivers any part of what was sent in pieces of any size, and may
fail at every step unless it is called reliable. SHA-256 and the JSON decoders are parameters; all that is asked of a decoder
is that it reads back the two terminators, whose bytes are modelled exactly.

**Admin socket.** One action is one section under the lock, one semaphore operation, or the end of a foreign call. Job ids are the
workers' numbers, so they are distinct. Every exception path of a worker is a program point. The flag
`_artifact_cleanup_failed` is read before the artifact slot is taken, so an exchange may still begin after it was set.

**Rate limiter.** Calls are serialized, the clock does not run backwards, and times are reals.

**CLI.** Strings are sequences of characters, integers are 64-bit, and a command's own `Validate` hook is a parameter.

## Findings

- A job that was waiting when its process died, and owes nothing, can be cancelled while the next start loads it: `_load_job` works
  outside the condition, and `cancel` accepts between the assignment of the job and the test of its status. The instance is then prepared
  although the journal it found demands recovery (`CancelledWhileLoading`). In every run, initialization reaches `prepare` if and only
  if nothing failed before it and the journal it loaded either demands no recovery or was such a record, cancelled in that gap
  (`StartDecides`).
- A `prepare` callback that swallows the failure of a nested operation lets initialization reopen the instance on damaged storage.
  As long as the other conditions were met, this happens exactly when the last body it ran raised; the job shows it as failed unless the
  start record of a later operation could not be written either, in which case it is still running (`PreparedReopening`, `SwallowedFailure`).
- If the start record of a nested operation cannot be written and `prepare` calls `operation` again, the job in memory is still
  running, so the second body runs without any record of its own (`UnrecordedBody`). Such a body begins under damage done before exactly
  when its call is covered or the last body raised, and every record demands recovery then (`RideCoverage`); otherwise it is on record
  only by the accident of `RecordedByAnother`.
- Two operations called at once inside `prepare` overwrite each other's job, so a crash during the second one goes unnoticed
  (`ConcurrentNestedOperations`).
- A lease opened inside an exclusive region that outlives it still passes as exclusive (`SurvivingExclusiveChild`); the region itself is not
  alone as soon as its root closes before such a lease (`LeaseOutlivesRoot`).
- A waiting `stop` does not look at the owner again, so it ends whatever claim it finds. It finds the instance stopping exactly when
  `stop` was called since that claim was granted, and therefore always if no claim was granted since it began to wait
  (`WakeEndsClaim`). One waiter is enough for it to end a claim that nobody asked to stop (`LaterClaim`), and a waiter may also find
  a later claim in stopping because somebody else asked for it (`LaterClaimStopping`).
- An operation that raises leaves a job that demands recovery exactly when its drain had gone through, or it began in error, or it
  inherited the demand, whether or not its body ran (`DemandAfterRaise`). If its drain had gone through and its running record then
  failed, the alarm is false: the instance is ready and undamaged and the next start ends in recovery (`FalseAlarm`).
- `operation` with a job id that is not a UUID raises after it set the busy flag. Short of a crash nothing gives the flag back: nothing is
  admitted and ownership is never released (`BusyForGood`, `UnparsableJobId`, `BusyLeftBehind`). Busy means that some call drives exactly
  as long as no such call was made (`LifecycleOfEveryRun`).
- Waiting exactly as long as Retry-After says can be too short by less than a millisecond; `RetryOnTime` says exactly when,
  `RetryTooEarly` gives an input, and `RetryHonoured` shows that one more millisecond always suffices.
- A call that was made is recorded `rejected` exactly when that call itself raised the transport's error, as a package service does
  for a runtime conflict; a production that was begun, also when the connection failed it (`OutcomesAreHonest`, `RejectedAfterCall`).
- The printer drops a `false` of a boolean option whose default is true, and only that (`FalseMayBeLost`); `FalseLost` gives an input.
  No command of the CLI declares such an option: all its booleans default to false.

## Model

| member | source | states |
|---|---|---|
| `RuntimeCoordinator.Coordinator.constructor` | backend/src/backend/runtime.py:176-188 | a new coordinator is unowned, stopped and the memory of a system that has just booted |
| `RuntimeCoordinator.Coordinator.Claim` | backend/src/backend/runtime.py:241-258 | ownership is granted exactly when it is free, and a claim starts with no live lease and no exclusive work |
| `RuntimeCoordinator.Coordinator.BeginInitialize` | backend/src/backend/runtime.py:260-269 | from then on initialization drives alone and every live lease descends from its root |
| `RuntimeCoordinator.Coordinator.FinishInitialize` | backend/src/backend/runtime.py:282-288 | nothing live and no exclusive work is left, and ordinary work is admitted exactly if the inspection said ready and nobody asked to stop |
| `RuntimeCoordinator.Coordinator.Admit` | backend/src/backend/runtime.py:290-303 | work of a finished context is refused, of a live one always admitted, descending from it and as exclusive as it; any other only while no exclusive work is under way |
| `RuntimeCoordinator.Coordinator.InspectStorage` | backend/src/backend/runtime.py:321-328 | granted only while no exclusive work is under way, and counted like any lease |
| `RuntimeCoordinator.Coordinator.Leave` | backend/src/backend/runtime.py:307-311 | that lease ends and no other changes; the counter is zero exactly when no counted lease is live |
| `RuntimeCoordinator.Coordinator.BeginOperation` | backend/src/backend/runtime.py:371-393 | the call drives alone and its waiting job owes recovery if the instance was in error or its predecessor did; with an unparsable id nobody drives and busy stays |
| `RuntimeCoordinator.Coordinator.DrainPass` | backend/src/backend/runtime.py:425-436 | it proceeds only with no lease live at all and then owes recovery; a job called off never proceeds |
| `RuntimeCoordinator.Coordinator.Cancel` | backend/src/backend/runtime.py:438-447 | accepted only for the waiting job with that id, whose body has not started; what it owed it still owes |
| `RuntimeCoordinator.Coordinator.FinishJob` | backend/src/backend/runtime.py:524-535 | as a record the finished job demands nothing after success, recovery after failure, and after cancelling what it demanded before |
| `RuntimeCoordinator.Coordinator.FinishOperation` | backend/src/backend/runtime.py:416-421 | nobody drives any more, and after a success nothing is live and ordinary work is admitted unless stopping |
| `RuntimeCoordinator.Coordinator.BeginStop` | backend/src/backend/runtime.py:476-490 | ownership released at once means nothing live and no exclusive work; otherwise the runtime is stopping and a waiter waits for this claim |
| `RuntimeCoordinator.Coordinator.StopPass` | backend/src/backend/runtime.py:481-490 | a woken waiter releases whatever claim it finds, and only with nothing live and no exclusive work |
| `RuntimeCoordinator.Coordinator.ReportsReady` | backend/src/backend/runtime.py:189-198 | the ready flag is true exactly when an ordinary request would be admitted |
| `RuntimeCoordinator.Coordinator.Meanwhile` | backend/src/backend/runtime.py:537-560 | every step of a call in flight between the sections keeps the object the memory of a system with the coordinator's guarantees |
| `RuntimeSafety.StepSafe` | backend/src/backend/runtime.py:241-490 | every step of any call that nests its work, and every crash, keeps ownership, lease forest, counter, single driver and the sealed region |
| `RuntimeSafety.OperatorSafe` | backend/src/backend/runtime.py:396-421 | the same for each step of an operation |
| `RuntimeSafety.InitializerSafe` | backend/src/backend/runtime.py:267-288 | the same for each step of initialization |
| `RuntimeSafety.NestedSafe` | backend/src/backend/runtime.py:449-467 | the same for each step of an operation nested in initialization |
| `RuntimeSafety.RunningSafe` | backend/src/backend/runtime.py:398-401 | when the running record is durable, the region opens with no lease live but its own root |
| `RuntimeInvariant.DescendantsExclusive` | backend/src/backend/runtime.py:297-302 | exclusivity is inherited along the whole line of parents |
| `RuntimeInvariant.LiveCountZero` | backend/src/backend/runtime.py:303-312 | the counter is zero exactly when no counted lease is live |
| `RuntimeHistory.StepHistory` | backend/src/backend/runtime.py:394-447 | every step keeps each operation's history truthful: what was cancelled never started, what returned was checked and saved |
| `RuntimeHistory.StepGrows` | backend/src/backend/runtime.py:290-349 | leases only end, new leases have live parents, and what happened to a call stays |
| `RuntimeDurability.StepDurable` | backend/src/backend/runtime.py:269-276 | every disciplined step and every crash keeps the journal's guarantee |
| `RuntimeDurability.OperatorDurable` | backend/src/backend/runtime.py:396-421 | the same for each step of an operation, including every failing journal write |
| `RuntimeDurability.InitializerDurable` | backend/src/backend/runtime.py:268-288 | the same for loading, interrupting, deciding, preparing and inspecting |
| `RuntimeDurability.NestedMoveDurable` | backend/src/backend/runtime.py:449-467 | the same for an operation nested in initialization |
| `RuntimeDurability.CancelDurable` | backend/src/backend/runtime.py:438-447 | cancelling a waiting job never drops a recovery demand |
| `RuntimeDurability.RideCoverage` | backend/src/backend/runtime.py:362-370 | a body that runs along begins under damage done before exactly when its call is covered or the last body raised, and every record then requires recovery |
| `RuntimeDurability.RebootDurable` | backend/src/backend/runtime.py:542-576 | whichever record survives a crash, the guarantee still holds |
| `RuntimeDurability.SealedIsExclusive` | backend/src/backend/runtime.py:340-349 | in a sealed region only leases of exclusive work are live |
| `RuntimeTheorems.NestedRunKeeps` | backend/src/backend/runtime.py:241-490 | safety and histories hold after every well-nested run |
| `RuntimeTheorems.DisciplinedRunKeeps` | backend/src/backend/runtime.py:260-467 | the journal's guarantee holds after every disciplined run with crashes and failing writes |
| `RuntimeTheorems.ExclusiveRegion` | backend/src/backend/runtime.py:260-288 | while an operation is past its drain or initialization runs, nobody else drives and every live lease descends from its root |
| `RuntimeTheorems.NestedCallsAreCovered` | backend/src/backend/runtime.py:360-370 | an operation called inside an exclusive body runs only inside such a region |
| `RuntimeTheorems.StepExclusive` | backend/src/backend/runtime.py:340-370 | from a safe state, a step keeps regions alone and nested operations inside a body if and only if it is well nested |
| `RuntimeTheorems.ExclusionExactly` | backend/src/backend/runtime.py:340-370 | every state of a run has these guarantees if and only if all its steps are well nested |
| `RuntimeTheorems.FinishedLeaseIsNeverReentered` | backend/src/backend/runtime.py:157-164 | a finished lease stays finished and no later lease inherits from it |
| `RuntimeTheorems.LifecycleOfEveryRun` | backend/src/backend/runtime.py:303-312 | stopped exactly without owner, maintenance or migrating implies busy, the counter equals the live leases, and busy means that some call drives if and only if no call with an unparsable id was made |
| `RuntimeTheorems.StoppingIsFinal` | backend/src/backend/runtime.py:492-495 | short of a crash, stopping is left only to stopped, and only when idle |
| `RuntimeTheorems.OwnershipEndsIdle` | backend/src/backend/runtime.py:469-490 | ownership is given up only with no live lease and no call driving |
| `RuntimeTheorems.FlagsPersist` | backend/src/backend/runtime.py:394-421 | that a body started, or that a cancellation was accepted, is never undone by any run |
| `RuntimeTheorems.CancelledBodyNeverRuns` | backend/src/backend/runtime.py:438-447 | once cancel returned true, no operation that was in flight then ever runs its body or returns normally, whatever follows |
| `RuntimeTheorems.OperationOutcome` | backend/src/backend/runtime.py:394-421 | an operation returns only after body, ready post-check and durable success record; one that raises after its body started left its job failed |
| `RuntimeTheorems.DamageIsRemembered` | backend/src/backend/runtime.py:387-421 | while a body has started without completing, every record a crash may leave loads to a job that requires recovery, admission and inspection are refused and initialization cannot reopen |
| `RuntimeTheorems.DamageEndsBySuccess` | backend/src/backend/runtime.py:402-406 | only a completed body ends the damage |
| `RuntimeTheorems.ClosedUntilRepaired` | backend/src/backend/runtime.py:524-576 | through any crashes, restarts and failed attempts, every record loads to a job that requires recovery and no ordinary lease is granted until a body completes |
| `RuntimeTheorems.BodiesAreCovered` | backend/src/backend/runtime.py:360-402 | while any exclusive body is in progress, also one that runs along, every record a crash may leave loads to a job that requires recovery |
| `RuntimeTheorems.DemandAfterRaise` | backend/src/backend/runtime.py:408-415 | an operation that raised, before its body or after, leaves a demand exactly if its drain had gone through, it began in error or it inherited one |
| `RuntimeTheorems.BusyForGood` | backend/src/backend/runtime.py:373-378 | short of a crash, a busy flag without a driver is never given back: nothing ordinary is admitted, started or released |
| `RuntimeTheorems.UnparsableJobId` | backend/src/backend/runtime.py:379-393 | in every reachable state a call with an unparsable job id that is not refused has that effect |
| `RuntimeTheorems.WedgedByCall` | backend/src/backend/runtime.py:379-393 | a run leaves busy behind exactly when such a call was made since the last crash |
| `RuntimeTheorems.PreparedReopening` | backend/src/backend/runtime.py:274-288 | where the other conditions were met: if prepare returns and the probe reports ready, ordinary work is admitted, on damaged storage exactly when the last body raised; the job is then failed, or running after a failed start record |
| `RuntimeReopening.StepClears` | backend/src/backend/runtime.py:406-421 | no step of any call disturbs a success on its way to the disk |
| `RuntimeReopening.SuccessReopens` | backend/src/backend/runtime.py:406-421 | when an operation returns, its success is the only record a crash may leave, demands nothing, and ordinary work is admitted again unless stopping |
| `RuntimeReopening.JournalDecides` | backend/src/backend/runtime.py:268-276 | left alone, with nothing failing and nobody cancelling, initialization prepares the instance exactly when the journal does not demand recovery |
| `RuntimeReopening.InterruptedRecovers` | backend/src/backend/runtime.py:575-576 | an unfinished or failed job is written back under its own id and operation as interrupted and demanding recovery, and initialization closes in error |
| `RuntimeReopening.LoadsWhatWasSaved` | backend/src/backend/runtime.py:542-574 | every saved job loads as itself |
| `RuntimeLoading.StartDecides` | backend/src/backend/runtime.py:562-576 | in every run, initialization has reached prepare if and only if nothing failed before and the journal it loaded demands no recovery, or was a waiting record that owes nothing and was cancelled before the test of its status |
| `RuntimeLoading.StepLoads` | backend/src/backend/runtime.py:260-288 | every step keeps what an initialization knows of the journal it loaded, and what it decided by it |
| `RuntimeOutcomes.GrantedExactly` | backend/src/backend/runtime.py:241-393 | in every reachable state each request is granted exactly for the stated reasons: the lifecycle state, and that no call drives and none with an unparsable id left busy behind |
| `RuntimeOutcomes.CancelsExactly` | backend/src/backend/runtime.py:438-447 | in every reachable state a cancel is accepted exactly for the job with that id that waits while some call is busy, and changes its status alone |
| `RuntimeOutcomes.NestedCallExactly` | backend/src/backend/runtime.py:359-370 | a call inside an exclusive body gets a job of its own exactly during initialization while no job runs; otherwise its body runs along at once |
| `RuntimeOutcomes.CancelledRestores` | backend/src/backend/runtime.py:408-415 | in every run, an operation that finishes its job as cancelled, whether cancelled, timed out or not recorded, has put back the state that its call found, unless somebody asked to stop |
| `RuntimeOutcomes.OperationLeaves` | backend/src/backend/runtime.py:396-421 | in every run, a success leaves the instance ready, a failure in error, a cancelled call as it found it or, if that could not be recorded, in error; unless somebody asked to stop |
| `RuntimeOutcomes.CancelledReopens` | backend/src/backend/runtime.py:408-421 | cancelled from ready, on record and without a stop, ordinary work is admitted again when the call ends |
| `RuntimeOutcomes.StepLeads` | backend/src/backend/runtime.py:394-421 | every step of any call keeps what an operation owes to the state it found |
| `RuntimeEndings.InitializationLeaves` | backend/src/backend/runtime.py:270-288 | in every run, initialization leaves the instance as the probe reported it, and in error if the probe reported nothing, unless the runtime is stopping |
| `RuntimeEndings.RaisedUnprobed` | backend/src/backend/runtime.py:277-281 | whatever raises during initialization, prepare and the probe included, it ends without a report of the probe |
| `RuntimeEndings.WaitersExactly` | backend/src/backend/runtime.py:481-490 | a waiting stop wakes up exactly when nothing counted is live and nobody drives, and can give up exactly until then |
| `RuntimeEndings.MayAlwaysFail` | backend/src/backend/runtime.py:394-421 | whatever a call in flight waits for may fail, and the call goes on, also a drain at its deadline |
| `RuntimeEndings.GoesOn` | backend/src/backend/runtime.py:425-436 | a call in flight can always go on, except that a drain waits exactly while a counted lease is live and nobody called it off |
| `RuntimeFailures.SaveLeaves` | backend/src/backend/runtime.py:537-560 | what a crash may leave during a write: the old records, then either, then the new one alone; a failing step changes nothing |
| `RuntimeFailures.SaveOrder` | backend/src/backend/runtime.py:542-560 | a write reads the job, replaces the file and syncs the directory in this order, and what fails in the last two is raised |
| `RuntimeFailures.CrashFinds` | backend/src/backend/runtime.py:562-576 | what one start after a crash finds is all that any further crash before the next write can find, and no call and no lease survives |
| `RuntimeFailures.RefusedRecord` | backend/src/backend/runtime.py:524-540 | a record at the end of an operation that the operating system refused leaves the instance in error, and nothing else about it does |
| `RuntimeFailures.RefusedInterruption` | backend/src/backend/runtime.py:277-281 | if the record of an interrupted job is refused, initialization goes on to close as broken, in error if the operating system refused it |
| `RuntimeFailures.RefusedNested` | backend/src/backend/runtime.py:449-467 | a nested operation raises when either of its records is refused; refusing the second puts the instance in error, refusing the first changes nothing |
| `RuntimeFailures.DoomedStep` | backend/src/backend/runtime.py:394-421 | once something has failed, no step of any call leads an operation back to a normal return |
| `RuntimeFailures.FailureIsFinal` | backend/src/backend/runtime.py:394-436 | if a write, the lock, the body or the check of an operation fails, or its drain runs out of time, the call never returns normally in any run |
| `RuntimeSuccess.OperatorGoesWell` | backend/src/backend/runtime.py:394-421 | an operation in which nothing failed, alone and not called off, goes one step further when that step goes well, with the same job, and stays alone |
| `RuntimeSuccess.AloneSucceeds` | backend/src/backend/runtime.py:394-421 | from every reachable state in which it is alone and not called off, an operation in which nothing fails returns after exactly the steps it has left: success is the only record, the instance is ready |
| `RuntimeSuccess.QuietCallSucceeds` | backend/src/backend/runtime.py:371-421 | a call granted while no lease is live returns after sixteen steps if nothing fails |
| `RuntimeStopping.WakeEndsClaim` | backend/src/backend/runtime.py:481-490 | in every run, a waiter that wakes up to an owned runtime finds it stopping exactly when stop was called since that claim; its own claim it always ends in stopping |
| `RuntimeStopping.StepStops` | backend/src/backend/runtime.py:469-495 | every step keeps an owned runtime stopping exactly if stop was called on its claim |
| `RuntimeLimits.ReachableByRun` | backend/src/backend/runtime.py:241-490 | what the lemmas below reach is reached by a run, and by a disciplined one if no condition is broken |
| `RuntimeLimits.SwallowedFailure` | backend/src/backend/runtime.py:274-276 | a run in which prepare swallows a failure and the instance reopens damaged |
| `RuntimeLimits.OutlivingOperation` | backend/src/backend/runtime.py:274-276 | a run in which prepare returns before an operation it called, and its exclusive body runs beside an ordinary lease |
| `RuntimeLimits.ProbeCallsOperation` | backend/src/backend/runtime.py:362-370 | a run in which the probe calls an operation, and its exclusive body runs beside an ordinary lease |
| `RuntimeLimits.UnrecordedBody` | backend/src/backend/runtime.py:459-460 | a run in which a body is under way after a failed start record and no record demands recovery |
| `RuntimeLimits.OutlivingBody` | backend/src/backend/runtime.py:365-369 | a run in which success is recorded while a body that runs along is still under way |
| `RuntimeLimits.ConcurrentNestedOperations` | backend/src/backend/runtime.py:365-369 | a run in which a body is under way and no record demands recovery |
| `RuntimeLimits.SurvivingExclusiveChild` | backend/src/backend/runtime.py:362-370 | a run in which a lease that outlived its region lets exclusive work run beside an ordinary lease |
| `RuntimeLimits.LeaseOutlivesRoot` | backend/src/backend/runtime.py:340-349 | a run in which a lease opened inside a region is live after its root closed |
| `RuntimeLimits.RecordedByAnother` | backend/src/backend/runtime.py:459-467 | a run after which an uncovered body would begin with every record requiring recovery, left by an earlier operation |
| `RuntimeLimits.EndedUnderRide` | backend/src/backend/runtime.py:365-369 | from every state in which a nested body returns under a call that runs along, a run leads to that success on disk under the other body |
| `RuntimeLimits.CalledBesideUnbegun` | backend/src/backend/runtime.py:365-369 | from every state in which an operation is called beside one that has not begun, a run leads to a body with no record that demands recovery |
| `RuntimeLimits.CalledBesideReturned` | backend/src/backend/runtime.py:365-369 | the same beside an operation whose body has returned |
| `RuntimeLimits.CancelledWhileLoading` | backend/src/backend/runtime.py:562-576 | a run without any failure in which the journal demands recovery and the instance is prepared, because the loaded job was cancelled before its status was tested |
| `RuntimeLimits.LaterClaim` | backend/src/backend/runtime.py:481-490 | a run in which one waiter stops a claim made after another stop had released the first |
| `RuntimeLimits.LaterClaimStopping` | backend/src/backend/runtime.py:481-490 | a run in which a waiter finds a later claim in stopping because somebody else asked |
| `RuntimeLimits.FalseAlarm` | backend/src/backend/runtime.py:398-415 | a run in which the running record fails: the instance is ready and undamaged and every record demands recovery |
| `RuntimeLimits.BusyLeftBehind` | backend/src/backend/runtime.py:379-393 | a run in which busy is set and nobody drives |
| `StreamFrames.NumberOfHeader` | backend/src/backend/admin_socket_protocol.py:78-80 | a four-byte big-endian header is read back as the number it encodes |
| `StreamFrames.ParseEncode` | operator-cli/internal/admincli/socket_artifacts.go:268-288 | reading back a frame consumes exactly its bytes, whatever follows |
| `StreamFrames.ParsePartial` | backend/src/backend/admin_socket_protocol.py:35-43 | a frame cut short anywhere is not read |
| `StreamFrames.DataAlone` | backend/src/backend/admin_socket_artifacts.py:113-121 | data frames alone, cut anywhere, never lead to an accepted end |
| `StreamFrames.DataThenControl` | backend/src/backend/admin_socket_artifacts.py:113-130 | data followed by a control frame is collected completely, or a bound stops the reader |
| `StreamFrames.CutBeforeControl` | backend/src/backend/admin_socket_artifacts.py:113-130 | a stream cut anywhere before the last byte of its terminator has no end |
| `StreamFrames.EndFits` | backend/src/backend/admin_socket_protocol.py:81-82 | both sides' terminators fit the bound for control frames in a stream |
| `StreamFrames.EndsInjective` | backend/src/backend/admin_socket_artifacts.py:102-103 | no two streams have the same terminator, on either side |
| `StreamFrames.EndsDisjoint` | operator-cli/internal/admincli/socket_artifacts.go:199-200 | the two sides' terminators are never the same bytes |
| `StreamFrames.DecoderExists` | backend/src/backend/admin_socket_protocol.py:63-73 | a decoder that reads back both terminators exists, whatever the digest function |
| `StreamConnection.WritePart` | operator-cli/internal/admincli/socket_transport.go:250-260 | short writes: only a prefix is ever sent, all of it on success, and always over a reliable connection |
| `StreamConnection.Receive` | backend/src/backend/admin_socket_protocol.py:35-43 | exactly the wanted bytes in order, however they arrive, or an error |
| `StreamConnection.ReadFrame` | backend/src/backend/admin_socket_protocol.py:76-84 | one frame off the wire under any fragmentation, or an error |
| `StreamUpload.TranscriptThen` | backend/src/backend/admin_socket_artifacts.py:122-134 | a transcript is accepted exactly when nothing follows it |
| `StreamUpload.TranscriptExact` | backend/src/backend/admin_socket_artifacts.py:106-137 | the transcript is accepted with its content; every proper prefix and every extension is rejected |
| `StreamUpload.WriteData` | operator-cli/internal/admincli/socket_artifacts.go:247-266 | one data frame or part of it, nothing for an empty or oversized payload |
| `StreamUpload.WriteControl` | operator-cli/internal/admincli/socket_transport.go:243-261 | one control frame or part of it, nothing for an empty or oversized payload |
| `StreamUpload.SendArtifact` | operator-cli/internal/admincli/socket_artifacts.go:169-209 | however it ends, a prefix of the data frames is on the wire, and any of the terminator only after this call read the source to its end; success means all of it was sent, and a good source over a reliable connection succeeds; it bears with 99 reads in a row that return nothing and not with a hundred |
| `StreamUpload.ReceivePackage` | backend/src/backend/admin_socket_artifacts.py:106-137 | it returns only with the content the whole wire stands for, and over a reliable connection exactly then |
| `StreamUpload.UploadAllOrNothing` | backend/src/backend/admin_socket_artifacts.py:106-137 | whatever part of a transmission arrives, an accepted file is the whole source and the client had read it to its end |
| `StreamUpload.CompleteUploadAccepted` | operator-cli/internal/admincli/socket_artifacts.go:195-201 | a completely sent artifact is accepted |
| `StreamUpload.Upload` | operator-cli/internal/admincli/socket_artifacts.go:77-88 | client, connection and server together: an accepted package is the whole source, read to its end, and an undisturbed connection delivers it |
| `StreamDownload.StreamWriter.Write` | backend/src/backend/admin_socket_artifacts.py:86-94 | a write is framed, counted and hashed completely, refused without sending exactly when over the limit, or broken off with the connection |
| `StreamDownload.StreamWriter.End` | backend/src/backend/admin_socket_artifacts.py:99-103 | the terminator for exactly what was written |
| `StreamDownload.WriteAll` | backend/src/backend/admin_socket_artifacts.py:197-204 | the writes go out as one stream, up to the first that exceeds the limit or breaks off |
| `StreamDownload.ReceiveArtifact` | operator-cli/internal/admincli/socket_artifacts.go:211-245 | under any fragmentation a verified transfer has written exactly the content the wire stands for |
| `StreamDownload.Produce` | operator-cli/internal/admincli/socket_artifacts.go:60-102 | delivered only after a verified stream, an OK result and end of input |
| `StreamDownload.ClientExists` | operator-cli/internal/admincli/socket_transport.go:279-293 | a client decoder that reads back the server's terminator exists |
| `StreamDownload.DownloadAgreement` | backend/src/backend/admin_socket_artifacts.py:86-103 | however the service cuts its output, the Go client accepts every frame and the terminator and has exactly that output |
| `StreamDownload.CutDownloadIncomplete` | operator-cli/internal/admincli/socket_artifacts.go:218-242 | a stream cut before its last byte is never complete |
| `StreamDownload.DownloadOutcome` | operator-cli/internal/admincli/socket_artifacts.go:65-101 | all of what the server sends is delivered only for a service that returned and an OK result; a failure result is a refusal, also after partial data, and an OK result after partial data delivers nothing |
| `StreamDownload.OnlyWholeDownloads` | operator-cli/internal/admincli/socket_artifacts.go:60-102 | whatever proper part of the exchange arrives, the client neither delivers nor takes a refusal |
| `StreamDownload.Download` | backend/src/backend/admin_socket_artifacts.py:183-260 | service, server, connection and client together: delivered means all of what a service that returned has written; undisturbed, the result decides, a service that raises is refused, and the limit decides which of them it is |
| `StreamDownload.Directory.Link` | operator-cli/internal/admincli/artifact_crypto.go:233-235 | a target is never overwritten |
| `StreamDownload.WriteProtected` | operator-cli/internal/admincli/artifact_crypto.go:175-240 | the target appears exactly with the verified content of a successful exchange; otherwise the directory is as before |
| `StreamReceiving.FrameLayout` | backend/src/backend/admin_socket_protocol.py:86-92 | a frame is four bytes of length, most significant first, whose top bit marks data, and the payload |
| `StreamReceiving.AcceptExactly` | backend/src/backend/admin_socket_artifacts.py:106-137 | whatever anybody sends, a package is accepted if and only if it is data within the limits, one control frame that decodes to its length and digest, and nothing more |
| `StreamReceiving.AcceptedIfTrue` | backend/src/backend/admin_socket_artifacts.py:122-134 | after any data, a control frame and extra bytes are accepted exactly if the frame tells length and digest, the data is not empty and within the limit, and there are no extra bytes |
| `StreamReceiving.DeliveredExactly` | operator-cli/internal/admincli/socket_artifacts.go:60-102 | whatever anybody sends, an artifact is delivered if and only if it is data within the bounds, a terminator with its length and digest, one OK result, and nothing more |
| `StreamReceiving.RefusedExactly` | operator-cli/internal/admincli/socket_artifacts.go:65-101 | the client knows of a failure if and only if a failure result stands in the terminator's place, or alone behind a true terminator |
| `SocketHistory.RecordWorks` | backend/src/backend/admin_socket.py:212-220 | recording finds room, keeps the bound and the job's own record, and forgets only finished jobs |
| `SocketHistory.RecordFails` | backend/src/backend/admin_socket.py:216-220 | recording fails exactly when the job is new and running and the table is full of running jobs |
| `SocketHistory.FinishedExists` | backend/src/backend/admin_socket.py:217-219 | with running jobs bounded by slots and slots by the table, a full table holds a finished job |
| `SocketHistory.PutFinds` | backend/src/backend/admin_socket.py:214-215 | an update changes what a query finds for that job only |
| `SocketHistory.DropFinds` | backend/src/backend/admin_socket.py:220-220 | deleting a record changes what a query finds for that job only |
| `SocketHistory.JobHistory.Record` | backend/src/backend/admin_socket.py:212-220 | update in place or append, then evict the oldest finished records until the bound holds, or fail with none left |
| `SocketHistory.JobHistory.FirstTerminal` | backend/src/backend/admin_socket.py:217-219 | the first record whose job does not run |
| `SocketTheorems.StepKeeps` | backend/src/backend/admin_socket.py:174-193 | every step of listener, workers and stop keeps slots, table, records and artifact slot consistent |
| `SocketTheorems.RecordStepOk` | backend/src/backend/admin_socket.py:339-384 | each recording, on every exception path, keeps the record honest |
| `SocketTheorems.WorkStepOk` | backend/src/backend/admin_socket.py:280-327 | so does every step between recordings |
| `SocketTheorems.RunningJobsAreHeld` | backend/src/backend/admin_socket.py:182-193 | every running record belongs to a worker holding a slot, and slots are within the table's bound |
| `SocketTheorems.HistoryNeverStuck` | backend/src/backend/admin_socket.py:61-73 | in every interleaving each recording finds room, running jobs keep their records and no worker dies with its slot |
| `SocketTheorems.QueryIsTruthful` | backend/src/backend/admin_socket.py:256-271 | a query for a running job finds its present record; any other job is answered by its record, then by the runtime's own job of that id, and is unknown only without either |
| `SocketTheorems.SlotsAreBounded` | backend/src/backend/admin_socket.py:182-193 | connections are bounded by slots, slots return, and at most one artifact exchange is under way |
| `SocketTheorems.OutcomesAreHonest` | backend/src/backend/admin_socket.py:339-384 | a finished job carries the answer given and is sent exactly when the result was written; a call made is rejected exactly when it raised the transport's error, a production begun exactly when it or the connection failed |
| `SocketTheorems.DecisionsStay` | backend/src/backend/admin_socket.py:356-384 | no job returns to running, rejected and unknown are final, and so is a delivery |
| `SocketTheorems.StopDrains` | backend/src/backend/admin_socket.py:397-417 | once stop has given up the path, no worker is registered and no job record changes |
| `SocketServing.ServesAsWritten` | backend/src/backend/admin_socket.py:280-384 | in every interleaving, a worker that is done has the record, the calls and the answer that the statements and handlers of `_serve`, written down in order, give for what it met |
| `SocketServing.StepRemains` | backend/src/backend/admin_socket.py:280-384 | no step of any worker changes what the statements still to come will give |
| `SocketStopping.StoppedIsNotServed` | backend/src/backend/admin_socket.py:293-294 | in every run, a worker at or before the test when the socket is asked to stop never calls anything and does not end with a success or a failure |
| `SocketStopping.ControlIsCalled` | backend/src/backend/admin_socket.py:293-323 | without a stop, a command of the application is called once it is tested, noted and audited |
| `SocketStopping.StoppingStays` | backend/src/backend/admin_socket.py:182-190 | once stopping, no connection is admitted any more |
| `SocketStopping.AcceptsExactly` | backend/src/backend/admin_socket.py:174-182 | a connection is taken exactly while the listener listens and one more is allowed |
| `SocketStopping.ClosesExactly` | backend/src/backend/admin_socket.py:405-417 | the path is given up exactly once the listener is over and no worker is registered |
| `SocketStopping.CleanupFailedExactly` | backend/src/backend/admin_socket.py:312-313 | packages are refused exactly from the first answer on that says that a cleanup failed |
| `SocketStopping.WorkerProceeds` | backend/src/backend/admin_socket.py:339-384 | every worker that is not gone has a next step |
| `SocketStopping.WorkersEnd` | backend/src/backend/admin_socket.py:339-395 | every worker is gone after at most twenty-four steps of its own |
| `SocketLimits.RejectedAfterCall` | backend/src/backend/admin_socket_artifacts.py:249-250 | a run in which a package service was called and its job is recorded rejected |
| `RequestRateLimiter.Limiter.Create` | backend/src/backend/security.py:49-55 | a limiter exists exactly for a positive limit and window, and starts empty |
| `RequestRateLimiter.Limiter.Check` | backend/src/backend/security.py:57-68 | the object's deques, key order and answer are those of the table function |
| `RequestRateLimiter.Limiter.PruneDeque` | backend/src/backend/security.py:70-73 | the loop drops exactly the expired front |
| `RequestRateLimiter.Limiter.PruneKeys` | backend/src/backend/security.py:75-85 | both loops of the cleanup, with the new table |
| `RequestRateLimiter.Limiter.ExpirePass` | backend/src/backend/security.py:76-82 | one pass over the keys expires all but the preserved one |
| `RequestRateLimiter.Limiter.EvictLoop` | backend/src/backend/security.py:83-85 | the loop always finds a key to remove and ends |
| `RateLimiter.EvictBounds` | backend/src/backend/security.py:83-85 | eviction ends within the bound, never takes the current key and touches only what it forgets |
| `RateLimiterOrder.ForgetsOldestFirst` | backend/src/backend/security.py:83-85 | live keys are forgotten oldest first and only down to the bound; the others keep their order, and a new key is the youngest |
| `RateLimiterOrder.EvictOldest` | backend/src/backend/security.py:83-85 | every key that is forgotten stands before every key that is kept, but for the current one |
| `RateLimiter.CheckEffect` | backend/src/backend/security.py:57-68 | a call records the request exactly when accepted; other keys are left alone, pruned or forgotten |
| `RateLimiter.ExpireAll` | backend/src/backend/security.py:76-82 | going through the keys one by one expires exactly the keys with no live request |
| `RateLimiter.PruneCounts` | backend/src/backend/security.py:70-73 | pruning leaves exactly the times of the window |
| `RateLimiter.DecidesByLog` | backend/src/backend/security.py:57-68 | the decision is the one the unpruned log gives |
| `RateLimiter.CallKeeps` | backend/src/backend/security.py:57-85 | every call keeps each deque a faithful tail of its key's log |
| `RateLimiter.RefinesLog` | backend/src/backend/security.py:57-73 | after any calls, a key never force-evicted is accepted exactly with fewer than limit accepted requests in the window; at most max_keys keys are held |
| `RateLimiter.NoWindowOverrun` | backend/src/backend/security.py:57-73 | no window of that length ever holds more than limit accepted requests of such a key |
| `RateLimiter.ExpiryIsInvisible` | backend/src/backend/security.py:75-82 | with and without the deletion of expired keys, every later call on a key forgotten alive in neither case gets the same answer |
| `RateLimiter.SomethingPlays` | backend/src/backend/security.py:57-68 | from every table any calls lead through some sequence of tables |
| `RateLimiter.AlikeThrough` | backend/src/backend/security.py:57-85 | tables that hold the same live times keep doing so through any calls |
| `RateLimiter.RetryBounds` | backend/src/backend/security.py:63-64 | the announced delay is at least one second, falls short of the true wait by less than a millisecond and exceeds it by less than a second or is one second |
| `RateLimiter.AcceptedAgain` | backend/src/backend/security.py:57-68 | whatever other keys do, the next try is accepted exactly when the true wait is over |
| `RateLimiter.RetryHonoured` | backend/src/backend/security.py:63-64 | a millisecond past the announced delay, or later, the next try is accepted |
| `RateLimiter.RetryOnTime` | backend/src/backend/security.py:63-64 | exactly at the announced delay it is accepted unless the wait exceeded a whole second by less than a millisecond |
| `RateLimiter.RetryTooEarly` | backend/src/backend/security.py:63-64 | an input for which waiting as told is not enough |
| `CommandTypes.AtoiShow` | operator-cli/internal/admincli/parser.go:204-205 | 64-bit integers survive being printed and read |
| `CommandTypes.SplitName` | operator-cli/internal/admincli/parser.go:103-112 | a registered name printed as an option is split into itself |
| `CommandParser.ParseCommandOptions` | operator-cli/internal/admincli/parser.go:160-271 | the whole parser, error by error, equals its specification |
| `CommandParser.ScanArguments` | operator-cli/internal/admincli/parser.go:168-227 | the indexed walk over the arguments equals the walk over what is left |
| `CommandParser.BindArguments` | operator-cli/internal/admincli/parser.go:231-246 | positional arguments are bound in order, with the errors of missing, blank and disallowed ones |
| `CommandParser.CompleteOptions` | operator-cli/internal/admincli/parser.go:247-264 | required options must be there and absent ones get their default |
| `CommandParser.TakeOption` | operator-cli/internal/admincli/parser.go:187-226 | an option never takes more than what follows it |
| `CommandPrinter.ValuesToArgs` | operator-cli/internal/admincli/interactive.go:662-683 | the printer's loops equal their specification |
| `CommandPrinter.PrintedInPlace` | operator-cli/internal/admincli/interactive.go:662-683 | where each token of a printed line stands: the arguments' values in order, then each option as its name alone or its name and then its value, nothing for absent ones and false booleans, and nothing else |
| `CommandPrinter.CheckNames` | operator-cli/internal/admincli/registry.go:143-179 | the registry's loops accept exactly the commands with proper, distinct names and no required argument after an optional one |
| `CommandRoundTrip.ScanPositionals` | operator-cli/internal/admincli/parser.go:174-178 | plain tokens become positional arguments in order |
| `CommandRoundTrip.ScanOptions` | operator-cli/internal/admincli/parser.go:174-226 | printed options are read one by one as written |
| `CommandRoundTrip.ReadBackExactly` | operator-cli/internal/admincli/parser.go:187-226 | a printed value is read back as itself exactly when it meets its option's rules |
| `CommandRoundTrip.RoundTrip` | operator-cli/internal/admincli/parser.go:160-271 | parsing printed well-formed values gives them back in normal form, up to the command's own check |
| `CommandRoundTrip.FalseMayBeLost` | operator-cli/internal/admincli/interactive.go:674-679 | an explicit boolean comes back unless it is false where the default is true |
| `CommandRoundTrip.FalseLost` | operator-cli/internal/admincli/interactive.go:674-679 | an option and a value for which printing and parsing turns false into true |
| `CommandRoundTrip.PresentValuesReturn` | operator-cli/internal/admincli/interactive.go:664-681 | every other present value comes back unchanged |
| `CommandPlain.KeptArePlain` | operator-cli/internal/admincli/parser.go:168-186 | tokens that the walk keeps as they were printed, in front of printed options, are plain |
| `CommandPlain.KeptAfterEnd` | operator-cli/internal/admincli/parser.go:170-178 | a walk that keeps a token that is not plain has ended the options before it, and no option waited for that end |
| `CommandConverse.ComesBackPlain` | operator-cli/internal/admincli/parser.go:160-271 | values that come back were printed with plain positional tokens |
| `CommandConverse.RoundTripExactly` | operator-cli/internal/admincli/interactive.go:662-683 | for every command the registry accepts, values come back in normal form if and only if they are well formed |
| `CommandLines.ParsesExactly` | operator-cli/internal/admincli/parser.go:160-271 | for every registered command and every line: the parser gives values if and only if the line can be read as words, switches and options with texts, each in order and none twice, nothing required is missing, these are the values it says, and the command agrees |
| `CommandLines.EveryLine` | operator-cli/internal/admincli/parser.go:168-227 | every line is read as a whole or up to a first offence |
| `CommandLines.OffenceReported` | operator-cli/internal/admincli/parser.go:179-226 | the first offence is reported as what it is, whatever stands around it: an unknown or repeated option, a boolean with another text, a missing text, a bad integer, a blank text, a text that is no choice |
| `CommandLines.InlineOrBehind` | operator-cli/internal/admincli/parser.go:187-226 | a text behind `=` is the same as the text in the next token |
| `CommandLines.TooManyWords` | operator-cli/internal/admincli/parser.go:228-230 | the first word too many is reported |
| `CommandLines.ArgumentNotMet` | operator-cli/internal/admincli/parser.go:231-246 | the first argument that is missing, blank or no choice is reported |
| `CommandLines.OptionMissing` | operator-cli/internal/admincli/parser.go:247-250 | the first required option that is missing is reported |
| `CommandMeaning.BooleanTexts` | operator-cli/internal/admincli/parser.go:188-197 | the six texts of true, the six of false, and no others |
| `CommandMeaning.NumeralExactly` | operator-cli/internal/admincli/parser.go:204-205 | an integer is read from its decimal numeral after a sign and zeros, and from nothing else |
| `CommandMeaning.DefaultExactly` | operator-cli/internal/admincli/parser.go:251-264 | what each kind of option is set to when it was not given |
| `CommandMeaning.NameCharacters` | operator-cli/internal/admincli/registry.go:143-179 | the characters of a registered name |
| `FileLock.LocksBalance` | backend/src/backend/runtime.py:109-130 | however uses nest and raise: no path is locked twice, every body runs under a lock that covers it, every lock is released exactly once, and the system ends as it began |
| `FileLock.HeldIsLocked` | backend/src/backend/runtime.py:113-119 | the context's search finds exactly the lock the system holds |
| `FileLock.LocksExtended` | backend/src/backend/runtime.py:121-124 | a new lease keeps the active paths distinct |
| `FileLock.UpgradeRefused` | backend/src/backend/runtime.py:116-117 | a shared holder asking for an exclusive lock is refused and nothing changes |
| `FileLock.ReentryExactly` | backend/src/backend/runtime.py:113-119 | with a lock held on the path, a block runs its body if and only if that lock is exclusive or a shared one is asked for, asks nothing of the system, and ends as its body ends |
| `FileLock.FirstUseExactly` | backend/src/backend/runtime.py:120-130 | with none held, the body runs exactly if the lock can be had, under it, and the lock is released after it however it ends |
| `FileLock.AfterBlock` | backend/src/backend/runtime.py:109-130 | what comes after a block runs exactly if it ended well or was caught |
| `FileLock.NestedModes` | backend/src/backend/runtime.py:113-119 | shared inside exclusive runs, exclusive inside shared is refused |
| `FileLock.Context.Run` | backend/src/backend/runtime.py:109-130 | code using the lock leaves the lease tuple as it found it |
| `FileLock.Context.Use` | backend/src/backend/runtime.py:109-130 | one use of the lock, with its events and outcome |
| `QualityEvidence.SelectEvidence` | scripts/quality_evidence.py:34-156 | the decision is the one right decision: defer, force, refuse, reuse the highest complete run, or execute because none is complete |
| `QualityEvidence.OneRightDecision` | scripts/quality_evidence.py:56-156 | the observed runs and artifacts leave no choice |
| `QualityMeaning.InvalidExactly` | scripts/quality_evidence.py:45-46 | a query is refused exactly without names or for an age outside one to twenty-four hours |
| `QualityMeaning.WaitsExactly` | scripts/quality_evidence.py:48-70 | in the records' own fields: the answer is to wait exactly if a Quality run of the revision is active, and older than the asking one if a run asks; it is the highest of them |
| `QualityMeaning.ReusesExactly` | scripts/quality_evidence.py:71-156 | in the records' own fields: a run is reused exactly if it is the highest that succeeded and offers every required name once, current, unexpired, not empty and of this revision, and the gate is open |
| `QualityMeaning.CompleteMeans` | scripts/quality_evidence.py:101-142 | the evidence is complete exactly if every name is offered at one place and what is there is good |
| `QualityMeaning.GateMeans` | scripts/quality_evidence.py:78-92 | the gate is open exactly for a run, without Quality runs, or after a success in the attempt that started last |
| `QualityEvidence.MatchingCounts` | scripts/quality_evidence.py:109-117 | comparing name set and count is the same as finding each required name exactly once |
| `QualityEvidence.CompletenessTest` | scripts/quality_evidence.py:109-142 | the tests on a run's evidence are its completeness: one fresh artifact per required name |
| `QualityEvidence.CheckEvidence` | scripts/quality_evidence.py:114-142 | the tests on the extreme dates are tests on every artifact |
| `QualityEvidence.HighestReusable` | scripts/quality_evidence.py:95-150 | the scan finds the highest reusable run or there is none |
| `QualityEvidence.HighestBlocking` | scripts/quality_evidence.py:57-70 | the highest active run the asking one waits for |
| `QualityEvidence.LatestRun` | scripts/quality_evidence.py:82-86 | the first of the runs that started last, if all have readable times |
| `QualityEvidence.Group` | scripts/quality_evidence.py:95-100 | artifacts are grouped by run in order |
| `QualityEvidence.DefersToOlder` | scripts/quality_evidence.py:57-62 | a Quality run waits only for a smaller id |
| `QualityEvidence.OldestNeverDefers` | scripts/quality_evidence.py:56-62 | the oldest active run never waits |
| `QualityEvidence.DeferralsEnd` | scripts/quality_evidence.py:56-70 | every chain of deferrals is finite, whatever each run observes |
| `AdmissionMiddleware.Middleware.Call` | backend/src/backend/fastapi_runtime.py:22-62 | however often it is cancelled and however the inner call ends, the admission is left exactly once and after it |
| `AdmissionMiddleware.BypassesExactly` | backend/src/backend/fastapi_runtime.py:22-32 | a request needs an admission exactly if it is HTTP, no probe, and can change something or is for the API |

## Left out

- `_reason`, `_migration` and the diagnosis texts of the coordinator: they influence no decision.
- Progress in real time, such as a drain that ends by itself: nested leases may keep arriving, only the deadline ends it.
- `runtime_for`, `persistence_access` and the registry of coordinators by path: plumbing around one coordinator.
- The handshake, `open`, `session.result` and the decoding of envelopes in the Go client: an envelope decoder is a parameter.
- `validate_request` and `validSocketArtifact`: field checks with one branch each.
- age encryption, SHA-256 and general JSON: parameters; the terminators are exact.
- After a write of a download broke off with its connection, nothing more is taken to be sent on it.
- Removal of the temporary file of a protected artifact is taken to succeed.
- The `code` and `correlation_id` fields of socket jobs, audit events, and the error frame written after a rejection.
- Global options, invocation lookup, help, completion and rendering of the CLI: user interface.
- Rounding of binary floating point in the rate limiter and in evidence ages: real and integer arithmetic.
- Paging and malformed records of the GitHub responses, and the `age_hours` and `evidence_created_at` fields of the answer.
- HTTP routers, contracts, composition, planning and persistence rules, and the frontend: outside these cores.
