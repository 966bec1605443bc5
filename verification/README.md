# Control plane model

A Dafny model of the hard parts of a multi-tenant shop bot's control plane, and
proofs of what they promise over whole runs and over all inputs.  `dafny verify
dfyconfig.toml` checks everything.

Most components come in three layers: a specification (values, and one function
per lock section, transaction or transformation), the imperative form the source
has (classes and loops, each proved equal to its specification step), and the
theorems, which speak about every run (`IsRun`) or every input.  Beside them stand
the laws: what each operation answers and writes and what follows from it, said of
columns, fields and texts alone, so that they pin the specification functions which
the theorems take by name.  An object of the
stateful components carries the history of what was done to it, and its `Valid()`
says that this history is a run ending in its present state, so the theorems hold
of every object and every sequence of calls.  Every lemma
carries `{:induction false}`: each induction is written out, and none rests on the
verifier's automatic induction hypotheses.

| files | component | source |
|---|---|---|
| `Supervisor.dfy`, `SupervisorRuns.dfy`, `SupervisorTheorems.dfy`, `SupervisorLaws.dfy` | worker supervisor: one thread step per lock section, kill, wait, process death or reaper pass | `backend/bot_manager.py` |
| `Jobs.dfy`, `JobLaws.dfy` | durable job queue | `backend/db.py` |
| `Leases.dfy`, `LeaseLaws.dfy` | owner-fenced control leases and their client | `backend/db.py`, `backend/account_leases.py` |
| `UpdateOps.dfy`, `UpdateLaws.dfy` | update operations, one-use confirmations, mirrored table | `backend/db.py` |
| `Probe.dfy`, `ProbeLaws.dfy` | generation-fenced release probe | `backend/db.py` |
| `Json.dfy`, `Schema.dfy`, `SchemaMeaning.dfy` | strict tool schemas and the undoing of their nulls | `backend/ai_provider_adapters.py` |
| `Replay.dfy`, `TurnLaws.dfy` | parsing of provider turns and their replay | `backend/ai_provider_adapters.py` |
| `History.dfy`, `HistoryLaws.dfy` | conversation history check and batch ordering | `backend/ai_provider_adapters.py` |
| `Text.dfy`, `Deliveries.dfy`, `DeliveryBatch.dfy`, `DeliveryConfig.dfy`, `DeliveryLaws.dfy` | delivery configuration: list, two merges, preview | `backend/automation.py` |
| `Drain.dfy`, `DrainLaws.dfy` | maintenance drain handshake | `backend/app.py` |
| `CompensatingWrite.dfy` | compensating multi-file writes | `backend/account_storage.py` |
| `PromptBudget.dfy` | prompt budget | `backend/ai_reply_engine.py` |
| `Codecs.dfy` | Compose escapes and log frames | `backend/docker_engine.py` |

## Assumptions

- A successful `_terminate_process` means the process is dead. A new or adopted process is one the supervisor did not manage before.
- Owners, tokens, operation ids and confirmation tokens are fresh; each SQL transaction and each lock section is atomic.
- The executor file behind `observe_update_operation` never reports status `staged`, nor a terminal phase under a status that is not terminal (`UpdateRuns.TrustedPayload`). Without the first half an operation can leave `staged` twice (`UpdateRuns.StagedReportRestages`), without the second its phase changes are unbounded (`UpdateRuns.TerminalPhaseWithoutStatus`).
- The clock of a lease run does not go backwards. The other runs put no condition on the clock.

## Where the code does less than a first reading suggests

- A `start` that found no worker holds no reservation, and its spawning section does not compare the generation again: an outside `stop` that lands between the two sections does not cancel it (a reachable run in `SupervisorTheorems.StoppedStartSpawns`, the exact condition in `SupervisorTheorems.UnreservedStartIgnoresStop`). Starts that hold a generation fence or a reservation are always cancelled (`SupervisorTheorems.StopCancelsStart`).
- Filling missing optionals with null and undoing it does not always restore a value whose schema has `anyOf` over objects: an earlier branch can capture the filled value (`SchemaTheorems.EarlierBranchCaptures`). `SchemaTheorems.FillUndoRestores` gives the exact condition and `SchemaTheorems.StaticallyRecoverable` one on the schema alone.
- The batch preview misses a change when an item is bound twice, its first material entry is blank and its shown entry is already disabled (`DeliveryBatch.MissedExample`), and counts one in vain when the shown entry has an `item_ids` that is no list, which the merge leaves alone (`DeliveryBatch.SpuriousExample`). `DeliveryBatch.PreviewIsExact` accounts for every input. Disabling a material item whose payload is blank removes its binding.
- `atomic_write_path` may raise after the replacement, and the docstring's "still holds this operation's payload" is the payload last *tried*: a second write that fails before replacing leaves the first payload in place and the file is named (`WriteTheorems.SecondWriteIsNotUndone`, exact condition in `WriteTheorems.NamedExactlyWhen`).
- A worker-control lease that runs out while `bot_start` is past its maintenance test is invisible to the drain reader, which may report ready just before the worker appears (`DrainRuns.BareStartEscapes`; exactly when in `DrainRuns.SpawnAfterReadyExactlyWhen`). The watcher's stop under the start lock closes that gap (`DrainRuns.WatcherStopIsFinal`).

## Model

| member | source | states |
|---|---|---|
| `Supervisor.Supervisor.CheckSection` | backend/bot_manager.py:1133-1149 | first lock section of start: its answer and program point, from reservations, transition, generation, registered process and mode |
| `Supervisor.Supervisor.PublishSection` | backend/bot_manager.py:1153-1162 | recording a kill result: the transition is popped only on success and only if it is still the current one; waiters are woken |
| `Supervisor.Supervisor.ReserveSection` | backend/bot_manager.py:1167-1175 | refuses on a transition, a reservation or a changed generation; otherwise reserves the slot of a live worker |
| `Supervisor.Supervisor.SpawnSection` | backend/bot_manager.py:1181-1193 | spawning section: cancelled, busy, already running, limit reached, spawn failed or started, with the whole new state |
| `Supervisor.Supervisor.FinishSection` | backend/bot_manager.py:1194-1198 | the finally block drops only its own reservation |
| `Supervisor.Supervisor.StopSection` | backend/bot_manager.py:1204-1226 | stop's first section: a client takes the reservation away, a restart needs it; generation bump; process moved into a transition |
| `Supervisor.Supervisor.RetrySection` | backend/bot_manager.py:1248-1261 | a waiting stop that wakes up: done, cleaned up, timed out or taking over the kill |
| `Supervisor.Supervisor.AdoptSection` | backend/bot_manager.py:404-426 | adopt registers a verified process only if nothing is running, in transition or reserved for the shop |
| `Supervisor.Supervisor.ReapSection` | backend/bot_manager.py:1547-1558 | one reaper pass forgets exactly the registered processes that died and bumps their generations |
| `Supervisor.Supervisor.RunningCount` | backend/bot_manager.py:987-990 | counts the shops with a live process, a transition or a reservation, each once, of everybody or of one user |
| `Supervisor.Supervisor.Continue` | backend/bot_manager.py:1126-1274 | any thread going on by one lock section, kill or wait is one step of the run recorded for the object, so whatever its threads do is a run |
| `Supervisor.Supervisor.Call` | backend/bot_manager.py:1126-1204 | so is a new call of start or stop |
| `Supervisor.Supervisor.Elsewhere` | backend/bot_manager.py:404-426 | and so are adoptions, process deaths and reaper passes |
| `SupervisorRuns.AdvanceKeeps` | backend/bot_manager.py:1126-1274 | every lock section, kill and wait of any thread keeps the invariant of the shared dictionaries |
| `SupervisorTheorems.RunInv` | backend/bot_manager.py:1126-1274 | the invariant of dictionaries, threads and reservations holds in every reachable world of any interleaving |
| `SupervisorTheorems.AtMostOneLiveWorker` | backend/bot_manager.py:404-426 | in every reachable world a live managed process is registered or in its shop's transition, never both, and it is the shop's only live one |
| `SupervisorTheorems.StoppedMeansDead` | backend/bot_manager.py:1201-1274 | the process a stop reported as stopped stays dead for the rest of the run, also when another thread did the killing |
| `SupervisorTheorems.WorkerLimit` | backend/bot_manager.py:1187-1193 | over any stretch of a run the count exceeds the larger of the limit and its value at the start by at most the number of adoptions in between |
| `SupervisorTheorems.CountStep` | backend/bot_manager.py:987-990 | the same for every single step |
| `SupervisorTheorems.RestartKeepsCount` | backend/bot_manager.py:1172-1193 | every step of a mode-change restart, up to and including its spawn, keeps the set of counted shops |
| `SupervisorTheorems.RestartSpawns` | backend/bot_manager.py:1181-1193 | a restart that kept its slot is never refused for the limit or a foreign transition |
| `SupervisorTheorems.SlotSurvives` | backend/bot_manager.py:1165-1198 | between reservation and finally, only an outside stop of that shop takes the slot away |
| `SupervisorTheorems.StopCancelsStart` | backend/bot_manager.py:1201-1211 | an outside stop that lands while a start is fenced by generation or reservation means that start never reports a started worker |
| `SupervisorTheorems.DoomedForever` | backend/bot_manager.py:1165-1198 | a start whose fence is broken stays unable to spawn at every later point |
| `SupervisorTheorems.UnreservedStartIgnoresStop` | backend/bot_manager.py:1181-1211 | the one gap of that fence: an unreserved spawning section starts the worker after an outside stop if and only if the shop has no live worker and no transition and the other shops leave room |
| `SupervisorTheorems.StoppedStartSpawns` | backend/bot_manager.py:1181-1211 | a reachable run of five steps in which a start succeeds after an outside stop landed on it |
| `SupervisorLaws.ModesFollowProcesses` | backend/bot_manager.py:1126-1274 | in every reachable world exactly the registered shops have a mode |
| `SupervisorLaws.StartAnswers` | backend/bot_manager.py:1133-1149 | a call of start ends at once exactly when the slot is held, the transition is being worked on, or a live worker already runs in the requested mode; nothing is written |
| `SupervisorLaws.OtherModeGoesOn` | backend/bot_manager.py:1141-1149 | with a live worker in another mode and nothing else going on the call is not answered, it goes on to the restart |
| `SupervisorLaws.SpawnAnswers` | backend/bot_manager.py:1181-1193 | the six answers of the spawning section, each with its exact condition on slot, transition, worker and count |
| `SupervisorLaws.StartedMeansRunning` | backend/bot_manager.py:1181-1198 | a start that reports success has registered a new live process in the requested mode; any other answer leaves the dictionaries alone |
| `SupervisorLaws.WaitersAreServed` | backend/bot_manager.py:1214-1261 | a waiting stop never waits for nothing: unless the event is set, some thread is still going to set it |
| `SupervisorLaws.OutsideStopWaits` | backend/bot_manager.py:1204-1226 | an outside stop of a shop that is being retired breaks the reservation and waits for that |
| `SupervisorLaws.OutsideStopClears` | backend/bot_manager.py:1204-1226 | one of a shop without a live worker clears what is left of it |
| `SupervisorLaws.OutsideStopDetaches` | backend/bot_manager.py:1204-1226 | one of a running shop moves its process into a new transition and goes on to kill it |
| `SupervisorLaws.RestartStopNeedsSlot` | backend/bot_manager.py:1204-1211 | the stop inside a restart is refused exactly when the restart's slot is gone |
| `SupervisorLaws.RestartStopKeepsSlot` | backend/bot_manager.py:1204-1226 | otherwise it does what an outside stop does but keeps the slot |
| `SupervisorLaws.SpawnGoesOn` | backend/bot_manager.py:1181-1198 | a restart goes on to give its slot back, any other start has its answer |
| `SupervisorLaws.OwnSlotIsGivenBack` | backend/bot_manager.py:1194-1198 | the finally block gives back its own slot and nobody else's |
| `SupervisorLaws.CountMeans` | backend/bot_manager.py:987-990 | the count has each shop once that runs, is being retired or is reserved, of everybody or of one user |
| `SupervisorLaws.ReserveAnswers` | backend/bot_manager.py:1167-1175 | the exact condition of each refusal, and the slot a restart takes otherwise |
| `SupervisorLaws.KillIsRecorded` | backend/bot_manager.py:1153-1162 | after a kill the object is released and its event set, and the shop is free only if the process is dead |
| `SupervisorLaws.WokenStopAnswers` | backend/bot_manager.py:1248-1261 | what a stop that waited answers or takes over, from the dictionaries alone |
| `SupervisorLaws.RestartAfterStop` | backend/bot_manager.py:1177-1181 | a restart goes on to spawn exactly after a stop that left no process |
| `SupervisorLaws.StaleTransitionIsRetried` | backend/bot_manager.py:1133-1162 | a start that finds the transition of a failed stop tries the kill again, and goes on only if that succeeds |
| `SupervisorLaws.AdoptRegisters` | backend/bot_manager.py:404-426 | adoption registers a verified process of an idle shop in the rules mode, and otherwise changes nothing |
| `SupervisorLaws.ReaperCleans` | backend/bot_manager.py:1547-1558 | after a reaper pass the registered processes are exactly those that were registered and alive |
| `UndisturbedCalls.UndisturbedStart` | backend/bot_manager.py:1126-1198 | starting an idle shop below the limit, undisturbed, runs a new worker in the requested mode |
| `UndisturbedCalls.UndisturbedStop` | backend/bot_manager.py:1201-1274 | stopping a running shop, undisturbed, kills its worker and leaves the shop idle |
| `UndisturbedCalls.UndisturbedRestart` | backend/bot_manager.py:1126-1274 | a mode change of a running shop, undisturbed, replaces its worker by a new one in the new mode, at any limit |
| `JobQueue.JobTable.EnqueueJob` | backend/db.py:915-958 | inserts once per identity, under a new id, with clamped attempts and delay |
| `JobQueue.JobTable.RecoverExpiredJobs` | backend/db.py:964-987 | the loop puts exactly the expired running rows to retry or dead letter and counts them |
| `JobQueue.JobTable.SelectIds` | backend/db.py:1165-1179 | the selected ids are the lowest eligible ones up to the limit |
| `JobQueue.JobTable.ClaimJobs` | backend/db.py:1141-1199 | recovery, then claims of exactly the chosen rows |
| `JobQueue.JobTable.ClaimJob` | backend/db.py:1201-1227 | the same for one job id |
| `JobQueue.JobTable.RenewJob` | backend/db.py:1229-1243 | only the owner of an unexpired lease extends it |
| `JobQueue.JobTable.DeferJob` | backend/db.py:1245-1259 | gives the attempt back and ends the lease |
| `JobQueue.JobTable.CompleteJob` | backend/db.py:1261-1273 | only the current owner completes |
| `JobQueue.JobTable.CompleteJobForAccount` | backend/db.py:1275-1315 | completes only the owner's job of an account that is still enabled at the given generation |
| `JobQueue.JobTable.FailJob` | backend/db.py:1317-1356 | retry with back-off, or dead letter at the last attempt |
| `JobQueue.JobTable.PruneJobs` | backend/db.py:492-530 | retention deletes only finished jobs |
| `JobRuns.RunInv` | backend/db.py:915-987 | in every run: queued or retry below max_attempts, dead letter at exactly max_attempts, running exactly with a lease, one row per identity |
| `JobRuns.AttemptsCountClaims` | backend/db.py:1141-1259 | attempts is the number of claims minus the number of deferrals, whatever else happened |
| `JobRuns.ReclaimNeedsEnd` | backend/db.py:1141-1227 | a new claim needs that the previous owner ended its claim or that its stored deadline had passed |
| `JobRuns.SupersededOwnerIsFenced` | backend/db.py:1229-1356 | an owner that no longer holds the job cannot renew, defer, complete or fail it, and changes nothing |
| `JobRuns.ClaimSupersedes` | backend/db.py:1182-1199 | another worker's claim takes the job from the old owner |
| `JobRuns.LowestIsAPrefix` | backend/db.py:1165-1179 | the chosen ids are a prefix of the eligible ones in id order, as many as the limit allows |
| `JobLaws.TakenOnlyWhenDue` | backend/db.py:1141-1227 | in every run a job is taken only by a claim that wants its kind, only if it waits and its time has come or its lease ran out with an attempt left, and then runs for the claimer until the deadline |
| `JobLaws.DueIsTaken` | backend/db.py:1165-1199 | a claim passes a due job of a wanted kind over only for as many jobs with lower ids as its limit |
| `JobLaws.TakesAtMostLimit` | backend/db.py:1141-1179 | no claim takes more than its limit, clamped to 1 to 100, and one without kinds does nothing |
| `JobLaws.OneIsTaken` | backend/db.py:1201-1227 | a claim of one job takes it exactly when it is due or abandoned |
| `JobLaws.ClaimRecovers` | backend/db.py:964-987 | what a claim does to jobs it does not take: expired ones wait again or become dead letters |
| `JobLaws.NotTakenBefore` | backend/db.py:1165-1227 | while the clock is below its time a waiting job is not taken and does not change |
| `JobLaws.DeferWrites` | backend/db.py:1245-1259 | the exact condition and columns of a deferral, for 0.05 to 900 seconds |
| `JobLaws.DeferredJobWaits` | backend/db.py:1245-1259 | after a deferral by d no claim of the job succeeds at a clock below that time plus d, clamped |
| `JobLaws.FailWrites` | backend/db.py:1317-1356 | the exact condition and columns of a failure: dead letter at the last attempt, else the given delay or 2^min(attempts, 8) seconds, at most 900 |
| `JobLaws.FailedJobWaits` | backend/db.py:1317-1356 | after a failure short of the last attempt no claim of the job succeeds before the back-off has passed |
| `JobLaws.EnqueueWrites` | backend/db.py:915-958 | the columns of a new job, and that a known identity changes nothing |
| `JobLaws.EnqueuedJobWaits` | backend/db.py:915-958 | an enqueued job is not taken before its delay has passed |
| `JobLaws.RenewWrites` | backend/db.py:1229-1243 | the exact condition and columns of a renewal |
| `JobLaws.CompleteWrites` | backend/db.py:1261-1315 | the exact condition and columns of a completion |
| `JobLaws.FenceMeans` | backend/db.py:1275-1315 | the account fence column by column |
| `JobLaws.PruneMeans` | backend/db.py:511-530 | retention deletes exactly the finished ones of the rows it looked at |
| `JobLaws.FinishedIsFinal` | backend/db.py:1229-1356 | a finished job never changes again in any run, and its id is never used again |
| `JobLaws.UnfinishedIsKept` | backend/db.py:511-530 | no job that is not finished is ever lost |
| `LeaseTables.LeaseTable.AcquireLease` | backend/db.py:989-1034 | busy, cooling down or acquired, with the new row |
| `LeaseTables.LeaseTable.ReserveShop` | backend/db.py:1036-1086 | reserves only without any blocker and otherwise reports the reason with the latest deadline and the whole seconds to wait for it |
| `LeaseTables.LeaseTable.RenewLease` | backend/db.py:1088-1101 | only the owner of an unexpired lease renews |
| `LeaseTables.LeaseTable.ReleaseLease` | backend/db.py:1103-1114 | only the owner releases; the cooldown stays |
| `LeaseTables.LeaseTable.ArmLeaseCooldown` | backend/db.py:1116-1132 | sets the cooldown without touching the owner |
| `LeaseTables.LeaseTable.Perform` | backend/db.py:989-1132 | every call is one step of the history recorded for the table |
| `LeaseTables.AccountLease.EnsureOwned` | backend/account_leases.py:33-44 | true exactly when not stopped, not lost and the renewal succeeded; a failure is remembered for good |
| `LeaseTables.AccountLease.Close` | backend/account_leases.py:46-54 | stops the handle and releases the row, or marks it lost |
| `LeaseTables.OpenAccountLeases` | backend/account_leases.py:84-98 | granted exactly when every lease is free in its turn without storage error; otherwise no row is left under any of the block's owners, whatever other clients and the block's own renewal threads do in between |
| `LeaseRuns.LeaseExcludesOthers` | backend/db.py:989-1101 | after a grant to A at t for s seconds nobody else acquires, reserves or renews before t + s unless A released |
| `LeaseRuns.ExpiredOwnerCannotRenew` | backend/db.py:1088-1101 | an owner whose lease ran out or was released stays unable to renew until it acquires anew |
| `LeaseRuns.ReleasedStaysReleased` | backend/db.py:1103-1114 | late renewals of a released owner never bring its name back |
| `LeaseRuns.ReportedWaitSuffices` | backend/db.py:1055-1086 | after the reported wait the refused reservation goes through |
| `LeaseLaws.AcquireMeans` | backend/db.py:989-1034 | the three answers with their exact conditions on owner, lease and cooldown, and the row a grant writes |
| `LeaseLaws.ReserveMeans` | backend/db.py:1055-1086 | a reservation goes through exactly when no risk is pending, neither row is leased and neither is cooling down, where only the sync cooldown may be ignored; it keeps the shop's own cooldown |
| `LeaseLaws.ReasonsAreTrue` | backend/db.py:1058-1074 | the reasons of a refusal are exactly the pending risk, leases and cooldowns, with their deadlines |
| `LeaseLaws.RenewMeans` | backend/db.py:1088-1101 | the exact condition and columns of a renewal |
| `LeaseLaws.ReleaseMeans` | backend/db.py:1103-1114 | the exact condition and columns of a release |
| `LeaseLaws.ArmMeans` | backend/db.py:1116-1132 | the columns of an armed cooldown, for a known and an unknown key |
| `LeaseLaws.LeaseBlocksReservations` | backend/db.py:989-1086 | after a grant on a key at t for s seconds no reservation that names it as its shop or as its sync row succeeds before t + s unless that owner released it |
| `LeaseLaws.CooldownKeepsOthersAway` | backend/db.py:989-1132 | after an acquisition or an armed cooldown of c seconds nobody but the owner acquires the key, and no reservation that respects cooldowns names it, before they have passed, unless the cooldown is reset |
| `UpdateStores.UpdateStore.CreateConfirmation` | backend/db.py:2600-2621 | issues an unused token bound to one operation for 30 to 300 seconds, for well-formed arguments and a live administrator session |
| `UpdateStores.UpdateStore.ConsumeConfirmation` | backend/db.py:2633-2656 | consumes only a matching, unexpired, unused token |
| `UpdateStores.UpdateStore.MirrorOperation` | backend/db.py:2659-2672 | writes the mirror row of the operation's version and channel with its mapped status |
| `UpdateStores.UpdateStore.CreateOperation` | backend/db.py:2674-2704 | stages a new operation for well-formed arguments, only while none is active |
| `UpdateStores.UpdateStore.QueueOperation` | backend/db.py:2743-2782 | queues a staged operation by consuming its confirmation, or returns the row when the same token is presented again |
| `UpdateStores.UpdateStore.MarkPublished` | backend/db.py:2784-2791 | first publication time is kept |
| `UpdateStores.UpdateStore.RecordError` | backend/db.py:2793-2801 | a terminal row keeps its error, and an ill-formed code becomes the general one |
| `UpdateStores.UpdateStore.ObserveOperation` | backend/db.py:2818-2844 | takes only newer payloads for this operation along allowed transitions |
| `UpdateStores.UpdateStore.PruneRows` | backend/db.py:550-595 | retention deletes only used or expired confirmations and finished mirror rows |
| `UpdateRuns.RunInv` | backend/db.py:2592-2844 | columns fit together, started operations name a used confirmation of their own, and the mirror invariant, in every reachable state |
| `UpdateRuns.OneActiveAndMirrored` | backend/db.py:2659-2844 | at most one active operation; the mirror has an active row exactly for it, at its version and channel, with its mapped status |
| `UpdateRuns.LeavingNeedsConfirmation` | backend/db.py:2743-2782 | only queueing leaves staged, with one live unused confirmation of this operation and manifest, which is used up |
| `UpdateRuns.LeavesStagedOnce` | backend/db.py:2743-2782 | an operation leaves staged at most once, and no confirmation starts two operations |
| `UpdateRuns.ReplayChangesNothing` | backend/db.py:2743-2782 | presenting a token for a started operation writes nothing, and returns the row exactly when it is the consumed token |
| `UpdateRuns.ProgressOnly` | backend/db.py:2804-2844 | phase rank never falls, executor time never falls, terminal results are final, a started operation keeps its confirmation |
| `UpdateRuns.ProgressStep` | backend/db.py:2804-2844 | per step: a changed phase has a higher rank, and an accepted observation strictly raises the executor time |
| `UpdateRuns.AtMostElevenChanges` | backend/db.py:40-47 | at most eleven phase changes after queueing |
| `UpdateRuns.StagedReportRestages` | backend/db.py:2818-2844 | with a reader that reports staged there is a run in which one operation leaves staged twice |
| `UpdateRuns.TerminalPhaseWithoutStatus` | backend/db.py:2804-2844 | with a reader that reports a terminal phase under a status that is not terminal there is, for every n, a run with n phase changes after queueing |
| `UpdateLaws.ConfirmMeans` | backend/db.py:2600-2621 | who gets a confirmation, and its columns: as asked, unused, for the time asked within 30 to 300 seconds |
| `UpdateLaws.ConsumeMeans` | backend/db.py:2623-2656 | the exact condition on caller and columns, and the one column written |
| `UpdateLaws.CreateMeans` | backend/db.py:2674-2704 | the exact condition, the columns of the staged operation and its mirrored row |
| `UpdateLaws.QueueMeans` | backend/db.py:2743-2769 | answered, replay included, only to a live administrator session, the user and session that staged this operation; exactly when a staged one has a usable confirmation in an idle table, or a started one was started by this token |
| `UpdateLaws.QueueWrites` | backend/db.py:2769-2778 | the columns written by queueing, with the mirrored row |
| `UpdateLaws.LeavingIsAuthorised` | backend/db.py:2743-2782 | in every run an operation leaves staged only through its own administrator, user and session, with a live unused confirmation that agrees in every column |
| `UpdateLaws.ConfirmedIsQueued` | backend/db.py:2600-2782 | what is staged and then confirmed by the same session can be queued by it for thirty seconds while the table is idle |
| `UpdateLaws.PublishMeans` | backend/db.py:2784-2791 | the first time stays, and the error is cleared exactly while the executor has not reported |
| `UpdateLaws.ErrorMeans` | backend/db.py:2793-2801 | noted on unfinished operations only, as given if it is a lower-case code of at most 80 characters |
| `UpdateLaws.PhaseMeans` | backend/db.py:2804-2816 | a transition is allowed exactly to an end, or forward in the list of phases, never to staged and not out of rolling_back |
| `UpdateLaws.ObserveMeans` | backend/db.py:2818-2831 | the exact condition under which a report is taken |
| `UpdateLaws.ObserveWrites` | backend/db.py:2832-2839 | the columns it writes, and the mirrored row |
| `UpdateLaws.PruneMeans` | backend/db.py:555-583 | retention removes exactly used or expired confirmations and rows that succeeded, rolled back or failed, of those it looked at |
| `UpdateLaws.OneUnderway` | backend/db.py:2659-2844 | in every run at most one operation is under way, and the mirrored table shows exactly that one with its status |
| `UpdateLaws.TokenServesOnce` | backend/db.py:2623-2782 | no token is used up twice, by consuming it or by starting an operation |
| `UpdateLaws.TokenExpires` | backend/db.py:2600-2782 | no token is used up more than five minutes after it was issued, or after the shorter time asked for |
| `ProbeStores.ProbeStore.AcquireProbe` | backend/db.py:2974-3042 | refuses invalid arguments; otherwise busy, backoff, cooldown, cached or granted under a new generation, with the seeded row |
| `ProbeStores.ProbeStore.RenewProbe` | backend/db.py:3044-3058 | renews only the current generation's live lease |
| `ProbeStores.ProbeStore.FinishProbe` | backend/db.py:3060-3128 | stores one result for the current generation and live lease |
| `ProbeStores.ProbeStore.AbandonProbe` | backend/db.py:3130-3141 | gives the lease up without touching results |
| `ProbeRuns.GrantsAreSpaced` | backend/db.py:2974-3042 | two granted checks are at least the first one's cooldown apart, forced or not |
| `ProbeRuns.OneResultPerGrant` | backend/db.py:3060-3128 | stored results carry strictly rising generations, so each grant stores at most one |
| `ProbeRuns.OlderGrantIsFenced` | backend/db.py:3044-3128 | a finish or renewal of an older generation is refused and changes nothing |
| `ProbeRuns.ExpiredHolderIsFenced` | backend/db.py:3044-3128 | so is one after the lease ran out |
| `ProbeRuns.RowTellsHistory` | backend/db.py:2907-3128 | consecutive_failures counts the failures stored since the last stored success, and the last success is what the accepted finishes say, in every run |
| `ProbeLaws.ArgumentsMean` | backend/db.py:2974-2990 | the arguments with which a call is made at all |
| `ProbeLaws.AnswerMeans` | backend/db.py:3010-3022 | the exact condition of each answer on an existing row; granted exactly when nothing stands against it |
| `ProbeLaws.GrantWrites` | backend/db.py:3024-3035 | the columns of a grant, and those it leaves alone |
| `ProbeLaws.FirstCheck` | backend/db.py:2907-3009 | the row seeded from a well-formed older result, or empty, and that the first check behaves as on that row |
| `ProbeLaws.RenewMeans` | backend/db.py:3044-3058 | the exact condition and column of a renewal |
| `ProbeLaws.FinishMeans` | backend/db.py:3060-3128 | the exact condition under which a result is taken, and what every result ends |
| `ProbeLaws.FinishWrites` | backend/db.py:3092-3126 | what a success and a failure leave behind, in the row and in the older table |
| `ProbeLaws.AbandonMeans` | backend/db.py:3130-3141 | giving up ends the lease and makes the next check due |
| `ProbeLaws.FailureDelaysNextCheck` | backend/db.py:3010-3022 | after a stored failure no check is granted, forced or not, before its retry_not_before |
| `SchemaTheorems.WireValidIsLocallyValid` | backend/ai_provider_adapters.py:627-685 | a value valid under the strict wire schema is valid under the local schema after the nulls are undone |
| `SchemaTheorems.FilledIsWireValid` | backend/ai_provider_adapters.py:627-659 | filling missing optionals with null makes a locally valid value wire valid |
| `SchemaTheorems.FillUndoRestores` | backend/ai_provider_adapters.py:662-685 | undoing the filled value restores it exactly when no missing optional admits null and no earlier anyOf branch captures it |
| `SchemaTheorems.StaticallyRecoverable` | backend/ai_provider_adapters.py:662-685 | that condition holds for every value when optionals do not admit null and anyOf branches differ in type |
| `SchemaTheorems.EarlierBranchCaptures` | backend/ai_provider_adapters.py:668-672 | a schema without nullable optionals where the round trip fails |
| `SchemaTheorems.UndoKeepsTag` | backend/ai_provider_adapters.py:662-685 | undoing never changes the JSON type of a value |
| `SchemaMeaning.ScalarMeans` | backend/ai_provider_adapters.py:561-605 | a null, boolean, number or text matches exactly when type, choices and length or number bounds allow it |
| `SchemaMeaning.ArrayMeans` | backend/ai_provider_adapters.py:586-592 | an array, when besides every item matches the item schema |
| `SchemaMeaning.ObjectMeans` | backend/ai_provider_adapters.py:577-585 | an object, when it has only listed properties, all required ones, each matching its own schema |
| `SchemaMeaning.AnyOfMeans` | backend/ai_provider_adapters.py:555-560 | an anyOf matches exactly when some branch does |
| `SchemaMeaning.WireMeans` | backend/ai_provider_adapters.py:627-659 | the wire schema of a node: object nodes get every property required and the optional ones nullable, nothing else changes |
| `SchemaMeaning.WireOfBranches` | backend/ai_provider_adapters.py:632-634 | anyOf is rewritten branch by branch |
| `SchemaMeaning.NullSchemaMeans` | backend/ai_provider_adapters.py:644-646 | the branch added to an optional property takes null and nothing else |
| `SchemaMeaning.UndoMeans` | backend/ai_provider_adapters.py:673-682 | undoing drops from an object exactly the optional nulls that the local schema does not take |
| `SchemaMeaning.UndoOfArray` | backend/ai_provider_adapters.py:683-685 | arrays are undone item by item, scalars left alone |
| `SchemaMeaning.UndoOfAnyOf` | backend/ai_provider_adapters.py:668-672 | under an anyOf the first branch whose own undoing fits it decides; without one the value stays |
| `SchemaMeaning.UndoOfValid` | backend/ai_provider_adapters.py:662-685 | undoing leaves a locally valid value as it is, when anyOf branches differ in type |
| `SchemaMeaning.UndoTwice` | backend/ai_provider_adapters.py:662-685 | undoing a wire-valid value twice is undoing it once |
| `SchemaMeaning.AcceptedSchemas` | backend/ai_provider_adapters.py:483-547 | every branch list, object and array schema built from accepted parts is accepted |
| `AgentArguments.SameReflexive` | backend/ai_provider_adapters.py:927-934 | the argument comparison relates every value to itself |
| `AgentArguments.SameTransitive` | backend/ai_provider_adapters.py:927-934 | the argument comparison is transitive |
| `AgentArguments.SameAntisymmetric` | backend/ai_provider_adapters.py:927-934 | values related both ways are equal |
| `AgentArguments.UndoStaysSame` | backend/ai_provider_adapters.py:662-685 | undoing optional nulls stays inside the argument comparison |
| `AgentTurns.CollectBlocks` | backend/ai_provider_adapters.py:770-924 | the loop over the blocks of a turn collects the calls, text and native blocks of all of them, or stops at the first bad one |
| `TurnMeaning.TextOkMeans` | backend/ai_provider_adapters.py:450-453 | usable text has no control character but tab, newline and carriage return |
| `TurnMeaning.IdOkMeans` | backend/ai_provider_adapters.py:462-465 | a call id has 1 to 512 characters and no control character |
| `TurnMeaning.NameOkMeans` | backend/ai_provider_adapters.py:456-459 | a tool name has 1 to 64 letters, digits, underscores or dashes |
| `TurnMeaning.ShallowBounds` | backend/ai_provider_adapters.py:432-447 | the nesting check bounds the length of every way down into a value |
| `TurnMeaning.DeepHasPath` | backend/ai_provider_adapters.py:432-447 | and refuses only values that have a longer one |
| `TurnLaws.TurnIsTheResponse` | backend/ai_provider_adapters.py:770-924 | without a catalogue a response is accepted exactly when its blocks are readable, call ids are distinct and something is shown or asked for; the turn's text is that of its visible blocks in order, its calls are those its blocks ask for in order |
| `TurnLaws.CatalogueIsEnforced` | backend/ai_provider_adapters.py:913-921 | every call of a turn accepted with a catalogue is listed there, its arguments match the tool's schema, and the ids are distinct |
| `TurnLaws.CatalogueAccepts` | backend/ai_provider_adapters.py:913-921 | a turn accepted without a catalogue is accepted with it exactly when each call is listed and its arguments match, after undoing for the two OpenAI providers and as sent otherwise |
| `TurnLaws.ResponsesStored` | backend/ai_provider_adapters.py:851-871 | a Responses turn stores every block in order with exactly its replayable fields |
| `TurnLaws.VerbatimStored` | backend/ai_provider_adapters.py:872-910 | a Claude turn stores its content as sent, a Gemini turn its content and the ids used |
| `TurnLaws.ChatStored` | backend/ai_provider_adapters.py:800-848 | a chat turn stores role, content, reasoning and refusal fields and its calls |
| `ReplayTheorems.BlockReplays` | backend/ai_provider_adapters.py:770-924 | a stored native block parses to the very same contribution, for every provider |
| `ReplayTheorems.RawReplays` | backend/ai_provider_adapters.py:770-924 | the stored payload of a whole turn parses to the same calls, text and payload |
| `ReplayTheorems.FixtureShallow` | backend/ai_provider_adapters.py:432-447 | the rebuilt response stays inside the nesting limit |
| `ReplayTheorems.ParsedTurnReplays` | backend/ai_provider_adapters.py:937-959 | every accepted OpenAI Chat, OpenAI Responses, Claude or Gemini turn passes the replay and gives back its provider data |
| `TurnLaws.ReplayAccepts` | backend/ai_provider_adapters.py:937-959 | the replay accepts a turn exactly when it is of this provider, carries its call ids where needed, and its data parses to the same text and calls; it answers that data |
| `TurnLaws.RebuiltResponse` | backend/ai_provider_adapters.py:943-949 | the rebuilt response holds the stored data where the provider puts it |
| `TurnLaws.SameMeans` | backend/ai_provider_adapters.py:927-934 | the comparison of arguments, one level at a time |
| `HistoryLoop.TakeResult` | backend/ai_provider_adapters.py:713-725 | a tool result is taken exactly when it extends the batch; a complete batch comes out in call order |
| `HistoryLoop.AgentMessages` | backend/ai_provider_adapters.py:704-748 | the loop accepts exactly the histories of `Accepts` and returns their ordering |
| `HistoryTheorems.AcceptedExactlyWhenWellFormed` | backend/ai_provider_adapters.py:704-748 | `Accepts` says, position by position: well typed and not nested too deeply, the n calls of an item answered once each under their names by the next n items, no stray result, call ids never reused |
| `HistoryTheorems.OrderedLength` | backend/ai_provider_adapters.py:713-748 | the output has the same length |
| `HistoryTheorems.OrderedInPlace` | backend/ai_provider_adapters.py:713-748 | non-tool items stay in place; the results of a batch are permuted inside it into call order |
| `HistoryTheorems.ReorderPermutes` | backend/ai_provider_adapters.py:720-724 | ordering one batch is a permutation of it, into call order |
| `HistoryTheorems.OrderingIsIdempotent` | backend/ai_provider_adapters.py:704-748 | the output is accepted again and unchanged by a second pass |
| `HistoryLaws.AcceptedMeans` | backend/ai_provider_adapters.py:688-748 | a history is accepted exactly when every item has safe texts, ids and names and nests at most 96 levels from the list, calls are answered right after their item once each under their names, and no call id comes twice |
| `HistoryLaws.OutputMeans` | backend/ai_provider_adapters.py:713-748 | item by item, what is returned: copies with empty calls and data filled in, and for call number c of an item the result that was given for it |
| `DeliveryConfig.DeliveriesFromProducts` | backend/automation.py:483-512 | the nested loops return the first readable line of every item of the shop |
| `DeliveryConfig.MaterialBatchPreview` | backend/automation.py:327-353 | selected, changed and unchanged counts against that list |
| `DeliveryConfig.SplitEntry` | backend/automation.py:385-416 | what stays of one entry, and the sources it is the first of |
| `DeliveryConfig.MergeMaterialProductUpdates` | backend/automation.py:371-432 | refuses a malformed file, otherwise stores the kept entries followed by one entry per applied update, dropping only the receipt |
| `DeliveryConfig.RetainEntry` | backend/automation.py:453-476 | what the full save retains of one entry |
| `DeliveryConfig.MergeMaterialProducts` | backend/automation.py:443-480 | refuses a malformed file or entry, otherwise stores the retained entries followed by the saved list |
| `DeliveryConfig.NormaliseDeliveries` | backend/automation.py:229-263 | accepts nothing and exactly the lists of readable lines without a repeated item, and returns a valid list |
| `DeliveryConfig.NormaliseMaterialBatch` | backend/automation.py:266-291 | accepts exactly non-empty lists of distinct shop items with usable material, and returns a valid batch |
| `DeliveryTheorems.ViewShows` | backend/automation.py:483-512 | the list shows for each shop item the first entry that can be read, and nothing for other items |
| `DeliveryBatch.BatchShows` | backend/automation.py:371-432 | what the list shows for any item after a batch, for any stored configuration |
| `DeliveryBatch.BatchKeepsOthers` | backend/automation.py:385-416 | an item outside the batch keeps all its bindings with everything their entries say, in order |
| `DeliveryBatch.BatchBindsOnce` | backend/automation.py:385-432 | an item bound at most once stays so, if and only if it does not get a second entry beside one whose item_ids is no list |
| `DeliveryBatch.PreviewIsExact` | backend/automation.py:327-353 | change count plus missed items equals differing items plus items counted in vain, and count and difference speak of the same items if and only if there are none of either kind |
| `DeliveryBatch.PreviewCountsDifferences` | backend/automation.py:327-432 | with each item of the batch bound at most once, the count is the number of differing items if and only if no shown line that would change belongs to an entry whose item_ids is no list |
| `DeliveryBatch.PreviewAgain` | backend/automation.py:327-432 | previewing the same batch after the merge counts exactly the items that such an entry still shows otherwise, so nothing without them |
| `DeliveryBatch.MissedExample` | backend/automation.py:417-430 | a configuration where a lost line is not counted |
| `DeliveryBatch.SpuriousExample` | backend/automation.py:388-397 | a configuration where an item is counted in vain, before and after the merge |
| `DeliveryTheorems.SavedListReadsBack` | backend/automation.py:443-512 | saving a validated list and reading it back gives that list in order, for any existing entries |
| `DeliveryTheorems.SaveKeepsOtherKinds` | backend/automation.py:453-476 | an item not in the list keeps exactly its bindings that are not material |
| `PythonText.StripMeans` | backend/automation.py:108-116 | trimming removes all white space at both ends and nothing else |
| `PythonText.SpaceMeans` | backend/automation.py:108-116 | the white space of the trimming, character by character |
| `DeliveryLaws.ShownMeans` | backend/automation.py:483-512 | a line is in the list exactly when the shop sells the item and the first entry that shows anything for it shows this line: material, its switch, 8000 characters of a text that is not blank |
| `DeliveryLaws.PreviewMeans` | backend/automation.py:327-353 | the preview counts exactly the updates that enable another line than the one shown or disable an enabled one |
| `DeliveryLaws.BatchMergeMeans` | backend/automation.py:371-432 | entry by entry what a batch leaves (the whole entry, or its surviving ids with all other fields) and update by update what it writes, in order |
| `DeliveryLaws.NewEntryMeans` | backend/automation.py:356-368 | the written entry binds one item; it takes over name and other fields of the entry it replaces, and its id unless that was shared |
| `DeliveryLaws.FullSaveMeans` | backend/automation.py:443-480 | the same for the full save: material entries go, others lose the saved items, then one entry per line |
| `DeliveryLaws.TitleMeans` | backend/automation.py:435-440 | the title is that of the first product with exactly this id, 160 characters of it, or the default |
| `DeliveryLaws.StoredMeans` | backend/automation.py:431-432 | every other key stays but the receipt, and the version is kept or 1 |
| `DeliveryLaws.EntriesMean` | backend/automation.py:483-487 | only the entries of a `types` list are read |
| `DeliveryLaws.RefusedMeans` | backend/automation.py:377-381 | what can be merged into |
| `DeliveryLaws.ItemIdMeans` | backend/automation.py:209-215 | an item id is no boolean and has 1 to 64 digits once trimmed |
| `DeliveryLaws.MaterialMeans` | backend/automation.py:108-116 | usable material is trimmed text, not blank, at most 8000 characters, without control characters |
| `DeliveryLaws.LineIsRead` | backend/automation.py:239-262 | the exact condition under which a submitted line is read, and what is read |
| `DrainGate.Gate.TestWrite` | backend/app.py:883-888 | the maintenance test of a business write, which keeps the counter lock when it passes |
| `DrainGate.Gate.CountWrite` | backend/app.py:888-890 | the increment, although the flag may have been set since the test |
| `DrainGate.Gate.FinishWrite` | backend/app.py:891-897 | the finally block takes the count back |
| `DrainGate.Gate.CheckStart` | backend/app.py:444-449 | the maintenance test of a worker start, which keeps the start lock when it passes |
| `DrainGate.Gate.SpawnWorker` | backend/app.py:447-450 | the spawn, under the same lock |
| `DrainGate.Gate.StopWorkers` | backend/app.py:6961-6965 | the watcher stops all workers under the start lock |
| `DrainRuns.RunInv` | backend/app.py:881-1017 | the counter is the number of admitted running writes, one write and one start past its test at a time, and each finding of each reader stays true while its period lasts |
| `DrainRuns.ReadyMeansDrained` | backend/app.py:949-1017 | after a reader reported ready and until the flag is cleared: no business write runs or is admitted, no worker is spawned by a counted write or under a live lease |
| `DrainRuns.SpawnAfterReadyExactlyWhen` | backend/app.py:444-450 | after ready a worker can still be spawned before the flag is cleared if and only if the start lock is held at that moment, by a start whose lease has run out |
| `DrainRuns.WatcherStopIsFinal` | backend/app.py:6961-6975 | after the watcher's stop nothing at all is spawned until the flag is cleared |
| `DrainRuns.BareStartEscapes` | backend/app.py:444-450 | a reachable run in which a lapsed start spawns a worker right after ready |
| `DrainLaws.WriteDoor` | backend/app.py:883-890 | a business write is let in exactly while the flag is off, and is turned away otherwise |
| `DrainLaws.StepsAreTaken` | backend/app.py:881-1017 | who can take which step, and which lock it waits for |
| `DrainLaws.WriteIsCounted` | backend/app.py:888-890 | a tested write is counted once and gives the lock back |
| `DrainLaws.StartDoor` | backend/app.py:444-449 | a start passes exactly while the flag is off |
| `DrainLaws.CounterIsExact` | backend/app.py:883-897 | the counter is the number of counted writes inside, in every reachable world |
| `DrainLaws.SpawnMeans` | backend/app.py:447-450 | a spawn adds exactly one new worker and gives the lock back, a failed one only gives it back |
| `DrainLaws.WorkersChangeBy` | backend/app.py:6961-6975 | workers appear by spawns only and go by an exit or the watcher only |
| `DrainLaws.ReadMeans` | backend/app.py:949-1017 | each reading goes on exactly when it finds nothing |
| `DrainLaws.QuietReaderReportsReady` | backend/app.py:949-1017 | a reader left to itself while nothing goes on reports ready |
| `DrainLaws.PeriodEnds` | backend/app.py:992-1017 | no finding of a reader outlives the maintenance period |
| `DrainLaws.LocksComeBack` | backend/app.py:444-450 | whoever holds a lock can take the step that gives it back, in every reachable world |
| `DrainLaws.CallsLeave` | backend/app.py:891-897 | a call inside can leave while the counter lock is free, and is then out of the count |
| `AccountStorage.Store.Snapshot` | backend/account_storage.py:342-350 | snapshots every declared file, or refuses a repeated, unsafe or unreadable one |
| `AccountStorage.Store.RestoreFile` | backend/account_storage.py:391-422 | restores one file or fails, touching no other |
| `AccountStorage.Store.RestoreAll` | backend/account_storage.py:362-373 | every declared file is tried whatever failed before; the failed ones are named |
| `AccountStorage.Store.CompensatingWrite` | backend/account_storage.py:324-373 | refuses without touching anything; completes; or, when the block raises, names exactly the files whose restore failed and leaves every other declared file with its snapshot content or absence, except for what other writers did to it after its restore |
| `WriteTheorems.UnnamedFilesAreRestored` | backend/account_storage.py:361-422 | a declared file that is not named has its snapshot content or absence, whatever writes, other writers and faults did |
| `WriteTheorems.OnlyOwnPayloadIsRemoved` | backend/account_storage.py:402-413 | recovery removes a file only while it holds the last payload this block tried to write to it, and otherwise changes it only back to its snapshot |
| `WriteTheorems.NamedExactlyWhen` | backend/account_storage.py:391-422 | without another writer or recovery fault a file is named if and only if it was absent and the payload that last reached it is not the last tried one |
| `WriteTheorems.OneWriteIsUndone` | backend/account_storage.py:324-373 | with one write per name no file is named and all are back |
| `WriteTheorems.StoreIsUndone` | backend/account_storage.py:324-373 | with one write per name, no other writer and no fault during recovery a block that raised leaves the whole store as it found it |
| `WriteTheorems.SecondWriteIsNotUndone` | backend/account_storage.py:410-412 | two writes to an absent file where the first payload stays |
| `WriteLaws.TriedMeans` | backend/account_storage.py:352-359 | what is remembered for a file is the payload of the block's last write to it, failed or not |
| `WriteLaws.ActionMeans` | backend/account_storage.py:352-359 | what one action makes of a file: only a write to a declared name that replaces it, or another writer |
| `WriteLaws.LastWriteStays` | backend/account_storage.py:249-318 | a file holds the payload of its last write, unless that failed before replacing or others touched it |
| `WriteLaws.RestoreMeans` | backend/account_storage.py:391-422 | the exact condition under which a restore returns, and what one that does not leaves behind |
| `WriteLaws.RefusedMeans` | backend/account_storage.py:342-390 | a block is refused exactly for a repeated name, a link or directory, or a file that cannot be read |
| `PromptBudget.FitLength` | backend/ai_reply_engine.py:141-147 | a fitted text is never longer than its limit |
| `PromptBudget.RemovesOldest` | backend/ai_reply_engine.py:241-243 | removing by value takes the oldest history message even if an equal one follows |
| `PromptBudget.Trim` | backend/ai_reply_engine.py:241-243 | the trimming loop drops at most one message, the oldest, and ends within the total |
| `PromptBudget.FullPromptIsTrimmed` | backend/ai_reply_engine.py:241-243 | the budget is tight: a prompt that is full everywhere does lose its oldest message |
| `PromptBudget.CleanHistory` | backend/ai_reply_engine.py:228-238 | the history loop keeps the usable ones of the last eight items |
| `PromptBudget.WithinLimits` | backend/ai_reply_engine.py:244-251 | after trimming neither the compression nor a size error applies |
| `PromptBudget.CompileContext` | backend/ai_reply_engine.py:228-251 | the only error is an unusable current message; the result is the three layers, a suffix of the cleaned history and the current message, within both limits |
| `PromptLaws.FitMeans` | backend/ai_reply_engine.py:141-147 | a fitted text is the trimmed text with control characters blanked, or as much of it as leaves room for an ellipsis |
| `PromptLaws.CleanedItem` | backend/ai_reply_engine.py:228-238 | what the prompt has of one stored item |
| `PromptLaws.CleanedJoin` | backend/ai_reply_engine.py:228-238 | the history is cleaned item by item, in order |
| `PromptLaws.LastEightMeans` | backend/ai_reply_engine.py:228-238 | only the last eight items are looked at |
| `PromptLaws.CurrentMeans` | backend/ai_reply_engine.py:65-73 | the buyer's message is used trimmed, and refused when blank, longer than 4000 or with control characters |
| `PromptLaws.LayersMean` | backend/ai_reply_engine.py:216-226 | three system messages lead the prompt, the last two fitted to 14500 characters |
| `PromptLaws.TotalMeans` | backend/ai_reply_engine.py:241-243 | the total is the sum of the lengths, and one message goes exactly when it is above 48000 |
| `PromptLaws.CompressedMeans` | backend/ai_reply_engine.py:244-247 | what the compression would do to the two optional layers |
| `ComposeCodec.RoundTrip` | backend/docker_engine.py:66-85 | literal undoes escape for every nested value |
| `ComposeCodec.SurvivesExactlyWhen` | backend/docker_engine.py:66-85 | escape undoes literal if and only if every run of `$` in the value is even |
| `ComposeCodec.EscapeMeans` | backend/docker_engine.py:66-74 | escaping doubles every `$` and copies every other character |
| `ComposeCodec.EscapedStaysLiteral` | backend/docker_engine.py:66-74 | an escaped value has no odd run of `$`, so a later pass stays literal |
| `ComposeCodec.EscapeKeepsShape` | backend/docker_engine.py:66-74 | only texts change, at every depth |
| `LogFrames.DecodeUndoesEncode` | backend/docker_engine.py:926-936 | decoding a concatenation of frames gives these frames, so a stream reads in one way only |
| `LogFrames.EncodeUndoesDecode` | backend/docker_engine.py:926-936 | whatever decodes is a concatenation of well-formed frames |
| `LogFrames.ReadFrames` | backend/docker_engine.py:926-936 | the loop collects the stream-1 payloads of the decoded frames or fails |
| `LogFrames.ReadLogs` | backend/docker_engine.py:918-938 | accepts exactly status 200 and at most 4 MiB of concatenated 8-byte-header big-endian frames ("Stream format" of the attach endpoint, Docker Engine API v1.47), and returns their stream-1 payloads in order |
| `LogFrames.StdoutMeans` | backend/docker_engine.py:926-936 | the output is the payloads of the stream-1 frames one after the other |
| `LogFrames.FrameBytes` | backend/docker_engine.py:926-936 | on the wire: stream, three bytes, the length with its highest byte first, the payload |
| `LogFrames.EncodeMore` | backend/docker_engine.py:926-936 | a stream is its frames one after the other |

## Left out

- bot_manager.py: tokens, log files, `_desired_running`, signals and resource limits; the watchdog's transition hooks, which never run.
- AdoptSection: the second identity check of the process is one boolean, and an adopted process is one the supervisor does not manage yet, because process identity is the operating system's.
- SupervisorTheorems.WorkerLimit: the limit is one constant of the run; the source reads it again in each start.
- db.py: SQL text, migrations, payloads and error texts of jobs; retention is its effect of deleting finished rows (cut-offs and batch sizes are any set of rows); `upsert_platform_update` and `save_platform_update_check` bypass the modelled state machines; invalid arguments of lease calls, which raise before any transaction.
- MirrorOperation: the release id, notes and candidate path columns are copied along and not part of this model; neither is the deployment kind of an operation.
- ParsedTurnReplays: a refusal by the parser is one value (error codes are not told apart); decoding argument text as JSON is a function parameter; the Ollama provider, whose replay data does not keep the refusal text, is not part of this model.
- WireValidIsLocallyValid: covers types, properties, required, items, stand-alone `anyOf`, scalar `enum` and `const`, size and number bounds; not `$ref`, `oneOf`, `allOf`, `pattern`, `multipleOf`, `uniqueItems`, property counts or the nesting limit of the matcher.
- AgentMessages: an item of the wrong shape is one value, whatever is wrong with it.
- DeliveriesFromProducts: item ids are taken as their `str()` renderings and shop ids as ASCII digits; values of `id` and `name` are text or missing.
- ReadyMeansDrained: the count of running jobs, the scan for orphaned processes and read errors only make a reader report ready less often and are not part of this model.
- CompensatingWrite: crashes are not modelled, and one restore is one step.
- CompileContext: the two layer texts and the fixed prompt (at most 1000 characters) are inputs; how they are joined from persona, facts and rules is not part of this model.
- AccountLease: the renewal thread is any sequence of calls of `EnsureOwned`.
- HTTP routes, request models, transport, password hashing, encryption, error redaction, container validation and Compose commands, and the AI configuration modules.
