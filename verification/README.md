# Turbohaul, modelled and verified in Dafny

Turbohaul serves many language models from one GPU. One worker drives request slots through a state machine, owns at
most one warm llama-server process at a time, and shares its event loop with submits, detached teardowns, a row sweeper
and a shutdown. This project models that scheduler and the parts of the API around it that carry an algorithm, and
proves what they keep. `dafny verify dfyconfig.toml` checks all of it.

## The scheduler

- `Fsm`, `Slots`: the transition table, the slot record with the history of its states, and the walk that forces a slot
  to COLD.
- `Queue`, `Timers`, `StateDb`: the two-tier queue, the grace timer and the slots table as classes that update their
  fields in place, each method proved against a function of the old state. `QueueRuns` proves what whole runs of the
  queue keep.
- `Scheduler`: the worker, its processes, the queue, the clients, the sweeper and the shutdown as one machine over
  values. A step runs from one suspension point (`Pc`) to the next; what other tasks do are events in between. Time is
  an integer that never runs back. Manifest reads, safety gates, spawns, health, completions and the outcome of every
  SIGTERM call are inputs; a SIGTERM call may raise, a process may die at any time, and the worker may be cancelled at
  any suspension point. A row that `_audit_async` writes is handed to a thread, whose write is an event of its own: it
  comes while the worker waits, after a cancellation, or between a sweep's SELECT and its UPDATE.
- `Manager`: the manager object itself, one method per stretch between suspension points, with the handles, deadlines and
  counters as fields. Every method is proved to do what the machine does, so `Do` keeps custody, the single serving slot
  and the legal histories of the object's own fields, and `Drive` takes a fresh manager through the states of any run. The
  theorems below are therefore about the object. The table names the methods with the most to them; the others are
  specified in the same way.
- `SchedulerInvariant`, `SchedulerQueue`, `SchedulerWriting`, `SchedulerSteps`: one invariant, kept by every event
  (`StepKeeps`).
  `SchedulerFrames` says what a step leaves alone.
- The results, over every run and every configuration. First what each event decides: `SchedulerIntake` (requests, the
  top of the worker's loop), `SchedulerLoad` (gates, warm reuse, health), `SchedulerRounds` (the grace loop),
  `SchedulerVerdicts` (who is answered or failed, and why), `SchedulerParked` (the idle holder, why SIGTERM is sent and
  why processes end), `SchedulerEnds` (rows ended, the finally block, the handler), `SchedulerAudits` (rows handed to
  threads). They speak of processes, futures, rows and the queue, so a wrong branch of the machine contradicts one.
- Then what lasts: `SchedulerTheorems` (custody, single serving, histories, settlement, shutdown), `SchedulerHolder` (what
  a spawn finds), `SchedulerPids` (each slot's own process), `SchedulerFutures` (final verdicts), `SchedulerRows` and
  `SchedulerRowRuns` (rows, sweeps, reopening), `SchedulerShutdown` and `SchedulerReboot` (what a shutdown leaves, and the
  next start), `SchedulerOvertaking` (the queue inside a run), `SchedulerGrace` and `SchedulerIdle` (bounds of the two
  windows). `SchedulerWitness` holds five concrete runs that show where a result ends.

What the environment keeps to is the predicate `Scheduler.Allowed`: ids and pids are fresh, a worker waiting for a row
goes on when it is written, a sleeping one is woken no later than its due time, a sweep takes rows its SELECT may return
for a cutoff at least a minute back, and shutdown is called once and goes on when the worker has ended.

## Around it

- `Logging`: one page of the audit log, and the whole walk over `next_since` while rows are being appended.
- `Scanner`, `Recovery`, `Tidy`, `Reasoning`, `Text`: the brace scanner against a printer of JSON texts (RFC 8259), the
  deletion of spans by stale indices, the squashing and stripping that follow, and the reasoning merge that precedes them.
- `Json`, `Schema`: the response-schema checks, written once as the server's recursion and once as the client's loops
  and visitors.
- `ManifestStore`: conditional writes by revision (section 13.1.1 of RFC 9110). `Flags`: the flag validator, the argv
  printer and a reader. `Safety`: the KV-cache estimate.

## Where the code and its documentation differ

- `_pop_first_non_evicted_from` promises to look at up to ten entries. It returns in its first round, so no entry is ever
  skipped (queue.py:57-88); the model has no loop there.
- `write_manifest_atomic` says that `if_match` must be None on create. It is not looked at (manifest.py:627-637):
  `ManifestStore.RefusedExactly`. Across a deletion an old ETag is accepted: `ManifestStore.DeletionLosesUpdate` is a run,
  `ManifestStore.OldTagAcceptedExactly` and `ManifestStore.UpdateLostExactly` say exactly when.
- A spawn is meant to find both holders empty. The idle holder it does; the active one it finds filled exactly if the last
  SIGTERM call that should have emptied it raised and this slot is the first one taken since:
  `SchedulerHolder.HolderFilledExactly`. The process dropped is then one whose call raised
  (`SchedulerTheorems.SpawnsFindHoldersEmpty`). It does happen: `SchedulerWitness.SpawnFindsHolderFilled`.
- The sweeper is meant to finalise evicted slots. It takes an evicted slot's row, once old enough, exactly if the slot was
  not let in through the acceptance buffer: `SchedulerRowRuns.EvictedRowIsSwept`. A run with the other kind is
  `SchedulerWitness.EvictedBufferedRowStaysOpen`.
- An ended row is meant to stay ended. One is reopened exactly if some sweep took it before the worker's first write of it
  had landed, and a write of it landed later: `SchedulerRowRuns.ReopenedExactly`. The slot is then still queued, or its
  row is in a thread's hand (`TakenInTime`). Runs: `SchedulerWitness.UntimelySweepReopensRow` (queued for a minute),
  `SweepInHandReopensRow` (taken up, not yet written), `SweepBetweenReopensRow` (written between SELECT and UPDATE).
- A cancelled follow-up is meant not to keep an open row. One whose last audit is cut off does: its row stays POPPED and
  open, and no sweep and no later start ends it. It is the only one: `SchedulerReboot.OpenAfterReboot`.
- The restart that `submit` makes counts against the extension cap but does not move the loop's own deadline
  (manager.py:399-404, 918-919). `SchedulerGrace.GraceIsBounded` counts both.
- Deleting spans with the original indices is right only if overlaps are harmless: `Recovery.StripIsRight` gives the exact
  condition. A call found inside another call's arguments takes as much of the following text with it as it is long
  (`Recovery.NestedSpansEatText`); `Recovery.NestedCallsLoseText` is such a text, with the spans the scanner finds.
- Text up to the last `</think>` is meant not to be touched. It is not searched, but it is squashed and stripped with the
  rest. `Recovery.RecoveryKeepsText` says what stays and exactly when it stays to the letter, `Recovery.HeadCanChange` is an
  input where it does not.
- The client's depth counts the top level as 1 and its guard check asks for the literal `false`, so it refuses schemas the
  server accepts: `Schema.ClientRefusesNoLess`, `Schema.ClientRefusesMore`.

## Model

| member | source | states |
|---|---|---|
| Fsm.IsTerminal | src/turbohaul/fsm.py:70-72 | a state is terminal exactly if the table allows no transition from it |
| Fsm.ColdWalkReachesCold | src/turbohaul/manager.py:1421-1444 | four rounds of the force-cold walk end in COLD from every state |
| Fsm.ColdWalkLegal | src/turbohaul/manager.py:1421-1444 | the walk has at most three hops, and all are legal exactly if it starts neither in RECEIVED nor in ACTIVE_MATCH |
| Fsm.ForceColdLoop | src/turbohaul/manager.py:1421-1444 | the bounded loop writes the states of the walk, in order |
| Slots.MovedKeepsLegalHistory | src/turbohaul/fsm.py:46-57 | a legal move keeps a slot's history a path of the table from RECEIVED |
| Queue.TurbohaulQueue.Enqueue | src/turbohaul/queue.py:41-55 | admits to staging, to the buffer or not at all, by the two caps, and sets the tier's state |
| Queue.TurbohaulQueue.EnqueueHead | src/turbohaul/queue.py:114-120 | puts a slot before all others whatever the cap, unless closed |
| Queue.TurbohaulQueue.PopFirst | src/turbohaul/queue.py:57-88 | takes the staging head, flags it if its client is gone, skips nothing |
| Queue.TurbohaulQueue.PromoteOne | src/turbohaul/queue.py:101-104 | moves the buffer's head to staging's tail |
| Queue.TurbohaulQueue.FillFromBuffer | src/turbohaul/queue.py:107-111 | the drain loop moves as many buffered slots as fit, in order |
| Queue.TurbohaulQueue.PopNext | src/turbohaul/queue.py:90-112 | pops and replenishes both tiers in one step, as the function whose runs QueueRuns is about |
| Queue.TurbohaulQueue.PopAndReplenish | src/turbohaul/queue.py:98-105 | the same for a staged head: pop, flag, promote one slot if one fits |
| Queue.TurbohaulQueue.PopMatchedThread | src/turbohaul/queue.py:136-166 | removes exactly the first staged slot of the thread and model, evicted or not |
| Queue.TurbohaulQueue.Remove | src/turbohaul/queue.py:168-176 | removes the first occurrence from staging, else from the buffer, and says whether there was one |
| Queue.TurbohaulQueue.Close | src/turbohaul/queue.py:191-202 | returns the whole line, staging first, and leaves both tiers empty and closed |
| Queue.FirstMatchIs | src/turbohaul/queue.py:136-166 | the match is the first staged slot of that thread and model |
| QueueRuns.PopTakesHeadOfLine | src/turbohaul/queue.py:90-112 | the tiers are one line that a pop heads; it comes back empty-handed only if both are empty |
| QueueRuns.ApplyConserves | src/turbohaul/queue.py:41-176 | one operation neither loses nor duplicates a slot |
| QueueRuns.RunConserves | src/turbohaul/queue.py:41-202 | over any run the slots queued and handed out are those queued at first and let in, with multiplicity |
| QueueRuns.FirstInFirstOut | src/turbohaul/queue.py:41-112 | in runs of enqueue and pop alone slots leave in exactly the order they arrived |
| QueueRuns.BoundedOvertaking | src/turbohaul/queue.py:45-55 | a buffered slot is overtaken by at most as many fresh enqueues as staging removals are made while it waits |
| QueueRuns.OvertakingHappens | src/turbohaul/queue.py:136-166 | the bound is reached: one matched pop lets one enqueue overtake |
| QueueRuns.TiersStayWithinCaps | src/turbohaul/queue.py:45-55 | over any run each tier stays within its cap, staging but for head inserts |
| Timers.GraceTimer.Start | src/turbohaul/queue.py:220-224 | opens the window for a thread and model with no extension used |
| Timers.GraceTimer.RestartForFollowup | src/turbohaul/queue.py:226-232 | restarts the window exactly if the cap is not reached |
| Timers.GraceTimer.RemainingS | src/turbohaul/queue.py:234-238 | zero exactly when there is no window or it has run out |
| Timers.GraceTimer.MatchesWindow | src/turbohaul/queue.py:243-249 | a match needs an open window of the same thread and model |
| StateDb.StateDb.UpsertSlot | src/turbohaul/state.py:221-258 | writes the row, keeps its creation time, clears an earlier end |
| StateDb.StateDb.MarkSlotEnded | src/turbohaul/state.py:272-277 | ends an existing row with a reason, in COLD |
| StateDb.StateDb.BootReconcile | src/turbohaul/manager.py:296-301 | afterwards every row is ended, POPPED, COLD, a pid-less IDLE_HOT, or of a process the host reports alive; rows that were so are untouched, exactly the others are ended now and counted |
| StateDb.StateDb.ReconcileOrphanedSlots | src/turbohaul/state.py:280-319 | two passes end exactly the orphans and count them |
| StateDb.StateDb.EndEach | src/turbohaul/state.py:303-318 | the loop ends each row once |
| StateDb.StateDb.SelectStale | src/turbohaul/manager.py:1622-1641 | finds stale rows: all of them, or a batch of 100 |
| StateDb.StateDb.EndBatch | src/turbohaul/manager.py:1642-1647 | ends the rows it is given and adds their number to the counter |
| StateDb.ReconcileLeavesNoOrphan | src/turbohaul/state.py:280-319 | afterwards an open row is in POPPED or COLD, has a live pid, or is a pid-less IDLE_HOT; exactly the others were changed |
| StateDb.ReconcileIsIdempotent | src/turbohaul/state.py:280-319 | a second reconciliation changes and finds nothing |
| StateDb.SweepsFinalizeExactly | src/turbohaul/manager.py:1622-1647 | k sweeps of n stale rows end exactly min(n, 100k), whichever rows each SELECT returns |
| StateDb.SweepsNeeded | src/turbohaul/manager.py:1622-1647 | no stale row is left exactly after ceil(n/100) sweeps or more |
| StateDb.StaleIsUnaccounted | src/turbohaul/manager.py:1631-1638 | a sweep ends nothing that the next start's reconciliation would keep, whatever is alive then |
| SchedulerInvariant.QueueOpKeepsPlaces | src/turbohaul/queue.py:41-176 | after any queue operation exactly the right slots are queued, each once |
| SchedulerInvariant.FreezeKeeps | src/turbohaul/manager.py:1419-1447 | forcing cold a slot whose future is done finishes it by legal hops |
| SchedulerSteps.ResumeKeeps | src/turbohaul/manager.py:537-1216 | every stretch of the worker keeps the invariant |
| SchedulerSteps.CancelKeeps | src/turbohaul/manager.py:1670-1678 | a cancellation at any suspension point keeps it |
| SchedulerSteps.StepKeeps | src/turbohaul/manager.py:346-1704 | every event keeps it |
| SchedulerTheorems.SidecarCustody | src/turbohaul/manager.py:726-834 | at every suspension point each process ever spawned is held, dead or being terminated, and at most one is alive and untouched |
| SchedulerIntake.RequestsExactly | src/turbohaul/manager.py:374-431 | a request is refused, put before all others, at the end of staging or of the buffer, exactly by stop flag, open window and room, with the slot, row and window that follow |
| SchedulerIntake.TopExactly | src/turbohaul/manager.py:544-714 | the worker sleeps on an empty line, evicts a head whose client is gone, loads any other, and refuses exactly the load that would cost a parked process of another model for a missing manifest |
| SchedulerLoad.InheritsExactly | src/turbohaul/manager.py:716-742 | a load inherits the parked process, starting and ending none, if and only if it was spawned for the slot's model and its window has not run out; in every other case it is sent SIGTERM |
| SchedulerLoad.SwapsExactly | src/turbohaul/manager.py:741-742 | the load goes on after a swap exactly if the SIGTERM call returned, with the process gone |
| SchedulerLoad.GatesDecide | src/turbohaul/manager.py:743-838 | where a spawn is due, a process is added if and only if the gates say yes and the spawn succeeds; on a no, no process and no holder is touched |
| SchedulerLoad.SpawnsAreGated | src/turbohaul/manager.py:774-838 | in every run only a worker whose gates said yes adds a process, and only one |
| SchedulerLoad.GateRefusalIsFinal | src/turbohaul/manager.py:790-823 | a refused load is next seen POPPED, its row ended and its caller failed for that reason, with no process added, whatever happens in between |
| SchedulerLoad.RefusalEnds | src/turbohaul/manager.py:691-712 | how both refusals before a spawn end, the idle holder keeping its process |
| SchedulerLoad.HealthDecides | src/turbohaul/manager.py:836-849 | at the health wait the slot becomes ACTIVE if and only if the check says yes |
| SchedulerLoad.ServedAfterHealth | src/turbohaul/manager.py:836-849 | in every run a slot starts to be served only after its own health check said yes, by inheriting, or by promotion |
| SchedulerRounds.RoundExactly | src/turbohaul/manager.py:919-1147 | one round of the grace loop: the first matching staged slot is promoted, or the loop sleeps, while the deadline has not come; then the process is parked for the window asked for, or terminated |
| SchedulerRounds.IntentIsLastServed | src/turbohaul/manager.py:851-943 | the keep-alive that decides that window is that of the slot served last |
| SchedulerRounds.DeadlineExactly | src/turbohaul/manager.py:1050-1060 | the deadline moves exactly after a follow-up that was answered while the cap allows it, and then to a full grace period |
| SchedulerRounds.LoopStarts | src/turbohaul/manager.py:904-918 | the window starts with the answer, for its thread and model; the first deadline is a grace period after; a follow-up's outcome is its completion's |
| SchedulerVerdicts.VerdictsExactly | src/turbohaul/manager.py:277-281 | a waiting caller is answered if and only if his slot's completion succeeds, gone if and only if he gives up, and failed for each reason exactly when it applies |
| SchedulerParked.HoldersExactly | src/turbohaul/manager.py:548-570 | what each event does to the parked process, its expiry and the teardown tasks, and why every SIGTERM call starts |
| SchedulerParked.DeathsExactly | src/turbohaul/manager.py:1218-1230 | in each event exactly those living processes end that die of themselves or whose SIGTERM call returns |
| SchedulerAudits.RowsHandedExactly | src/turbohaul/manager.py:1500-1508 | after a stretch of the worker a thread has a row in hand if and only if the worker waits for it, and that very row: no audit is left out and none is made besides |
| SchedulerAudits.ActiveSlotIsProcessed | src/turbohaul/manager.py:644-1080 | at every point of every run `_active_slot` names the slot being processed, or its follow-up while that has its turn |
| SchedulerEnds.EndsExactly | src/turbohaul/manager.py:1065-1080 | which row a stretch of the worker ends, for which reason, and that it ends no other but a slot's forced cold |
| SchedulerEnds.TeardownsExactly | src/turbohaul/manager.py:1218-1293 | a teardown goes on exactly if its SIGTERM call returned, and ends with an empty holder |
| SchedulerEnds.HandlersExactly | src/turbohaul/manager.py:1154-1447 | what the finally block and the handler of uncaught exceptions do with the active process, by the outcome of their calls |
| SchedulerTheorems.SpawnsFindHoldersEmpty | src/turbohaul/manager.py:741-834 | a spawn finds the idle holder empty, and in the active holder at most a process whose own SIGTERM call raised |
| SchedulerHolder.HolderFilledExactly | src/turbohaul/manager.py:1187-1212 | a spawn finds the active holder filled if and only if the last call that should have emptied it raised and the slot is the first taken since |
| SchedulerWitness.SpawnFindsHolderFilled | src/turbohaul/manager.py:1402-1417 | a run whose failed load is terminated by calls that all raise, and whose next slot is spawned over that process |
| SchedulerTheorems.AtMostOneServing | src/turbohaul/manager.py:847-1081 | at most one slot is in ACTIVE or ACTIVE_MATCH, and the worker has it in hand |
| SchedulerPids.SlotsRunOnOwnModel | src/turbohaul/manager.py:719-943 | in every reached state each slot's pid is of a process spawned for the slot's own model, and a slot in ACTIVE or ACTIVE_MATCH has one |
| SchedulerTheorems.ServedOnOwnModel | src/turbohaul/manager.py:719-943 | while a completion runs its slot is on the active process, of its own model; a follow-up's anchor is in GRACE with the same thread and model |
| SchedulerTheorems.HistoriesAreLegal | src/turbohaul/fsm.py:15-39 | every slot's states form a legal path; no transition raises, and the drift branch is never entered |
| SchedulerTheorems.SettledAtHead | src/turbohaul/manager.py:544-639 | at the head of the worker loop every slot no longer queued is settled and, unless evicted, has a COLD row with an end and a reason; evicted ones stay STAGED and are counted once |
| SchedulerTheorems.SettledAfterShutdown | src/turbohaul/manager.py:1670-1704 | after shutdown every slot is settled that the worker did not have in hand when it was cancelled, so every one then queued; and no process is left without SIGTERM |
| SchedulerTheorems.ShutdownWasAsked | src/turbohaul/manager.py:1670-1678 | a shutdown that is on its way was asked for by an earlier event |
| SchedulerShutdown.PendingAfterShutdown | src/turbohaul/manager.py:1670-1704 | after shutdown a future is pending if and only if its slot was in hand at the cancellation with a pending future, was not the follow-up being answered, and its caller has not given up since |
| SchedulerReboot.OpenAfterReboot | src/turbohaul/manager.py:1068-1080 | after a shutdown and the next start's reconciliation a row is open if and only if it is that of a follow-up whose last audit was cut off; it is POPPED |
| SchedulerFutures.FuturesAreFinal | src/turbohaul/manager.py:277-281 | a settled future keeps its verdict and a slot its labels for the rest of the run |
| SchedulerFutures.AnsweredWasActive | src/turbohaul/manager.py:904-907 | no caller is answered whose slot was never active |
| SchedulerRows.StepRows | src/turbohaul/manager.py:1500-1543 | an event changes the row of a queued, evicted or still to be written slot only by the thread's write and then the sweep's; no row becomes STAGED again; one is reopened exactly if the write lands on an ended row |
| SchedulerRowRuns.RowsReached | src/turbohaul/manager.py:1500-1543 | in every run a slot still to be written has left STAGED, and so has its row once a write has landed, so that no sweep takes it any more |
| SchedulerRowRuns.EvictedRowIsSwept | src/turbohaul/manager.py:1622-1647 | the open row of an evicted slot has no pid, and is stale exactly if it is older than the cutoff and the slot never was in the acceptance buffer |
| SchedulerWitness.EvictedBufferedRowStaysOpen | src/turbohaul/manager.py:572-616 | a run that leaves an evicted slot's row open and out of reach of every sweep |
| SchedulerRowRuns.EndedExactly | src/turbohaul/manager.py:1622-1647 | the row of a slot that is queued, evicted or still to be written has been ended if and only if a sweep took it after its last write landed |
| SchedulerRowRuns.EndedWhileQueued | src/turbohaul/manager.py:1622-1647 | the row of a queued slot has been ended if and only if a sweep took it |
| SchedulerRowRuns.ReopenedExactly | src/turbohaul/state.py:221-277 | a row is written after it was ended if and only if a sweep took it before the worker's first write of it had landed, and a write of it landed later |
| SchedulerRowRuns.TakenInTime | src/turbohaul/manager.py:1500-1508 | when a sweep takes a row that is written later, the slot is queued or its row is in a thread's hand |
| SchedulerRowRuns.NoUpsertAfterEnd | src/turbohaul/state.py:221-277 | without a sweep for a slot that is queued or whose row is in a thread's hand, no row is written after it was ended |
| SchedulerWitness.UntimelySweepReopensRow | src/turbohaul/manager.py:1594-1647 | a run in which a slot waits 61 seconds behind a load, a sweep of the smallest age ends its row, and taking it up reopens it |
| SchedulerWitness.SweepInHandReopensRow | src/turbohaul/manager.py:713-714 | a run in which the sweep comes after the slot was taken up and before the thread wrote its row |
| SchedulerWitness.SweepBetweenReopensRow | src/turbohaul/manager.py:1631-1645 | a run in which the thread writes between SELECT and UPDATE: a LOADING row is ended, and reopened at ACTIVE |
| SchedulerOvertaking.StepOp | src/turbohaul/queue.py:41-176 | every event but the closing is at most one queue operation |
| SchedulerOvertaking.BufferedIsOvertakenBoundedly | src/turbohaul/queue.py:45-55 | in every run a buffered slot is passed by at most as many later requests as follow-ups are promoted while it waits |
| SchedulerGrace.GraceIsBounded | src/turbohaul/manager.py:914-1081 | the grace loop sleeps at most (1 + max extensions) grace periods and one poll tick; submit's extensions count |
| SchedulerGrace.HeadInsertIsForAnchor | src/turbohaul/manager.py:399-400 | while the worker is in a grace loop, only a request of the anchor's own thread and model is put before the queue |
| SchedulerIdle.WindowIsClamped | src/turbohaul/manager.py:1098-1108 | a keep-alive intent gives its own window, zero for zero, the longest for a negative one, and never more |
| SchedulerIdle.IdleIsAttended | src/turbohaul/manager.py:548-570 | a parked process has an expiry within the longest window or a teardown on its way; once expired the next idle round starts one |
| Manager.TurbohaulManager.WalkToCold | src/turbohaul/manager.py:1421-1444 | the loop writes the walk's states |
| Manager.TurbohaulManager.ForceColdFirst | src/turbohaul/manager.py:1386-1417 | terminates the active process only if the slot owns it and no other slot is active |
| Manager.TurbohaulManager.Finally | src/turbohaul/manager.py:1154-1216 | reaps a live active process that was not parked, else drops the reference |
| Manager.TurbohaulManager.Tick | src/turbohaul/manager.py:556-568 | clears an expiry that has come and starts one teardown task |
| Manager.TurbohaulManager.AfterLoading | src/turbohaul/manager.py:716-742 | inherits an unexpired process of the same model, swaps out any other, or spawns |
| Manager.TurbohaulManager.Promote | src/turbohaul/manager.py:921-936 | takes the first matching staged slot onto the anchor's process |
| Manager.TurbohaulManager.LeaveGraceLoop | src/turbohaul/manager.py:1083-1147 | parks the process for the window asked for, or tears it down |
| Manager.TurbohaulManager.SubmitRequest | src/turbohaul/manager.py:374-431 | refuses, puts first, or queues in turn, by stop flag and window |
| Manager.TurbohaulManager.CancelWorker | src/turbohaul/manager.py:1670-1678 | the stop flag, and the unwinding from where the worker is suspended |
| Manager.TurbohaulManager.ShutdownCloses | src/turbohaul/manager.py:1684-1704 | closes the queue, fails what it held, takes down the idle holder |
| Manager.TurbohaulManager.FailAll | src/turbohaul/manager.py:1688-1694 | the loop settles each cleared slot that is pending |
| Manager.TurbohaulManager.RunAudit | src/turbohaul/manager.py:1500-1543 | the thread writes the row it was given from the slot as it is, and notes a row that was ended |
| Manager.TurbohaulManager.RunSweep | src/turbohaul/manager.py:1597-1647 | a sweep looks at rows older than the configured age, never less than a minute, may be crossed by the thread's write, and adds what it ends to the counter |
| Manager.TurbohaulManager.RunIdleTeardown | src/turbohaul/manager.py:1295-1309 | the detached task takes what the holder has by then |
| Manager.TurbohaulManager.RunWorker | src/turbohaul/manager.py:537-1216 | from any suspension point to the next, as the machine does |
| Manager.TurbohaulManager.Do | src/turbohaul/manager.py:346-1704 | after any allowed event the object is in the machine's next state; all processes are held, dead or being terminated, at most one slot is served, and all histories are legal |
| Manager.Drive | src/turbohaul/manager.py:346-1704 | a fresh manager driven by any run's events is in that run's last state, with the same three properties |
| Logging.GetLogging | src/turbohaul/api/logging.py:110-158 | a page is the longest prefix of the matching rows within limit and budget, or one oversized row, with the right cursor |
| Logging.FilterMeans | src/turbohaul/api/logging.py:118-127 | what a filter by slot, by type, by both or by neither lets through |
| Logging.PageSplits | src/turbohaul/api/logging.py:118-158 | a page and the rows from its cursor are the rows from the old cursor, also after appends; the cursor moves forward |
| Logging.WalkReturnsPrefix | src/turbohaul/api/logging.py:107-158 | at any point of a walk the rows returned are the first matching rows in order, and pages number at most one more than rows |
| Logging.WalkIsComplete | src/turbohaul/api/logging.py:107-158 | a finished walk returns exactly the matching rows of the last table, ascending, so every row there at the start once |
| Logging.WalkEnds | src/turbohaul/api/logging.py:107-158 | over a fixed table of n matching rows the cursor is null within n + 1 requests |
| Scanner.BalancedObjectAt | src/turbohaul/api/tool_call_recovery.py:66-97 | the end returned is the first place where all braces outside strings are closed; None exactly if there is none |
| Scanner.PrintIsNeutral | src/turbohaul/api/tool_call_recovery.py:66-97 | reading a printed JSON value changes no depth and never goes below it |
| Scanner.ScannerFindsPrintedObject | src/turbohaul/api/tool_call_recovery.py:66-97 | at a printed object with any text around it the scanner returns exactly its end |
| Scanner.OuterEnd | src/turbohaul/api/tool_call_recovery.py:166-172 | past the brace that follows white space, or None exactly if something else follows |
| Scanner.SpanIsTheCall | src/turbohaul/api/tool_call_recovery.py:151-173 | for a printed call the stripped span ends exactly where the call does |
| Recovery.StripSpans | src/turbohaul/api/tool_call_recovery.py:273-276 | the reverse loop is the function the next rows are about |
| Recovery.StripIsRight | src/turbohaul/api/tool_call_recovery.py:273-276 | what is left is the text outside all spans if and only if the overlaps are harmless |
| Recovery.StripLeavesGaps | src/turbohaul/api/tool_call_recovery.py:273-276 | for disjoint spans it is the gaps from left to right, shorter by exactly the spans' lengths |
| Recovery.NestedSpansEatText | src/turbohaul/api/tool_call_recovery.py:273-276 | cutting a call and a call inside it eats as much of the following text as the inner one is long, for all texts |
| Recovery.NestedCallsLoseText | src/turbohaul/api/tool_call_recovery.py:151-173 | a text whose call holds another one: both spans are whole calls by the scanner, and the text after them is lost |
| Recovery.Choice.MaybeRecoverToolCalls | src/turbohaul/api/tool_call_recovery.py:205-283 | leaves the message alone in every no-op case, else takes the accepted calls out of the segment, squashes and strips the whole |
| Recovery.Accept | src/turbohaul/api/tool_call_recovery.py:243-256 | keeps exactly the candidates with an advertised name, in order |
| Recovery.AcceptedParts | src/turbohaul/api/tool_call_recovery.py:243-256 | every advertised candidate is kept as often as it comes and in its place |
| Recovery.RecoversExactly | src/turbohaul/api/tool_call_recovery.py:205-283 | a reply changes if and only if it has no calls, is not blank and an advertised call was found; it then ends in tool calls |
| Recovery.RecoveryKeepsText | src/turbohaul/api/tool_call_recovery.py:273-279 | white space aside, the unsearched head stays whole before what the cuts leave of the segment; the head stays to the letter if and only if it is empty, or starts with no white space and has no run of three newlines |
| Recovery.HeadCanChange | src/turbohaul/api/tool_call_recovery.py:277-279 | a message whose head before the marker loses its first newline |
| Tidy.SquashedHasNoRun | src/turbohaul/api/tool_call_recovery.py:279 | squashing leaves no run of three newlines |
| Tidy.SquashParts | src/turbohaul/api/tool_call_recovery.py:279 | parts between which no newline run goes across are squashed on their own |
| Tidy.SquashRun | src/turbohaul/api/tool_call_recovery.py:279 | a run of n newlines becomes one of min(n, 2) |
| Tidy.TidyingKeepsInk | src/turbohaul/api/tool_call_recovery.py:279 | squashing and stripping drop nothing but white space |
| Tidy.HeadKeptExactly | src/turbohaul/api/tool_call_recovery.py:277-279 | exactly which beginnings survive squashing and stripping to the letter |
| Reasoning.MergeOne | src/turbohaul/api/chat_completion.py:1112-1126 | wraps stripped reasoning and puts it before the content, if there is any |
| Reasoning.MergeReasoningIntoContent | src/turbohaul/api/chat_completion.py:1094-1126 | every message is merged, none for a structured-output request |
| Reasoning.MergeKeepsBoth | src/turbohaul/api/chat_completion.py:1112-1126 | the stripped reasoning stands verbatim between the opening tag and the marker, the content is the end, and white space aside nothing else is there and nothing is lost |
| Reasoning.WhatIsScanned | src/turbohaul/api/tool_call_recovery.py:226-233 | the text searched after a merge, exactly |
| Reasoning.ReasoningIsNeverScanned | src/turbohaul/api/tool_call_recovery.py:224-233 | it is always a suffix of two newlines and the original content |
| Reasoning.StripUndoesMerge | src/turbohaul/api/chat_completion.py:209-221 | stripping a merged message gives the left-stripped content, or its part after its own last marker |
| Schema.SchemaDepthIsHeight | src/turbohaul/api/chat_completion.py:84-96 | the cut-off depth is the smaller of the true height and 17 |
| Schema.HeightIsLongestPath | src/turbohaul/api/chat_completion.py:84-96 | the height is the length of the longest path through lists and dicts |
| Schema.RefIsReached | src/turbohaul/api/chat_completion.py:109-117 | a reference is found if and only if some path through lists and dicts leads to one |
| Schema.GuardIsReached | src/turbohaul/api/chat_completion.py:120-128 | a missing guard is found if and only if some path leads to an object schema without one |
| Schema.LooseGuardIsReached | src/frontend/src/lib/responseFormatValidator.ts:235-245 | the client's guard check fails if and only if some path leads to an object schema that has not the literal false |
| Schema.CountIsReached | src/turbohaul/api/chat_completion.py:99-106 | the count of a list or dict is that of its elements or values together, besides its own names |
| Schema.MeasureDepth | src/frontend/src/lib/responseFormatValidator.ts:182-198 | the client's depth is the height plus one |
| Schema.Walker.Visit | src/frontend/src/lib/responseFormatValidator.ts:205-245 | what each visitor does to its captured variable |
| Schema.Walker.Walk | src/frontend/src/lib/responseFormatValidator.ts:248-255 | the walk folds the visitor over the tree, node before children |
| Schema.WalkCountsProperties | src/turbohaul/api/chat_completion.py:99-106 | the visitor's total is the server's recursive sum |
| Schema.WalkFindsRef | src/turbohaul/api/chat_completion.py:109-117 | the visitor finds a reference exactly if the recursion does |
| Schema.WalkFindsGuard | src/frontend/src/lib/responseFormatValidator.ts:235-245 | the visitor finds exactly the guards that are not literally false |
| Schema.ValidateInnerSchema | src/frontend/src/lib/responseFormatValidator.ts:139-170 | the client's verdict with its reason |
| Schema.ClientRefusesNoLess | src/turbohaul/api/chat_completion.py:165-179 | passing the client means passing the server's four checks; the exact difference, and the order of reasons |
| Schema.ClientRefusesMore | src/frontend/src/lib/responseFormatValidator.ts:235-245 | a schema the server accepts and the client refuses |
| ManifestStore.Store.WriteManifestAtomic | src/turbohaul/manifest.py:637-682 | creates, updates under the next revision, or refuses and leaves the store alone |
| ManifestStore.Store.DeleteManifest | src/turbohaul/manifest.py:699-705 | removes one manifest and says whether it was there |
| ManifestStore.RevisionCountsWrites | src/turbohaul/manifest.py:637-653 | between deletions the revision grows by exactly one per accepted write, and nothing else changes the manifest |
| ManifestStore.AcceptedCarriesTag | src/turbohaul/manifest.py:647-653 | an accepted update carried the ETag of the version it replaced |
| ManifestStore.NoLostUpdate | src/turbohaul/manifest.py:637-653 | an accepted update replaces the very manifest its writer read |
| ManifestStore.OneWriterPerTag | src/turbohaul/manifest.py:637-653 | of any writers that hold the same ETag at most one is accepted |
| ManifestStore.RefusedExactly | src/turbohaul/manifest.py:637-653 | a write is refused exactly if the manifest exists and its ETag is not the one sent, and as missing exactly if none was sent |
| ManifestStore.DeletionLosesUpdate | src/turbohaul/manifest.py:699-705 | across a deletion an old ETag is accepted over a new manifest |
| ManifestStore.OldTagAcceptedExactly | src/turbohaul/manifest.py:637-653 | an old ETag is accepted if and only if the revision since the last re-creation, plus the writes accepted since, has come to the one that was read |
| ManifestStore.UpdateLostExactly | src/turbohaul/manifest.py:637-705 | an accepted update replaces a manifest its writer did not read if and only if there was a deletion since and the re-created one has that revision with another content |
| Text.DecimalIsInjective | src/turbohaul/manifest.py:647-648 | different revisions print differently |
| Text.StripIsMiddle | src/turbohaul/api/tool_call_recovery.py:279 | stripping takes nothing but white space, and only at the ends |
| Flags.FlagsToArgv | src/turbohaul/manifest.py:724-744 | the loop builds the argv flag by flag and fails on the first key that is not allowed |
| Flags.ArgvIs | src/turbohaul/manifest.py:724-744 | it succeeds exactly if every key is allowed |
| Flags.PrintedFlagsReadBack | src/turbohaul/manifest.py:709-744 | for every validated flag map, reading the argv by the allowlist's arities recovers every flag but those left out as False, in order: an int as its number, a string as itself, a float as its text, a flash string in lower case |
| Flags.ReadValuesAreReliable | src/turbohaul/manifest.py:417-501 | what is read of a validated flag is a number within the bounds, a name of the enum, or a template that starts no statement or expression |
| Flags.UnvalidatedDoesNotReadBack | src/turbohaul/manifest.py:496-501 | a value the validator refuses breaks the round trip |
| Safety.EstimateIsClose | src/turbohaul/safety.py:207-225 | the estimate never exceeds the exact product and is short of it by less than (1 + scale) * ctx / 1024 + 1 |
| Safety.MoreContextNeedsMore | src/turbohaul/safety.py:207-225 | the estimate grows with the context |
| Safety.SmallerContextsFit | src/turbohaul/safety.py:228-264 | accepting a context accepts every smaller one |
| Safety.UnknownIsLetThrough | src/turbohaul/safety.py:243-250 | without a reading or the sizes nothing is refused; more memory never refuses, less overhead neither |
| Safety.GateIsExactUpToRounding | src/turbohaul/safety.py:228-264 | a load that fits exactly is never refused, and one let through misses by less than the rounding |

## Left out

- Slot objects are records in a table keyed by id; whoever holds the id shares the record. Python object identity beyond
  that is not modelled.
- A pid is never reused within a run, and a SIGTERM call that returns has ended its process. VRAM verification, orphan
  reaping and row and audit writes are assumed to succeed; two audits in a row are one suspension point.
- Two live processes are not excluded: the idle-expiry teardown is a task of its own that a later spawn does not wait for.
  Custody says what holds instead.
- An evicted follow-up is served: the grace loop does not look at the flag, and neither does the model.
- Follow-ups put at the head overtake each other; no order among them is claimed.
- The slots in the worker's hand when shutdown cancels it are the exception in SettledAfterShutdown, as in the code;
  PendingAfterShutdown says which of them stay pending. A thread's write that a cancellation keeps from starting is one
  that never lands.
- Streaming: the two events of a streaming slot are taken as armed before it is popped, and a drained stream counts as
  answered.
- The drift branch of the grace loop stops the machine; that it is never entered is HistoriesAreLegal.
- The idle-hot timer, status payloads, websocket events and the shape of audit events are not modelled.
- StateDb.StateDb.UpsertSlot: the row has the state, the pid, the creation time and the end; port, thread, extension count,
  client_meta and updated_at are columns that nothing modelled here reads back.
- Manager.TurbohaulManager.Audit: only the row it writes; the audit event and its publication on the bus are left out.
- StateDb.StateDb.BootReconcile: the rows only; reaping orphans on the host and the audit event are left out.
- Which rows a SELECT without ORDER BY returns is left open, so every choice is covered.
- Logging: the length of an encoded event is a number of its row; payload decoding and redaction are not modelled, and the
  budget covers the events, not the envelope around them.
- Recovery: the regular expressions and `json.loads` that find candidates are not modelled; spans are taken as found,
  ascending and inside the segment.
- Scanner: tokens may be any text over the characters of numbers, which covers the number grammar of section 6 of RFC 8259.
- Schema: the byte-size check, which the two sides compute from different serialisations, and the compile step.
- ManifestStore: each write is one step, as its route runs it without suspending; paths, YAML, temporary files and the
  validation of what is read back are left out.
- Flags: the allowlist, its bounds and the denied keys are parameters; the round trip only needs keys without a dash, as all
  of the allowlist's are. A float carries the text Python prints for it, and lower-casing is ASCII.
- Safety: the quant scale is any non-negative real, so the table of scales is covered; binary rounding of the scale 0.32
  is not modelled.
- The React interface, the CLI, config loading, the host probes and the HTTP handlers.
