# NekoNest verification project

NekoNest relays phone prompts to coding agents and must never execute a prompt
twice, whatever is retried, lost, torn down or restarted. This project models
the state machines that carry that promise, in the daemon, in the relay and
between them, and proves what they keep over every run. `dafny verify
dfyconfig.toml` checks all of it.

How the model is organised:

* **Durable state.** `Durable` has the vocabulary: a persist either saves, fails
  without writing, or fails after writing (the rename precedes the final chmod).
  `QueueModel`, `QueueSteps`, `QueueFile` and `QueueRuns` are the per-session
  prompt queue: one operation, its effect on every invariant, loading and
  storing, and whole runs with restarts; `QueueOutcomes` says status by status what
  each operation does and exactly when it can. `JournalModel` and `JournalFile` are
  the command journal. `PromptQueue` and `PromptJournal` hold the objects with
  their loops, proved against those functions.
* **Dispatch.** `Dispatch` joins queue, journal and native boundary in one
  machine of interleaved steps with crashes. `AtMostOnce`, `Agreement`,
  `JournalTruth`, `JournalRuns` and `DispatchKeys` are what its runs keep, and
  `DispatchOutcomes` what one dispatch comes to. `Dispatcher` is one queued dispatch
  on the objects themselves.
* **Turn ownership.** `ActiveTurns`, `TurnRuns` and `HeldTerminals` are the registry
  of controllable turns; `TurnTracker` the adapter's terminal gate; `ControlEvents`
  the way from a terminal event to the queue in one call, `TurnQueue` the same
  with its steps interleaved with everything else.
* **Relay.** `DaemonLease` is the generation lease with its locks, `LeaseNotices`
  what is published about it,
  `PhoneOutbound` the byte-budgeted outbound queue, `PhoneIndex` the
  subscription lists, `DeviceSwitches`, `RateLimiter` and `RateRuns` the limits.
* **Handshake.** `CommitHandshake` composes the dispatcher with the relay over a
  channel that may lose, delay and repeat; `CommitSafety` is what both nodes
  agree on, `CommitDelivery` that commits are sent before they are marked and can
  always get through, `MisnamedPrompts` where one condition is needed,
  `HandshakeRuns` the pieces of their runs; `CommitReplay` is the replay loop.
* **Small structures.** `SessionLocks`, `AcceptanceCache`, `RpcOwnership`,
  `RpcOrder`, `RpcReplies`, `Recovery`.

Machines with several threads are functions `Step(state, event)`, one step per
critical section, and a theorem about them quantifies over all event sequences.
Oracles that the code reaches outside the model (UTF-8 validity, JSON
well-formedness, trimming) are parameters; clocks, adapter answers, write
outcomes, map iteration order and thread scheduling are arbitrary inputs.

## What the code does not guarantee

Nine promises one might read into the code do not hold as such. Each has a
failing input and the condition under which it does hold.

* A terminal event that states no id, as those of an app-server exit do, is taken
  for the terminal of whatever turn the session has next, and settles that turn's
  prompt (`TurnRuns.IdlessHitsNextTurn`, `TurnQueue.IdlessSettlesNext`). Stating
  any one id is exactly what is needed (`TurnRuns.IsolationExact`).
* A record may leave the journal file without rollback or eviction: a mark that
  fails after the rename is on file but not in memory, and the next write of any
  prompt drops it (`AtMostOnce.ForgottenMark`). `AtMostOnce.RecordLeavesFile` lists
  the three ways exactly; a record lost this way was not executed.
* A queued prompt may have a journal record. `Agreement.AgreementExact` says when
  a step causes it, and the two ways are shown by
  `Agreement.FailedMarkBreaksAgreement` (a direct dispatch whose journal write
  fails after the rename; the retry is queued) and
  `Agreement.LostQueueBreaksAgreement` (a start that cannot read the queue file).
  At-most-once holds regardless.
* Any number of racing terminal events of one turn can be released
  (`TurnRuns.RacingTerminals`), each exactly while an earlier one has been released
  but not cleared (`TurnRuns.ReleasesInFlight`). Only one of them clears, and
  together they settle one item at most (`TurnQueue.SettledOncePerAdmission`).
* `bind` trims its ids, later calls compare them untrimmed: a turn answers to its
  own ids exactly when trimming does not change them
  (`ActiveTurns.BoundMatchesItself`), else it stays bound
  (`ActiveTurns.UntrimmedStaysBound`, `ActiveTurns.PaddedSessionStaysBound`). Client
  ids are sanitized by the relay, but a session id reaches `bind` as the phone sent
  it: the relay only refuses the empty one (relaycore/websocket.go:1050), and the
  daemon passes it on (daemon/cmd/daemon/main.go:472).
* A relay row may be accepted although no prompt with its session and client id was
  executed, when a sealed envelope of another row and session leaves `client_msg_id`
  out and carries that client id as `message_id` (daemon/cmd/daemon/main.go:526-530).
  `MisnamedPrompts.AcceptanceExact` is the exact condition on the prompts that the
  phones send, `MisnamedPrompts.MisnamedAccepts` the failing run. The claim is about
  the pair of ids: an envelope of the same session that carries the client id as
  `message_id` counts as an execution of that pair, although the row's own envelope
  was not the one executed.
* The rate limiter never evicts the empty key. `RateRuns.RoomExactly` says when
  the table exceeds its bound and `RateRuns.EmptyKeyGrows` that it then has none.
  The key is the client address (relaycore/websocket.go:126, 574), which is empty
  only when the remote address has no host part and no trusted proxy names another
  (relaycore/util.go:36-56).
* The offline notice of a device is published after the connection's lock is given
  back, so it can follow the online notice of the next connection
  (`LeaseNotices.OfflineOvertaken`, `LeaseNotices.OfflineComesLast`): it is late exactly
  when the device has connected again by then (`LeaseNotices.OfflineLateExact`).
  Everything else about a device comes in generation order (`DaemonLease.GenerationOrder`).
* Session and client ids joined with NUL may collide (`Durable.JoinedCollides`);
  a prompt shares its key with no other exactly when neither of its ids holds a NUL
  (`Durable.JoinedExact`). The rest of the model keys by the pair.

## Model

| member | source | states |
|---|---|---|
| `Durable.JoinedExact` | daemon/cmd/daemon/prompt_queue.go:142-144 | a prompt shares its map key with no other if and only if neither of its ids holds a NUL |
| `Durable.JoinedInjective` | daemon/cmd/daemon/prompt_queue.go:142-144 | among prompts whose session ids hold no NUL the map key determines the pair of ids |
| `Durable.JoinedCollides` | daemon/cmd/daemon/prompt_queue.go:142-144 | with NUL two different pairs share one key |
| `QueueSteps.NextValid` | daemon/cmd/daemon/prompt_queue.go:215-414 | every queue operation keeps the invariant: stored items valid, orders unique, one running item per session, nextID the largest stored order |
| `QueueSteps.NextCapacity` | daemon/cmd/daemon/prompt_queue.go:244-258 | every operation keeps 20 active items and 275 items per session, although resume does not compact |
| `QueueSteps.ReleasedIsFirst` | daemon/cmd/daemon/prompt_queue.go:317-319 | a released claim stands at position 1 again |
| `QueueSteps.ClaimTakesFirst` | daemon/cmd/daemon/prompt_queue.go:282-309 | a claim takes the queued item of least order, with no runner and no blocker in the session |
| `QueueSteps.AdmittedOrder` | daemon/cmd/daemon/prompt_queue.go:247-259 | a new item gets the order after nextID, and the wrapped value 0 is refused |
| `QueueSteps.RestartedValid` | daemon/cmd/daemon/prompt_queue.go:110-133 | a restart keeps the invariant, including nextID |
| `QueueModel.CompactSize` | daemon/cmd/daemon/prompt_queue.go:572-587 | below 256 tombstones compaction changes nothing; from there on it keeps 128 of them, and nothing else goes |
| `QueueModel.CompactKeeps` | daemon/cmd/daemon/prompt_queue.go:572-587 | compaction never drops an active item, an item of another session, or the item of largest order, and leaves every kept item unchanged |
| `QueueOutcomes.OperationOutcome` | daemon/cmd/daemon/prompt_queue.go:282-414 | claim runs a queued item, release queues a running one, block gives a live one its blocker, complete retires a running one, cancel a queued or blocked one, skip an indeterminate one: payload dropped on retirement, order kept, no other live or blocked item touched |
| `QueueOutcomes.OperationExact` | daemon/cmd/daemon/prompt_queue.go:311-527 | from which statuses release, complete, block, cancel and skip are possible, each an if and only if |
| `QueueOutcomes.ResumeExact` | daemon/cmd/daemon/prompt_queue.go:486-507 | resuming is possible exactly when a failed or interrupted item blocks the session |
| `QueueOutcomes.ResumeOutcome` | daemon/cmd/daemon/prompt_queue.go:486-507 | resuming completes the failed and interrupted items of the session and touches nothing else |
| `QueueOutcomes.EnqueueExact` | daemon/cmd/daemon/prompt_queue.go:215-261 | a prompt is admitted if and only if it is well formed and new, its session has fewer than 20 unfinished items and the order does not wrap |
| `QueueOutcomes.EnqueueOutcome` | daemon/cmd/daemon/prompt_queue.go:244-261 | a new prompt waits with the order after all others, payload as given |
| `QueueOutcomes.ClaimExact` | daemon/cmd/daemon/prompt_queue.go:282-309 | a claim is possible if and only if an item of the session waits and none runs or blocks |
| `QueueOutcomes.RestartOutcome` | daemon/cmd/daemon/prompt_queue.go:110-133 | a restart blocks what was running, payload and place kept, and changes nothing else |
| `QueueOutcomes.PositionOrder` | daemon/cmd/daemon/prompt_queue.go:531-545 | positions of one session follow the orders of its queued items |
| `QueueOutcomes.CompactDropsOldest` | daemon/cmd/daemon/prompt_queue.go:572-587 | a dropped tombstone is older than every kept one of its session |
| `QueueFile.ReloadExact` | daemon/cmd/daemon/prompt_queue.go:80-140 | every valid queue, once written, is accepted by load and restored with only running items downgraded and nextID recomputed exactly |
| `QueueFile.LoadExact` | daemon/cmd/daemon/prompt_queue.go:80-140 | which files load, and to what, as an if and only if over names, orders and items, for every file and not only written ones |
| `QueueFile.RepairOutcome` | daemon/cmd/daemon/prompt_queue.go:110-133 | what loading does to one item: running becomes indeterminate, a retired item loses its payload |
| `QueueFile.ListsOnce` | daemon/cmd/daemon/prompt_queue.go:589-606 | the written list determines the queue it came from |
| `QueueFile.LoadPromptQueue` | daemon/cmd/daemon/prompt_queue.go:80-140 | the loading loop accepts and restores exactly what the reload theorem speaks of |
| `QueueFile.Listed` | daemon/cmd/daemon/prompt_queue.go:589-606 | persist lists every item once, by increasing order |
| `QueueRuns.ReachableQueue` | daemon/cmd/daemon/prompt_queue.go:215-414 | in every run, with failed writes and restarts, memory and file satisfy the invariant and the capacity bounds |
| `QueueRuns.OrderNeverReused` | daemon/cmd/daemon/prompt_queue.go:247-259 | an order once exposed is carried by no other prompt, in memory or on file, after any continuation with failed writes and restarts |
| `QueueRuns.ClaimsNeverGoBack` | daemon/cmd/daemon/prompt_queue.go:282-309 | over a whole run each session's claims have nondecreasing order |
| `QueueRuns.RetiredNeverClaimed` | daemon/cmd/daemon/prompt_queue.go:322-414 | an item once completed, blocked or cancelled is never claimed again, over any continuation and restarts |
| `QueueRuns.ReclaimNeedsRelease` | daemon/cmd/daemon/prompt_queue.go:282-319 | a claimed item is handed out again only after its release |
| `PromptQueueClass.CountActive` | daemon/cmd/daemon/prompt_queue.go:547-555 | the loop counts exactly the session's active items |
| `PromptQueueClass.OldestCandidate` | daemon/cmd/daemon/prompt_queue.go:282-309 | the claim loop finds the queued item of least order, or none when a runner or blocker exists or nothing waits |
| `PromptQueueClass.PositionOf` | daemon/cmd/daemon/prompt_queue.go:531-545 | the position is one more than the number of queued items of the session before it, and 0 for an item that is not queued |
| `PromptQueueClass.CompactTombstones` | daemon/cmd/daemon/prompt_queue.go:572-587 | sorting the tombstones and deleting the oldest yields the compaction that the queue model specifies |
| `PromptQueueClass.PromptQueue.Persist` | daemon/cmd/daemon/prompt_queue.go:589-606 | a failed write reports failure, and the file holds the old or the new list |
| `PromptQueueClass.PromptQueue.Enqueue` | daemon/cmd/daemon/prompt_queue.go:215-261 | admits, deduplicates or refuses as specified; memory changes only after the write succeeded |
| `PromptQueueClass.PromptQueue.ClaimNext` | daemon/cmd/daemon/prompt_queue.go:282-309 | the claim is the specified one and is exposed only once it is on file |
| `PromptQueueClass.PromptQueue.ReleaseClaim` | daemon/cmd/daemon/prompt_queue.go:317-319 | only a running item returns to the queue, with its order |
| `PromptQueueClass.PromptQueue.Complete` | daemon/cmd/daemon/prompt_queue.go:322-343 | only a running item completes; its payload is dropped and the session compacted |
| `PromptQueueClass.PromptQueue.Cancel` | daemon/cmd/daemon/prompt_queue.go:366-390 | which items can be cancelled and the whole state afterwards |
| `PromptQueueClass.PromptQueue.Block` | daemon/cmd/daemon/prompt_queue.go:345-364 | which items can be blocked and the whole state afterwards |
| `PromptQueueClass.PromptQueue.ResumeSession` | daemon/cmd/daemon/prompt_queue.go:486-507 | failed and interrupted blockers of the session complete, an indeterminate one stays, and nothing is compacted |
| `PromptQueueClass.PromptQueue.SkipIndeterminate` | daemon/cmd/daemon/prompt_queue.go:509-527 | only an indeterminate blocker can be skipped |
| `JournalModel.Cut` | daemon/cmd/daemon/prompt_journal.go:184-200 | the echo is cut at the longest valid prefix |
| `JournalModel.WrittenSize` | daemon/cmd/daemon/prompt_journal.go:253-258 | no write lets the journal exceed max |
| `JournalModel.RecordLeaves` | daemon/cmd/daemon/prompt_journal.go:242-402 | a record leaves only by rollback while dispatching, or as the oldest committed one of a full journal |
| `JournalModel.MarkMovesForward` | daemon/cmd/daemon/prompt_journal.go:312-356 | a mark only moves forward, and only by the transition that names the new mark |
| `JournalModel.WriteOutcome` | daemon/cmd/daemon/prompt_journal.go:242-356 | a mark makes a dispatching record with an echo of at most 512 bytes, a rollback removes one, a transition changes only mark and time; other records stay, but for the evicted one |
| `JournalModel.AdvanceExact` | daemon/cmd/daemon/prompt_journal.go:312-356 | the three transitions that are written, as an if and only if |
| `JournalModel.DispatchExact` | daemon/cmd/daemon/prompt_journal.go:242-272 | a new prompt is written if and only if its ids are valid, it is unknown, and there is room or the victim is a committed record updated no later than the others |
| `JournalModel.MarkExact` | daemon/cmd/daemon/prompt_journal.go:242-272 | some victim makes that possible exactly when there is room or anything committed |
| `JournalModel.RecoveredOutcome` | daemon/cmd/daemon/prompt_journal.go:141-160 | a start turns dispatching into indeterminate and changes no other record |
| `JournalFile.ReloadExact` | daemon/cmd/daemon/prompt_journal.go:76-174 | every written journal is accepted by load and restored with only dispatching downgraded to indeterminate |
| `JournalFile.ReadExact` | daemon/cmd/daemon/prompt_journal.go:90-160 | which files are read, and to what, as an if and only if over versions, device, names and entries |
| `JournalFile.RestoredOutcome` | daemon/cmd/daemon/prompt_journal.go:126-160 | what reading does to one entry |
| `JournalFile.ReadRecords` | daemon/cmd/daemon/prompt_journal.go:90-160 | the loading loop reads a file exactly as specified, and rejects the same files |
| `JournalFile.FindVictim` | daemon/cmd/daemon/prompt_journal.go:385-402 | the scan finds the committed record updated first, and none exactly when none is committed |
| `JournalFile.TrimCommitted` | daemon/cmd/daemon/prompt_journal.go:376-383 | trimming fails exactly when more than max records are uncommitted; else it keeps all of those, and no kept committed record is older than a dropped one |
| `JournalFile.TrimsNothing` | daemon/cmd/daemon/prompt_journal.go:376-383 | within the limit trimming changes nothing |
| `JournalFile.LoadPromptJournal` | daemon/cmd/daemon/prompt_journal.go:111-170 | a load is the specified reading followed by the specified trimming, and fails when either does |
| `PromptJournalClass.PromptJournal.PersistRecords` | daemon/cmd/daemon/prompt_journal.go:404-463 | success means the file lists the new records; failure leaves the old or the new ones |
| `PromptJournalClass.PromptJournal.MarkDispatching` | daemon/cmd/daemon/prompt_journal.go:242-272 | a new record appears exactly when ids are valid, the prompt unknown and room can be made; memory follows the file |
| `PromptJournalClass.PromptJournal.RollbackDispatching` | daemon/cmd/daemon/prompt_journal.go:281-302 | only a dispatching record is removed |
| `PromptJournalClass.PromptJournal.Transition` | daemon/cmd/daemon/prompt_journal.go:312-356 | exactly the legal transitions succeed |
| `AtMostOnce.AtMostOnce` | daemon/cmd/daemon/main.go:534-548 | in every run of arrivals, retries, adapter outcomes, failed writes and restarts, a prompt crosses the native boundary at most once more often than its committed record was evicted |
| `AtMostOnce.OncePerRecord` | daemon/cmd/daemon/main.go:2294-2369 | from any reachable state, without an eviction of its record a prompt crosses at most once, and not at all if the journal already knows it |
| `AtMostOnce.CrossingGuards` | daemon/cmd/daemon/main.go:2294-2369 | a step that executes a prompt executes no other, and afterwards journal memory and file know it |
| `AtMostOnce.RecordLeavesFile` | daemon/cmd/daemon/prompt_journal.go:281-402 | in every reachable state a record leaves the file if and only if a write reaches it that rolls the record back before the boundary, evicts it once committed, or comes from a memory that does not know it; a record lost the last way was not executed since its last eviction |
| `AtMostOnce.ForgottenMark` | daemon/cmd/daemon/prompt_journal.go:433-463 | for every two prompts, a mark that fails after the rename is dropped from the file by the next mark, with no rollback, eviction or attempt |
| `JournalRuns.ReachableJournal` | daemon/cmd/daemon/prompt_journal.go:76-174 | in every run of the dispatcher, loading the journal on file, trimming included, has one outcome: it comes back whole with only dispatching downgraded |
| `AtMostOnce.JournalFits` | daemon/cmd/daemon/prompt_journal.go:253-258 | memory and file stay within max over every run |
| `AtMostOnce.RunProjects` | daemon/cmd/daemon/main.go:324-407 | the queue inside the dispatcher makes a run of the queue machine, so its theorems carry over |
| `JournalTruth.ExactlyOnce` | daemon/cmd/daemon/main.go:2294-2369 | a prompt that the journal calls accepted or committed, and whose record was never evicted, was executed exactly once |
| `JournalTruth.StepMarks` | daemon/cmd/daemon/main.go:833-847 | only a commit frame for it can make a record committed or lead to its eviction |
| `DispatchOutcomes.QueuedOutcome` | daemon/cmd/daemon/main.go:354-406 | the table of a queued dispatch whose writes succeed: delivered leaves an accepted record and a running item; busy or a turn conflict no record and the queue as it was; not started no record and a failed item; any other error an indeterminate record and item |
| `DispatchOutcomes.UnsavedOutcome` | daemon/cmd/daemon/main.go:2329-2345 | when the settling write fails the item is indeterminate, never requeued or done, and the record reads indeterminate after a restart |
| `DispatchOutcomes.UnmarkedOutcome` | daemon/cmd/daemon/main.go:2294-2297 | when the mark cannot be made nothing is sent and the item is indeterminate |
| `DispatchOutcomes.DirectOutcome` | daemon/cmd/daemon/main.go:664-746 | the same table for a direct dispatch, which involves no queue item |
| `DispatchOutcomes.CanStart` | daemon/cmd/daemon/main.go:343-360 | a session with a waiting prompt and nothing running or blocking can start its next one when the journal has room or a committed record |
| `DispatchOutcomes.ArrivalOutcome` | daemon/cmd/daemon/main.go:534-620 | a prompt is queued exactly when session, journal and queue allow it, and else changes nothing |
| `DispatchOutcomes.ControlOutcome` | daemon/cmd/daemon/main.go:290-313 | terminal events settle at any time, cancel, skip and resume only while the session is not dispatching |
| `DispatchOutcomes.RestartedDispatch` | daemon/cmd/daemon/main.go:202-210 | a restart ends every dispatch and leaves each running item and dispatching record indeterminate |
| `DispatchOutcomes.PersistOutcome` | daemon/cmd/daemon/prompt_journal.go:404-463 | memory follows the file only when the write succeeded, and a write that fails after the rename changes the file alone |
| `DispatchOutcomes.StaysDown` | daemon/cmd/daemon/main.go:188-210 | a start that cannot write the normalized journal does nothing until the next start |
| `Agreement.AgreementExact` | daemon/cmd/daemon/main.go:534-668 | a step keeps queue and journal apart if and only if it is not one of two arrivals that can be told from the files beforehand |
| `Agreement.FilesAgree` | daemon/cmd/daemon/main.go:2294-2346 | when the queue file loads and writes of new prompts fail cleanly, a queued item never has a journal record, whatever crashes fall between whichever writes |
| `Agreement.FailedMarkBreaksAgreement` | daemon/cmd/daemon/prompt_journal.go:433-463 | a journal write that fails after the rename breaks the agreement |
| `Agreement.LostQueueBreaksAgreement` | daemon/cmd/daemon/main.go:202-210 | a start that cannot read the queue file breaks it too |
| `Dispatcher.DispatchQueuedPrompt` | daemon/cmd/daemon/main.go:2273-2386 | when the adapter is called, and which result each answer and each write gives; started means executed, accepted in the journal, and the turn accepted in the registry; busy and not-started mean not executed, no record in memory or file, and the registry as before; a failed acceptance write leaves the turn indeterminate |
| `ActiveTurns.StaleCallsChangeNothing` | daemon/cmd/daemon/active_turn.go:93-195 | calls that name another generation or client than the current one change nothing and report nothing |
| `ActiveTurns.BoundMatchesItself` | daemon/cmd/daemon/active_turn.go:30-43 | a turn answers to the ids it was bound with exactly when trimming does not change them |
| `ActiveTurns.UntrimmedStaysBound` | daemon/cmd/daemon/active_turn.go:93-165 | otherwise accept, completion, abandonment and clear with those ids all leave it bound, and its session refuses every other turn |
| `ActiveTurns.PaddedSessionStaysBound` | daemon/cmd/daemon/active_turn.go:30-43 | a session id with a leading space is such a case |
| `ActiveTurns.ActiveTurnRegistry.Bind` | daemon/cmd/daemon/active_turn.go:30-43 | binds only a free session and never replaces a turn |
| `ActiveTurns.ActiveTurnRegistry.Accept` | daemon/cmd/daemon/active_turn.go:110-126 | the whole effect of acceptance, with the held terminal and whether the binding went |
| `ActiveTurns.ActiveTurnRegistry.CompleteMatching` | daemon/cmd/daemon/active_turn.go:131-145 | clears only after acceptance or abandonment, else remembers the completion |
| `ActiveTurns.ActiveTurnRegistry.AbandonAcceptance` | daemon/cmd/daemon/active_turn.go:150-165 | clears only a turn whose native side is done, else leaves it indeterminate without a held terminal |
| `ActiveTurns.ActiveTurnRegistry.TerminalForEvent` | daemon/cmd/daemon/active_turn.go:170-195 | an event is attributed by every id it states, and held while the turn is not accepted; `HeldTerminals` shows that it comes back |
| `HeldTerminals.HeldComesBack` | daemon/cmd/daemon/active_turn.go:110-192 | from every reachable state a terminal of a turn not yet decided survives all other steps: it, or the last one of the same turn after it, is what accept returns, and the turn stays bound |
| `HeldTerminals.AcceptReturns` | daemon/cmd/daemon/main.go:2371-2379 | acceptance returns the held event, its replay is let through against the accepted turn, and its handler clears the turn |
| `HeldTerminals.ArrivalReleased` | daemon/cmd/daemon/active_turn.go:170-195 | once accepted, an event that states no foreign id is let through against the bound turn |
| `HeldTerminals.BelongsExact` | daemon/cmd/daemon/active_turn.go:170-187 | while a turn is bound, the events attributed to its session are exactly those that state none but its ids |
| `TurnRuns.TurnResult` | daemon/cmd/daemon/active_turn.go:93-195 | in every interleaving no terminal is released before acceptance, at most one call reports the clear, a turn is unbound only once refused, natively over or settled, and when refused, over in doubt, or through on all sides the binding is gone and exactly one call reported it |
| `TurnRuns.ReleasesInFlight` | daemon/cmd/daemon/main.go:269-286 | a second terminal of a turn is released if and only if an earlier one has not reached its clear |
| `TurnRuns.RacingTerminals` | daemon/cmd/daemon/main.go:269-286 | for every n a run in which n racing copies of one terminal are all released |
| `TurnRuns.ClearedForever` | daemon/cmd/daemon/active_turn.go:93-165 | a cleared turn is never bound again |
| `TurnRuns.LateTerminalIgnored` | daemon/cmd/daemon/active_turn.go:170-195 | a terminal of a cleared turn that states its generation, client id or native id has no effect at any later time, ids other than the generation not being reused |
| `TurnRuns.IsolationExact` | daemon/cmd/daemon/active_turn.go:170-195 | over all continuations without reused ids, a terminal of a cleared turn is never attributed to another turn if and only if it states one of its ids |
| `TurnRuns.IdlessHitsNextTurn` | daemon/internal/adapters/codex.go:1319-1328 | in every state with a free session, a terminal without ids is released against the next accepted turn |
| `TurnTracker.OneTerminalPerBegin` | daemon/internal/adapters/control_tracker.go:37-127 | however exits, acceptance and aborts interleave, no two terminals carry the same generation, and each carries one that was begun |
| `TurnTracker.Tracker.Finish` | daemon/internal/adapters/control_tracker.go:82-111 | an exit is held before acceptance and emitted once after it, with the tracked generation |
| `TurnTracker.Tracker.Accept` | daemon/internal/adapters/control_tracker.go:64-80 | acceptance of the current generation emits a held exit and ends the tracking |
| `TurnTracker.EitherOrder` | daemon/internal/adapters/control_tracker.go:37-127 | a turn begun reports its exit once, as interrupted, failed or succeeded by flag and code, whether acceptance or exit comes first |
| `TurnTracker.AbortExact` | daemon/internal/adapters/control_tracker.go:47-56 | an abort ends the turn it names, and no other, without a report |
| `ControlEvents.HandleTerminal` | daemon/cmd/daemon/main.go:254-322 | what a terminal event does to registry and queue when nothing comes between its steps: after a saved write success leaves the item completed without payload or compacted away, and failure, interruption and doubt leave it blocked as such with order and payload |
| `ControlEvents.OnlyOwnItem` | daemon/cmd/daemon/main.go:278-313 | a terminal settles only the running item with the client id of the binding |
| `ControlEvents.TerminalEnds` | daemon/cmd/daemon/main.go:292-311 | for each lifecycle when the queue can settle the item, and the status it then has |
| `TurnQueue.SettlesOwnItem` | daemon/cmd/daemon/main.go:269-313 | in every interleaving of racing terminals, completions and queue commands, what a terminal settles is the prompt of the accepted turn that it was released against |
| `TurnQueue.SettlementOutcome` | daemon/cmd/daemon/main.go:290-313 | in every reachable state a settling step gives the item exactly the outcome of the lifecycle, and changes nothing if the item is not there to settle or the write fails |
| `TurnQueue.FindExact` | daemon/cmd/daemon/main.go:290-291 | a released thread goes on exactly when the running item of its session carries the client id of its turn |
| `TurnQueue.SettledOncePerAdmission` | daemon/cmd/daemon/main.go:290-313 | however many copies of a terminal race, an item is settled at most once per admission of its prompt |
| `TurnQueue.OthersUntouched` | daemon/cmd/daemon/prompt_queue.go:322-364 | settling one item leaves every other item that is not a tombstone as it was |
| `TurnQueue.DuplicateSettlesNothing` | daemon/cmd/daemon/active_turn.go:170-195 | a repeated terminal of a cleared turn that states any of its ids changes nothing in registry or queue at any later time, ids other than the generation not being reused |
| `TurnQueue.IdlessSettlesNext` | daemon/cmd/daemon/main.go:278-313 | from every state with a running item and a free session, a late terminal without ids settles that item while its turn still runs |
| `DaemonLease.RegisteredIsNewest` | relaycore/connections.go:204-285 | in every interleaving the registered connection is open and has the largest generation issued to its device |
| `DaemonLease.GenerationOrder` | relaycore/websocket.go:285-293 | registrations, frame effects and online notices of a device happen in generation order; only an offline notice can be late |
| `DaemonLease.HoldersAreFree` | relaycore/connections.go:204-363 | whoever holds a connection lock is not waiting for another, so these paths cannot deadlock |
| `LeaseNotices.NoticesExact` | relaycore/connections.go:242-284 | in every interleaving a finished add told that the device came online exactly when no connection was registered for it just before, that the version changed exactly when one with another version was, and else nothing |
| `LeaseNotices.PolicyExact` | relaycore/connections.go:232-254 | a newcomer is turned away exactly under the reject policy with a registered connection; else it gets the next generation and the device, and the old connection is closed |
| `LeaseNotices.NotifyExact` | relaycore/connections.go:269-284 | the notice due is published at the end of every add: the connection is still live then |
| `LeaseNotices.AddAlone` | relaycore/connections.go:204-285 | a device without a connection gets one and its coming online is told |
| `LeaseNotices.HandleAlone` | relaycore/websocket.go:285-293 | a frame of the registered connection has its effect |
| `LeaseNotices.OfflineOvertaken` | relaycore/connections.go:352-362 | from every state before an offline notice the device can connect and tell so first, and the offline notice comes last |
| `LeaseNotices.OfflineComesLast` | relaycore/connections.go:334-363 | a run in which that happens |
| `LeaseNotices.OfflineLateExact` | relaycore/connections.go:352-362 | in every reachable state the offline notice follows something of a newer connection if and only if the device has got one |
| `PhoneOutbound.Conservation` | relaycore/connections.go:75-119 | reserved bytes equal queued plus in-flight bytes and stay within 8 MiB, the saturating release is exact, written frames are a prefix of accepted ones, and the balance returns to zero after close |
| `PhoneOutbound.NothingAfterClose` | relaycore/connections.go:75-99 | after close nothing is accepted |
| `PhoneOutbound.OfferExact` | relaycore/connections.go:643-669 | in every run a frame is admitted if and only if the queue is open, 8 MiB hold it with what is reserved, and fewer than 64 frames wait |
| `PhoneOutbound.OldestIsWritten` | relaycore/connections.go:671-694 | the oldest frame of an open queue can be written, which frees exactly its bytes |
| `PhoneOutbound.CloseDrains` | relaycore/connections.go:75-99 | close gives back everything queued |
| `PhoneOutbound.Outbound.Enqueue` | relaycore/connections.go:643-669 | which frames are accepted, and the queue and balance afterwards |
| `PhoneIndex.ApplyValid` | relaycore/connections.go:372-446 | every operation keeps the index consistent: outbounds are exactly the subscribed sockets, principals among them, no list empty or longer than 8 |
| `PhoneIndex.RunValid` | relaycore/connections.go:372-467 | so do all sequences of operations |
| `PhoneIndex.ResubscribeMoves` | relaycore/connections.go:412-435 | resubscribing leaves the socket once, last in the list of its new device and in no other |
| `PhoneIndex.AddOutcome` | relaycore/connections.go:366-387 | adding puts the socket last among the newest eight of its device, other lists stay, and only sockets without a list lose their outbound |
| `PhoneIndex.RemoveOutcome` | relaycore/connections.go:389-409 | removing affects one list, and the outbound goes exactly when no other device lists the socket |
| `PhoneIndex.DropOutcome` | relaycore/connections.go:696-713 | dropping takes the socket out of every list and keeps the order of the others |
| `PhoneIndex.FilterInPlace` | relaycore/connections.go:500-508 | the filter that reuses the backing array equals the pure filter |
| `PhoneIndex.PhoneConns.EvictExcess` | relaycore/connections.go:448-467 | eviction keeps the newest 8 and closes the rest in order; sockets with another subscription keep their outbound |
| `PhoneIndex.PhoneConns.ResubscribePhone` | relaycore/connections.go:412-435 | the object performs the specified move |
| `PhoneIndex.PhoneConns.DropPhone` | relaycore/connections.go:696-713 | the socket leaves every list, its outbound and its principal |
| `CommitSafety.CommittedIsSafe` | relaycore/websocket.go:1513-1625 | whatever is lost, delayed or repeated and whoever crashes, a committed or evicted daemon record matches a relay row of its session that is durably accepted and, unless sealed, whose message is saved |
| `CommitDelivery.MarkedWasSent` | relaycore/websocket.go:1557-1625 | in every run a row marked committed, and every prompt about to be marked, had its commit put on the channel |
| `CommitDelivery.CommitHeals` | relaycore/websocket.go:1594-1626 | from every reachable state an accepted row whose daemon record is accepted can become committed on both sides, with its message in the history |
| `CommitDelivery.CommitHappens` | relaycore/websocket.go:1513-1583 | for every prompt with valid ids, open or sealed under its own name, a run in which it is executed once, accepted, committed on both sides and, when open, reported |
| `CommitDelivery.FrameCommits` | daemon/cmd/daemon/main.go:823-847 | a commit frame for an accepted record makes it committed in memory and file and touches no other |
| `CommitDelivery.Repeats` | relaycore/websocket.go:1099-1107 | a repeated prompt that matches its accepted row is followed up again |
| `MisnamedPrompts.AcceptanceExact` | daemon/cmd/daemon/main.go:526-530 | for every set of prompts that the phones may send, k's own among them: in all runs acceptance of k's row means that a prompt with k's session and client id was executed, if and only if none of them is a sealed prompt of another row and session whose envelope carries k's client id with valid identifiers |
| `CommitSafety.AcceptedWasExecuted` | relaycore/websocket.go:454-469 | in every run a row is accepted only if a prompt with its session and client id was executed (which one of that session's envelopes it was is not distinguished), unless a row misleads the daemon as above; phones are told only after the message is saved |
| `CommitSafety.OwnNames` | relaycore/websocket.go:1075-1076 | where every envelope names its row by the row's own client id, as open prompts always do, no row misleads |
| `MisnamedPrompts.MisnamedAccepts` | daemon/cmd/daemon/main.go:526-530 | beside any prompt that misleads, whether k's own row is open or sealed, there is a run in which k's row is accepted and nothing with k's ids was executed |
| `DispatchKeys.StepWithin` | daemon/cmd/daemon/main.go:517-668 | no step brings a key into journal, queue or attempts that did not arrive |
| `CommitSafety.EndToEnd` | daemon/cmd/daemon/main.go:833-847 | behind the relay a prompt is executed at most once more often than its record was evicted, and only safe prompts are evicted |
| `CommitSafety.RelayStep` | relaycore/websocket.go:1099-1107 | every relay step keeps: all commits ever sent, all phone acknowledgements and all committed rows are safe |
| `CommitReplay.Relay.ReplayPromptCommits` | relaycore/websocket.go:1594-1626 | the loop ends, and fails exactly when one of its calls fails; when it succeeds no row is due; every row that stopped being due was healed and announced, in that order |
| `CommitReplay.Relay.ReplayOne` | relaycore/websocket.go:1604-1624 | one row: history before announcement before mark, stopping at the first call that fails and at nothing else |
| `SessionLocks.MutualExclusion` | daemon/cmd/daemon/prompt_state.go:115-135 | two callers never hold the same session, although lock entries are deleted and recreated |
| `SessionLocks.ReferencesExact` | daemon/cmd/daemon/prompt_state.go:115-135 | a live entry counts exactly its users, everyone inside uses the live entry, and the map is empty when nobody is inside |
| `SessionLocks.WaiterProceeds` | daemon/cmd/daemon/prompt_state.go:115-135 | in every reachable state a waiter can hold its session at once, or somebody inside holds it and can hand it over |
| `SessionLocks.EnterAndLeave` | daemon/cmd/daemon/prompt_state.go:115-135 | entering waits on the live entry or a new one, and leaving deletes the entry exactly when nobody else uses it |
| `AcceptanceCache.HoldsLastNew` | daemon/cmd/daemon/prompt_state.go:67-87 | after any sequence of adds the cache holds exactly the last max newly added keys, without repetition |
| `AcceptanceCache.Cache.Add` | daemon/cmd/daemon/prompt_state.go:67-87 | the ring read from next performs the reference step, its keys are the map's keys, and other values stay |
| `AcceptanceCache.RingAdvances` | daemon/cmd/daemon/prompt_state.go:80-85 | overwriting the oldest slot and stepping on drops the oldest key and appends the new one |
| `DeviceSwitches.AllowDeviceSwitch` | relaycore/websocket.go:898-916 | the filter loop keeps the recent switches and decides by their number |
| `DeviceSwitches.SixPerMinute` | relaycore/websocket.go:898-916 | over the life of a connection no minute holds more than six accepted switches |
| `DeviceSwitches.AcceptedExactly` | relaycore/websocket.go:898-916 | a switch is accepted exactly when fewer than six were accepted in the minute up to it |
| `RateLimiter.Limiter.Allow` | relaycore/websocket.go:66-114 | the decision and the whole new table, for whichever keys the map walk happened to visit |
| `RateRuns.TwiceTheLimit` | relaycore/websocket.go:66-82 | a key never dropped in an open window is admitted at most twice the limit in any interval shorter than the window |
| `RateRuns.RefusedAtLimit` | relaycore/websocket.go:75-78 | a refused key has used its whole limit within one window that is still open |
| `RateRuns.TableBounded` | relaycore/websocket.go:87-113 | with no empty key the table never exceeds maxKeys |
| `RateRuns.DropsExact` | relaycore/websocket.go:87-113 | a call drops nothing while there is room, else only expired keys and at most one other, than which no kept key is older |
| `RateRuns.CountsExact` | relaycore/websocket.go:66-82 | what the table says of the key after a call |
| `RateRuns.RoomExactly` | relaycore/websocket.go:87-113 | a call exceeds the bound exactly when the key is new, the table full, nothing in the batch expired and the oldest window is the empty key's |
| `RateRuns.EmptyKeyGrows` | relaycore/websocket.go:108-110 | with the empty key oldest, histories within one window reach every table size |
| `RpcOwnership.OneResultPerCall` | daemon/internal/agentexec/codex_appserver.go:548-590 | each call channel gets at most one result and is closed at most once, after it; a waiting caller never finds it closed and empty, and is never forgotten |
| `RpcOwnership.SenderNeverBlocks` | daemon/internal/agentexec/codex_appserver.go:493-500 | whoever answers a channel finds it open with room, so it neither blocks nor sends on a closed channel |
| `RpcReplies.ResultIsOwn` | daemon/internal/agentexec/codex_appserver.go:1872-1893 | in every run a result made of a reply came from the reply with the call's own id, and what a waiting caller finds comes from the generation it asked |
| `RpcReplies.DispatchExact` | daemon/internal/agentexec/codex_appserver.go:1826-1893 | in every reachable state a live reply takes exactly its own id out of the table, and hands it over when it was pending |
| `RpcReplies.CallCompletes` | daemon/internal/agentexec/codex_appserver.go:548-590 | from every reachable state before Close with eventMu free a call can be made and comes back with its own reply |
| `RpcReplies.ExitExact` | daemon/internal/agentexec/codex_appserver.go:453-500 | the end of the running process fails every pending call; that of an older one does nothing |
| `RpcReplies.ExitReported` | daemon/internal/agentexec/codex_appserver.go:453-500 | its exit can then be reported, once, after its calls were failed |
| `RpcReplies.CloseExact` | daemon/internal/agentexec/codex_appserver.go:417-443 | Close fails every pending call and reports no exit |
| `RpcOrder.GenerationsInOrder` | daemon/internal/agentexec/codex_appserver.go:1826-1896 | no frame or reply of a generation is delivered after its invalidation; each generation is invalidated and reported at most once, before anything of the next is delivered |
| `RpcOrder.RepliesMatchGeneration` | daemon/internal/agentexec/codex_appserver.go:1872-1881 | a reply that finds its id pending was read from the generation that the call was sent to |
| `RpcOrder.ClosedForever` | daemon/internal/agentexec/codex_appserver.go:417-443 | after Close no handler runs, no call is answered from a frame and no process starts |
| `Recovery.NoCrashLost` | daemon/internal/adapters/codex.go:1301-1396 | before Close the adapter is not degraded only if the app-server never exited or the last successful ensure began after the last exit |
| `Recovery.OneBoundedRecovery` | daemon/internal/adapters/codex.go:1308-1317 | one recovery goroutine exists exactly while one is marked running, with at most five attempts and 7.75 s of backoff |
| `Recovery.ExitIsAnswered` | daemon/internal/adapters/codex.go:1301-1317 | every exit before Close leaves a recovery running, started for it unless one was |
| `Recovery.ConcludeExact` | daemon/internal/adapters/codex.go:1363-1396 | in every reachable state an attempt ends recovered, with the next attempt and its wait, or, the fifth, degraded after 7.75 s |
| `Recovery.AttemptHeals` | daemon/internal/adapters/codex.go:1332-1376 | an undisturbed attempt whose ensure succeeds heals the adapter |
| `Recovery.Recoverer.RecoverAppServer` | daemon/internal/adapters/codex.go:1331-1396 | the loop ends with the first attempt that is decisive, and degraded unless that attempt recovered |

## Left out

- `promptQueue.markRunning`, `next`, `list`, `blockSession`: not on the dispatch path that is modelled, or plain reads.
- Byte limits of the two files, JSON, UTF-8 validity, `strings.TrimSpace`: oracles or absent; reload exactness is modulo the file size limit.
- SHA-256 naming of journal records and the NUL join: both are modelled by the pair of ids; `Durable` says when the join is injective.
- The session lock released between claim and dispatch in `dispatchQueued`: claim to result is one session-locked attempt.
- Unlocked reads of the acceptance cache while dispatching: a hit only refuses or re-acknowledges a prompt.
- `ConnectionManager.Close`: not part of the lease model.
- That every claimed item's terminal reaches the queue: not promised by the code when a deferred process exits before acceptance.
- `turnTracker.finish` attribution after an abort of a live process, and `detachAll`: one exit callback per started run is assumed by callers, not proved.
- Wrap-around of the 64-bit generation and serial counters: these are unbounded; the queue's order counter wraps as in the code.
- Reserving bytes and sending on the outbound channel in `enqueuePhone` are one step, as both happen under the same lock.
- The SQLite store and the startjournal package are not part of this model; rows are assumed to keep session, envelope and acceptance, and saved messages to stay.
- Relay statuses other than accepted and committed, push notices and status queries: they do not touch the commit argument.
- RPC request parsing, approvals, user input and turn tracking of the app-server: only reply ownership and generation order are modelled.
- `boundedPromptEcho` in the acceptance cache: the cached value is opaque.
- Process launch, encryption, HTTP, Web Push, the PWA, logging: outside the modelled state.
- CommitReplay.Relay.ReplayPromptCommits: no other thread writes rows while the loop runs, on which its end relies; the same steps with any interference are the Replay, Persist, Send and MarkCommitted steps of `CommitHandshake`.
- ControlEvents.HandleTerminal: one call without interference; `TurnQueue` has the interleaved steps.
- TurnRuns.TurnResult: assumes that the native id of a turn is set at most once.
- RateRuns.TwiceTheLimit: says nothing about a key that is evicted in an open window, which starts anew.
- Restarts inside `TurnQueue`: registry and generation counter are lost with the process, so its runs are the life of one process; restarts of the queue are in `QueueRuns` and `Dispatch`.
