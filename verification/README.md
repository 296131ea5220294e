# Botmux: a verified model of its protocols and stream code

This project models the parts of the repository that are hard to get right and proves
what they promise, in Dafny. `dafny verify dfyconfig.toml` checks everything.

Concurrent code is a step relation: one mutex section, one Write call or one store
access is one step, operations in flight keep the pointers they captured, any enabled
step may come next, and timers may fire at any moment. Theorems are about all runs.
Code that changes fields in place is a class whose methods are proved against the
functions that the step relation uses. Loops over bytes are methods with their loops.
The session steps take the file lock as one plain lock for each ID, which
`FileLocks.RefinesLockPerId` justifies for the ref-counted registry of the source.

| part | files |
|---|---|
| Codex turns, interrupts and the bytes on the terminal | `WorkerTurn`, `CodexPty` (steps), `CodexTrace` (invariant), `CodexTheorems`, `CodexOutcomes`, `CodexSubmission` |
| Daemon sessions with reused IDs, their workers and files | `DaemonRegistry`, `SessionStore`, `DaemonFencing` (steps), `DaemonInvariant`, `DaemonTheorems`, `DaemonSafety`, `RestartFence`, `DaemonPersist`, `DaemonLimits`, `DaemonEvents` (the steps by the methods) |
| Locks | `FileLocks`, `LockOrder` |
| Bounded logs, notification, turn tokens | `SessionMeta`, `LogReaders`, `SessionTurn`, `TurnLedger` |
| Streams | `InputText`, `Writers`, `Utf8Chunks`, `Utf8Text`, `Aiden`, `Transcript`, `CodexHistory`, `AnsiScanner`, `AnsiPieces`, `LineDeduper` |
| Supervision | `Connections`, `SpawnBudget` |

## Assumptions

- Counters are natural numbers without wrap-around.
- Worker instance IDs are distinct, so one is modelled by the handle it belongs to; so are the addresses of metas, handles, channels, connections and lock entries.
- A writer that reports a possible count has taken exactly that many bytes. `Writers.WriteAllWithRetry` also covers impossible counts.
- The clock does not go back.
- Store accesses succeed, for the agreement of registry and directory.
- The transcript and history files are append-only while they are watched.

## What the proofs found

- A Codex turn can be left in flight with nothing to end it. Without a cancellation this happens to blank inputs and to no others: `Send` returns without an error, types nothing and starts no watcher (`CodexOutcomes.OnlyBlankTurnsNeedCancelling`, `CodexOutcomes.BlankTurnStaysOpen`). With a cancellation it can happen to every input: if the cancellation comes before `Send` has succeeded and its Esc is taken, `Send` returns an error that is not reported, nothing watches the transcript, and a second cancellation is refused (`CodexOutcomes.TurnIsStuckIffCancelledUnsent`, `CodexOutcomes.AnyTurnCanBeStuck`). Within the worker only a shutdown helps then; the daemon's cancellation watchdog, which restarts the worker, is what ends it.
- Polling a rollout is not always one reading of the final file. When the starting offset lies beyond the file as first seen but within the file as last seen, the first poll goes back to the beginning. `Transcript.PollingIsBatchExactly` gives the exact condition on offset and lengths.
- Closed does not imply status CLOSED: a spawn may overwrite the status, and nothing else can (`DaemonLimits.StatusStep`, `DaemonLimits.ClosedSpawningRun`). A closed session still never becomes READY (`DaemonSafety.ClosedIsFinal`).
- The worker in a slot need not belong to the registered session: a rollback leaves it there for the next session under that ID, and nothing else does (`DaemonLimits.SlotStep`, `DaemonLimits.ForeignWorkerRun`). Isolation is therefore stated for metas and the workers they spawned.
- The restart fence names the worker that is in the slot when a restart is marked. A READY of another worker of the session that was already past its staleness test is not held back by it (`RestartFence.ReadyIsFenced`).
- A reconnection runs in its own goroutine and does not test again whether the connection is down, so a delayed one replaces a healthy connection (`Connections.LateStartFindsConnection`, `Connections.LateStartReplacesConnection`).
- `writeAllWithRetry` may report an error although every byte was taken; `Writers.WriteAllWithRetry` says when.

## Model

| member | source | states |
|---|---|---|
| `CodexTheorems.PtyTraceIsSegmented` | internal/adapter/codex.go:173-323 | In every interleaving of turn and interrupt goroutines the terminal has received one segment for each turn begun, in turn order; a segment is a prefix of ESC [ 2 0 0 ~, the text of the input and ESC [ 2 0 1 ~, Enters only after all of it and at most three, then at most one Esc |
| `CodexTheorems.SubmittedTextIsWhole` | internal/adapter/codex.go:216-247 | In every run and for every turn: once its segment has an Enter, the segment is the paste of the whole text of its input (LF breaks, trailing ones removed), one to three Enters and at most one Esc |
| `CodexTheorems.SegmentTellsText` | internal/adapter/codex.go:216-247 | A segment with an Enter determines the normalised input |
| `CodexTheorems.SubmissionsBounded` | internal/adapter/codex.go:216-247 | The carriage returns in such a trace number at most three for each turn, because normalised input holds none |
| `CodexTheorems.StepKeeps` | internal/worker/worker.go:716-866 | Every section and every Write keeps the inductive invariant of locks, turn fields, interrupts, watchers, terminals and typed bytes |
| `CodexTheorems.RunKeeps` | internal/worker/worker.go:716-866 | The invariant holds in every reachable state |
| `CodexTheorems.StepRespectsSeals` | internal/adapter/codex.go:250-274 | No step types a byte for a turn that has had its Esc or that a later turn has followed |
| `CodexTheorems.SealsLast` | internal/adapter/codex.go:250-274 | The record of such a turn never changes again in the run |
| `CodexTheorems.TypingStopsAtTerminal` | internal/worker/worker.go:797-866 | Once a turn has its terminal, no paste byte and no Enter is typed for it |
| `CodexTheorems.InterruptsTargetCurrentTurn` | internal/worker/worker.go:744-849 | turnInterruptPending holds iff an interrupt goroutine is outstanding; there is at most one, it serves the current turn, and no turn can begin while it is there |
| `CodexTheorems.OneTerminalPerTurn` | internal/worker/worker.go:797-866 | Terminals are committed once for each turn and in turn order |
| `CodexTheorems.StaleEventsAreHarmless` | internal/worker/worker.go:658-698 | Adapter events without a turn or of another turn change nothing, and one let through earlier does not end a later turn |
| `CodexOutcomes.EndedOrSettled` | internal/worker/worker.go:541-564 | When both goroutines of a turn have ended, the turn has its terminal or is still in flight ("settled") |
| `CodexOutcomes.WatchedMeansSent` | internal/adapter/codex.go:237-242 | A transcript watcher is there exactly when Send returns with a session |
| `CodexOutcomes.TurnCanEndIffWatched` | internal/worker/worker.go:541-564 | In every run: a settled turn can be ended by something other than a new cancellation iff its transcript is watched |
| `CodexOutcomes.TurnIsStuckIffCancelledUnsent` | internal/worker/worker.go:829-849 | In every run without shutdown: a settled turn can be ended by anything at all iff it is watched or not yet cancelled |
| `CodexOutcomes.OnlyBlankTurnsNeedCancelling` | internal/adapter/codex.go:185-188 | In every run without shutdown and cancellation: a settled turn is left with nothing to end it but a cancellation iff its input is blank |
| `CodexOutcomes.BlankTurnsAreNeverWatched` | internal/adapter/codex.go:185-188 | Blank input types no paste byte and no Enter, and its turn is never watched |
| `CodexOutcomes.NeverEnds` | internal/worker/worker.go:744-759 | A settled, unwatched turn stays in flight, refuses further input and gets no terminal, through every continuation without a cancel message and through every continuation at all once cancelled |
| `CodexOutcomes.BlankTurnStaysOpen` | internal/adapter/codex.go:185-188 | For every blank input a run without cancellation to such a turn |
| `CodexOutcomes.AnyTurnCanBeStuck` | internal/worker/worker.go:549-553 | For every input a run to a turn that nothing can end any more: cancelled before Send begins to type, with the Esc taken |
| `CodexSubmission.EveryInputCanBeSubmitted` | internal/adapter/codex.go:173-243 | Every input that is not blank has a run in which the terminal receives exactly its paste and one Enter, the turn gets its terminal and the next input is accepted |
| `CodexSubmission.EveryTurnCanBeInterrupted` | internal/adapter/codex.go:250-274 | From every reachable state a turn in flight and not cancelled can be interrupted when nobody is writing: one Esc is typed, its context and its Send are cancelled, the turn stays open |
| `CodexSubmission.GivesUpAfterThreeEnters` | internal/adapter/codex.go:220-248 | With a live context an unconfirmed submission is given up exactly after its third Enter |
| `WorkerTurn.SectionsKeepConsistent` | internal/worker/worker.go:716-827 | Every turn section keeps the context fields consistent, revives no cancelled context and never lowers the turn number |
| `WorkerTurn.TurnGate.BeginTurnWithID` | internal/worker/worker.go:716-730 | Refused while a turn or an interrupt is outstanding; otherwise the next turn with a live context of its own |
| `WorkerTurn.TurnGate.TurnContextForID` | internal/worker/worker.go:732-742 | Accepts exactly the turn in flight that still has its context |
| `WorkerTurn.TurnGate.RequestTurnInterrupt` | internal/worker/worker.go:744-759 | At most one request for each turn; it cancels the context of the turn whose number it returns |
| `WorkerTurn.TurnGate.ShouldInterruptTurn` | internal/worker/worker.go:770-780 | True only for the turn in flight with its request pending |
| `WorkerTurn.TurnGate.FinishTurnInterrupt` | internal/worker/worker.go:782-791 | Clears the pending flag of its own turn only |
| `WorkerTurn.TurnGate.FinishTurnWithID` | internal/worker/worker.go:797-810 | Ends the turn in flight if the number fits, cancelling its context; changes nothing otherwise |
| `WorkerTurn.TurnGate.CancelTurnLocked` | internal/worker/worker.go:812-818 | Cancels and clears the context, and leaves the other fields alone |
| `InputText.ReplacementIsLineBreaks` | internal/adapter/codex.go:440-444 | The two replacements together turn every CR LF, CR or LF into one LF |
| `InputText.NormalizeContract` | internal/adapter/aiden.go:243-247 | Normalised text is the input with LF breaks and its trailing breaks removed; it holds no CR and is a fixed point |
| `InputText.TextIsNormalized` | internal/adapter/codex.go:440-444 | Every input has exactly one text, its lines with LF breaks and without trailing breaks, and normalisation finds it |
| `InputText.LineBreaksReads` | internal/adapter/codex.go:440-444 | Text up to a break stays, CR LF is one break, and so is a CR that no LF follows |
| `Writers.WriteAll` | internal/adapter/codex.go:446-465 | Takes everything, or a prefix; the first failing write is the last |
| `DaemonTheorems.StepKeeps` | internal/daemon/daemon.go:275-399 | Every section, store access and capture keeps the invariant: pointers consistent with their IDs, one lock holder for each ID, what each operation in flight may rely on, and agreement of registry and directory |
| `DaemonTheorems.RunKeeps` | internal/daemon/daemon.go:443-460 | The invariant holds in every reachable state of a daemon started on any directory |
| `DaemonTheorems.RestoreHolds` | internal/daemon/daemon.go:443-460 | It holds after restoring any directory |
| `DaemonTheorems.KeepsCreate` | internal/daemon/daemon.go:275-290 | Registration and first save of a session keep the invariant |
| `DaemonTheorems.KeepsRollback` | internal/daemon/daemon.go:316-331 | Rolling a new session back keeps it |
| `DaemonTheorems.KeepsPersist` | internal/daemon/daemon.go:917-933 | Identity-checked persistence keeps it: a stale or closed meta writes nothing |
| `DaemonTheorems.KeepsClose` | internal/daemon/daemon.go:588-620 | Marking a session closed, in memory and then on disk, keeps it |
| `DaemonTheorems.KeepsPurge` | internal/daemon/daemon.go:622-652 | Purging an ID keeps it, whichever generation owns the worker in the slot |
| `DaemonTheorems.KeepsSpawn` | internal/daemon/daemon.go:333-399 | Replacing the worker of a session keeps it, and the replaced worker is out of its slot |
| `DaemonTheorems.KeepsExit` | internal/daemon/daemon.go:472-507 | A worker exit keeps it |
| `DaemonTheorems.KeepsConnect` | internal/daemon/daemon.go:1299-1331 | Admitting or refusing a worker connection keeps it |
| `DaemonTheorems.KeepsRouted` | internal/daemon/daemon.go:1687-1762 | A message past its staleness test keeps it, however late it is handled |
| `DaemonSafety.StepIsolated` | internal/daemon/daemon.go:781-937 | A step for a meta that is not registered changes only that meta, its own workers and its own restart fence: not the slots, not the registrations, not the files. Two steps of its creation reach further: it takes an ID nobody has, and, rolled back, removes the file under its free ID, which it wrote itself |
| `DaemonSafety.GenerationsAreIsolated` | internal/daemon/daemon.go:1167-1213 | The same for every step of every run |
| `DaemonSafety.DirectoryAgrees` | internal/daemon/daemon.go:588-635 | Whenever an ID is not locked: a registered session has a file of its own generation with the same Closed flag, an unregistered ID none or a closed one |
| `DaemonSafety.OneOperationPerFile` | internal/daemon/daemon.go:109-138 | At most one operation is past the file lock of an ID |
| `DaemonSafety.ClosedStep` | internal/daemon/daemon.go:1027-1043 | No step makes a closed generation READY, reopens it, begins a turn on it or connects its workers |
| `DaemonSafety.ClosedIsFinal` | internal/daemon/daemon.go:588-620 | Once closed, a generation stays closed and not READY for the rest of the run, begins no turn, and no worker of it is connected but on a connection it had |
| `DaemonSafety.RestartRestoresOpenSessions` | internal/daemon/daemon.go:443-460 | Of the IDs whose lock is free, a restart restores exactly those with an open registered session, each with its kind |
| `RestartFence.ReadyIsFenced` | internal/daemon/daemon.go:1694-1709 | In every run, what a READY past its staleness test does: nothing if its session is not registered, or its worker was in the slot at a restart mark or an expired watchdog and the session has not been given a worker since; otherwise its open session becomes READY and its worker is about to |
| `DaemonPersist.UpdatesAreCarriedOut` | internal/daemon/daemon.go:917-933 | In every run an update queued for a session stays under way until it ends: written to the open file of that session if it is registered and open by then, with no file changed otherwise |
| `DaemonPersist.MessagesAreKept` | internal/daemon/daemon.go:1710-1762 | Output and CLI session change the session in memory at once and queue the update of its file, the end of a turn ends the active turn, a close queues the close |
| `DaemonPersist.FilesAreNeverStuck` | internal/daemon/daemon.go:109-138 | In every reachable state an operation that wants a file can have it, or the operation that has it can go on |
| `DaemonEvents.Perform` | internal/daemon/daemon.go:275-399 | Every step of the operations in flight, run by the methods of the daemon and the store, leaves their fields as the step relation says |
| `DaemonLimits.StatusStep` | internal/daemon/daemon.go:377-383 | A step parts Closed from status CLOSED exactly when it spawns a worker for a closed meta that is current while the daemon is not stopped |
| `DaemonLimits.ClosedIsClosedWithoutSpawn` | internal/daemon/daemon.go:377-393 | In every run without such a spawn, a closed session has status CLOSED |
| `DaemonLimits.ClosedCanBeSpawning` | internal/daemon/daemon.go:377-383 | Every open registered session with a free lock has a continuation in which it is closed and SPAWNING |
| `DaemonLimits.ClosedSpawningRun` | internal/daemon/daemon.go:377-383 | A run to that from an empty directory, for every ID |
| `DaemonLimits.SlotStep` | internal/daemon/daemon.go:316-331 | A registered session comes to have a foreign worker in its slot exactly by taking an ID whose slot is occupied, and an unregistered ID an occupied slot exactly by rollback |
| `DaemonLimits.SlotsAreOwnedWithoutRollback` | internal/daemon/daemon.go:316-331 | In every run without rollback of a session that has a worker, the worker in a slot belongs to the session |
| `DaemonLimits.ForeignWorkerRun` | internal/daemon/daemon.go:275-331 | A run to a session with the worker of a rolled back one in its slot, for every ID |
| `DaemonRegistry.Daemon.DeleteWorkerIfCurrentLocked` | internal/daemon/daemon.go:977-986 | Takes a worker out of its slot and its ownership only if it is the one in the slot |
| `DaemonRegistry.Daemon.InstallWorker` | internal/daemon/daemon.go:375-399 | Replaces slot and owner for a current meta, undoes it if the process does not start, and reports the worker replaced |
| `DaemonRegistry.Daemon.ExitWorker` | internal/daemon/daemon.go:472-507 | Frees the slot only for a worker its current owner still has there; otherwise only drops the ownership |
| `DaemonRegistry.Daemon.MarkSessionMetaClosed` | internal/daemon/daemon.go:588-612 | Closes a current meta and hands back only a worker that meta owns |
| `DaemonRegistry.Daemon.PurgeMaps` | internal/daemon/daemon.go:622-632 | Removes the registration and whatever worker is in the slot |
| `DaemonRegistry.Daemon.AdmitWorker` | internal/daemon/daemon.go:1299-1331 | Attaches a connection exactly when an open session expects that very worker instance |
| `DaemonRegistry.Daemon.ReadyMessage` | internal/daemon/daemon.go:1694-1709 | READY is accepted for a current meta whose worker is not fenced by a restart, and set only if open |
| `DaemonRegistry.Daemon.MarkCurrentWorkerRestartPending` | internal/daemon/daemon.go:1167-1189 | Fences the worker in the slot for a current open meta |
| `DaemonRegistry.Daemon.WatchCancelledTurn` | internal/daemon/daemon.go:781-818 | Fails a turn only if its token is still the one being cancelled, and then fences the worker |
| `DaemonRegistry.Daemon.BeginCodexTurnIfReady` | internal/daemon/daemon.go:1027-1043 | Begins a turn exactly for a current, open, READY session without an active one |
| `DaemonRegistry.Daemon.MonitorReady` | internal/daemon/daemon.go:416-432 | After the timeout an open session that is not READY is RECOVERING, registered or not |
| `DaemonRegistry.Daemon.BeginTurnCancelIfCurrent` | internal/daemon/daemon.go:1045-1059 | Begins the one cancellation of the active turn of a current open Codex session and gives its token |
| `DaemonRegistry.Daemon.FinishCancelWithFailure` | internal/daemon/daemon.go:820-831 | Ends the turn of a current session only if it is being cancelled under that token |
| `DaemonRegistry.Daemon.CommitCancelSendFailureIfCurrent` | internal/daemon/daemon.go:877-904 | Asks for a retry exactly when another worker is in the slot, and fails the turn as above otherwise |
| `SessionStore.SessionStore.UpdateRecord` | internal/daemon/session_store.go:151-214 | Changes an open record, leaves a closed one alone, reports a missing one |
| `SessionStore.SessionStore.MarkClosed` | internal/daemon/session_store.go:136-149 | Closes an existing record and no other |
| `SessionStore.SessionStore.List` | internal/daemon/session_store.go:89-117 | Every open record exactly once and no closed one |
| `SessionStore.UpdatesAccumulate` | internal/daemon/session_store.go:151-214 | Whatever updates an open record receives, its output is the last 5000 of all lines stored, its CLI session and process are those stored last, it stays open and its own session's, and no other record changes |
| `SessionStore.ClosedRecordIsFinal` | internal/daemon/session_store.go:136-214 | No update changes a closed record |
| `SessionStore.RestartReadsBack` | internal/daemon/session_meta.go:294-343 | What a restart reads of a session saved and updated since: its kind, the tail of its output and the last CLI session, not its status or turn |
| `FileLocks.StepKeeps` | internal/daemon/daemon.go:111-138 | Every section of the lock registry keeps sharing, counting and exclusion |
| `FileLocks.LocksArePerSession` | internal/daemon/daemon.go:111-138 | Operations in flight on one ID use the one registered entry, operations on different IDs different ones, and one at most holds it |
| `FileLocks.RefsCountOperations` | internal/daemon/daemon.go:117-121 | refs is the number of waiters, holders and releasers not yet counted out, and an ID is registered exactly while there is one |
| `FileLocks.IdleRegistryIsEmpty` | internal/daemon/daemon.go:127-135 | The registry is empty exactly when nothing is in flight |
| `FileLocks.NobodyIsStuck` | internal/daemon/daemon.go:111-138 | A waiter can lock, or a holder on the same ID can unlock; no count underflows |
| `FileLocks.RefinesLockPerId` | internal/daemon/daemon.go:111-138 | Each step is a step of one plain lock for each ID; the creation and deletion of entries cannot be seen |
| `FileLocks.LockingIsRoundTrip` | internal/daemon/daemon.go:111-138 | An operation on an ID nobody holds can go in, lock, unlock and come out; it holds the ID in between and leaves the registry and all other operations as they were |
| `FileLocks.SessionFileLocks.Enter` | internal/daemon/daemon.go:112-122 | Finds or makes the entry and counts the caller in |
| `FileLocks.SessionFileLocks.Drop` | internal/daemon/daemon.go:130-135 | Counts the caller out and deletes the entry with the last one |
| `LockOrder.SectionsAscend` | internal/daemon/daemon.go:109-138 | Every locking section of the daemon takes locks in ascending rank |
| `LockOrder.RegisterActions` | internal/daemon/daemon.go:275-290 | Registration looks at the registry and saves the first record within the lock of the session's file |
| `LockOrder.RollbackActions` | internal/daemon/daemon.go:316-331 | Rollback unregisters and removes the file within that lock |
| `LockOrder.PersistActions` | internal/daemon/daemon.go:917-933 | Persistence checks the session and goes to the store within that lock |
| `LockOrder.CloseActions` | internal/daemon/daemon.go:588-620 | Closing changes workers and sessions together and then the store within that lock |
| `LockOrder.PurgeActions` | internal/daemon/daemon.go:622-652 | So does purging |
| `LockOrder.WorkerSectionsNest` | internal/daemon/daemon.go:333-399 | Sections that change or compare workers and sessions hold both mutexes, workers first |
| `LockOrder.TurnSectionsNest` | internal/daemon/daemon.go:781-904 | The turn is changed under its own mutex inside that of the registry, with the workers fixed where one of them is looked at |
| `LockOrder.StepKeeps` | internal/daemon/daemon.go:333-399 | Sections in progress keep the order, and exclusive locks have one holder, under writer preference |
| `LockOrder.NoDeadlock` | internal/daemon/daemon.go:877-1087 | In every reachable state with a goroutine inside a section, some goroutine can take its next step |
| `LockOrder.SectionsCanFinish` | internal/daemon/daemon.go:877-1087 | From every such state all sections in progress can be completed |
| `SessionMeta.TrimKeeps` | internal/daemon/session_meta.go:72-84 | Appending and trimming keeps the tail of the log, at most the cap |
| `SessionMeta.PushWakes` | internal/daemon/session_meta.go:72-84 | One append closes the open channel for the first time, and with it every channel handed out is closed; the other log is unaffected |
| `SessionMeta.SessionMeta.constructor` | internal/daemon/session_meta.go:316-343 | A new or restored session starts its sequence at the number of lines restored |
| `SessionMeta.SessionMeta.AddOutput` | internal/daemon/session_meta.go:72-84 | Appends one line under the cap, wakes all subscribers, closes no channel twice |
| `SessionMeta.SessionMeta.OutputSubscription` | internal/daemon/session_meta.go:101-106 | Returns the end of the log and a channel that is open until the next line |
| `SessionMeta.SessionMeta.SnapshotOutputSince` | internal/daemon/session_meta.go:108-125 | Returns exactly the log from the cursor, or from the oldest line kept, and a channel for what follows |
| `SessionMeta.SessionMeta.PublishTerminalLocked` | internal/daemon/session_meta.go:222-232 | The same append for terminals, capped at 16 |
| `SessionMeta.SessionMeta.SnapshotTerminalsSince` | internal/daemon/session_meta.go:241-257 | Exactly the terminals from the cursor, or from the oldest kept |
| `SessionMeta.SessionMeta.BeginTurn` | internal/daemon/session_meta.go:145-155 | One active turn at most, with a fresh token |
| `SessionMeta.SessionMeta.BeginTurnCancel` | internal/daemon/session_meta.go:157-165 | One cancellation for each active turn, with its token |
| `SessionMeta.SessionMeta.CompleteTurn` | internal/daemon/session_meta.go:167-175 | Ends the active turn with one terminal, or does nothing |
| `SessionMeta.SessionMeta.FailCancellingTurn` | internal/daemon/session_meta.go:177-185 | Ends the turn with one terminal only if it is being cancelled under that token |
| `SessionMeta.SessionMeta.FinishTurn` | internal/daemon/session_meta.go:203-208 | Ends the active turn without a terminal |
| `LogReaders.ReadsAreOrdered` | internal/daemon/session_meta.go:108-125 | A reader is given each entry at most once and in log order, however far behind it falls |
| `LogReaders.ReadsReachTheEnd` | internal/daemon/session_meta.go:108-125 | The log is all that has arrived, and a read takes the cursor to its end |
| `LogReaders.ReaderMissesNothing` | internal/daemon/session_meta.go:108-125 | A reader never more than the cap behind is given every entry from its first cursor on, once |
| `TurnLedger.StepBalances` | internal/daemon/session_meta.go:145-208 | Every turn operation keeps the balance of tokens |
| `TurnLedger.TokensAreConserved` | internal/daemon/session_meta.go:145-232 | In every run each token is committed once, rolled back once, or is the active turn: token = terminals + rollbacks + open turn |
| `TurnLedger.OldTokenNeverEndsLaterTurn` | internal/daemon/daemon.go:781-904 | A watchdog or cancel sender with an older token changes nothing, whatever has happened since |
| `TurnLedger.Perform` | internal/daemon/session_meta.go:145-232 | The methods of a session do what the ledger records: the same turn, and a terminal published exactly for each token committed |
| `Transcript.TranscriptCursor.ParseLine` | internal/adapter/codex_transcript.go:51-93 | Arms on the submitted line; armed and not ended, task_complete with a turn ID reports its message and completion, turn_aborted its shortened reason; every other line reports nothing and changes nothing |
| `Transcript.TranscriptCursor.ReadNew` | internal/adapter/codex_transcript.go:25-49 | Reads the complete lines from the offset and stops behind the last line feed |
| `Transcript.TwoReadingsAreOne` | internal/adapter/codex_transcript.go:25-49 | Reading, and reading again after the file has grown, is one reading of the grown file |
| `Transcript.PollingIsBatch` | internal/adapter/codex_transcript.go:25-49 | For an append-only file polled at any points, mid-line included, events and final cursor are those of one reading of the final file |
| `Transcript.PollingIsBatchExactly` | internal/adapter/codex_transcript.go:30-33 | This holds for all files of given lengths exactly when the starting offset is at most the first length or more than the last |
| `Transcript.CompleteLinesAreUnique` | internal/adapter/codex_transcript.go:34-43 | A text has one sequence of complete lines: without line feeds, each ended by one, with none after them |
| `Transcript.WatchPublishes` | internal/adapter/codex_transcript.go:51-93 | Polling an append-only file publishes what its complete lines call for: message and completion, or the abort, of the first end of a turn after the first line with the input, and nothing if there is none |
| `Transcript.WatchTranscript` | internal/adapter/codex.go:483-539 | Publishes that of the file as last read; a reading that fails before the end of the turn is reported instead, and so is a rollout that never appears |
| `CodexHistory.ProcessTree` | internal/adapter/codex_history.go:161-178 | Ends with exactly the processes reachable from the root, each once, or fails exactly when one of them cannot be listed |
| `CodexHistory.RolloutsOwned` | internal/adapter/codex_history.go:135-159 | The lower-case session IDs of the rollout paths that the processes hold open, of those that could be listed; fails exactly when there are some and none could |
| `CodexHistory.RolloutsOwnedByTree` | internal/adapter/codex_history.go:124-133 | What some process of the tree holds open |
| `CodexHistory.MatchDelta` | internal/adapter/codex_history.go:55-93 | The session of the first complete line from the offset on that has the expected text (line breaks and trailing ones apart) and an accepted session with a name; none if no line does or the file is unreadable or no longer than the offset |
| `CodexHistory.ConfirmationIsStable` | internal/adapter/codex_history.go:95-118 | Once a session is the answer, it is the answer for every later state of the growing history |
| `Writers.WriteAllWithRetry` | internal/adapter/aiden.go:273-316 | Takes everything, last with a clean write, or a prefix; fails exactly when the last writes allowed in a row all failed or the write of the last byte also reports an error, and otherwise never had that many failures in a row |
| `Utf8Chunks.Split` | internal/adapter/aiden.go:249-271 | Produces the chunks of the specification for any bytes and any limit, 4096 if the limit is not positive, and terminates |
| `Utf8Chunks.ChunksAreLossless` | internal/adapter/aiden.go:249-271 | For any bytes the chunks are non-empty, at most max(limit, 4) long, and the input when joined |
| `Utf8Chunks.CutWellFormed` | internal/adapter/aiden.go:262-264 | A cut of well-formed UTF-8 leaves either side well-formed exactly when it falls on no continuation byte (section 4 of RFC 3629) |
| `Utf8Chunks.ChunksAreWellFormed` | internal/adapter/aiden.go:249-271 | Chunks of well-formed text are well-formed, and within the limit if that is at least 4 |
| `Utf8Chunks.ChunksAreGreedy` | internal/adapter/aiden.go:258-264 | No chunk but the last has room for the character after it |
| `Utf8Text.EncodedIsWellFormed` | internal/adapter/aiden.go:258-264 | Encoded characters are well-formed text |
| `Utf8Text.WellFormedIsEncoded` | internal/adapter/aiden.go:258-264 | Well-formed text is encoded characters (sections 3 and 4 of RFC 3629) |
| `Utf8Text.BlankIsSpaces` | internal/adapter/aiden.go:179-182 | The blank inputs, whatever bytes an input may hold, are exactly the encoded white space |
| `Aiden.AidenAdapter.Send` | internal/adapter/aiden.go:156-222 | The text once and one Enter for each wait; success exactly when the last wait confirms, all earlier ones having timed out, so one Enter without a timeout; unconfirmed only when all waits allowed have timed out; after a failed write or a cancellation a prefix, or the text, an Enter for each wait and at most one more; blank input writes nothing |
| `Aiden.AidenAdapter.SendText` | internal/adapter/aiden.go:183-197 | The chunks arrive in order, and after a failure a prefix of the text |
| `Aiden.AidenAdapter.PressEnter` | internal/adapter/aiden.go:199-221 | The same for the Enters alone: it ends at the first confirmation |
| `Aiden.AidenAdapter.NotifyOutput` | internal/adapter/aiden.go:318-327 | Closes every channel handed out, none twice |
| `Aiden.AidenAdapter.OutputSubscription` | internal/adapter/aiden.go:329-336 | An open channel and the baseline it belongs to |
| `Aiden.AidenAdapter.WaitForOutput` | internal/adapter/aiden.go:338-360 | With a timeout, output since the subscription confirms and nothing else does; without one it confirms at once; interrupted only by the context |
| `Aiden.WireTellsSubmission` | internal/adapter/aiden.go:171-222 | The bytes on the wire determine the text of the input and the number of Enters |
| `AnsiScanner.StripAnsi` | internal/worker/tui_screen.go:18-55 | The scanner by index equals the automaton by byte (sections 5.4 and 5.6 of ECMA-48), for every input |
| `AnsiScanner.FindCsiFinal` | internal/worker/tui_screen.go:57-64 | The first final byte, or none |
| `AnsiScanner.SkipControlString` | internal/worker/tui_screen.go:76-88 | Where the automaton leaves the control string |
| `AnsiScanner.StrippingIsIdempotent` | internal/worker/tui_screen.go:18-55 | No Esc and no control byte but tab, CR and LF survives; a second pass changes nothing |
| `AnsiScanner.CleanIsKept` | internal/worker/tui_screen.go:44-51 | Clean text passes unchanged |
| `AnsiScanner.SplitsExactlyAtGround` | internal/worker/tui_screen.go:18-55 | A line may be stripped in two pieces exactly when it is cut outside a control sequence |
| `AnsiScanner.OutputIsBounded` | internal/worker/tui_screen.go:34-36 | The output is at most 1000 times as long as the input |
| `AnsiPieces.PiecesStrip` | internal/worker/tui_screen.go:18-88 | Whatever text, control bytes, control sequences, control strings, designations and escape pairs a line is made of, and whatever it is cut in, stripping leaves the text and spaces for cursor-forward |
| `AnsiPieces.EveryLineParses` | internal/worker/tui_screen.go:18-88 | Every line is made of such pieces |
| `AnsiPieces.CountReads` | internal/worker/tui_screen.go:66-74 | Cursor-forward by a decimal n, after private markers and before further parameters, is n spaces, 1000 at most, and one if n is 0 or needs more than 64 bits |
| `AnsiPieces.CountDefaults` | internal/worker/tui_screen.go:66-74 | Without a number, or with anything else in its place, it is one space |
| `LineDeduper.LineDeduper.Check` | internal/worker/tui_screen.go:118-142 | The line is judged by its stripped and trimmed form: a status line is suppressed exactly when its key is empty or among the last maxSize admitted; other visible lines pass as they are |
| `LineDeduper.LineDeduper.Reset` | internal/worker/tui_screen.go:153-156 | The window is empty again |
| `LineDeduper.LineDeduper.WindowIsSet` | internal/worker/tui_screen.go:127-141 | The order list has no duplicates and its keys are those of the map |
| `LineDeduper.RunsAreSpaced` | internal/worker/tui_screen.go:127-141 | In every run equal keys are shown at least maxSize admissions apart |
| `Connections.StepKeeps` | internal/worker/worker.go:246-321 | Every section of connecting, reconnecting, failing and shutting down keeps the account of connections |
| `Connections.ConnectionsAreConserved` | internal/worker/worker.go:128-190 | Every dialled connection is closed, published or held by exactly one procedure, and the published one is open |
| `Connections.NothingLeaks` | internal/worker/worker.go:895-952 | When a shutdown has cleared and every procedure has ended, every connection ever dialled is closed |
| `Connections.NonePublishedAfterClear` | internal/worker/worker.go:308-321 | After the clear step none is ever published or marked connected again |
| `Connections.ReplacedFailuresAreHarmless` | internal/worker/worker.go:458-503 | A failure marked after its connection was replaced changes no connection state and asks for no reconnection |
| `Connections.ConnectedAgain` | internal/worker/worker.go:308-321 | After being down the worker is connected exactly when a publication came since and nothing took that one down |
| `Connections.LateStartFindsConnection` | internal/worker/worker.go:246-258 | A reconnection asked for earlier enters although the worker is connected exactly when a publication came in between and still stands |
| `Connections.LateStartReplacesConnection` | internal/worker/worker.go:490-503 | A run in which such a late reconnection replaces a connection on which nothing has failed |
| `Connections.OnlyItsOwnFailure` | internal/worker/worker.go:458-466 | The published connection is marked disconnected only by its own failure or by shutdown |
| `Connections.WorkerConnection.PublishConnection` | internal/worker/worker.go:308-321 | Publishes unless closed or cancelled, and hands back the connection it replaced |
| `Connections.WorkerConnection.MarkDisconnectedIfCurrent` | internal/worker/worker.go:458-466 | Marks only the published connection, and only for its own reader |
| `SpawnBudget.WorkerHandle.MarkReady` | internal/daemon/worker_handle.go:79-86 | Sets ready and closes the Ready channel the first time only |
| `SpawnBudget.WorkerHandle.MarkStartupFailure` | internal/daemon/worker_handle.go:94-102 | Counts once, and never for a ready worker |
| `SpawnBudget.SpawnFailures.RecordSpawnFailure` | internal/daemon/session_monitor.go:24-39 | One more failure, and the retry time is now |
| `SpawnBudget.SpawnFailures.Reconcile` | internal/daemon/session_monitor.go:119-141 | Lets the monitor spawn exactly below five failures or a minute after the last retry, and moves the retry time exactly then |
| `SpawnBudget.OneFailurePerGeneration` | internal/daemon/daemon.go:416-441 | Failures recorded are charged to distinct workers or to starts that failed |
| `SpawnBudget.ReadyIsNotCharged` | internal/daemon/daemon.go:492-496 | A worker that has been ready is never charged again |
| `SpawnBudget.SpawnsExactlyWhen` | internal/daemon/session_monitor.go:119-141 | In every run the monitor may spawn exactly if fewer than five failures were recorded since the last READY, or the last failure and the last decision are a minute ago |
| `SpawnBudget.SpawnsAreSpaced` | internal/daemon/session_monitor.go:119-141 | Two spawn decisions, the second at five failures or more and with no READY in between, are at least a minute apart |
| `SpawnBudget.SpawnBudgetHolds` | internal/daemon/session_monitor.go:119-157 | A window of w nanoseconds holds at most w / 60 s + 1 of them |

## Left out

- TCP and HTTP plumbing, JSON encoding, the dashboard, the CLI commands and configuration: input, output or library calls. A JSON line is an abstract record.
- PTY, tmux, exec, lsof, pgrep, /proc and signals: a nondeterministic writer, exit and kill steps, and a function for the children of a process.
- The mock, pty and tmux adapters, the idle observer, backoff arithmetic, paging, UUID and argument building: they would add only easy members.
- `codexComposerReady`, `observeReady` and `stripCodexANSI`: readiness heuristics on screen text.
- Liveness of the external CLIs, the order of terminals on the wire, and the order of memory lines against disk lines: the code does not decide these.
- References among daemon objects are identities in maps rather than heap pointers, since several goroutines share them; a channel is its identity and a set of closed ones. Aliasing beyond that is not modelled.
- A message that is past its staleness test is handled in a later step, as in the source; READY of the newest worker is therefore not claimed to follow from status READY.
- The generation in a stored record is history the proofs need; the file format has no such field.
- CodexPty: the wait for the history line is one nondeterministic step. Matching that line is proved in `CodexHistory`, and the watch that follows in `Transcript`, each by itself.
- CodexTheorems.StaleEventsAreHarmless: a watcher publishes only for a turn whose Send succeeded, as in the source; other publishers are not modelled.
- DaemonSafety.GenerationsAreIsolated: the failure counts of the session monitor are kept for an ID, not for a generation, so they are outside the claim.
- DaemonSafety.DirectoryAgrees: is about IDs whose lock is free; between the change of the registry and the store access that completes it the two differ by design.
- LockOrder: waiting that is not for a mutex (a worker's Ready channel, the spawn semaphore, the acknowledgment written while admitting a worker, timers) is assumed to end.
- Connections: a rejected handshake releases the flag of its reconnection when the connection is closed rather than when cleanup returns; this only adds interleavings.
- SpawnBudget.SpawnBudgetHolds: counts the monitor's decisions. The process start that follows waits for the semaphore, so two starts may be closer together than their decisions.
- LineDeduper.LineDeduper.Check: trimming, the status test and the normal form are arbitrary functions, as nothing depends on them.
- Transcript.TranscriptCursor.ParseLine: JSON decoding, the comparison of a user line with the input and the shortening of an abort reason are arbitrary functions.
- Aiden.AidenAdapter.Send: the mutexes that serialise senders are not modelled; a send runs alone, with output arriving at any moment, and cancelled at any moment if `mayCancel`.
