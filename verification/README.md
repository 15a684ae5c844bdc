# Verified models of the agent manager's lockfile, the sql.js write queue and the session plumbing

Dafny models of the concurrent and stateful core of this repository, with proofs over all inputs and all runs.
`dafny verify dfyconfig.toml` checks everything.

| files | what they model |
|---|---|
| `LockJudge` | the pure verdicts about lock and guard owners, over injected operating-system facts |
| `LockProtocol`, `LockProofs`, `LockOwnership`, `LockTakeover`, `LockSignals`, `LockReclaim`, `LockLeftovers`, `LockRelease`, `LockRecovery`, `LockWitness`, `TakeoverWitness` | the lockfile protocol as interleaved processes, one system call per step, over a lock path and a guard directory; crashes, reboots and late starts included |
| `GuardWait` | the retry counters of waiting for the guard |
| `SqljsQueue`, `SqljsTurns`, `SqljsSerial`, `SqljsReplay` | the write queue of one sql.js connection: its transition functions, the mutable turn objects proved against them, what every run guarantees, and what its statements leave in the database |
| `SqljsFlush`, `SqljsDurability`, `SqljsExport`, `SqljsProgress`, `SqljsService` | dirty flag, overlapping flushes, export, file writes and foreign keys on top of that queue |
| `SqljsWitness` | runs in which a turn leaves a transaction or foreign keys to the next one |
| `TurnWatch` | the watch over long-held turns |
| `History`, `ReverseScan` | the bounded window, the byte fit and refit, numbering, and the backwards chunked scan |
| `Delivery` | batched ordered delivery with one drainer |
| `ContextBudget` | priority trimming to a size budget, and the render check behind it |

Where the source mutates objects or arrays, the model is a class or a loop whose methods are proved equal to pure
transition functions; invariants and run theorems are then lemmas about those functions. The lockfile and the flush are
protocols between processes or asynchronous calls, so there the model is the transition system itself: one step is one
system call, or one synchronous stretch between two awaits.

## What turned out not to hold

Five promises do not hold as stated. The models keep the code as it is. One lemma gives the exact condition under which the
promise is kept; another builds a run from the initial state, or an input, that breaks it.

- **Main lock.** The holder of the guard in a stale cleanup reads the lock of owner A; A releases and exits; a newcomer
  links its own lock; the holder's pid probe finds A gone, and its unlink removes the newcomer's lock. Ownership is
  exclusive if and only if no owner's release falls between a guard holder's read of that lock and its judgement
  (`LockOwnership.ExclusiveExactlyWithoutReleaseUnderJudgement`). Where process numbers are not reused only stale cleanups
  can be such holders: a takeover judges nobody who still runs (`LockTakeover.TakeoversJudgeOnlyTheDead`,
  `LockTakeover.ExclusiveExactlyWithoutReleaseUnderCleanup`). `LockWitness.TwoOwnersHappen` is a run from the empty file
  system to two owners. The recovery guard is exclusive without any such condition (`LockProofs.GuardIsExclusive`).
- **Transaction isolation.** A turn that leaves a transaction open (a raw `BEGIN` statement) lets later turns write inside
  it. Isolation holds if and only if no turn starts while a transaction is open
  (`SqljsSerial.IsolatedExactlyUnlessStartedInside`); `SqljsWitness.TransactionLeaks` is a run in which one does.
- **Refit.** Refitting equals fitting once at the smaller limit except for the notice of a window that kept nothing: its
  time is the clock at the moment of fitting (`History.RefitIsFitAtSmallerLimit`, which leaves all inputs free).
- **Delivery.** If `send` throws synchronously instead of rejecting, the drainer ends and the batches behind stay until
  the next enqueue (`Delivery.UnattendedExactlyAfterThrow`, `Delivery.OutputCanBeStranded`). This is a hazard of the class
  alone: the only `send` in the repository (`apps/agent-manager/src/lib/agent-session-runner.ts:2482`) calls the async
  function at `apps/agent-manager/src/lib/rest.ts:1462`, which rejects and does not throw.
- **Foreign keys.** A turn that switches them off (a migration that throws, say) and is handed on leaves them off for the
  turns behind it, until an export of its own turn. No turn runs with them off because of another one if and only if no
  such turn is handed on (`SqljsDurability.ForeignKeysSpareOthersExactly`); `SqljsWitness.ForeignKeysLeak` is a run in
  which one is. After a failed restore they are off for everybody until `SqljsDurability.ExportRestoresForeignKeys`
  applies.

## Assumptions

- Each system call is atomic, `readdir` included; a dead process takes no steps; file names of guard owners are unique.
- Every lock and guard owner carries a boot generation, as this version always writes. What is read from a guard owner
  file is any payload its writer may truthfully have recorded, an unfinished file whose writer is gone, or nothing usable.
- Readings of the boot time within one boot spread over at most 120 s, and start times err by at most 60 s
  (`LockJudge.JudgeIsSafeExactlyWithinTolerances` shows that both bounds are needed).
- `isPidAlive` answers "no" only when no running process has the number.
- A statement that changes something marks the database dirty some time after it ran, when TypeORM calls the subscriber.
- The work of an export makes no calls of its own: it talks to the connection directly.
- A work can await calls and flushes that it made inside its own turn; it then settles after them. What it awaits of other
  chains is its caller's business.
- Every non-read statement runs inside a work of the queue (the runner's `query` is gated).
- A session recording does not change while it is scanned. Parsing, JSON text, byte sizes, redaction and clocks are
  parameters.

## Model

| member | source | states |
|---|---|---|
| LockJudge.JudgeIsSafeExactlyWithinTolerances | apps/agent-manager/src/lib/agent-lockfile.ts:364-462 | a running writer is never judged stale, whatever facts are missing, if and only if boot-time drift is at most 120 s and start-time noise at most 60 s |
| LockJudge.KnownIdentityDecides | apps/agent-manager/src/lib/agent-lockfile.ts:412-462 | with boot id and start ticks known on both sides the owner is judged stale exactly when its writer no longer runs |
| LockJudge.StaleExactlyOnEvidence | apps/agent-manager/src/lib/agent-lockfile.ts:364-462 | for every lock and all facts, whatever is missing: stale if and only if the boot is shown to be another, the number is dead, or the process is shown to be another, with the reason of the first that applies; a dead number alone is enough |
| LockJudge.AllOwnersMustGo | apps/agent-manager/src/lib/agent-lockfile.ts:553-564 | a guard with several owners is reclaimed exactly when each of them alone would be |
| LockJudge.OwnedGuardReclaimedExactlyWhenAllStale | apps/agent-manager/src/lib/agent-lockfile.ts:536-599 | an owned guard is reclaimed exactly when no owner file was unreadable and every owner is stale; no wall clock decides it |
| LockJudge.GuardReclaimedExactly | apps/agent-manager/src/lib/agent-lockfile.ts:536-626 | for all facts: a guard is reclaimed if and only if it is there, nothing was unreadable, and each owner is stale or (carrying no boot generation) outlasted by the clock; one without owners goes once it predates the boot by 120 s, has been empty for 5 s or has stood for 60 s, and never before |
| LockProofs.StaleWriterIsGone | apps/agent-manager/src/lib/agent-lockfile.ts:443-487 | in any world, a record judged stale from facts probed there was written by a process that is gone |
| LockProofs.ReclaimedOwnersAreGone | apps/agent-manager/src/lib/agent-lockfile.ts:670-727 | when the probe of a guard leads to a reclaim verdict, every process named by an owner file it saw is gone |
| LockProofs.OwnStepKeepsGuard | apps/agent-manager/src/lib/agent-lockfile.ts:1273-1359 | one step of any process keeps the owner files of all other running processes and its own promise about its recorded name; it enters the guard only over a directory that holds its name alone |
| LockProofs.StepKeepsGuardInv | apps/agent-manager/src/lib/agent-lockfile.ts:1180-1392 | the guard invariant survives every system call, process start, crash and reboot |
| LockProofs.GuardIsExclusive | apps/agent-manager/src/lib/agent-lockfile.ts:1180-1392 | in every state of every run at most one running process holds the guard, and each running claimant's or holder's owner file is in the directory now at the guard path |
| LockProofs.NobodyRemovesALiveOwner | apps/agent-manager/src/lib/agent-lockfile.ts:1420-1473 | however old the snapshot it acts on, no step of a process removes the owner file of another running process |
| LockProofs.AttemptsAreBounded | apps/agent-manager/src/lib/agent-lockfile.ts:775-790 | in every run a process goes through attemptAcquire at most five times, however often others get in its way |
| LockWitness.FiveAttemptsHappen | apps/agent-manager/src/lib/agent-lockfile.ts:775-790 | the bound is reached: a run in which races end five attempts of one contender, and it gives up |
| LockLeftovers.ForgetsExactlyInAFailedRelease | apps/agent-manager/src/lib/agent-lockfile.ts:1342-1392 | a step leaves an owner file of a running process in the guard that this process does not mean to remove if and only if it is a release whose removal failed; a claimant that backs off keeps retrying its own |
| LockLeftovers.NothingIsForgotten | apps/agent-manager/src/lib/agent-lockfile.ts:1131-1392 | in every run without a failed release, each owner file of a running process in the guard is that of its present claim or on its list of files to remove |
| LockReclaim.ReclaimerRemovedAllItJudged | apps/agent-manager/src/lib/agent-lockfile.ts:1420-1473 | in every run, whoever is about to remove the guard directory as stale has read all its owner files, judged them, and since then itself removed every one of them from the guard; one that finds such a file gone leaves the guard now there alone |
| LockOwnership.OnlyTheObservedOwnerIsSignalled | apps/agent-manager/src/lib/agent-lockfile.ts:875-904 | every signal a takeover sends goes to the pid observed before waiting for the guard, and, where numbers are not reused, to that very owner and never to a peer that took over meanwhile |
| LockOwnership.StepKeepsOwnInv | apps/agent-manager/src/lib/agent-lockfile.ts:793-1029 | every step that is not a release under judgement keeps: an owner's record is on the path, and what a guard holder is about to unlink belongs to a process that is gone |
| LockOwnership.UndisturbedOwnershipIsExclusive | apps/agent-manager/src/lib/agent-lockfile.ts:793-1029 | in runs without a release under a guard holder's judgement at most one running process holds the lock, for any number of happy-path, stale-cleanup and force contenders and whether or not process numbers are reused, and its record is the one on the path |
| LockOwnership.DisturbedWorldBreaks | apps/agent-manager/src/lib/agent-lockfile.ts:977-1000 | after a release under judgement there is a run, built step by step, that ends with two owners |
| LockOwnership.ExclusiveExactlyWithoutReleaseUnderJudgement | apps/agent-manager/src/lib/agent-lockfile.ts:977-1029 | a step leads to a world that stays exclusive if and only if it is not a release under judgement |
| LockTakeover.TakeoversJudgeOnlyTheDead | apps/agent-manager/src/lib/agent-lockfile.ts:875-933 | where numbers are not reused, whoever has a running process's record under judgement is in a stale cleanup; a takeover judges only records whose writer is gone |
| LockTakeover.OwnershipIsExclusive | apps/agent-manager/src/lib/agent-lockfile.ts:793-1029 | where numbers are not reused, at most one running process holds the lock in every run in which no release falls under a stale cleanup's judgement; takeovers need no condition |
| LockTakeover.ExclusiveExactlyWithoutReleaseUnderCleanup | apps/agent-manager/src/lib/agent-lockfile.ts:977-1000 | there, a step leads to a world that stays exclusive if and only if it is not a release under a stale cleanup's judgement |
| LockTakeover.OneContenderTakesOver | apps/agent-manager/src/lib/agent-lockfile.ts:875-949 | of any number of force contenders that observed one owner at most one holds the lock at a time; all signals they ever send go to that owner, never to the contender that took over; and while that one runs and its record is on the path, no step of another removes the record or publishes a lock |
| LockTakeover.OnlyForceTakesOver | apps/agent-manager/src/lib/agent-lockfile.ts:822-904 | in every run only processes started with --force wait for the guard as takeovers, are inside one, or have sent a signal |
| LockTakeover.TurnedAwayWithoutForce | apps/agent-manager/src/lib/agent-lockfile.ts:812-835 | in every run, a contender without --force that judges the lock of a running process gives up, sends nothing and leaves the file system as it is |
| LockSignals.TakeoverFinishesWithItsVictim | apps/agent-manager/src/lib/agent-lockfile.ts:875-949 | in every run, whatever has happened to the path meanwhile, a process that has sent a signal waits for, probes and removes only records with the number it signalled, and where numbers are not reused only those of that very owner |
| TakeoverWitness.TakeoverHappens | apps/agent-manager/src/lib/agent-lockfile.ts:865-950 | a run from the empty file system, with no number reused and no release under judgement, in which a contender with --force signals the running owner, the owner goes, and the contender ends as the owner with its record on the path and the guard path free |
| LockWitness.ReleaseUnderCleanupHappens | apps/agent-manager/src/lib/agent-lockfile.ts:977-1000 | a run from the empty file system, with no number reused and no earlier such release, reaches a release under a stale cleanup's judgement |
| LockWitness.TwoOwnersHappen | apps/agent-manager/src/lib/agent-lockfile.ts:977-1000 | a run from the empty file system ends with two owners |
| LockRelease.ReleaseHasReadItsOwn | apps/agent-manager/src/lib/agent-lockfile.ts:1508-1536 | in every run in which numbers are not reused, disturbed ones included, whoever is about to remove the lock at its release has read its own record on the path as its last step |
| LockRecovery.ReclaimsGuard | apps/agent-manager/src/lib/agent-lockfile.ts:1420-1473 | a guard directory that dead processes left, with any number of owner files, can be reclaimed by a lone waiter |
| LockRecovery.LeftoversAreRecoverable | apps/agent-manager/src/lib/agent-lockfile.ts:952-1000 | a lone contender can become the owner whatever dead processes left, a stale lock together with an abandoned guard included, and leaves the guard path free |
| GuardWait.StreakCountsTheRow | apps/agent-manager/src/lib/agent-lockfile.ts:1109-1125 | the delete-pending counter reaches k exactly when the last k tries all hit such an error |
| GuardWait.FailedLooksAreTheLast | apps/agent-manager/src/lib/agent-lockfile.ts:1188-1220 | the failed-reclaim counter reaches k exactly when the last k looks at the guard failed, whatever other tries lie between |
| GuardWait.WaitForRecoveryGuard | apps/agent-manager/src/lib/agent-lockfile.ts:1105-1129 | the wait stops at the first try that makes the directory, fails for good or exhausts one of the two limits, and pauses after every earlier try except those that reclaimed |
| GuardWait.AcquireRecoveryLock | apps/agent-manager/src/lib/agent-lockfile.ts:1180-1255 | the same over all claims: an error is raised only for a permanent failure, the last 80 tries in a row delete-pending, or the last 80 looks in a row failed; a lost claim resets only the first count |
| SqljsTurns.SqljsWorkQueue.HeldTurn | apps/server/src/db.ts:558-561 | the turn of the calling context counts exactly while it has not been handed on |
| SqljsTurns.SqljsWorkQueue.Begin | apps/server/src/db.ts:563-575 | starting a work inside a held turn adds one pending work to it and changes no other turn |
| SqljsTurns.SqljsWorkQueue.Settled | apps/server/src/db.ts:571-574 | a settled work hands the turn on exactly when it was the last one running in it |
| SqljsTurns.SqljsWorkQueue.StartAfter | apps/server/src/db.ts:580-584 | once the turn ahead has been handed on, the turn starts with its first work and nothing else changes |
| SqljsTurns.SqljsWorkQueue.Enqueue | apps/server/src/db.ts:585-610 | inside a held turn the work joins it; otherwise a fresh turn queues behind the old tail and becomes the tail |
| SqljsQueue.ReleasedExactlyWhenSettled | apps/server/src/db.ts:563-603 | a turn has been handed on exactly when it started and none of its works is still running |
| SqljsQueue.EarlierTurnsReleased | apps/server/src/db.ts:580-608 | every turn queued before a started one has been handed on |
| SqljsSerial.AtMostOneTurnIsHeld | apps/server/src/db.ts:551-610 | at most one turn is held at any time |
| SqljsSerial.LogIsBlocksInQueueOrder | apps/server/src/db.ts:551-658 | in every run the statements on the connection form one block per turn, in queue order |
| SqljsSerial.ReleasedForGood | apps/server/src/db.ts:563-610 | a turn handed on is never changed again, gets no further work and no statement; a call from one of its late descendants opens a new turn |
| SqljsSerial.IsolatedExactlyUnlessStartedInside | apps/server/src/db.ts:551-658 | no other turn's write runs inside a transaction if and only if no turn starts while one is open |
| SqljsWitness.TransactionLeaks | apps/server/src/db.ts:551-658 | a run from the fresh connection in which a turn starts inside another's open transaction and writes in it |
| SqljsSerial.RollbackUndoesOwnTurnOnly | apps/server/src/db.ts:551-658 | a rollback discards exactly the rolling turn's own writes and nothing committed |
| SqljsReplay.CommittedIsWhatLasts | apps/server/src/db.ts:551-658 | in every run, read off the log of statements alone: committed are, in order, exactly the writes outside transactions and those whose transaction was committed; pending are exactly those of the open transaction |
| SqljsSerial.OwedMeansPossible | apps/server/src/db.ts:580-610 | while a turn has not been handed on, some turn can start or some work that awaits nobody can settle |
| SqljsSerial.QueueDrains | apps/server/src/db.ts:551-610 | works that await calls they made inside their own turn never block the queue: if works that await nothing settle, every queued turn starts and is handed on, after a number of starts and settlements fixed in advance |
| SqljsDurability.ActionKeepsInv | apps/server/src/db.ts:839-974 | every action of writers, subscribers and flushes keeps the flush invariant |
| SqljsDurability.CleanFileIsCurrent | apps/server/src/db.ts:859-886 | in every reachable state, if the dirty flag is clear, every write has reached its subscriber and no export is in flight, the file holds exactly what is committed |
| SqljsDurability.SuccessfulFlushPersisted | apps/server/src/db.ts:839-886 | a flush called outside any turn that returned success has saved every write queued before the call, whatever ticks coalesced, flushes superseded or file writes failed |
| SqljsService.CallAddsFlushExactly | apps/server/src/db.ts:839-870 | a call adds a flush if and only if it is forced, or something is dirty and nothing in flight, and changes nothing otherwise; the flush runs at once in the held turn of its caller, else waits out the one in flight, else queues for a turn of its own |
| SqljsService.ForcedCallIsServed | apps/server/src/db.ts:839-886 | from every reachable state, a forced call outside any turn can be followed to the return of that very flush, and on success it has saved everything queued before the call |
| SqljsService.TicksAreIdleAfterExport | apps/server/src/db.ts:839-886 | from an export on, until a write is marked or a failed flush returns, a tick does nothing |
| SqljsService.DirtyTickFlushes | apps/server/src/db.ts:843-869 | in every run a tick is turned down in favour of a flush only while one is still under way: once all have returned, a tick writes whatever is dirty |
| SqljsService.InFlightUntilItReturns | apps/server/src/db.ts:859-870 | the flush in flight stays the one in flight until it returns or another begins; the return of an older one that it superseded does not clear it |
| SqljsService.ForcedFlushWaitsItOut | apps/server/src/db.ts:843-857 | on every path a forced flush that found another in flight begins its own export only once that one has returned |
| SqljsDurability.WritesAreOrdered | apps/server/src/db.ts:935-974 | the slot of the latest file write, which is all an export looks at, tells whether any write is under way; so file writes never overlap, and snapshots reach the file in the order taken |
| SqljsDurability.ExportMeetsNoTransaction | apps/server/src/db.ts:935-957 | although reopening rolls back whatever is open, an export leaves the database as it was, foreign keys aside, and only works of its own turn run meanwhile |
| SqljsProgress.RunningFlushesEnd | apps/server/src/db.ts:839-974 | whatever has happened, and although a work that awaits a flush it called inside its turn settles only after that flush has returned: once nothing new is called, every flush returns and every turn is handed on after a bounded number of steps, and until then some step is always possible, so coalesced, superseding and held-turn flushes never wait in a circle |
| SqljsProgress.WaitingRules | apps/server/src/db.ts:843-857 | what excludes the circle: a flush that a work awaits runs in that work's turn and waits for no other flush, and one that waits out another was called outside any turn, after that other one |
| SqljsExport.ExportMeetsOnlyItsCallersTransaction | apps/server/src/db.ts:895-933 | in runs in which no turn starts inside a transaction, the only transaction a waiting export can meet is that of the very turn it was called in; one that queued for its own turn meets none and never runs into the deadline |
| SqljsExport.OwnExportMeetsWhatItStartedIn | apps/server/src/db.ts:902-933 | in every run, an export waiting in its own turn meets an open transaction if and only if its turn started inside it |
| SqljsWitness.ForeignKeysLeak | apps/server/src/db.ts:997-1017 | a run from the start of the process in which a turn that switched foreign keys off is handed on; from there runs go on in which another turn runs with them off |
| SqljsDurability.ForeignKeysSpareOthersExactly | apps/server/src/db.ts:997-1017 | apart from a failed restore, a statement runs with foreign keys off only if its own turn switched them off, and that stays so if and only if no turn that switched them off and not on again is handed on |
| SqljsDurability.ExportRestoresForeignKeys | apps/server/src/db.ts:1013-1017 | an export in its own turn whose restore succeeds puts foreign keys on whatever left them off; one in its caller's turn puts back the value it found |
| TurnWatch.TurnWatcher.Queued | apps/server/src/db.ts:473-477 | a turn queues behind all others, covered by no warning yet, and the watch stays valid: the unreported clock is the queueing time of the first turn no warning covers |
| TurnWatch.TurnWatcher.Begin | apps/server/src/db.ts:478-493 | the turn that waited longest becomes the holder with no warnings, and those still waiting are remembered as waiting before it |
| TurnWatch.TurnWatcher.Tick | apps/server/src/db.ts:435-461 | a tick warns exactly when due: first once the turn is held for the limit, later once the longest uncovered wait reaches the limit and the last of n warnings lies limit * 2^(n-1) back; the warning covers exactly the uncovered turns, the first one setting apart those waiting before the start |
| TurnWatch.TurnWatcher.End | apps/server/src/db.ts:494-508 | the turn leaves with exactly one first warning if it was held for the limit, and with none otherwise |
| TurnWatch.DelayDoubles | apps/server/src/db.ts:447-452 | the least delay before follow-up k is the limit times 2 to the k |
| TurnWatch.ReportsTileTheQueue | apps/server/src/db.ts:426-477 | the warnings about a holder cover the waiting queue up to the last warning, each turn once and in order, nobody queued since is forgotten, and the first one sets apart exactly the turns that were waiting when the holder started |
| TurnWatch.LongTurnsAreWarnedOnce | apps/server/src/db.ts:426-508 | exactly the turns held for at least the limit get a first warning, exactly one; the k-th follow-up comes at least limit * (2^k - 1) after it, so their number is logarithmic in the holding time |
| History.BoundedHistory.Push | apps/agent-manager/src/lib/agent-session-history.ts:241-253 | the window is the last `limit` of everything pushed; fewer than 2 * limit items are stored, and all compactions together copy no more items than were pushed |
| History.BoundedHistory.Items | apps/agent-manager/src/lib/agent-session-history.ts:255-258 | returns the last `limit` of everything pushed |
| History.BoundedHistory.Offset | apps/agent-manager/src/lib/agent-session-history.ts:265-268 | returns the absolute index of the first item kept |
| History.FitHistoryBytes | apps/agent-manager/src/lib/agent-session-history.ts:275-286 | keeps the longest suffix within the limit, or just the last event when even that is too big |
| History.FitIsUnique | apps/agent-manager/src/lib/agent-session-history.ts:271-286 | that description determines the kept suffix |
| History.FitTwice | apps/agent-manager/src/lib/agent-session-store.ts:125-133 | fitting a fitted list at a second limit is fitting once at the smaller limit |
| History.FitHistoryWindow | apps/agent-manager/src/lib/agent-session-store.ts:107-123 | the window is the fitted suffix under a notice counting all that was ever dropped |
| History.WindowReads | apps/agent-manager/src/lib/agent-session-store.ts:107-123 | a window shows the end of the events, under a notice if and only if anything was omitted; the notice has number 0, carries the count of all that was omitted, and the time of the first event kept or of the clock |
| History.RefitIsFitAtSmallerLimit | apps/agent-manager/src/lib/agent-session-store.ts:129-133 | refitting a window gives the same window, notice and count included, as one fit at the smaller limit, if and only if there are events, or nothing was omitted before, or the clock reads the same |
| History.KeptEventsKeepTheirPosition | apps/agent-manager/src/lib/agent-session-store.ts:461-470 | field by field: each kept event is numbered by its absolute position in the recording from 1, keeps its payload and time, and keeps its name, or is named after its number if it had none; the kept ones are the end of the recording, and omitted plus kept is the total |
| ReverseScan.LinesJoin | apps/agent-manager/src/lib/agent-session-history.ts:174-182 | cutting a text at a newline cuts its lines |
| ReverseScan.LinesAreTheStretches | apps/agent-manager/src/lib/agent-session-history.ts:100-106 | the lines of a text are, in order and without exception, the non-empty stretches free of newlines that are bounded by newlines or the ends of the text |
| ReverseScan.LatestIsLast | apps/agent-manager/src/lib/agent-session-history.ts:183-189 | a field is known if and only if some line has it, with the value of the last line that does |
| ReverseScan.ScanReaches | apps/agent-manager/src/lib/agent-session-history.ts:169-171 | the part the limit allows is the whole file, or at least the limit and less than a chunk more |
| ReverseScan.EarlierLinesInFront | apps/agent-manager/src/lib/agent-session-history.ts:169-191 | scanning further back only puts more complete lines in front |
| ReverseScan.TakeBlock | apps/agent-manager/src/lib/agent-session-history.ts:174-182 | one chunk joined with the carried line gives its complete lines and the new unfinished line, none lost or doubled |
| ReverseScan.Absorb | apps/agent-manager/src/lib/agent-session-history.ts:183-189 | taking records newest first without overwriting gives the latest value of each field, under what is already known |
| ReverseScan.LatestRecordFields | apps/agent-manager/src/lib/agent-session-history.ts:157-197 | for any file, chunk size and limit: the complete lines of the part read are processed exactly once; every field returned has the value found in the last line of the whole file that has it, lines being named by their positions; a required field is returned if a complete line of the part the limit allows has it, however early the scan stops; and after the first no chunk is read once all required fields are known |
| Delivery.AgentSessionDelivery.Enqueue | apps/agent-manager/src/lib/agent-session-delivery.ts:23-51 | output joins the last waiting batch in place or queues a new one; batches already handed to send stay as they were |
| Delivery.AgentSessionDelivery.DrainNext | apps/agent-manager/src/lib/agent-session-delivery.ts:39-47 | hands the first waiting batch to send, or stops draining when none waits |
| Delivery.AgentSessionDelivery.SendSettled | apps/agent-manager/src/lib/agent-session-delivery.ts:43 | a settled request, delivered or not, frees the drainer and changes nothing else |
| Delivery.AgentSessionDelivery.SendThrew | apps/agent-manager/src/lib/agent-session-delivery.ts:45-47 | a synchronous throw ends the drainer and leaves the waiting batches |
| Delivery.DeliveryConserves | apps/agent-manager/src/lib/agent-session-delivery.ts:23-51 | in every run what was handed to send followed by what waits flattens to exactly the enqueued sequence; a batch over 128 events or 512 KiB came from one enqueue, no combined batch carries a state, and none is empty |
| Delivery.WaitingBatchesAreMaximal | apps/agent-manager/src/lib/agent-session-delivery.ts:26-34 | in every run no two neighbouring waiting batches could have been combined: one of them carries a state, or together they are over 128 events or 512 KiB |
| Delivery.UnattendedExactlyAfterThrow | apps/agent-manager/src/lib/agent-session-delivery.ts:35-49 | over all runs, waiting output has no drainer if and only if at some time send threw synchronously while batches waited and no call of enqueue has brought anything since |
| Delivery.OutputCanBeStranded | apps/agent-manager/src/lib/agent-session-delivery.ts:39-47 | such a run exists for any event |
| Delivery.AttendedInRunsWithoutThrow | apps/agent-manager/src/lib/agent-session-delivery.ts:35-49 | in runs without such a throw, waiting output always has a drainer |
| ContextBudget.EnforceContextBudget | apps/agent-manager/src/lib/agent-context-contract.ts:84-96 | succeeds with the least trimming that fits, each list keeping a suffix and being touched only after the earlier ones are empty; fails exactly when no trimming fits, with all lists empty |
| ContextBudget.DropKeepsOrder | apps/agent-manager/src/lib/agent-context-contract.ts:86-91 | after any number of drops every list keeps a suffix and one that lost anything comes after lists that lost everything |
| ContextBudget.BudgetedContractsRender | apps/agent-manager/src/lib/agent-context-contract.ts:202-211 | the render limit can never be exceeded by a contract that met the budget, if and only if the version has at most 41 characters, which the current one has |
| ContextBudget.BuildAndRender | apps/agent-manager/src/lib/agent-context-contract.ts:84-211 | building fails exactly if no trimming fits, and otherwise rendering succeeds too; the text is the header line with the version followed by the JSON of what was built, at most 15,962 characters |

## Left out

- The lockfile protocol and the flush are transition systems on values: their per-process local variables and the module
  variables of `db.ts` are fields of a state, not objects, so aliasing inside one process is not captured there.
- `decideForceTakeover`, the SIGUSR2 hand-off and `compareLockVersions`: a force contender takes over, or gives up, by
  free choice.
- Guards of older versions (`owner.json`, owners without a boot generation): their 60 s wall-clock reclaim is a deliberate
  best-effort exception; the judge functions contain it, the protocol theorems assume it does not occur.
- Entries of the guard directory that are not owner files, and a guard path that is not a directory.
- Bounded retries of single file operations and of lock reads (`retryGuardOperation`, `readLockForAcquire`): an operation
  succeeds or fails by free choice, so a failure after any number of retries is covered.
- The waiting times of a takeover (30 s, 5 s) and of the guard (60 s): a wait ends by free choice.
- LockRecovery.LeftoversAreRecoverable: shows a run that reads owner files as their writers recorded them, not that every
  schedule takes it; a number reused by the contender itself is outside it, since a reused number cannot always be told
  from its former holder.
- GuardWait.AcquireRecoveryLock: is stated for any finite sequence of tries; that waiting for a live holder ends is not
  claimed, and an end by the 60 s limit is one of the tries that fail for good.
- `SELECT` and other reads, which do not take turns, and the ontology twins of the flush functions, which repeat the same
  protocol on separate state.
- The length of the deadline of an export that waits for a transaction: it may give up at any moment at which one is open and
  no file write is under way.
- SqljsProgress.RunningFlushesEnd: takes for granted that file writes end and that a work settles once whatever it awaits
  inside its own turn has.
- SqljsSerial.QueueDrains: says what settlements lead to; that a work settles which awaits nothing in its turn is its
  caller's business, as is a work that waits for a chain queued behind it (the deadlock the watch warns about).
- Warning texts, grouping of waiting turns and stack capture of the watch; only times, counts and queue positions are kept.
- Payload bounding and truncation, the session index file, UTF-8 decoding, and JSON parsing of lines.
- REST, SSE, MCP and NestJS wiring, and user interface code.
