# The segmented transfer engine, verified

This project models `internal/engine` of the download manager, and the part of `internal/store/sqlite` that keeps its
segment rows, in Dafny, and proves what the engine's design comments promise: that bytes never land in the wrong slot,
that a finished download is the remote file whatever was stolen, retried, torn or killed on the way, that stored
counters never outrun durable bytes, when exactly a pause lasts and a resume is carried out, and that the bandwidth
cap holds.

`dafny verify dfyconfig.toml` checks everything.

## What is modelled

* **The work-stealing run** (`Protocol`, `ProtocolInv`, `ProtocolFrames`, `ProtocolSteps`, `ProtocolFacts`,
  `ProtocolMoves`, `Termination`, `Completeness`, `Witnesses`, `ExitWitness`). A state machine whose actions are the
  atomic steps of any number of workers and thieves. A thief's critical section is split into the scan (one step a
  slot), the tentative shrink, the re-check and the undo or commit; a flush into loading the End, writing at most one
  buffer and publishing the counter; donors run lock-free between any two of them. The invariant is proved step by
  step, and the theorems are about every run.
* **Kill and resume** (`CrashResume`, `ResumeProgress`, `RunEnds`, `CrashWitness`). The machine above inside a larger
  one: the store's rows are a map from index to row, upserted one at a time with an End and a counter loaded at
  different moments; the process may be killed between any two steps, those that close, rename or remove the part file
  and save the record included; resuming runs `reconcileProgress` and `repairLayout`; the gate is `verifyComplete`; a
  finished download may be resumed, and any download restarted.
* **Power loss** (`StealDurability`, `StealWitness`; on the static path `Durability`, `DurabilityWitness`). The part
  file as the process sees it against what the device holds, any number of checkpointers that snapshot, fsync and
  persist while slots are cut and activated under them, and a store that may lose its latest commits.
* **Layouts** (`Tiling`, `Planner`, `Layout`, `LayoutFacts`, `RepairOrder`). The planner's loop, `repairLayout`,
  `reconcileProgress` and `verifyComplete` as methods on objects, and what they do to a tiling of the file.
* **The objects themselves** (`StealCoord`, `Streaming`, `Checkpoint`). The coordinator over arrays that other
  goroutines advance meanwhile, the writers and the copy loop over a mutable file, the two retry loops, the counters,
  the rows and the checkpointer, each method proved against its specification under interference.
* **The Manager** (`Manager`, `ManagerFacts`, `ManagerLaws`, `ManagerTickets`, `ManagerResume`, `ManagerJobs`,
  `ManagerWitness`, `PendingQueue`). Its critical sections, store accesses and cancel calls as a state machine over
  any pool and any number of concurrent API calls; a whole job, a stop and a resume as methods over the maps, each
  proved to follow a history of that machine while other goroutines run between any two of its operations; the pending
  slice as an object.
* **The token bucket** (`RateLimiter`). `WaitN` with whole nanoseconds and exact tokens.

Assumptions: atomics are sequentially consistent; the configuration is valid (`BufferSize` at least 1, and the steal
floor at least two buffers plus one byte, as `stealFloor` makes it); a flush is at most one buffer; the body of a
range request is a prefix, possibly empty, of the bytes asked for, and may end or fail anywhere; the remote file does
not change under one set of validators. Retries, stalls, cancellations, store failures and the clock are
nondeterministic steps.

## What does not hold, and when it does

* A run whose workers all return without an error need not be complete: `isDone` reads the End without the lock and
  may see a tentative one (`internal/engine/segment.go:112-118`, `Witnesses.NoErrorIsNotComplete`). It is complete
  exactly when no worker, at the end of a body, took a tentative End for the real one
  (`Completeness.NoErrorIsComplete`). The gate refuses every other run, and what it lets pass is the remote file
  (`ProtocolFacts.GateMeansRemote`).
* A worker that finds nothing to steal may exit too early, though the comment on `next` says that later splits only
  shrink remainders (`internal/engine/steal.go:97-102`): the scan passes over donors whose steals the same call has
  undone, and those may still be worth splitting; the next worker that asks then splits one
  (`ExitWitness.ExitsTooEarly`). The exit is right exactly when none of them is
  (`ProtocolFacts.FruitlessScanMeansSpent`). A premature exit costs parallelism, not bytes.
* A good file can be overwritten with zeros. `reconcileProgress` is documented to keep a missing or truncated part
  file from leaving zero-filled holes (`internal/engine/download_run.go:269-281`), but it grows the file before the
  lowered counters are stored, so a kill right after a resume lets the next one trust the old rows, and the gate opens
  on zeros. The engine takes the part file away itself: it renames a finished one before it saves the record
  (`internal/engine/download_run.go:187-191`), and a kill in between, or a Resume of the completed download, followed
  by one more kill, puts zeros over the good file (`CrashWitness.FinishedFileIsOverwritten`). A Restart killed between
  removing the part file and resetting the record, and a part file cut short from outside, do the same
  (`CrashWitness.ClampIsNotStored`), and so does an old copy of the record that an operator request saves back
  (`CrashWitness.StaleCopyIsSavedBack`). On the static path a power loss after the rename does it
  (`DurabilityWitness.PowerLossAfterRename`). `CrashResume.KillAfterResume` says exactly when one such kill is
  harmless: when no stored claim reaches past the end of the part file, so after a rename only if every counter is
  zero. Over whole histories, every file put in place is exact as long as no run resumes on rows that a run over a
  short or missing part file has left stale (`CrashResume.ResumedDownloadIsExact`, `Durability.PowerLossIsExact`);
  rows stop being stale when they are overwritten, when a run ends and saves its counters, and when the part file
  goes. If every run finds the part file at its full size no condition is needed
  (`CrashResume.KilledDownloadIsExact`), so the first file put in place is exact (`CrashResume.FirstFileIsExact`).
* A row of the checkpointer never counts a byte that is not durable, steals or not
  (`StealDurability.BarrierNeverExceedsDurable`). The donor's and the tail's rows, persisted as a steal commits, do
  not go through its fsync (`internal/engine/download_run.go:518-520`): a power loss can leave the donor's row ahead
  of the device (`StealWitness.DonorRowOutlivesItsBytes`), and such a row is safe exactly when the device already has
  what it counts (`StealDurability.CutRowIsBackedExactly`).
* The error of the fsync before a failed run's counters are saved is ignored
  (`internal/engine/download_run.go:162-169`). One fetched byte, that fsync failing and a power loss end in a finished
  file with the wrong byte (`DurabilityWitness.LostClaimFinishes`). The saved counters are safe exactly when no
  fetched byte was still dirty (`Durability.FailedTerminalSync`).
* A pause need not last. The intent is forgotten when the job settles (`internal/engine/manager.go:762`); a second
  pending entry of the same download then runs it, with a live context, although nobody resumed it. A Submit that
  races the recovery of `Start` leaves two entries (`ManagerWitness.PauseDoesNotLast`), and so does a Resume accepted
  while a paused run settles, which a second pause does not outlast (`ManagerWitness.SecondPauseDoesNotLast`).
  Counting the pending entries and the workers on the download: a stop that finds at most one lasts, settling
  included, for as long as nothing enqueues the download or withdraws the stop (`ManagerTickets.StoppedStaysStopped`).
  For a download that is pending, starting or running that is exactly when it lasts
  (`ManagerTickets.StopLastsExactly`).
* A Resume can be accepted and lost. A stopped run is recorded as failed before its worker settles; a Resume in that
  window re-queues the download, another worker drops it as a duplicate, and the settling worker has nothing to
  override (`ManagerWitness.ResumeCanBeLost`). And `SetPriority`, `SetAuth` and `SetRate` save back the whole record
  they loaded, status included, outside the mutex (`internal/engine/manager.go:550-559`,
  `internal/engine/settings.go:245-253`): one that loaded a completed record puts that status back after a Resume has
  queued the download, and the worker that dequeues it takes it for done (`ManagerWitness.ResumeLostToEdit`). With
  another worker idle and another call possible, a Resume is never lost in either way exactly when, as it takes the
  lock, no job of the download has been skipped, is in the engine or has returned, the download is not completed, and
  no such call holds it as completed (`ManagerResume.ResumeIsKeptExactly`). The store can lose it too: when a worker
  cannot load the record, or cannot mark it active, the download stays lost until something enqueues it
  (`ManagerResume.StoreFailureLoses`, `ManagerWitness.ResumeLostToStore`).
* `repairLayout` is not idempotent: where rows share a start and one of them claims bytes, the library sort may order
  them differently the second time, and the claim is lost (`RepairOrder.ClaimDropped`). For rows that start inside the
  file it is idempotent whatever orders the sorts pick exactly when there is no such clash, or two rows start at byte
  0, which leaves an open-ended row that a second repair does not touch (`RepairOrder.IdempotentExactly`). This is
  about what `sort.Slice` promises; a sort that leaves sorted input alone would make repair idempotent. It also leaves
  a lone torn row as it is, which the gate then refuses (`LayoutFacts.LoneTornRowIsRefused`).

## Model

| member | source | states |
|---|---|---|
| `ProtocolFacts.ReachableOk` | `internal/engine/steal.go:63-179` | every state that any interleaving of workers and thieves reaches from a startable layout satisfies the protocol invariant |
| `ProtocolSteps.StepKeepsInv` | `internal/engine/segment.go:55-125` | each atomic step of a worker or thief keeps the invariant |
| `ProtocolFacts.TiledThroughout` | `internal/engine/steal.go:130-162` | at every point the live ranges put each byte in exactly one slot, inside a tentative window once the donor's End is read as the one an undo restores |
| `ProtocolFacts.OnlyCommitReshapes` | `internal/engine/steal.go:141-149` | no step but a commit changes the committed layout; an undone window leaves no trace |
| `ProtocolFacts.CommitSplits` | `internal/engine/steal.go:151-159` | a commit cuts one committed range in two behind everything fetched or in flight; unfetched bytes are conserved |
| `ProtocolFacts.NoByteWrittenTwice` | `internal/engine/segment.go:312-340` | a flush writes only unwritten bytes of its own slot's committed range, and writes the remote's |
| `ProtocolFacts.StolenTailIsNeverTouched` | `internal/engine/steal.go:124-129` | after a commit, over any continuation, the donor never has a byte of the tail nor the tail's slot a byte of the donor |
| `ProtocolFacts.ClipForcesUndo` | `internal/engine/steal.go:143-149` | a donor that clips at a tentative End makes the re-check undo it |
| `ProtocolFacts.SettledIsFinalOverRun` | `internal/engine/steal.go:191-200` | once `settled` says yes the slot's End never changes and no thief picks it, over any continuation |
| `ProtocolFacts.DispatchInOrder` | `internal/engine/steal.go:103-161` | `next` hands out 0, 1, 2, ... once each, initial slots first, and never outgrows the pre-sized arrays |
| `ProtocolFacts.OneWorkerPerSlot` | `internal/engine/steal.go:63-68` | two workers never stream the same slot |
| `ProtocolFacts.RetriesAreBounded` | `internal/engine/segment.go:55-107` | free retries of a slot are at most its undone steals, those at most the `next` calls, and those at most max + workers |
| `ProtocolMoves.GivesUpExactly` | `internal/engine/segment.go:55-125` | in every run an attempt that ends without having filled its segment is followed by another until 1 + MaxRetries have been made, those that an undone steal made free not counted; exactly then the worker fails |
| `ProtocolMoves.FailsOnlyThen` | `internal/engine/segment.go:55-125` | a worker fails for no other reason but cancellation, or a failed flush that had already filled its segment |
| `ProtocolMoves.AsksForTheRest` | `internal/engine/segment.go:66-78` | an attempt asks for everything from the first unfetched byte to the End as it stands |
| `ProtocolMoves.WritesUpToIt` | `internal/engine/segment.go:312-340` | a flush can write its whole buffer up to the End it loaded, at the first unfetched byte, and is clipped exactly if the buffer reaches that far |
| `ProtocolMoves.TroubleAnywhere` | `internal/engine/segment.go:78-119` | a connection can break or a body end after any byte, a buffer hold any part of what was asked for, and cancellation be seen wherever a worker waits |
| `ProtocolMoves.WritesStopAnywhere` | `internal/engine/segment.go:329-340` | a write can stop after any byte up to the loaded End, and only there |
| `ProtocolMoves.SettlesOrGoesOn` | `internal/engine/segment.go:98-107` | filling up to an End settles the slot or costs nothing: the same attempt begins anew |
| `ProtocolMoves.NeverStuck` | `internal/engine/download_run.go:504-531` | in every run, unless every worker has returned, some step other than a cancellation can be taken |
| `ProtocolFacts.RemaindersShrink` | `internal/engine/steal.go:97-102` | no step enlarges a remainder, and a tail starts with no more than its donor had |
| `ProtocolFacts.FruitlessScanMeansSpent` | `internal/engine/steal.go:130-149` | a scan that found less than twice the floor leaves every remainder below it if and only if the donors it passed over, undone in the same call, are below it too |
| `ProtocolFacts.SpentForever` | `internal/engine/steal.go:97-102` | from then on, over any continuation, nothing is ever split again |
| `ProtocolFacts.FruitlessScanIsFinal` | `internal/engine/steal.go:97-102` | so a worker that exits on such a scan is right to, undone donors or not: in every run the live layout is final from there |
| `ExitWitness.ExitsTooEarly` | `internal/engine/steal.go:130-149` | a concrete run in which a worker exits although the donor it has just given back is worth splitting, and the next worker splits it |
| `ProtocolFacts.SplitIsWorthwhile` | `internal/engine/steal.go:133-149` | both pieces keep at least the floor, and a donor that has not moved is never undone |
| `ProtocolMoves.RobsTheFattest` | `internal/engine/steal.go:130-136` | a scan goes on to a split exactly if some slot it did not pass over has twice the floor left, and no other has more than the one it robs |
| `ProtocolMoves.SplitsInHalf` | `internal/engine/steal.go:137-149` | the donor keeps half of what the thief saw, rounded down, and gets the rest back exactly when it has come within one buffer of the cut |
| `ProtocolFacts.GateMeansRemote` | `internal/engine/download_run.go:531-545` | when the workers have returned and the gate opens, the part file holds the remote bytes |
| `ProtocolFacts.StealingRunIsExact` | `internal/engine/download_run.go:465-545` | end to end for one run, over every interleaving: workers gone and gate open mean the remote file |
| `ProtocolFacts.ShortLayoutIsRefused` | `internal/engine/download_run.go:582-600` | a layout that stops short of the file passes the gate only as a lone row already claiming all of it |
| `Termination.StepLowers` | `internal/engine/segment.go:55-125` | every step of every goroutine lowers one well-founded measure |
| `Termination.NoInfiniteRun` | `internal/engine/segment.go:98-107` | no infinite run exists, free retries included |
| `Termination.RunsEnd` | `internal/engine/download_run.go:504-531` | every run from a startable layout ends |
| `Completeness.NoErrorIsComplete` | `internal/engine/segment.go:112-118` | a run over the whole file whose workers all returned without an error passes the gate if and only if no clean end of a body was judged by a tentative End |
| `Witnesses.NoErrorIsNotComplete` | `internal/engine/segment.go:112-118` | a concrete run in which both workers return without an error and half the file is missing |
| `StealCoord.Coordinator.Fattest` | `internal/engine/steal.go:164-180` | a slot with the largest remainder among those not excluded, whatever progress is published during the pass |
| `StealCoord.Coordinator.Shrink` | `internal/engine/steal.go:137-149` | the tentative window ends with the End cut if the donor is still one buffer behind the cut, and with the End as it was if it is not |
| `StealCoord.Coordinator.TrySteal` | `internal/engine/steal.go:130-162` | one slot is split in half with a floor on both sides, none that hardly moved having more left, or nothing changes but progress and no slot that fetched less than the floor less one buffer meanwhile is worth splitting |
| `StealCoord.Coordinator.Next` | `internal/engine/steal.go:103-113` | the initial slots in order, then steals |
| `StealCoord.Coordinator.ActiveSegments` | `internal/engine/steal.go:211-226` | the durable slice pairs index for index with the live plan and counters |
| `StealCoord.Coordinator.constructor` | `internal/engine/steal.go:36-49` | the live plan is seeded from the segments and sized to the ceiling |
| `StealCoord.SplitKeepsTiling` | `internal/engine/steal.go:124-129` | what a successful steal promises keeps the tiling and the unfetched bytes |
| `Streaming.OffsetWriter.Write` | `internal/engine/copy.go:15-24` | exactly the bytes reported written are in the file at the tracked offset, which advances by them |
| `Streaming.ProgressWriter.Write` | `internal/engine/segment.go:284-341` | a flush never passes the End it loaded, reports stolen exactly when it has filled up to it and failure exactly when the limiter or the file failed it, writes all that fits otherwise, and counter and file agree on every path |
| `Streaming.CopySegment` | `internal/engine/copy.go:26-36` | a prefix of the body lands at the stream's offset, all of it when the copy ends without an error, and all that was read when only the connection broke; it ends with an error only if something went wrong, and as stolen only at an End the slot has had meanwhile |
| `Streaming.RunSegment` | `internal/engine/segment.go:40-125` | without a coordinator: success means the whole segment holds the remote's bytes, a counter at or past the End succeeds at once, failure leaves a true counter that has not gone back, nothing outside is written, and it comes only of cancellation or of 1 + MaxRetries attempts that something outside spoiled |
| `Streaming.RunWholeBody` | `internal/engine/segment.go:154-224` | success means the file is what one response delivered to its clean end, and the whole of it when the size is known, whatever was in the file before; with a true or unknown size it fails only when cancelled, unable to empty the file, or spoiled 1 + MaxRetries times |
| `Layout.Download.RepairLayout` | `internal/engine/download_run.go:342-366` | some sort by start, each End derived from the next start, counters clamped; anything else left alone |
| `Layout.Download.ReconcileProgress` | `internal/engine/download_run.go:282-330` | counters capped to what the file backed before it was grown, after repair |
| `LayoutFacts.ReconcileKeepsBacked` | `internal/engine/download_run.go:311-328` | a row within the part file keeps its counter, one that reaches past its end keeps exactly the bytes up to there, one that starts past it keeps none |
| `Layout.Download.VerifyComplete` | `internal/engine/download_run.go:582-600` | the loop decides the gate |
| `LayoutFacts.GateExact` | `internal/engine/download_run.go:586-600` | on any tiling of a known size the gate opens if and only if every counter equals its segment's size |
| `LayoutFacts.RepairTiles` | `internal/engine/download_run.go:342-366` | two or more closed rows in any order come out end to end and densely numbered, tiling the file if and only if some row starts at 0 |
| `LayoutFacts.RepairClaims` | `internal/engine/download_run.go:359-364` | repair claims no byte some row did not claim, and every counter fits |
| `LayoutFacts.RepairKeeps` | `internal/engine/download_run.go:350-364` | a row that alone has its start keeps as many of its bytes as its repaired range holds |
| `LayoutFacts.LeftAlone` | `internal/engine/download_run.go:342-349` | an unknown size, a lone row and an open-ended row are left alone |
| `RepairOrder.IdempotentExactly` | `internal/engine/download_run.go:342-366` | every legal repair of the stored rows is idempotent if and only if no two of them share a start one claims bytes at, or two start at byte 0 |
| `RepairOrder.ClaimDropped` | `internal/engine/download_run.go:342-366` | three concrete rows, their repair, and a second repair that drops a claim |
| `LayoutFacts.RepairPreservesTiling` | `internal/engine/download_run.go:339-341` | rows that already tile keep their ranges and counters, in whatever order they were stored |
| `LayoutFacts.RepairIdentity` | `internal/engine/download_run.go:339-341` | rows that tile in file order come back exactly as they are |
| `LayoutFacts.LoneTornRowIsRefused` | `internal/engine/download_run.go:343-345` | a lone row is not repaired, and one that stops short never opens the gate |
| `CrashResume.KilledDownloadIsExact` | `internal/engine/download_run.go:125-192` | kill between any two steps, the rename and the final save included, resume or restart any number of times: if every run finds the part file at its full size, every file put in place is the remote file |
| `CrashResume.FirstFileIsExact` | `internal/engine/download_run.go:479-544` | until the part file is first taken away or cut short no condition is needed: the first one that passes the gate is the remote file |
| `ResumeProgress.ProgressComesBack` | `internal/engine/download_run.go:617-640` | a run that failed and saved its counters loses nothing: the next run starts with every slot's range and counter, so no fetched byte is fetched again |
| `RunEnds.KilledAnywhere` | `internal/engine/download_run.go:125-195` | the process may be killed in every phase; the part file and the rows stay, everything under way is gone |
| `RunEnds.FinishesInAnyOfThese` | `internal/engine/download_run.go:171-195` | after the gate the part file is renamed, removed or left, and the record saved or not; each possible, with what it leaves |
| `RunEnds.FailsAndStartsOver` | `internal/engine/download_run.go:162-169` | after a failed run the part file is cut, discarded or kept, and a fresh plan starts over it |
| `RunEnds.StartsAsConfigured` | `internal/engine/download_run.go:465-510` | a run starts with a slot for each row, room up to the ceiling, the configured workers and retries, and each row's range and counter over the grown part file |
| `RunEnds.RowsComeAndGo` | `internal/store/sqlite/segments.go:11-23` | rows read from the live plan are upserted, and whole records loaded and saved back, at any time of a run |
| `CrashResume.ResumedDownloadIsExact` | `internal/engine/download_run.go:269-330` | with the part file renamed, removed for a wrong checksum, discarded by a Restart, or cut short from outside between runs: every file put in place is the remote file as long as no run resumes on rows that are still stale |
| `CrashResume.RowsClaimOnlyFetched` | `internal/store/sqlite/segments.go:63-69` | at every point of such a history every stored row, torn, tentative, renumbered or saved back, claims only bytes the part file has, but for the stale ones |
| `CrashResume.TornRowsTile` | `internal/engine/download_run.go:332-341` | any mix of two or more reachable rows is repaired into a tiling of the file |
| `CrashResume.ResumeStartable` | `internal/engine/download_run.go:125-144` | any reachable row set resumes into a layout the run's invariant holds of |
| `CrashResume.KillAfterResume` | `internal/engine/download_run.go:296-328` | a kill right after a resume leaves a true store if and only if no stored claim reached past the file's end |
| `CrashWitness.FinishedFileIsOverwritten` | `internal/engine/download_run.go:187-192` | a concrete history in which the finished file is renamed, the process is killed before the record is saved (or the saved download is resumed), and a second kill lets zeros be put over it |
| `CrashWitness.ClampIsNotStored` | `internal/engine/download_run.go:269-304` | the same with outside truncation, or with a Restart killed half-way |
| `CrashWitness.StaleCopyIsSavedBack` | `internal/engine/manager.go:550-559` | the same with every stale row overwritten, and an old copy of the record saved back |
| `StealDurability.BarrierNeverExceedsDurable` | `internal/engine/checkpoint.go:76-109` | over every interleaving of a stealing run with any number of checkpointers, whatever the device holds at the start, and after a power loss anywhere, a row a checkpointer stored, for an initial slot or a tail, counts only bytes of the slot's durable prefix |
| `RunEnds.StealingRound` | `internal/engine/checkpoint.go:85-97` | any idle checkpointer can take any active slot through a round at any time of a run |
| `RunEnds.StealingRead` | `internal/engine/checkpoint.go:85-97` | a checkpointer's row holds the slot's start, the End loaded first and the counter read after it, and the fsync that follows puts all that was written on the device |
| `RunEnds.StaticRound` | `internal/engine/checkpoint.go:85-97` | on the static path a checkpointer's row holds the counter as it was read, and the fsync that follows puts all that was written on the device or fails |
| `RunEnds.PowerGoesAnywhere` | `internal/engine/checkpoint.go:76-84` | the power can go at any time, leaving any mix of written and durable bytes and any stored counters |
| `RunEnds.PowerGoesWhileStealing` | `internal/engine/checkpoint.go:76-84` | the same during a stealing run |
| `RunEnds.StaticEnds` | `internal/engine/download_run.go:160-169` | a static run may end without the gate, its fsync and its save each succeeding or not |
| `RunEnds.StaticFinish` | `internal/engine/download_run.go:171-195` | past the gate the part file is synced, and then renamed, removed or left |
| `StealDurability.CutRowIsBackedExactly` | `internal/engine/download_run.go:518-520` | a row a steal persists claims only fetched bytes, and every power loss leaves it backed if and only if the device already has them |
| `StealWitness.DonorRowOutlivesItsBytes` | `internal/engine/download_run.go:518-520` | a concrete run, steal and power loss that leave the donor's row ahead of the device |
| `Durability.StoredNeverExceedsDurable` | `internal/engine/checkpoint.go:76-109` | on the static path, over any number of runs, kills, power losses and files put in place, no stored counter exceeds its segment's durable prefix unless it is stale |
| `Durability.PowerLossIsExact` | `internal/engine/download_run.go:160-192` | losing power anywhere, between the rename and the final save included: every file put in place is byte-exact on the device as long as terminal fsyncs succeed and no run resumes on a stale counter |
| `Durability.WholeRunsNoDebt` | `internal/engine/download_run.go:282-330` | there are no stale counters as long as every resume finds a part file |
| `Durability.FailedTerminalSync` | `internal/engine/download_run.go:162-169` | after a failed terminal fsync the saved counters survive every power loss if and only if no fetched byte was still dirty |
| `DurabilityWitness.LostClaimFinishes` | `internal/engine/download_run.go:162-169` | a concrete history from a fresh download in which such a failure and a power loss end in a finished file with the wrong byte |
| `DurabilityWitness.PowerLossAfterRename` | `internal/engine/download_run.go:187-192` | a concrete history, every fsync succeeding, in which a power loss after the rename and another one put a zero byte over the good file |
| `Durability.StoredComesBack` | `internal/engine/download_run.go:306-328` | reconciling a fixed layout gives back every counter as stored, or zero when the part file is missing |
| `Checkpoint.LoadAfterUpdate` | `internal/store/sqlite/segments.go:11-44` | loading after an upsert gives the slice loaded before with that one segment in its place by index |
| `Checkpoint.Store.ReplaceSegments` | `internal/store/sqlite/segments.go:46-61` | the whole set is swapped, dropped rows included, or nothing changes |
| `Checkpoint.SaveThenLoad` | `internal/store/sqlite/segments.go:25-74` | saving a densely numbered slice and loading it in index order is the identity |
| `Checkpoint.Progress.constructor` | `internal/engine/progress.go:57-66` | the counters are seeded from the segments, with zeroed room up to the ceiling |
| `Checkpoint.Progress.Total` | `internal/engine/progress.go:68-77` | the sum of all slots |
| `Checkpoint.Progress.SnapshotInto` | `internal/engine/progress.go:97-108` | live counters replace the stored ones index for index, shapes untouched, and the result is their sum |
| `Checkpoint.Checkpointer.Tick` | `internal/engine/checkpoint.go:85-97` | while workers flush and thieves cut and activate slots in between: after a failed fsync nothing is offered to the store; after one that succeeds every slot active at the start is, with an End it has had and a counter read during the call and within its durable prefix; what the store took is there, no other row changes, and the round is done if and only if nothing failed |
| `Checkpoint.Checkpointer.FlushFinal` | `internal/engine/checkpoint.go:103-109` | the same for one segment: one fsync, then one offer, other rows untouched |
| `Planner.PlanSegments` | `internal/engine/plan.go:19-48` | pieces tile the file in order, within the requested count and fewer only when one more would not leave each 1 MiB, each at least 1 MiB when there are two or more, equal but for a remainder smaller than the piece count |
| `ManagerFacts.StepKeepsInv` | `internal/engine/manager.go:625-834` | every atomic operation of a worker or an API call keeps the Manager's invariant: registered workers own their cancel entries one for one, and no job the operator stopped keeps a live context |
| `ManagerFacts.SingleFlight` | `internal/engine/manager.go:688-704` | in every history two workers are never inside the engine for the same download |
| `ManagerFacts.BoundedConcurrency` | `internal/engine/manager.go:621-642` | at most as many downloads are in the engine as the pool has workers |
| `ManagerFacts.SettlingClearsOwnEntry` | `internal/engine/manager.go:756-768` | a settling worker removes only the cancel entry it registered |
| `ManagerFacts.StopIsHonoured` | `internal/engine/manager.go:391-418` | a stop that took the lock stands until the job settles or the stop is withdrawn: a running job's own context is cancelled, a registering worker skips the transfer, and the settling worker stores the operator's status |
| `ManagerFacts.SkipSettles` | `internal/engine/manager.go:707-713` | a worker that skipped settles with a stop even if the intent has been cleared since |
| `ManagerLaws.ClassifyStores` | `internal/engine/manager.go:819-835` | a stop seen is stored; without one a success and an error outside a shutdown leave the record as the engine left it, and an error in a shutdown puts it back to queued |
| `ManagerLaws.FinishTakesAll` | `internal/engine/manager.go:756-816` | the intent recorded during the job goes before the one it started with, a Delete before a Restart, both before classifying, and all entries of the job are gone |
| `ManagerLaws.LoadTakesUnfinished` | `internal/engine/manager.go:671-677` | a worker goes on with a dequeued download exactly if its record loads and is not completed |
| `ManagerLaws.RegisterDecides` | `internal/engine/manager.go:680-713` | a closed Manager and an owned job drop it, a recorded stop skips the transfer, everything else goes to the engine under a context never used before |
| `ManagerLaws.CompletedStays` | `internal/engine/manager.go:675-677` | in every history a download the engine recorded as completed, left alone by the operator, is still completed after its worker settles and ever after, a second pending entry included |
| `ManagerLaws.CallsAccepted` | `internal/engine/manager.go:391-453` | which calls are accepted: a Submit of a new download, the others of a known one, a Resume only from a settled status |
| `ManagerLaws.StoreMayRefuse` | `internal/engine/manager.go:391-453` | a call whose store access is refused ends with nothing else done |
| `ManagerLaws.SubmitQueues` | `internal/engine/manager.go:210-251` | a Submit ends with a new queued record, pending unless the Manager is closed |
| `ManagerLaws.ResumeQueues` | `internal/engine/manager.go:431-453` | an uninterrupted Resume ends with the stop forgotten, the record queued, and the download pending unless the Manager is closed |
| `ManagerLaws.RestartRequeues` | `internal/engine/manager.go:510-545` | a Restart of an idle download ends with it queued, without a stop, and pending |
| `ManagerLaws.DeleteRemoves` | `internal/engine/manager.go:347-382` | a Delete of an idle download ends with no record of it |
| `ManagerLaws.HandedToWorker` | `internal/engine/manager.go:352-371` | a Restart or Delete of a running download cancels its context and leaves the rest to its worker |
| `ManagerLaws.SettleCarriesOut` | `internal/engine/manager.go:774-813` | that worker removes the record, or leaves it queued, without a stop, and pending |
| `ManagerLaws.StopStops` | `internal/engine/manager.go:391-418` | a stop ends with itself recorded and either the running job's context cancelled or the status stored |
| `ManagerLaws.ShutdownIsForGood` | `internal/engine/manager.go:594-642` | the Manager can be shut down at any time; from then on, in every history, nothing is enqueued and no worker takes up anything |
| `ManagerTickets.StoppedStaysStopped` | `internal/engine/manager.go:391-418` | in every history a stop that finds at most one entry or worker for the download lasts, its job settling included, until something enqueues it or withdraws the stop: no worker is in the engine for it with a live context |
| `ManagerTickets.StopLastsExactly` | `internal/engine/manager.go:756-768` | for a download that is running, or that a free worker or one already on it could run, a stop lasts over every such continuation if and only if the download has at most one ticket |
| `ManagerWitness.PauseDoesNotLast` | `internal/engine/manager.go:181-234` | a concrete history in which a Submit races recovery, the download is paused, settles and then runs |
| `ManagerWitness.SecondPauseDoesNotLast` | `internal/engine/manager.go:431-453` | the same when the second entry comes from a Resume accepted while the paused run settles |
| `ManagerResume.ResumeIsKept` | `internal/engine/manager.go:431-453` | an accepted Resume that finds no job of the download skipped or in the engine, and no call that holds or takes it as completed, keeps it pending or on its way until it enters the engine, unless stopped, deleted, shut down or failed by the store |
| `ManagerResume.ResumeIsKeptExactly` | `internal/engine/manager.go:670-695` | with a worker idle and a call free, a Resume is never lost if and only if it finds no such job, no such call, and the download not completed |
| `ManagerResume.StoreFailureLoses` | `internal/engine/manager.go:670-725` | when the only worker on its way with a download fails to load or to activate it, then over every continuation that does not enqueue it again nothing is pending for it and no worker comes with it |
| `ManagerWitness.ResumeLostToStore` | `internal/engine/manager.go:719-725` | a concrete history in which the refused active marker loses an accepted Resume |
| `ManagerWitness.ResumeLostToEdit` | `internal/engine/manager.go:550-559` | a concrete history in which a changed setting saves an old status back and loses an accepted Resume |
| `ManagerWitness.DroppedExactlyForOwner` | `internal/engine/manager.go:681-695` | a dequeued job is dropped at registration if and only if the Manager is closed or a worker is still registered for it |
| `ManagerWitness.ResumeCanBeLost` | `internal/engine/manager.go:431-453` | a concrete history in which an accepted Resume leaves the download recorded as queued with nothing to dequeue it |
| `ManagerJobs.Jobs.Run` | `internal/engine/manager.go:670-734` | a dequeued job, whatever the store, the engine and the other goroutines do between its operations, follows a history of the machine and leaves the worker idle; no step of it in that history is a refusal unless the store refused something |
| `ManagerJobs.Jobs.FinishJob` | `internal/engine/manager.go:756-834` | so does settling, from taking the entries out to the forced status or the pending Delete or Restart, each carried out unless the store refuses it |
| `ManagerJobs.Jobs.SettleStatus` | `internal/engine/manager.go:819-880` | the override is tried three times; without a stop or a shutdown error the store is not touched |
| `ManagerJobs.Jobs.StopJob` | `internal/engine/manager.go:391-418` | so does a Pause or Cancel, which succeeds if and only if the record is there and the store refuses nothing, and then ends in the cancelled context or the saved status |
| `ManagerJobs.Jobs.ResumeJob` | `internal/engine/manager.go:431-453` | so does a Resume, which accepts exactly the paused, canceled, failed and completed records, leaves the download pending when it succeeds, and fails otherwise only on the store or on shutdown |
| `ManagerJobs.Jobs.EditJob` | `internal/engine/manager.go:577-586` | so does a changed setting, which succeeds if and only if the record is there and the store refuses nothing, and leaves it with the status it had been loaded with |
| `PendingQueue.QueueInOrder` | `internal/engine/manager.go:644-648` | the queue a slice stands for holds its items, none lost or doubled; along it priorities never rise, and arrival numbers rise among equals |
| `PendingQueue.OrderIsUnique` | `internal/engine/manager.go:649-656` | dispatch order determines the list, so the slice's own order never shows |
| `PendingQueue.RemoveFront` | `internal/engine/manager.go:657-662` | swap-with-last removal of the front item takes the head off the queue |
| `PendingQueue.Reprioritized` | `internal/engine/manager.go:561-568` | changing one priority moves that item alone, to its arrival rank among its new equals |
| `PendingQueue.Pending.Enqueue` | `internal/engine/manager.go:241-251` | a newcomer waits behind every item of its priority; a closed Manager takes none |
| `PendingQueue.Pending.PopHighest` | `internal/engine/manager.go:649-663` | the id removed is that of the one item that every other has a lower priority than, or an equal one and a later arrival; it is the head of the queue, and nothing else goes |
| `PendingQueue.Pending.SetPriority` | `internal/engine/manager.go:561-568` | the first entry of the download, and no other, is reordered in place |
| `RateLimiter.WindowBound` | `internal/engine/ratelimit.go:87-106` | over any stretch of any interleaving of callers, the bytes admitted in t2 - t1 nanoseconds are at most burst + rate * (t2 - t1) / 10^9 |
| `RateLimiter.Earns` | `internal/engine/ratelimit.go:88-95` | tokens are earned at a billionth of the rate each nanosecond, up to the capacity, and never by a clock that stands still or runs back |
| `RateLimiter.TakesWhatItNeeds` | `internal/engine/ratelimit.go:79-99` | an attempt is let through exactly if the bucket then holds what it needs, and takes that, all or nothing |
| `RateLimiter.AdmittedAdds` | `internal/engine/ratelimit.go:87-99` | the admitted total of a history is that of its parts, all or none of each attempt's bytes |
| `RateLimiter.TokensStayInRange` | `internal/engine/ratelimit.go:48-55` | tokens stay between 0 and burst |
| `RateLimiter.RateBurst` | `internal/engine/ratelimit.go:118-133` | the burst is what was configured, or else a tenth of the rate, but never less than two buffers |
| `RateLimiter.Limiter.TryTake` | `internal/engine/ratelimit.go:88-106` | the locked section refills by the elapsed nanoseconds, up to the capacity, and then consumes all or nothing |
| `RateLimiter.Limiter.WaitN` | `internal/engine/ratelimit.go:79-116` | a lone caller is admitted, unless cancelled, after at most two sleeps and pays exactly its need; a cancelled one pays nothing |
| `RateLimiter.Limiter.SleepOff` | `internal/engine/ratelimit.go:107-113` | each sleep is the whole nanoseconds in which the deficit accrues, or a microsecond if there are none |
| `RateLimiter.WaitIsEnough` | `internal/engine/ratelimit.go:107-111` | the wait, truncated to nanoseconds, leaves less than a nanosecond's worth, and the fixed sleep covers what truncates to nothing |

## Left out

- Durability.PowerLossIsExact: exactness after power loss is stated for the static path, and when every terminal fsync succeeds. A stealing run persists donor and tail rows without an fsync, so after a power loss its rows need not be backed; which are is in `StealDurability`, and its exactness is proved for process kill, where written bytes survive.
- CrashResume.KilledDownloadIsExact: only bytes [0, TotalSize) are compared; a stale longer part file is not shrunk where preallocation is fallocate (`internal/engine/alloc_linux.go:21`). Replanning after changed validators is not modelled.
- CrashResume.ResumedDownloadIsExact: an outside truncation happens between two runs. A Restart or Delete removes the part file and resets the record while no run of the download is in progress, though one that found no worker can race one that starts (`internal/engine/manager.go:482-492`); the record without segments that a Restart leaves is taken with the plan of the run that follows, so no request holds a copy of it. Two records with one destination, and so with one part file, are not modelled.
- Streaming.RunSegment: the method form covers the static path, where Ends do not move. The retry loop against a coordinator, with its free retries, is in the state machine of `Protocol`, because its termination depends on what all the other workers do.
- RateLimiter.Limiter.WaitN: the bound on sleeps is for a lone caller; with others about, fairness is not promised by the source either. Rounding of floating-point tokens is not modelled, nor a live swap of the bucket by a settings change.
- ManagerFacts.StopIsHonoured: the promise ends when the job settles once, when the stop is replaced by another, or when a Resume or Restart withdraws it; what happens after the job settles is in `ManagerTickets`. If the store refuses every attempt to save the status, that is only logged.
- ManagerFacts.BoundedConcurrency: the pool is a sequence of fixed length, so this says that only pool workers enter the engine; the loop in Start that spawns them is not modelled.
- ManagerResume.ResumeIsKept: says that the download stays on its way, not that it gets there; the pool may be busy for ever.
- ManagerFacts.StepKeepsInv: any pending id may be popped, which contains the priority order proved in `PendingQueue`; the release of Delete and Restart callers is not modelled, since two concurrent requests for one id overwrite each other's channel (`internal/engine/manager.go:355-358`, `internal/engine/manager.go:485-488`); errors of the engine raised before it persists a failed status are not told apart.
- StealCoord.Coordinator.TrySteal: the tentative window, the activation and one donor's attempt are methods of their own here and inline in the source.
- HTTP, probing, redirects, proxies, authentication, retry delays and stall timers: a request is a nondeterministic prefix, an attempt may be aborted anywhere.
- SQL, migrations and credential sealing: the store is a map with an atomic upsert and an atomic replacement.
- Computing the checksum and syncing the directory: the first may come out either way, and the second is taken with the rename; after a power loss a renamed or removed part file may be back in `Durability` until the record is saved.
- Integer width: offsets and counters are unbounded; the source's are 64-bit and file sizes stay far below.
- Weak memory: atomics are taken as sequentially consistent, as Go's are.
- Rate sampling, live-progress folding, ETA, settings, naming of files, the daemon's sockets, the command line, the desktop application and the browser extension: no harder property depends on them.
