# btrfs-backup: a verified model

Dafny models of the parts of btrfs-backup that must not go wrong, and proofs about them:

- **Snapshot planning and crash recovery.** Per source a run plans recovery, snapshot, transfer, verification, commit
  and retention from two inventories and a pending marker. The world model takes the effects of the action handlers one
  at a time and lets a run stop between any two of them, or inside one. `History.ChainSurvives` says that the
  incremental chain of the source's own subvolume survives any number of such runs,
  `NextPlan.LaterPlansAreIncremental` what the next run then sends from, `Progress.EveryHistoryGoesOnIff` when there is a
  next run that can be carried through, and `LastCommit.ForwardPlansSendFromLastCommit` what a clock that moves forward is
  enough for. `PlannedActions` says of every action of a plan whose paths it names.
- **Transactional restore.** The forward path and the rollback over a file tree, with every operation free to fail.
  `RestoreProperties` says for every schedule of faults when a restore succeeds, what an error means and what is never lost.
- **Run execution.** The executor, the run context, preflight and the service, with an event sink, a checkpoint store
  and other ports that may throw anything. All they do is kept as one sequence of notes; `RunLog.Step` is the protocol
  the notes must follow, and `RunProtocol` says what a kept protocol means for the notes themselves.
- **Device preparation.** The plan builders, the safety inspector and the marker for configured targets.
  `PreparationEffect.ErasedIffReached` ties what a plan shows to what its operations do.
- **Algorithms.** SHA-256 and the profile fingerprint, UTC timestamps and snapshot names, the usage percentage.

`dafny verify dfyconfig.toml` checks the whole project.

## Reading the model

Loops of the source are loops here and are proved against a relation or a function that does not mention them
(`IsSelection`, `IsRetention`, `IsFirstFree`, `Hash`, `Report`). The main theorems then quantify over everything that
satisfies the relation, so they hold of the loops. A few proofs carry their facts in subset types (`SourceRunPlan`,
`RunHistory`, `Ending`, `Book`): a value of such a type is a plan, a history, an ending or a log that meets its contract.

The theorems rest on these assumptions about the world, which the code does not establish:

- Deleting or creating one subvolume or marker is atomic, metadata reads are truthful, and hooks leave the snapshot
  directories alone.
- A new snapshot has a UUID that no earlier one had.
- Retention spares the snapshot that its own run creates. A clock that has moved on since the second of the latest run is
  enough for that (`History.ForwardClockSparesNew`), and any number of runs may share a second. The exact condition is in
  the list below. Where every run is planned in a later second, nothing else is assumed (`LastCommit.ForwardHistory`).
- No two listed snapshots tie in time, sequence and path, where a statement says exactly which ones retention deletes.
- Snapshot directories are absolute and normal up to a trailing separator. Sources use disjoint directories, so one source
  is followed at a time.
- Restore uses three different paths for staging, previous and destination.
- Device ids, device numbers, partition numbers and region ids of a topology are distinct where a statement says so.
- A LUKS format that names no partition, and every later step, works on the partition the plan has just created
  (`PreparationEffect.Reaches`).

Where a promise fails of the code as it is, the code is modelled as it is, the exact condition is proved, and a lemma gives
an input or a reachable state in which it fails:

- Timestamps of the first, partial day of the 64-bit nanosecond range overflow when parsed (`RuntimeTime.RoundTrip`,
  `RuntimeTime.EarliestTimePointOverflows`).
- A restore that fails has left everything as it was, or says that the rollback is incomplete, exactly unless the faults
  hide a trace: a half-made root, a half-removed original, or a rollback stopped by an error that has an empty message or
  is no standard exception (`RestoreProperties.AllOrNothingIff`, `RestoreProperties.UnreportedErrorHidesLoss`).
- A half-done removal of the previous version can lose both versions (`RestoreProperties.NeverLosesBothIff`,
  `RestoreProperties.HalfRemovedOriginalLosesBoth`).
- The next transfer starts from the last commit exactly when no name of a higher rank that was committed earlier is still
  present on both sides (`NextPlan.CommittedPlanIsIncremental`). Three runs in one second, keeping one snapshot each, can
  break that: the third takes the name of the first again (`SameSecond.LastCommitCanBePassedOver`). If every run takes a
  name of a higher rank, as in a later second, the last commit is always chosen
  (`LastCommit.LaterPlansSendFromLastCommit`, `LastCommit.ForwardPlansSendFromLastCommit`).
- Planning looks for a free name on the local side only. A plan can be carried through exactly when the target does not
  hold the name (`Completion.RunCompletesIff`). A source that keeps one snapshot here and all there is blocked by its third
  run in one second (`FailingStates.RunCanBeBlocked`).
- A run that is carried through leaves its snapshot on both sides exactly when its own retention spares it
  (`Completion.KeepsItIff`), that is, when fewer newer ones are listed than there are to keep (`RunPlan.SparesNewIff`). With
  a clock set back, a source that keeps one snapshot drops the one it has just committed
  (`FailingStates.ClockCanBreakChain`).
- A run has a plan that can be carried through, in a later second, exactly unless the source is stranded: nothing is
  committed, a parent is required, and the target holds a copy that was never checked (`Progress.GoesOnIff`). The first run
  of every accepted source can leave such a state, and no run ever follows it, because the recovery that would delete the copy is
  part of the plan that is refused (`FailingStates.SourceCanBeStranded`).
- A snapshot directory written with a trailing separator makes a source reject its own marker
  (`History.OwnMarkerIsValidIff`, `History.TrailingSeparatorRejects`), and a marker path that is not normal lets retention name a snapshot that recovery has
  deleted (`RunPlan.RetentionNamesRecoveredIff`, `FailingStates.RecoveredCanBeNamedAgain`).
- A partition that shares the id of a later free region is split in its place (`Preparation.FindsSelectedIff`,
  `Preparation.SharedIdSplitsPartition`).

Exceptions are values: `Err` for errors that the caller is told of, and four kinds (cancellation, the program's own
errors, other standard exceptions, foreign ones) where handlers distinguish them. Sizes and sectors are 64-bit numbers
whose operations are proved not to overflow. The 32-bit words of SHA-256 are numbers below 2^32 with the bit operations
written out.

## Model

| member | source | states |
|---|---|---|
| `RuntimeTime.Decimal` | src/core/RuntimeTime.cpp:16-25 | The digit loop returns the number a string of digits denotes, and nothing for any other string. |
| `RuntimeTime.FormatUtcTimestamp` | src/core/RuntimeTime.cpp:27-47 | Prints the one calendar date and clock time of the second the time point lies in, in the compact or the extended form. |
| `RuntimeTime.ClockAndDate` | src/core/RuntimeTime.cpp:28-31 | The date and clock fields are valid and count back to the floored second. |
| `RuntimeTime.DatesAscend` | src/core/RuntimeTime.cpp:30 | Day numbers follow the proleptic Gregorian order, so no two dates share one. |
| `RuntimeTime.EpochIsDay` | src/core/RuntimeTime.cpp:29 | Day numbers count from the epoch of the source, 1970-01-01. |
| `RuntimeTime.MonthsBegin` | src/core/RuntimeTime.cpp:30 | The day of the year on which every month begins, in common and in leap years. |
| `RuntimeTime.DayNumberDeterminesDate` | src/core/RuntimeTime.cpp:30 | A day number belongs to one date. |
| `RuntimeTime.RoundTrip` | src/core/RuntimeTime.cpp:88-118 | Parsing either printed form gives the time point floored to the second if and only if midnight of that day is representable in 64-bit nanoseconds; otherwise the sum overflows. |
| `RuntimeTime.EarliestTimePointOverflows` | src/core/RuntimeTime.cpp:113-117 | The concrete failing input of the round trip: the earliest time point. |
| `RuntimeTime.PrintedFormIsUnique` | src/core/RuntimeTime.cpp:88-118 | Printing what was parsed gives the text back: one text per second and form. |
| `RuntimeTime.TextOrderIsTimeOrder` | src/core/RuntimeTime.cpp:27-47 | Texts of one form compare, byte by byte, as the seconds they denote. |
| `Snapshots.OlderIsTotal` | src/backup/model/RetentionPlan.cpp:16-24 | The retention order ranks any two snapshots that differ in time, sequence or path. |
| `Snapshots.NameParsesBack` | src/backup/model/SnapshotInventory.cpp:73-108 | An allocated name parses back to its source, second and sequence, if and only if the day is representable. |
| `Snapshots.ParsedNameIsAllocated` | src/backup/model/SnapshotInventory.cpp:73-108 | Conversely, a name that parses is the one allocated for what it parses to. |
| `Snapshots.NameHasOneSource` | src/backup/model/SnapshotInventory.cpp:73-108 | No name parses for two source ids, whatever dashes or timestamps the ids contain. |
| `Snapshots.SequenceDistinguishesNames` | src/backup/model/BackupRunPlan.cpp:70-77 | The names of one second differ. |
| `Snapshots.NameExists` | src/backup/model/BackupRunPlan.cpp:49-56 | The search loop decides whether a local snapshot has the name. |
| `Snapshots.PlannedSnapshotName` | src/backup/model/BackupRunPlan.cpp:58-80 | The first of the 100 names that no local snapshot has; it fails only when all are taken. |
| `IncrementalParent.SelectIncrementalParent` | src/backup/model/IncrementalParent.cpp:42-100 | Ambiguity if and only if two eligible remotes at different paths share a received UUID; otherwise the newest matching pair; without a pair Full, or an error when a parent is required and remotes exist. |
| `IncrementalParent.IndexRemotes` | src/backup/model/IncrementalParent.cpp:50-71 | The index holds one entry for each received UUID of the eligible remotes, or reports an ambiguous one. |
| `IncrementalParent.FirstPair` | src/backup/model/IncrementalParent.cpp:85-93 | The first match in newest-first order is the newest pair of all. |
| `IncrementalParent.SelectionIgnoresOrder` | src/backup/model/IncrementalParent.cpp:42-100 | Inventories with the same contents in another order give the same selection. |
| `Retention.PlanCountRetention` | src/backup/model/RetentionPlan.cpp:30-59 | Keep and delete partition the snapshots of the source; the newest min(n, count) are kept, all when the count is zero. |
| `Retention.KeptIsNotOlder` | src/backup/model/RetentionPlan.cpp:30-59 | No kept snapshot is older than a deleted one. |
| `Retention.NewestIsKept` | src/backup/model/RetentionPlan.cpp:30-59 | The one snapshot newer than all others survives, whatever the count. |
| `Retention.DeletedIff` | src/backup/model/RetentionPlan.cpp:30-59 | A snapshot is deleted if and only if the count is not zero and at least that many newer ones of the source are listed. |
| `PendingRecovery.RemoteContainsReceivedUuid` | src/backup/model/PendingRecovery.cpp:19-30 | Whether the target holds a copy of the pending snapshot anywhere. |
| `PendingRecovery.RemoteSnapshotAtPath` | src/backup/model/PendingRecovery.cpp:61-72 | The first remote snapshot at the normal form of a path. |
| `PendingRecovery.BuildPendingRecovery` | src/backup/model/PendingRecovery.cpp:78-137 | The verdict and the effects for every combination of marker, pending snapshot and target contents; deletions precede clearing the marker. |
| `PendingRecovery.RecoveryKeepsLocalParent` | src/backup/model/BackupRunPlan.cpp:286-302 | Recovery never deletes the local half of the pair the same plan sends from. |
| `PendingRecovery.RecoveryDeletesRemoteParentIff` | src/backup/model/PendingRecovery.cpp:113-136 | It deletes the remote half exactly when the marker is recoverable, pending on another snapshot, and names that path. |
| `History.OwnMarkerIsValidIff` | src/backup/model/PendingRecovery.cpp:32-59 | A source recognises the marker it wrote itself if and only if neither snapshot directory is written with a trailing separator. |
| `History.TrailingSeparatorRejects` | src/backup/model/PendingRecovery.cpp:32-59 | A concrete directory with a trailing separator, for which every marker the source writes is rejected. |
| `RunPlan.OrderSourceActions` | src/backup/model/BackupRunPlan.cpp:217-276 | The action list of a source, from recovery to cleanup, in its order, and of every action in it: the source's subvolume is taken into its own snapshot directory, sent from the chosen parent through the run's incoming directory to the source's place on the target, expired by the two retention plans, and recovered and cleaned up where this run and its marker are. |
| `PlannedActions.EveryActionServes` | src/backup/model/BackupRunPlan.cpp:217-276 | Every action of every plan names this source's own subvolume, directories, run and marker, and the snapshot that the run creates. |
| `PlannedActions.OneMarkerFile` | src/backup/model/BackupRunPlan.cpp:240-276 | The marker that cleanup removes is the file that the snapshot action writes and that recovery reads. |
| `PlannedActions.PlanIsComplete` | src/backup/model/BackupRunPlan.cpp:217-276 | Every plan creates, sends, verifies, commits, expires on both sides and cleans up, each exactly once; it recovers exactly once if there is something to recover, and runs every hook. |
| `PlannedActions.PlansStayInPlace` | src/backup/model/BackupRunPlan.cpp:154-175 | A plan stays below the two roots on the target and takes no snapshot onto the target itself; a source is refused for the first of the three reasons that applies, and only then. |
| `PlannedActions.ParentIsNewestPair` | src/backup/model/BackupRunPlan.cpp:286-292 | A plan sends from the newest local snapshot of which the target holds a copy, and sends everything if and only if there is none; where a parent is required, only to a target without a snapshot of the source. |
| `PlannedActions.RecoveryDeletesOwn` | src/backup/model/PendingRecovery.cpp:32-137 | Recovery deletes only what the source's own marker names inside the source's own directories: the pending snapshot if it may be dropped and the target has no copy of it, and a snapshot at the marker's place on the target that is not that copy. |
| `PlannedActions.ProjectionsAreWhatWillBe` | src/backup/model/BackupRunPlan.cpp:188-215 | Retention is planned on what will be there: the listed snapshots but for the one that recovery deletes, and the new one with its name, path, time and sequence, on either side. |
| `PlannedActions.RecoverySparesLocal` | src/backup/model/PendingRecovery.cpp:113-137 | A pending snapshot that is to be kept, or that the target holds, is not deleted. |
| `RunPlan.OrderedActionsAreValid` | src/backup/model/BackupRunPlan.cpp:217-276 | The actions belong to the source and follow one order: recovery, cleanup, snapshot, transfer, verification, commit, both retentions, cleanup. |
| `RunPlan.CheckActions` | src/backup/model/BackupRunPlan.cpp:110-125 | The constructor accepts exactly the lists of the one source without a repeated kind other than hooks. |
| `RunPlan.BuildSourceRunPlan` | src/backup/model/BackupRunPlan.cpp:278-325 | A plan with the first free name, the selected parent, the recovery plan and both retentions over the projected inventories; or the first error that applies: a path, no free name, no parent for the free name, an overflowing day only if both exist. |
| `RunPlan.PlannedNameParses` | src/backup/model/BackupRunPlan.cpp:82-104 | The planned name parses, so projecting it fails only on an overflowing day. |
| `RunPlan.RetentionSparesNewSnapshot` | src/backup/model/BackupRunPlan.cpp:188-215 | If every snapshot found ranks before the one being created, neither retention deletes it, whatever the counts. |
| `RunPlan.SparesNewIff` | src/backup/model/BackupRunPlan.cpp:303-312 | In general both retentions spare it if and only if, on each side, fewer newer ones are listed than there are to keep; also when the target holds the name already. |
| `RunPlan.RetentionDeletesListed` | src/backup/model/BackupRunPlan.cpp:188-215 | Apart from it, retention deletes only what discovery found. |
| `RunPlan.RetentionAvoidsRecovered` | src/backup/model/BackupRunPlan.cpp:188-215 | Retention never names a path recovery deletes, when the marker spells it normally. |
| `RunPlan.RetentionNamesRecoveredIff` | src/backup/model/BackupRunPlan.cpp:188-215 | Either retention of a plan names a snapshot that the recovery of the same plan deletes if and only if the marker does not spell its path in normal form and at least as many newer ones are listed as there are to keep. |
| `RunPlan.BuildBackupRunPlan` | src/backup/model/BackupRunPlan.cpp:329-368 | One plan for each enabled source, in configuration order, with distinct ids; otherwise the error is that of the first source that fails, a duplicate id before its own planning: all earlier ones have plans and distinct ids. |
| `Totality.OutcomeExists` | src/backup/model/BackupRunPlan.cpp:278-325 | Every input has a plan or a failure that the contract of planning admits. |
| `Chain.StepKeeps` | src/backup/execution/actions/SnapshotActionHandler.cpp:64-95 | Every completed effect that a run may perform in its phase keeps the chain invariant. |
| `Chain.FailureKeeps` | src/backup/transfer/SnapshotTransfer.cpp:49-103 | An effect that fails or is cut short keeps it too. |
| `Chain.RunKeeps` | src/backup/model/BackupRunPlan.cpp:217-276 | A run that stops between any two effects, or inside one, keeps it, and adds its own name to the commits or nothing. |
| `History.EverySiteHasALayout` | src/backup/model/BackupRunPlan.cpp:154-186 | The naming and placement functions the chain theorems assume exist for every configuration. |
| `History.RecoverySparesTip` | src/backup/model/PendingRecovery.cpp:78-137 | In every reachable state recovery deletes neither half of the last commit. |
| `History.RecoverySparesFreeName` | src/backup/model/PendingRecovery.cpp:113-136 | Recovery never deletes the target's snapshot of a name that is free locally. |
| `History.PlanFitsState` | src/backup/model/BackupRunPlan.cpp:278-325 | At whatever time it is made, a plan from what discovery found takes a name that is free locally, and its recovery spares the last commit and the target's snapshot of that name; if its retention spares the new snapshot, it leaves both halves alone. |
| `History.ForwardClockSparesNew` | src/backup/model/BackupRunPlan.cpp:303-312 | A clock that has moved on since the second of the latest run is enough for retention to spare the new snapshot. |
| `History.RunPreserves` | src/backup/model/BackupRunPlan.cpp:278-325 | Any run of such a plan, completed or not, keeps the invariant and the commits, adding at most its own; a completed one has committed its snapshot, under a name the target did not hold. |
| `History.UnsparedSnapshotIsGone` | src/backup/model/BackupRunPlan.cpp:266-267 | A completed run whose retention does not spare its snapshot ends without one half of it. |
| `History.ChainSurvives` | src/backup/model/BackupRunPlan.cpp:188-325 | Over any number of runs, any number of them in one second and each stopping anywhere, every state after a commit holds the last committed snapshot on both sides with matching UUIDs, and every snapshot on either side was taken of the source's own subvolume. |
| `NextPlan.SelectsNewestLink` | src/backup/model/IncrementalParent.cpp:42-100 | In such a state the selection is the newest name that is present on both sides, which is a committed one. |
| `NextPlan.SelectsWithoutTip` | src/backup/model/IncrementalParent.cpp:95-99 | Before the first commit it is Full, or an error exactly when a parent is required and the target holds an uncommitted copy. |
| `NextPlan.NextPlanIsExpected` | src/backup/model/BackupRunPlan.cpp:278-325 | At whatever time it is made, the next plan succeeds with that parent or fails with that error, unless a configured path is wrong, the hundred names of the second are taken or the day overflows. |
| `NextPlan.LaterSecondHasName` | src/backup/model/BackupRunPlan.cpp:58-80 | A second later than that of the latest run has a free name. |
| `NextPlan.LastCommitIsNewestIff` | src/backup/model/IncrementalParent.cpp:74-93 | The newest name present on both sides is the last commit if and only if no later-ranked name committed earlier is still present on both sides. |
| `NextPlan.CommittedPlanIsIncremental` | src/backup/model/BackupRunPlan.cpp:278-325 | Once something is committed no plan fails for want of a parent: it sends from the newest name present on both sides, and from the last commit if and only if no later-ranked one is. |
| `NextPlan.LaterPlansAreIncremental` | src/backup/model/BackupRunPlan.cpp:188-325 | The whole promise in one statement: the same after any history of runs with a commit, for whatever planning yields next. |
| `LastCommit.LaterSecondOutranks` | src/backup/model/BackupRunPlan.cpp:58-80 | A run planned in a later second takes a name that ranks after every commit. |
| `LastCommit.LaterPlansSendFromLastCommit` | src/backup/model/BackupRunPlan.cpp:188-325 | After any history of runs whose names rank after the commits before them, every plan sends from the last commit. |
| `LastCommit.ForwardPlansSendFromLastCommit` | src/backup/model/BackupRunPlan.cpp:188-325 | After any history of runs that are each planned in a later second, with nothing else assumed of them or of their plans, every plan sends from the last commit. |
| `Completion.RetentionIsPresent` | src/backup/model/BackupRunPlan.cpp:188-215 | What retention deletes is there when its turn comes, the new snapshot included: each once and none that recovery has deleted. |
| `Completion.ReadyAfterRecovery` | src/backup/model/BackupRunPlan.cpp:278-325 | After recovery the parent is still there and nothing stands in the way of the rest of the plan, if the target does not hold the name. |
| `Completion.RunCompletesIff` | src/backup/transfer/SnapshotTransfer.cpp:77-103 | In any state the runs before can leave, any plan can be carried through to its last effect if and only if the target does not hold the planned name. |
| `Completion.IncomingIsCleared` | src/backup/execution/actions/RepositoryActionHandler.cpp:83-87 | A run that is carried through leaves nothing in its incoming directory. |
| `Completion.KeepsItIff` | src/backup/model/BackupRunPlan.cpp:260-267 | Every run of a plan that is carried through leaves its snapshot on both sides if and only if its retention spares it, or the plan cannot be carried through. |
| `Progress.StrandedHasNoPlan` | src/backup/model/BackupRunPlan.cpp:286-302 | With nothing committed, a parent required and a copy on the target, no input discovered has a plan. |
| `Progress.StrandedForever` | src/backup/model/BackupRunPlan.cpp:286-302 | From such a state no run leads anywhere. |
| `Progress.GoesOnIff` | src/backup/model/BackupRunPlan.cpp:278-325 | In a later second on a representable day, with accepted paths, a plan exists that can be carried through if and only if the source is not stranded. |
| `Progress.EveryHistoryGoesOnIff` | src/backup/model/BackupRunPlan.cpp:278-325 | The same after any number of runs, each stopping anywhere. |
| `FailingStates.SourceCanBeStranded` | src/backup/transfer/SnapshotTransfer.cpp:88-90 | The first run of every accepted source can stop after a commit that lost its received UUID; if a parent is required, no run ever follows. |
| `FailingStates.ClockCanBreakChain` | src/backup/model/BackupRunPlan.cpp:303-312 | A source that keeps one snapshot: after a commit, a plan made in an earlier second can be carried through and ends without one half of the snapshot it committed. |
| `FailingStates.RunCanBeBlocked` | src/backup/model/BackupRunPlan.cpp:58-80 | A source that keeps one snapshot here and all there: after two runs in one second the third has a plan, and no plan of it can be carried through. |
| `FailingStates.RecoveredCanBeNamedAgain` | src/backup/model/BackupRunPlan.cpp:205-209 | A pending snapshot found through a path with a needless component: recovery deletes it and retention of the same plan names it again. |
| `FailingStates.ExampleSeconds` | src/backup/model/BackupRunPlan.cpp:278-325 | A concrete configuration, seconds and names for three of these. |
| `FailingStates.ExampleUnevenScene` | src/backup/model/BackupRunPlan.cpp:58-80 | And for the blocked run. |
| `SameSecond.LastCommitCanBePassedOver` | src/backup/model/BackupRunPlan.cpp:58-80 | Whatever the source, if it keeps one snapshot on each side, three runs in one second can leave a state with commits A, B, A in which B is still present on both sides. |
| `SameSecond.PlanPassesOver` | src/backup/model/IncrementalParent.cpp:74-93 | In such a state no plan sends from the last commit. |
| `SameSecond.CommittedHistoryExists` | src/backup/model/BackupRunPlan.cpp:278-325 | Every source whose directories and paths are accepted has a history with a commit, in any representable second. |
| `SameSecond.ExampleScene` | src/backup/model/BackupRunPlan.cpp:58-80 | A concrete configuration and second for the three runs. |
| `RecoveryConvergence.CompletedRecovery` | src/backup/model/PendingRecovery.cpp:78-137 | The planned effects lead to one end state, in whatever order the target was listed. |
| `RecoveryConvergence.InterruptedRecovery` | src/backup/model/PendingRecovery.cpp:78-137 | After any prefix of the effects the end state is still the same. |
| `RecoveryConvergence.RecoveryConverges` | src/backup/model/PendingRecovery.cpp:78-137 | Any number of interrupted attempts and one completed one end where a single one would have; the marker is cleared and a further plan has no effects. |
| `Restore.RestoreExecutor.constructor` | src/restore/RestoreEngine.cpp:24-25 | The executor starts from the given file tree. |
| `Restore.RestoreExecutor.Perform` | src/restore/RestoreEngine.cpp:44-73 | One operation: the tree afterwards is recorded and the exception handed on. |
| `Restore.RestoreExecutor.Attempt` | src/restore/RestoreEngine.cpp:38-75 | The forward path with its three flags. |
| `Restore.RestoreExecutor.Undo` | src/restore/RestoreEngine.cpp:76-91 | The rollback, in its order, guarded by the three flags and by what exists. |
| `Restore.RestoreExecutor.Execute` | src/restore/RestoreEngine.cpp:27-97 | The whole transaction: tree, every intermediate tree, and result or exception, as `RestoreProperties` describes them without the code. |
| `RestoreProperties.ForwardEnds` | src/restore/RestoreEngine.cpp:38-75 | What the tree can look like when the forward path stops, flag by flag. |
| `RestoreProperties.ForwardFails` | src/restore/RestoreEngine.cpp:38-75 | The forward path fails with the first exception of its calls, and its flags tell how far it got. |
| `RestoreProperties.SucceedsIff` | src/restore/RestoreEngine.cpp:27-75 | A restore succeeds if and only if it is not cancelled, both probes return and find no artifact, and every call on its way returns, a destination in the way being one that may be replaced. One that does not begin changes nothing and reports the cancellation, the exception of the probe, or the artifacts, whichever comes first. |
| `RestoreProperties.FailureIsReported` | src/restore/RestoreEngine.cpp:76-97 | A restore that fails reports its own failure, the exception of its rollback, or that the rollback is incomplete, for exactly the rollbacks that call for it. |
| `RestoreProperties.SparesEverythingElse` | src/restore/RestoreEngine.cpp:27-97 | No intermediate state differs from the first outside the destination and the two artifacts, and for a drill outside the staging path. |
| `RestoreProperties.AllOrNothingIff` | src/restore/RestoreEngine.cpp:27-97 | For every schedule of faults: success leaves the verified copy and no artifacts, and a drill leaves everything as it was. Every exception other than RollbackIncomplete leaves everything as it was if and only if the faults hide no trace: which calls are reached, what the rollback then leaves, and whether its first exception is told. |
| `RestoreProperties.AllOrNothing` | src/restore/RestoreEngine.cpp:27-97 | In particular when the two operations that no rollback can mend never stop half way and every rollback error is a standard exception with a message. |
| `RestoreProperties.UnreportedErrorHidesLoss` | src/restore/RestoreEngine.cpp:89-95 | A concrete failing schedule for every replacement: a rollback error with an empty message, or one that is no standard exception, loses the original without RollbackIncomplete. |
| `RestoreProperties.NeverLosesBothIff` | src/restore/RestoreEngine.cpp:62-96 | In every intermediate state the original is whole at the destination or aside, or the verified copy is whole at the destination: if and only if removing the previous version does not fail half way before a rollback removes the new one. |
| `RestoreProperties.HalfRemovedOriginalLosesBoth` | src/restore/RestoreEngine.cpp:72-85 | A concrete failing schedule for every replacement of a whole destination: the removal stops half way, and a rollback without any error passes through a state without either version. |
| `Words.RotrIsRotation` | src/config/ProfileFingerprint.cpp:85-87 | Shifting and or-ing moves the low bits to the high end and loses none. |
| `Words.BitsStay` | src/config/ProfileFingerprint.cpp:85-91 | Bitwise operations on 32-bit words stay 32-bit words. |
| `Sha256.PadMessage` | src/config/ProfileFingerprint.cpp:113-120 | The padding loop appends the 0x80 byte, the fewest zero bytes and the size in bits, as section 5.1.1 of FIPS 180-4 has it. |
| `Sha256.PaddingIsInjective` | src/config/ProfileFingerprint.cpp:113-120 | No two messages below 2^61 bytes pad to the same blocks; a padded length is a multiple of 64. |
| `Sha256.StoreDigits` | src/config/ProfileFingerprint.cpp:93-104 | Both digit loops write the digits of a number to a base, most significant first. |
| `Sha256.BytesJoin` | src/config/ProfileFingerprint.cpp:89-91 | Shifting and or-ing four bytes gives their big-endian value. |
| `Sha256.MessageSchedule` | src/config/ProfileFingerprint.cpp:134-142 | The in-place schedule is that of section 6.2.2, although the source adds the terms in another order. |
| `Sha256.FipsAddsInAnyOrder` | src/config/ProfileFingerprint.cpp:139-141 | Addition modulo 2^32 makes the two orders agree. |
| `Sha256.CompressBlock` | src/config/ProfileFingerprint.cpp:144-169 | The register loop computes the 64 rounds. |
| `Sha256.HashPadded` | src/config/ProfileFingerprint.cpp:133-179 | The block loop computes the hash value of the padded message. |
| `Sha256.Sha256Bytes` | src/config/ProfileFingerprint.cpp:113-187 | The program computes the SHA-256 digest of every input below 2^61 bytes. |
| `Sha256.DigestDeterminesWords` | src/config/ProfileFingerprint.cpp:181-186 | The printed digest shows the whole hash value. |
| `Sha256.SumsAddEach` | src/config/ProfileFingerprint.cpp:171-178 | After a block every register is added to its own, modulo 2^32. |
| `Sha256.HexShowsNibbles` | src/config/ProfileFingerprint.cpp:98-104 | A printed word shows its nibbles as lower-case hexadecimal digits, the most significant first. |
| `Sha256.DigestShowsHash` | src/config/ProfileFingerprint.cpp:181-186 | The digest shows the eight words of the hash value in their order. |
| `Sha256Bits.ChChooses` | src/config/ProfileFingerprint.cpp:155 | Ch takes each bit from one of two words, as section 4.1.2 of FIPS 180-4 has it. |
| `Sha256Bits.MajVotes` | src/config/ProfileFingerprint.cpp:158 | Maj takes each bit that two of three words have. |
| `Sha256Bits.RotrMovesBits` | src/config/ProfileFingerprint.cpp:85-87 | A rotation moves every bit the same number of places, round the word. |
| `Sha256Bits.BigSigma0IsParity` | src/config/ProfileFingerprint.cpp:157 | Every bit is the parity of three rotated bits. |
| `Sha256Bits.BigSigma1IsParity` | src/config/ProfileFingerprint.cpp:154 | Every bit is the parity of three rotated bits. |
| `Sha256Bits.SmallSigma0IsParity` | src/config/ProfileFingerprint.cpp:139 | Every bit is the parity of two rotated bits and a shifted one. |
| `Sha256Bits.SmallSigma1IsParity` | src/config/ProfileFingerprint.cpp:140 | Every bit is the parity of two rotated bits and a shifted one. |
| `Sha256Constants.RoundConstantsAreCubeRoots` | src/config/ProfileFingerprint.cpp:18-83 | The 64 constants are the fractional parts of the cube roots of the listed numbers, as section 4.2.2 of FIPS 180-4 has it. |
| `Sha256Constants.EveryPrimeIsListed` | src/config/ProfileFingerprint.cpp:18-83 | Every prime up to 311 is listed; with the row lemmas, which show that the numbers are prime and ascend, the 64 numbers are the first 64 primes. |
| `Sha256Constants.InitialValueIsSquareRoots` | src/config/ProfileFingerprint.cpp:122-131 | The initial hash value holds the fractional parts of the square roots of the first eight primes, as section 5.3.3 has it. |
| `Fingerprint.ComputeConfigFingerprint` | src/config/ProfileFingerprint.cpp:193-204 | The fingerprint is the digest of the record encoding. |
| `Fingerprint.KeysAreWords` | src/config/ProfileFingerprint.cpp:199-200 | The keys of the records are the words of the source, in ASCII. |
| `Fingerprint.EncodingIsInjective` | src/config/ProfileFingerprint.cpp:106-111 | The encoding determines version, file name and contents, for a version and a file name without zero bytes. |
| `Fingerprint.NulInVersionCollides` | src/config/ProfileFingerprint.cpp:106-111 | A zero byte in the version makes two different inputs encode alike. |
| `TargetStorage.UsagePercent` | src/backup/model/TargetStorageMeasurement.cpp:19-39 | The loop returns the ceiling of 100 * used / (used + available) for every valid triple and 0 otherwise; no 64-bit operation overflows. |
| `TargetStorage.SplitThreshold` | src/backup/model/TargetStorageMeasurement.cpp:29-33 | The split threshold is the exact floor of total * percent / 100. |
| `TargetStorage.UsageIsUnique` | src/backup/model/TargetStorageMeasurement.cpp:19-39 | There is one such percentage. |
| `Executor.SourceIndex` | src/backup/execution/BackupRunExecutor.cpp:145-152 | The first position with the id, counted from one, or zero. |
| `BuiltPlans.EventIndexIsPosition` | src/backup/model/BackupRunPlan.cpp:356-365 | In a built plan the index that events carry is the position plus one. |
| `BuiltPlans.InputsAreFound` | src/backup/model/BackupRunPlan.cpp:329-365 | Each source is planned from what discovery found under its own id, or from nothing. |
| `BuiltPlans.EnabledAreInOrder` | src/backup/model/BackupRunPlan.cpp:329-365 | Exactly the enabled sources are planned, in their order. |
| `Executor.Handle` | src/backup/execution/BackupRunExecutor.cpp:70-92 | Which exception leads to which events, to a result or to a rethrow. |
| `Executor.RunAction` | src/backup/execution/BackupRunExecutor.cpp:45-93 | One action: its start, and either success, a cancellation, a failure or an exception, also when the sink throws inside the try block. |
| `Executor.AfterSuccess` | src/backup/execution/BackupRunCheckpointPolicy.cpp:28-48 | The checkpoint is written before the sink is told. |
| `Executor.Execute` | src/backup/execution/BackupRunExecutor.cpp:22-117 | Whatever the ports do, the notes of a run are those of the actions done so far in plan order, followed by one of the listed endings; only one action can be in flight. |
| `Executor.CheckpointsAreCompletedActions` | src/backup/execution/BackupRunExecutor.cpp:22-117 | On every normal return the checkpoints are exactly the first actions_completed actions of the flattened plan; Completed means all of them. |
| `ExecutorEffect.EffectOfExecution` | src/backup/execution/BackupRunExecutor.cpp:22-117 | An execution leaves lease, session and sink alone, counts exactly the actions it has checkpointed when it returns, and with a quiet sink tells one terminal event when cancelled or failed and none otherwise. |
| `Service.Preflight` | src/backup/planning/BackupPreflight.cpp:18-46 | A prepared session is handed over or closed, on every path. |
| `Service.RunExecutionContext.constructor` | src/backup/execution/RunExecutionContext.cpp:15-30 | The context takes over the lease. |
| `Service.RunExecutionContext.AttachEventSink` | src/backup/execution/RunExecutionContext.cpp:53-55 | It takes over the sink. |
| `Service.RunExecutionContext.AttachVerifiedTarget` | src/backup/execution/RunExecutionContext.cpp:57-60 | It takes over the prepared session. |
| `Service.RunExecutionContext.CloseTargetSession` | src/backup/execution/RunExecutionContext.cpp:66-77 | The session is closed at most once and later calls repeat the first answer. |
| `Service.RunExecutionContext.Close` | src/backup/execution/RunExecutionContext.cpp:36-51 | Closing releases the sink, then closes the session, then releases the lease; a second close does nothing. |
| `Service.PrepareTargetAndPlan` | src/backup/BackupService.cpp:527-558 | The session ends up in the context or closed; nothing is told. |
| `Service.FinishTarget` | src/backup/BackupService.cpp:50-71 | The target is closed before anything is reported; an unclean close is told as a failure. |
| `Service.FinishValidation` | src/backup/BackupService.cpp:214-243 | Validation tells its completion only after a clean close without a cancellation; it starts no action and writes nothing. |
| `Service.Skip` | src/backup/BackupService.cpp:245-277 | A skipped run tells nothing and writes one skipped entry. |
| `Service.ReportCompletion` | src/backup/BackupService.cpp:296-322 | Success is written and completion told after a clean close. What the two throw only becomes a warning, and a result without the warning has written or told it. |
| `Service.ExecutePlan` | src/backup/BackupService.cpp:279-342 | Each result of the executor is told once; an exception of building the action handlers is handed on before anything is told. |
| `Service.TryStart` | src/backup/BackupService.cpp:412-468 | The try block: busy, and then without a context, exactly when another run holds the lease; a context that could not be built; or a run under the lease. |
| `Service.HandleFailure` | src/backup/BackupService.cpp:469-525 | The handlers tell one terminal event for every standard exception. |
| `Service.StartLoadedProfile` | src/backup/BackupService.cpp:405-525 | On every path the session is closed once and before the lease, no event follows the release of the sink, and nothing is held at the end; with a quiet sink and standard exceptions exactly one terminal event, none when skipped. A validation, and nothing else, is answered as validated, starts no action and writes nothing; a run is skipped if the daily limit is reached, and executed only if not. A completed run has checkpointed its whole plan and counts its actions, and it has written success if and only if the clock has answered, with a warning otherwise; no other run writes success. Without other failures, a run is answered as busy if and only if another run holds the lease. |
| `Service.Start` | src/backup/BackupService.cpp:158-184 | The same for a profile that may fail to load: then nothing is started or written, and without other failures a cancellation or an error of the program is told and answered as a failure, while any other exception is handed on untold. When it throws, with a quiet sink and standard exceptions, either nothing was done at all or one failure was told. |
| `Service.PlanOnly` | src/backup/BackupService.cpp:131-156 | Planning alone closes its session on success and on failure, before its lease goes, and tells and writes nothing; it plans only a profile that loads, and not while another run holds the lease. |
| `RunProtocol.SessionsCloseBeforeLease` | src/backup/execution/RunExecutionContext.cpp:36-51 | In a kept protocol every session prepared before a release of the lease was closed before it, once. |
| `RunProtocol.EventsReachTheSink` | src/backup/execution/RunExecutionContext.cpp:36-51 | Every event reaches a sink that was opened and not released since. |
| `RunProtocol.SuccessIsJustified` | src/backup/BackupService.cpp:296-322 | Success is written after a clean close, with no cancellation seen and no terminal event told. |
| `RunProtocol.EntriesAreNoted` | src/backup/BackupService.cpp:405-525 | The entries of the ledger say exactly which notes there are: a run that did not act has started and checkpointed no action and has written neither success nor a skipped run. |
| `Preparation.Pieces` | src/provisioning/DevicePreparationPlanBuilder.cpp:166-213 | A region and a geometry that fit are split into one to three pieces that tile the region and hold the partition once; all others are refused; no 64-bit operation overflows. |
| `Preparation.ValidatesIff` | src/provisioning/DevicePreparationPlan.cpp:90-122 | A plan validates if and only if it is identified, names the one thing its mode is about and nothing else, and its scope is of the right kind and names the same. |
| `Preparation.FreeSpacePlan` | src/provisioning/DevicePreparationPlanBuilder.cpp:159-242 | The plan is built exactly when the geometry fits, validates, and splits the region found by its id. Its operations save the table, create the requested partition in the selected region, format, open, verify and publish it, in that order and nothing else, and it warns. |
| `Preparation.FindsSelectedIff` | src/provisioning/DevicePreparationPlanBuilder.cpp:180-182 | The region found by id is the selected one if and only if no earlier region of the device shares the id. |
| `Preparation.SplitsSelectedIff` | src/provisioning/DevicePreparationPlanBuilder.cpp:180-219 | Splitting any other region gives another layout. |
| `Preparation.SharedIdLosesPartition` | src/provisioning/DevicePreparationPlanBuilder.cpp:180-219 | If the region found is a partition in front of the selected one, it is gone from the layout after the plan, and the selected region is still there. |
| `Preparation.SharedIdSplitsPartition` | src/provisioning/DevicePreparationPlanBuilder.cpp:180-182 | Such a plan is built: a concrete topology and request that are accepted and whose every plan loses the partition. |
| `Preparation.FreeSpaceIsConserved` | src/provisioning/DevicePreparationPlanBuilder.cpp:159-242 | With the selected region found, the sum of the sectors is conserved, order and disjointness survive, every other region is unchanged, and there is one backup partition. |
| `Preparation.SectorsAreConserved` | src/provisioning/DevicePreparationPlanBuilder.cpp:180-219 | Replacing a region by tiles of it conserves the sectors. |
| `Preparation.SplicedIsOrdered` | src/provisioning/DevicePreparationPlanBuilder.cpp:180-219 | Replacing a region by tiles of it keeps sectors in order and disjoint. |
| `Preparation.EraseWholeDevicePlan` | src/provisioning/DevicePreparationPlanBuilder.cpp:52-113 | Built exactly when the geometry ends within the bytes of the device; every partition and nothing else is marked as erased. Its operations save the table, erase the device, write a new table, create the requested partition, format, open, verify and publish it, in that order and nothing else, and it warns of everything that speaks against it. |
| `Preparation.ReformatPartitionPlan` | src/provisioning/DevicePreparationPlanBuilder.cpp:115-157 | One region changes, all others stay. Its operations erase the signatures of the selected partition, format, open, verify and publish it, in that order and nothing else, and it warns of everything that speaks against it. |
| `Preparation.AdoptPlan` | src/provisioning/DevicePreparationPlanBuilder.cpp:244-270 | Adoption changes nothing in the layout, and its operations only verify and publish. |
| `Preparation.Build` | src/provisioning/DevicePreparationPlanBuilder.cpp:276-341 | A plan is built if and only if the first selected device allows it; it validates, names only what was selected, its operations are those its scope calls for and stay in it, it warns, and validation never finds a contradiction. |
| `Preparation.ScheduleIsComplete` | src/provisioning/DevicePreparationPlanBuilder.cpp:52-270 | Signatures of a device are erased and a table is written for a whole device only, signatures of a partition for that partition only, a partition is created where one was asked for, and an adoption formats nothing. |
| `Preparation.ScheduleIsInOrder` | src/provisioning/DevicePreparationPlanBuilder.cpp:52-270 | No operation is repeated and each follows those it needs; the profile is published last, right after the target was verified. |
| `Preparation.TableIsSavedFirst` | src/provisioning/DevicePreparationPlanBuilder.cpp:52-242 | The partition table is saved before anything changes it. |
| `PreparationEffect.PlanShowsDeviceAndTarget` | src/provisioning/DevicePreparationPlanBuilder.cpp:17-242 | The layout before a plan shows the device as it was read, and the one after it shows one encrypted backup partition: as requested, or in the place of the one that is reformatted. |
| `PreparationEffect.ErasedIffReached` | src/provisioning/DevicePreparationPlanBuilder.cpp:52-270 | On a device with distinct ids and regions that do not overlap, a partition is marked as erased if and only if some operation reaches it, and a partition that no operation reaches is the same after the plan. |
| `Inspector.AddBlockers` | src/provisioning/StorageSafetyInspector.cpp:13-21 | Blockers are collected without duplicates. |
| `Inspector.InspectDevice` | src/provisioning/StorageSafetyInspector.cpp:79-95 | What is reported of a device. |
| `Inspector.InspectPartition` | src/provisioning/StorageSafetyInspector.cpp:97-118 | What is reported of a partition; `InspectorProperties` says field by field when that is nothing. |
| `Inspector.Inspect` | src/provisioning/StorageSafetyInspector.cpp:122-224 | The report is exactly the set of blockers that apply, each once. |
| `InspectorProperties.NothingReportedIffSafe` | src/provisioning/StorageSafetyInspector.cpp:122-224 | Nothing is reported if and only if the device with the planned number agrees in every field of its identity, in sector sizes and in its table, is writable and unblocked, and everything in scope is there: each planned partition, found by its number, agrees field by field in identity, UUID, number, extent and file system, and is unmounted, unheld, not swap, not configured and unblocked, and a planned free region is there with its extent, suitable and unblocked. |
| `InspectorProperties.RestingStorageIsSafe` | src/provisioning/StorageSafetyInspector.cpp:122-224 | Nothing is reported of a plan that was just built while the storage is at rest and its devices and regions can be told apart. |
| `InspectorProperties.BuiltPlanFitsItsTopology` | src/provisioning/StorageSafetyInspector.cpp:129-133 | With distinct device ids, inspecting a built plan never reports that a planned item is missing or a scope unsupported, unless the current topology carries that very blocker. |
| `TargetMarker.AddConfiguredTargetBlocker` | src/provisioning/ConfiguredBackupTargetMarker.cpp:20-27 | Marking adds the blocker and the flags and changes nothing else. |
| `TargetMarker.Apply` | src/provisioning/ConfiguredBackupTargetMarker.cpp:36-46 | Exactly the partitions that a configured target names, by the UUID of the partition or of the LUKS container on it, are marked. |
| `TargetMarker.MarkedTargetsAreFlagged` | src/provisioning/ConfiguredBackupTargetMarker.cpp:12-27 | Marking does not hide a target: what matches afterwards is flagged. |
| `InspectorProperties.ConfiguredTargetBlocks` | src/provisioning/StorageSafetyInspector.cpp:116-117 | After marking, a configured target the plan looks at is always reported. |

## Left out

- KDE integration, command-line tools, daemons, audit log and packaging scripts: user interface and plumbing.
- Real file-system, mount, LUKS, udev and systemd calls: they appear only as ports that may succeed or fail.
- Transfer pipeline threads and progress figures: a transfer is one effect, and progress reports carry no numbers.
- Texts of error messages and most error codes: errors are told apart only where the code branches on them.
- Configuration parsing and validation, apart from the lexical path functions that planning uses.
- Local time zones: only UTC timestamps are modelled.
- Building a restore plan and browsing snapshots: mostly file-type checks.
- Concurrent runs of several sources in one state: sources use disjoint directories, so a run is followed per source.
- Executor.Execute: does not model the running sum of transferred bytes, which only feeds progress reports.
- Service.PrepareTargetAndPlan: does not say which ports were asked, because a call that leaves no note can only return or throw.
- Service.RunExecutionContext.Close: does not record the diagnostics of the cancellation watch, the active-run entry and the cancel request, because they change nothing the protocol speaks of.
- Fingerprint.ComputeConfigFingerprint: takes the file name itself; extracting it from a path is a library call.
- Fingerprint.EncodingIsInjective: not an equivalence; inputs with zero bytes may or may not collide, and NulInVersionCollides gives a family that does.
- Sha256.Sha256Bytes: says nothing of inputs of 2^61 bytes or more, for which FIPS 180-4 defines no digest.
- InspectorProperties.BuiltPlanFitsItsTopology: needs distinct device ids, because the inspector looks a device up by its id alone.
