# Release tooling, proved

A Dafny model of the parts of this repository that decide whether a release may be
believed: how evidence is published, how a live rehearsal cleans up after itself, how a
packed tarball is read and matched to its lock file, how equality by digest is decided, how
worker processes are stopped, and how the source tree is fingerprinted. Every file verifies
with Dafny 4.11; `dafny verify dfyconfig.toml` checks the project.

## What is modelled

**Release-evidence promotion** (`scripts/promote-live-release-evidence.ts`), in five modules.

- `DirectoryLock` is a step machine of any number of tasks in any number of processes that
  acquire, take over and release the directory lock, with crashes between any two steps.
  The TCP fence plays no part: its proof is never consulted. The main result is exact: the
  lock excludes if and only if a taker's "verify the owner marker, then rename" is one step,
  and it does not matter whether a release's is. The source performs them as two calls, so
  the result is also stated for its own single runs, with an exact condition.
- `CleanupIsolation` is a file system class whose other users may create, move, swap and
  modify entries between any two calls. The clean-up methods claim a container, rename into
  it, inspect what was moved, and only then delete. Conservation is the class invariant:
  whatever has disappeared was gone before or was deleted by this program.
- `PromotionProtocol` is the global machine: all promotions, of all run ids, interleaved
  call by call, each call applied, failed, failed after applying, or torn half way, with
  crashes.
- `PromotionRollback` is one promotion from first call to result, as a class with the
  source's own flags; how each call ends is an input, and the class is proved to end as a
  function of that input says. `PromotionEndings` reads off that function, as conditions on
  the input, when a run commits, when it says so, when it is ok, and when it leaves nothing.

**Disposable draft-PR rehearsal** (`scripts/rehearse-disposable-draft-pr.ts`):
`RemoteRehearsal` is the saga against a remote whose branch moves by compare-and-swap.
Every write can be applied, not applied, or applied with its answer lost or unverifiable;
other actors may change the remote before every call.

**Packed-release verifier** (`scripts/e2e-npm-pack.ts`): `PaxRecords` and `PackedTar` read
the archive (IEEE Std 1003.1-2017, Shell & Utilities volume, chapter 4, pax);
`TarRoundTrip` writes one and reads it back; `VersionRanges` is the range test of
SemVer 2.0.0 items 2 and 11; `ProductionClosure` is the lock-file worklist;
`BundleOwnership` is the ownership check and the comparison with registry packages.

**Canonical JSON and worker clean-up** (`scripts/queue-swebench-batch.ts`): `StableJson`
(RFC 8259 sections 4, 5 and 7) and `WorkerCleanup`.

**Source fingerprint** (`scripts/release-source-fingerprint.ts`): `SourceFingerprint`.

`Bytes`, `Options`, `Order`, `Packages` and `Receipts` hold what several modules share:
decimal numerals, values that may be absent, the order of code unit strings, the entries of
a package tree, and the states of a receipt.

## Where the code does not keep a promise

- A failed promotion whose rollback reports no failure can still leave something behind.
  `PromotionEndings.LeavesNothingExactly` gives the exact condition on the inputs, and
  `PromotionEndings.OneFault` the table for runs in which one call fails. Two kinds
  of input break the promise: the failing call leaves what no flag records yet (the staging
  directory before its marker, a lock published but not durable, data written without its
  marker), as in `PromotionEndings.StagingOutlivesRollback`; or a clean-up's first try fails
  without saying committed after it has moved something, and its second try finds the paths
  absent and succeeds, as in `PromotionEndings.RollbackStrandsCandidate`. The second kind
  also leaves a container behind an ok result: `PromotionEndings.OkWithStrandedMarker`.
- A result's `committed` field is not the commit rename: for a run that finds no earlier
  promotion's receipt, it is true if and only if the rename ran or some error carries `committed = true` (`PromotionEndings.ReportsExactly`), as
  an owner marker that was created and then failed does, or a lock whose publication is not
  durable. `PromotionEndings.StagingSaysCommitted` and
  `PromotionEndings.CommittedWithoutCommit` are concrete runs.
- The lock excludes only if nothing another process does comes between a taker's check of a
  stale lock and its rename; `DirectoryLock.RacingRunBreaksExclusion` is a run.
- A file that another process puts in place of an owner marker is moved away and not named
  by the error exactly if it is regular JSON and refused as a marker
  (`CleanupIsolation.ForeignMarkerGoesUnlisted`); the program's own marker goes unnamed if the
  committed file is gone when it looks (`CleanupIsolation.OwnMarkerGoesUnlisted`).
  `CleanupIsolation.FileSystem.ReleaseCommittedMarker` says exactly when. Nothing of it is
  deleted.

## Reading the models

Classes carry the source's own mutable fields and flags; their contracts use `old` and
speak about every outcome of every call. An outcome is a scripted fate or an arbitrary
value, so a contract holds for all of them. Pure code is functions and lemmas; a loop of
the source is a method with invariants, tied to a function whose properties are proved.
Digests are taken injective: content stands for its digest throughout.

## Model

| member | source | states |
|---|---|---|
| DirectoryLock.ExclusiveExactlyWhenPinned | scripts/promote-live-release-evidence.ts:2424-2604 | The lock admits at most one live holder, whose generation is the one at the lock path, in every run of any number of processes, crashes, stale takeovers and losing initialisers, if and only if a taker's verification of the stale lock and its rename are one step; whether a release verifies and renames in one step or two makes no difference |
| DirectoryLock.UndisturbedRunIsExclusive | scripts/promote-live-release-evidence.ts:2474-2482 | The same for every single run of the two-step program: if whenever a taker renames the lock path it is free or still holds the generation that taker verified, the run ends in a state with at most one live holder, whose generation is at the path |
| DirectoryLock.DisturbanceBreaksExclusion | scripts/promote-live-release-evidence.ts:2474-2482 | In any state where the lock path holds the generation of a live holder, a taker that renames it away leaves a live holder without its lock, so exclusion is broken there and then |
| DirectoryLock.ExclusiveThroughoutExactly | scripts/promote-live-release-evidence.ts:2424-2604 | Exact for every single run, whatever is pinned: the lock excludes in every state of the run if and only if no rename of a two-step pair, of a taker or of a releaser, moves a generation that another live task holds; no other step of any task can break exclusion |
| DirectoryLock.PinnedLockIsExclusive | scripts/promote-live-release-evidence.ts:2318-2422 | With a taker's verification and rename as one step, and releases in one step or two, every run ends in a state with at most one live holder, and the holder's generation is at the lock path until it releases it |
| DirectoryLock.RacingRunBreaksExclusion | scripts/promote-live-release-evidence.ts:2474-2482 | With a taker's verification and rename as two steps there is a run with two live holders, however releases go: two takers verify the same dead owner's lock, the first finishes, the second renames the first's new lock away |
| DirectoryLock.ExecKeepsInv | scripts/promote-live-release-evidence.ts:2318-2422 | Every run keeps the invariant: whoever has published and not yet given up owns the generation at the path, and no live holder's generation is judged stale by another process |
| DirectoryLock.ReadKeepsInv | scripts/promote-live-release-evidence.ts:2433-2482 | Reading the lock twice, judging it, and moving a stale one aside keep the invariant |
| DirectoryLock.WriteKeepsInv | scripts/promote-live-release-evidence.ts:2331-2404 | Building a private directory, publishing it by rename and reading it back keep the invariant |
| DirectoryLock.ReleaseKeepsInv | scripts/promote-live-release-evidence.ts:2577-2604 | A release, in one step or two, keeps the invariant, and stops being active whether or not the removal succeeds |
| DirectoryLock.ThrowKeepsInv | scripts/promote-live-release-evidence.ts:2409-2421 | An acquisition that fails before or after publication keeps the invariant |
| DirectoryLock.OthersUnharmed | scripts/promote-live-release-evidence.ts:2209-2227 | A step of one task gives up at most its own generation or a stale one, so every other live owner keeps what it owns |
| DirectoryLock.AcquireSucceeds | scripts/promote-live-release-evidence.ts:2452-2465 | An undisturbed acquisition of a free lock ends holding it: the protocol is not safe by refusing everybody |
| DirectoryLock.TakeOverSucceeds | scripts/promote-live-release-evidence.ts:2516-2553 | A taker that has verified a dead owner's lock can finish the takeover and hold a generation of its own |
| CleanupIsolation.FileSystem.RemoveDirectoryAfterIsolation | scripts/promote-live-release-evidence.ts:1069-1280 | Whatever other processes do between any two calls: nothing but the expected directory generation and the program's own containers is deleted, success means it is deleted, and every other generation the rename moved is listed for recovery; undisturbed, exactly the directory disappears |
| CleanupIsolation.FileSystem.RemoveOwnedFile | scripts/promote-live-release-evidence.ts:1406-1729 | Only the marker generation that was read and carried the token, and the data generation it records, are deleted; anything else that was moved is listed, unless the very look that was to say where it went fails; undisturbed, exactly data and marker disappear |
| CleanupIsolation.FileSystem.RemoveCreatedFileAfterIsolation | scripts/promote-live-release-evidence.ts:1731-1857 | Only the expected file generation is deleted and any other that was moved is listed, unless the very look that was to say where it went fails; undisturbed, exactly the file disappears |
| CleanupIsolation.FileSystem.ReleaseCommittedMarker | scripts/promote-live-release-evidence.ts:1895-2050 | Only a marker generation that was read and accepted is deleted, the committed file never. With no call failing, a foreign entry moved in the marker's place is listed exactly if it is not a regular file that is read as JSON and refused; and an error names no path exactly if a marker, in place or moved, was read and refused, or a plain lstat found the committed file gone. Undisturbed, exactly the marker disappears, an absent marker changes nothing, and a refused one is left in place by an error that names no path |
| CleanupIsolation.FileSystem.MoveMarker | scripts/promote-live-release-evidence.ts:1934-1975 | From the marker's rename on: the same two equivalences; a refused file put there after the last check is moved to the private slot, stays there, and the error names no path |
| CleanupIsolation.FileSystem.FinishMarker | scripts/promote-live-release-evidence.ts:1976-2050 | Once the moved marker is known to be ours: at most it and its container are deleted, and the error names no path exactly if the plain lstat found the committed file gone, or a look failed |
| CleanupIsolation.ForeignMarkerGoesUnlisted | scripts/promote-live-release-evidence.ts:1934-1975 | The promise that a moved foreign entry is listed is false: another process replaces the marker just before the rename, the first try names no path, and the retry finds no marker and reports success |
| CleanupIsolation.OwnMarkerGoesUnlisted | scripts/promote-live-release-evidence.ts:1976 | The program's own marker can be stranded the same way: the committed file is moved by another process while the marker is in its slot, the first try names no path, and the retry reports success |
| CleanupIsolation.FileSystem.Isolate | scripts/promote-live-release-evidence.ts:1078-1147 | What the isolation rename moved is the expected generation, or the failure names the slot it went to |
| CleanupIsolation.FileSystem.Destroy | scripts/promote-live-release-evidence.ts:1204-1262 | The second half deletes at most the generation pinned in the slot and the container; success means the pinned generation is deleted |
| CleanupIsolation.FileSystem.ReleaseContainer | scripts/promote-live-release-evidence.ts:998-1067 | Only the container's own generation is removed, and only when it is empty |
| CleanupIsolation.FileSystem.Claim | scripts/promote-live-release-evidence.ts:794-885 | A claimed container is fresh and its generation is the program's own; undisturbed, the disk gains exactly it |
| CleanupIsolation.FileSystem.SurvivesSomewhere | scripts/promote-live-release-evidence.ts:1069-1280 | Conservation: in every reachable state, a generation that existed, and that the program has not deleted itself, is at some path |
| CleanupIsolation.CreationLosesNothing | scripts/promote-live-release-evidence.ts:825-828 | Creating an entry makes no generation disappear |
| CleanupIsolation.MoveLosesNothing | scripts/promote-live-release-evidence.ts:1095 | A rename to a free path makes no generation disappear |
| CleanupIsolation.RemovalLosesOne | scripts/promote-live-release-evidence.ts:1231 | A removal makes exactly the removed generation disappear |
| PromotionProtocol.ManifestNeverDangles | scripts/promote-live-release-evidence.ts:4099-4226 | In every interleaving of any promotions, with any failures and crashes, the live manifest names a run directory that exists with the provider and draft digests it records |
| PromotionProtocol.CommittedEvidenceIsKept | scripts/promote-live-release-evidence.ts:4321-4370 | Once a promotion has committed, its evidence stays where it was placed in every later state, whatever other promotions roll back |
| PromotionProtocol.CommitDetectionIsExact | scripts/promote-live-release-evidence.ts:3046-3068 | In every reachable state, a receipt's commit is reported present if and only if that promotion's commit rename has run and, for a full promotion, no other has replaced the live manifest since |
| PromotionProtocol.CommitIsIrrevocable | scripts/promote-live-release-evidence.ts:4275-4320 | After its commit rename, a promotion that still runs is cleaning up: it never takes a rollback action |
| PromotionProtocol.RerunOnUncommittedPublishesNothing | scripts/promote-live-release-evidence.ts:3994-4097 | A rerun that finds the receipt of a promotion whose commit never ran changes no run directory, manifest or receipt, at that call or at any later one, and never commits |
| PromotionProtocol.RecoveryConverges | scripts/promote-live-release-evidence.ts:3090-3174 | From any reachable state, whatever clean-up any promotions of the run then do, each call failing or applied or both and cut short by crashes anywhere: a rerun that reads the receipt, finds the commit present and meets no live holder of the manifest lock ends, call by call, in a disk that depends only on the first state, the run and the rerun |
| PromotionProtocol.RecoveryConvergesAmongOthers | scripts/promote-live-release-evidence.ts:3090-3174 | The same when, in between, promotions of other runs also do anything short of replacing the live manifest: what concerns the run, the live manifest and the released manifest lock are as before |
| PromotionProtocol.UndisturbedRecoveryCompletes | scripts/promote-live-release-evidence.ts:3090-3174 | From any reachable state, the calls of such a rerun, none disturbed, end in the recovered disk: receipt committed-clean, no owner marker and no manifest lock of that promotion left |
| PromotionProtocol.RecoveryIsUnobstructed | scripts/promote-live-release-evidence.ts:3090-3174 | In a reachable state nothing stands in the way of that rerun: the markers and the manifest writer are those its clean-up calls expect |
| PromotionProtocol.ReachableMarkers | scripts/promote-live-release-evidence.ts:3107-3173 | In every reachable state an owner marker of a draft lies beside a draft and is that of the promotion that committed it, if one has; a running promotion's own draft carries its own marker |
| PromotionProtocol.SixCallsRecover | scripts/promote-live-release-evidence.ts:3107-3173 | The six clean-up calls, each succeeding, compose to the recovered state and none of them is blocked |
| PromotionProtocol.ExecKeepsInv | scripts/promote-live-release-evidence.ts:3994-4384 | Every run keeps the invariant that ties manifest, receipts, run directories, locks and the phase of every promotion together |
| PromotionProtocol.FrameAndOwnKeepInv | scripts/promote-live-release-evidence.ts:3994-4384 | A call that touches only its own run and keeps its own part of the invariant keeps everybody's |
| PromotionProtocol.AdvanceStaysInFrame | scripts/promote-live-release-evidence.ts:3994-4384 | Every call of every phase touches only its own run, under the run lock, and keeps its part of the invariant |
| PromotionProtocol.TakeRunLockStaysInFrame | scripts/promote-live-release-evidence.ts:3986-3993 | Taking the run lock displaces no live holder |
| PromotionProtocol.ReadReceiptStaysInFrame | scripts/promote-live-release-evidence.ts:3994-3997 | What a promotion concludes from an existing receipt agrees with whether that receipt's promotion committed |
| PromotionProtocol.UpgradeStaysInFrame | scripts/promote-live-release-evidence.ts:4083-4093 | Only the receipt of a committed provider-only promotion gives way to a full one |
| PromotionProtocol.InspectRunStaysInFrame | scripts/promote-live-release-evidence.ts:4099-4117 | An existing run directory is accepted only for a full promotion with the same provider bundle and no draft |
| PromotionProtocol.WriteReceiptStaysInFrame | scripts/promote-live-release-evidence.ts:4119-4138 | The receipt is created exclusively, in the state that matches its kind |
| PromotionProtocol.PlaceDraftStaysInFrame | scripts/promote-live-release-evidence.ts:4151-4169 | A draft goes only into a directory that nothing committed relies on for its draft |
| PromotionProtocol.PlaceRunStaysInFrame | scripts/promote-live-release-evidence.ts:4170-4176 | A whole run directory appears only where none was |
| PromotionProtocol.PlaceProviderStaysInFrame | scripts/promote-live-release-evidence.ts:4140-4150 | The rename of a provider-only bundle is its commit and keeps what was committed before |
| PromotionProtocol.CommitStaysInFrame | scripts/promote-live-release-evidence.ts:4214-4220 | The manifest rename names a run directory that is in place with the recorded digests |
| PromotionProtocol.DropDraftStaysInFrame | scripts/promote-live-release-evidence.ts:4339-4348 | Rolling back a draft removes no committed promotion's draft |
| PromotionProtocol.DropRunStaysInFrame | scripts/promote-live-release-evidence.ts:4349-4359 | Rolling back a run directory removes no committed promotion's directory |
| PromotionProtocol.DropReceiptStaysInFrame | scripts/promote-live-release-evidence.ts:4371-4380 | Only the rolled back promotion's own, uncommitted receipt is removed |
| PromotionProtocol.CleanCallStaysInFrame | scripts/promote-live-release-evidence.ts:3107-3173 | A clean-up call touches no run directory and no manifest |
| PromotionEndings.Promote | scripts/promote-live-release-evidence.ts:3907-4384 | One promotion under any pattern of call outcomes, each condition read off the inputs: it commits exactly if its checks pass and every call up to the commit succeeds; a commit is always reported, never rolled back, and keeps what was published; the result is ok exactly if the calls after the commit settle, and then exactly what was to be published is on disk with a committed-clean receipt, plus one container in a named case; without a commit the result says committed exactly if one of its errors does, nothing is left exactly if LeavesNothing holds, and a written receipt stays if a clean-up action before its own failed |
| PromotionRollback.PromotionRun.Run | scripts/promote-live-release-evidence.ts:3907-4384 | The run, as the program performs it, ends as the function EndOf of mode, refusal and call outcomes says; a committed run executes no rollback action |
| PromotionEndings.LeavesNothingExactly | scripts/promote-live-release-evidence.ts:4321-4384 | A run that fails before its commit leaves nothing on disk if and only if its first failing call is clean and every clean-up call the flags ask for leaves nothing, with no failure reported before the receipt's turn |
| PromotionEndings.OneFault | scripts/promote-live-release-evidence.ts:3907-4430 | With one failing call before the commit, which single faults leave nothing and which results then say committed, call by call and effect by effect: both exactly as that one fault alone decides |
| PromotionEndings.FaultExact | scripts/promote-live-release-evidence.ts:3907-4226 | The failing call leaves nothing unknown to the flags exactly by this table of which call it is, how it ended, and how the few calls after it ended: the staging directory's marker never, a lock or an owned write only if undone, a staging removal unless a container stayed |
| PromotionEndings.RollbackExact | scripts/promote-live-release-evidence.ts:4321-4384 | From any disk and flags, the rollback empties the disk exactly if the flags know of everything and each of its calls leaves nothing |
| PromotionEndings.UndoAllExact | scripts/promote-live-release-evidence.ts:4321-4370 | A sequence of clean-up actions leaves nothing of its objects and no container exactly if each action does; without a reported failure exactly if each also succeeds |
| PromotionEndings.OwnedExact | scripts/promote-live-release-evidence.ts:1406-1878 | The clean-up of a file with its marker leaves neither, and no container, exactly if its moves succeed and its destruction takes effect, after at most one first try that did nothing |
| PromotionEndings.AttemptExact | scripts/promote-live-release-evidence.ts:1406-1729 | One try that can read the marker destroys the pair, or does nothing and says so quietly, or leaves a container |
| PromotionEndings.MarkerWritingExact | scripts/promote-live-release-evidence.ts:2624-2696 | After an owner marker that could not be written, exactly which outcomes leave nothing of the pair, and exactly which leave no container |
| PromotionEndings.RetryStrands | scripts/promote-live-release-evidence.ts:1567-1573 | The promise that a successful clean-up removed its file is false: both files isolated, the marker not read back, an error that does not say committed, a second try that finds both paths absent: success, with the pair in its containers |
| PromotionEndings.ReportsExactly | scripts/promote-live-release-evidence.ts:4321-4430 | A run that finds no earlier receipt says committed exactly if the commit rename ran, or the failing call or one of the clean-up calls after it ends with an error that carries committed = true; which calls those are is read off the fates, what the failing call left and the flags, try by try and action by action |
| PromotionEndings.TurnsExact | scripts/promote-live-release-evidence.ts:4321-4384 | How many calls a sequence of clean-up actions makes, whether one says committed and whether all succeed, read off the disk it starts from and the fates |
| PromotionEndings.OwnedTurnExact | scripts/promote-live-release-evidence.ts:1406-1878 | The same for both tries at a file with its marker, whatever each call leaves to the next |
| PromotionEndings.FaultTurnExact | scripts/promote-live-release-evidence.ts:3907-4226 | The same for the failing call with what it does about its own failure, including the look whose failure silences the clean-up's errors |
| PromotionEndings.CommitsExactly | scripts/promote-live-release-evidence.ts:3907-4226 | A run commits exactly if no check refuses and each of its calls up to the commit succeeds |
| PromotionEndings.OkExactly | scripts/promote-live-release-evidence.ts:4227-4320 | A result is ok exactly if the run commits and every later call succeeds, except that the candidate's marker may fail once quietly; then what was published, a committed-clean receipt and nothing else is there, except a container if that first failure left one |
| PromotionEndings.CommitIsKept | scripts/promote-live-release-evidence.ts:4227-4320 | Whatever fails after the commit, what was published stays |
| PromotionEndings.ReceiptGoesLast | scripts/promote-live-release-evidence.ts:4371-4384 | A receipt that was written stays whole if a clean-up action before its own fails, and is touched only when nothing else the flags know of is left but the run lock |
| PromotionEndings.CalmRunIsOk | scripts/promote-live-release-evidence.ts:3907-4320 | Without failures and refusal the result is ok and exactly the published artifacts are left |
| PromotionEndings.StopIs | scripts/promote-live-release-evidence.ts:3907-4226 | Every call before the one at which a run stops has succeeded, and that one fails or refuses |
| PromotionRollback.InMade | scripts/promote-live-release-evidence.ts:3907-4226 | Which artifacts exist before each call of an undisturbed run |
| PromotionRollback.Wrote | scripts/promote-live-release-evidence.ts:2624-2696 | An owned write is two consecutive calls of the run: it succeeds as both, or fails as the first of them that fails |
| PromotionRollback.PromotionRun.Publish | scripts/promote-live-release-evidence.ts:3907-4226 | Up to the commit: either exactly the artifacts and flags of the commit point, or the disk the failing call leaves with the flags set before it |
| PromotionRollback.PromotionRun.Rollback | scripts/promote-live-release-evidence.ts:4321-4384 | The rollback actions in their order, each flag cleared, the receipt's only if none before failed; how many failed, and how many before the receipt's turn |
| PromotionRollback.PromotionRun.WriteOwned | scripts/promote-live-release-evidence.ts:2624-2696 | Data, then its owner marker; a failing marker is followed by the removal of the data and of what is left of the pair |
| PromotionRollback.PromotionRun.TryRemoveOwned | scripts/promote-live-release-evidence.ts:1406-1729 | One try at data and marker, phase by phase: moved, read back, destroyed, with what each failure leaves where and whether it says committed |
| PromotionRollback.PromotionRun.RemoveOwned | scripts/promote-live-release-evidence.ts:1859-1878 | A second try exactly after a failure that does not say committed |
| PromotionRollback.PromotionRun.TakeLock | scripts/promote-live-release-evidence.ts:2331-2421 | Nothing, the lock, or a private directory that is left or removed by one more call |
| PromotionRollback.PromotionRun.CleanupCommitted | scripts/promote-live-release-evidence.ts:3090-3174 | The receipt's two updates around the markers and the manifest lock, each of the markers' only without residuals so far |
| PromotionRollback.PromotionRun.Finish | scripts/promote-live-release-evidence.ts:4227-4320 | The clean-up after the commit, also when its durability is uncertain, and the run lock's release |
| PromotionEndings.StagingOutlivesRollback | scripts/promote-live-release-evidence.ts:3908-3910 | The promise that a failure with a clean rollback leaves nothing is false: when the owner marker of the staging directory fails, the directory stays and no rollback action fails |
| PromotionEndings.StagingSaysCommitted | scripts/promote-live-release-evidence.ts:657-664 | The promise that committed means committed is false: that marker is created and then fails, and the result says committed |
| PromotionEndings.CommittedWithoutCommit | scripts/promote-live-release-evidence.ts:2359-2373 | The same with a run lock that was published but whose durability was not confirmed |
| PromotionEndings.RollbackStrandsCandidate | scripts/promote-live-release-evidence.ts:1567-1573 | A failed verification, no rollback failure, and the candidate left in private directories by a second try that succeeded |
| PromotionEndings.OkWithStrandedMarker | scripts/promote-live-release-evidence.ts:1960-1966 | An ok result with a private directory left: the candidate's marker was isolated but not read back, and the second try found none |
| RemoteRehearsal.Rehearsal.Rehearse | scripts/rehearse-disposable-draft-pr.ts:1331-1579 | Green means the whole story in order: branch created at the anchor, moved by compare-and-swap to the payload, the pull request seen open and draft at the payload, a pull request of this generation seen closed, the branch seen absent. With no other actor and a faultless clean-up, for every pattern of live faults the attempted branch is absent, no pull request of this generation is open and no other is touched. With no fault on a free branch the verdict is green |
| RemoteRehearsal.Rehearsal.Send | scripts/rehearse-disposable-draft-pr.ts:592-630 | Whoever else acts, every branch change of the program starts from absent, the anchor or the payload; a lost answer leaves the mutation applied or not |
| RemoteRehearsal.Rehearsal.RunAuthorizedRemoteMutation | scripts/rehearse-disposable-draft-pr.ts:419-458 | Every mutation that reaches the network was recorded as attempted immediately after a re-check of authority for the same mutation, and its answer or loss is recorded next |
| RemoteRehearsal.Rehearsal.VerifyRemoteAuthority | scripts/rehearse-disposable-draft-pr.ts:376-417 | The re-check is recorded only when both reads confirm the authority |
| RemoteRehearsal.Rehearsal.CreateGenerationCommit | scripts/rehearse-disposable-draft-pr.ts:477-590 | The objects of a generation are created and read back without moving any ref |
| RemoteRehearsal.Rehearsal.CreateBranchAtAnchor | scripts/rehearse-disposable-draft-pr.ts:1366-1437 | The branch is created only after it was seen absent, and at the anchor |
| RemoteRehearsal.Rehearsal.MoveToPayload | scripts/rehearse-disposable-draft-pr.ts:1445-1471 | Success means the branch was moved from anchor to payload and seen there twice |
| RemoteRehearsal.Rehearsal.CreatePullRequest | scripts/rehearse-disposable-draft-pr.ts:1472-1551 | Success means a pull request of this generation was seen open at the payload, in the answer and in a second read |
| RemoteRehearsal.Rehearsal.Live | scripts/rehearse-disposable-draft-pr.ts:1340-1553 | With no other actor, after any faults the branch is where the attempted steps could leave it and at most one pull request was added |
| RemoteRehearsal.Rehearsal.ClosePullRequest | scripts/rehearse-disposable-draft-pr.ts:707-836 | Success means the pull request was of this generation and seen closed; at most it changes |
| RemoteRehearsal.Rehearsal.CloseDiscovered | scripts/rehearse-disposable-draft-pr.ts:894-941 | With no faults and no other actor, afterwards no pull request of this generation is open; lookalikes are skipped |
| RemoteRehearsal.Rehearsal.CleanupPulls | scripts/rehearse-disposable-draft-pr.ts:866-953 | The known pull request first, then every discovered one of this generation |
| RemoteRehearsal.Rehearsal.CleanupBranch | scripts/rehearse-disposable-draft-pr.ts:955-1140 | The branch is reported deleted only when seen absent; with no faults and no other actor an owned branch ends absent |
| RemoteRehearsal.Rehearsal.TryDelete | scripts/rehearse-disposable-draft-pr.ts:1024-1087 | The deletion is a compare-and-swap from the owned value, after a second read that still shows it |
| RemoteRehearsal.MilestonesInOrder | scripts/rehearse-disposable-draft-pr.ts:1571-1578 | The milestone counter is right: a history that reaches k has k strictly increasing positions holding the first k milestones |
| RemoteRehearsal.ProgressGrows | scripts/rehearse-disposable-draft-pr.ts:1571-1578 | Milestones passed are never lost |
| PaxRecords.RoundTrip | scripts/e2e-npm-pack.ts:862-883 | Any list of records with a non-empty key without '=' reads back from its encoding, repeated keys included |
| PaxRecords.FramesOfRecords | scripts/e2e-npm-pack.ts:862-883 | Every accepted payload is a concatenation of records, each exactly as long as its length field declares |
| PaxRecords.RecordsOfFrames | scripts/e2e-npm-pack.ts:862-883 | Every concatenation of such records is accepted and reads as those records, in one way only |
| PaxRecords.LengthDigits | scripts/e2e-npm-pack.ts:868-874 | A self-describing decimal length exists for every record |
| PaxRecords.LastWins | scripts/e2e-npm-pack.ts:879 | The last record of a key gives its value |
| PaxRecords.ParsePaxRecords | scripts/e2e-npm-pack.ts:862-883 | The loop accepts exactly the payloads that are record sequences and returns their meaning |
| PaxRecords.HeadOfRecord | scripts/e2e-npm-pack.ts:866-880 | A record is recognised whatever follows it |
| PaxRecords.HeadIsRecord | scripts/e2e-npm-pack.ts:866-880 | What is recognised is exactly a record |
| PackedTar.ParsePackedTreeManifest | scripts/e2e-npm-pack.ts:902-1007 | The reader returns the entries of the archive completed with implied directories, refuses a file that stands above another entry, and what it returns is a tree: canonical unique paths, permission bits only, directories without content, every ancestor present as a directory. The loop terminates and every access is within the buffer |
| PackedTar.AddImpliedDirectories | scripts/e2e-npm-pack.ts:971-993 | Refused exactly when a file is an ancestor of an entry; otherwise the entries plus implied 0755 directories for missing ancestors, and nothing else |
| PackedTar.CompletedIsTree | scripts/e2e-npm-pack.ts:971-993 | The completed manifest is a tree: no file has a descendant |
| PackedTar.ReadsSoundEntries | scripts/e2e-npm-pack.ts:885-969 | Every entry the reader accepts has a canonical path, permission bits only, and, for a directory, no content |
| PackedTar.SegmentsSplit | scripts/e2e-npm-pack.ts:895-896 | Splitting a path at a slash splits its segments there |
| PackedTar.Canonical | scripts/e2e-npm-pack.ts:885-900 | An accepted archive path has only safe segments and neither NUL nor backslash |
| PackedTar.SoundSize | scripts/e2e-npm-pack.ts:923-930 | An accepted size keeps the entry with its padding inside the archive |
| PackedTar.ChecksumOf | scripts/e2e-npm-pack.ts:853-860 | The loop computes the sum of the header's bytes with the checksum field as spaces |
| PackedTar.BigEndianOf | scripts/e2e-npm-pack.ts:840-842 | The loop computes the base-256 value without the marker bit |
| TarRoundTrip.RoundTrip | scripts/e2e-npm-pack.ts:902-969 | For any list of unique canonical entries, writing ustar headers with checksums, padded bodies and two zero blocks, each name in its field, split with the prefix field, in a pax path record or as a GNU long name, then reading, gives exactly those entries |
| TarRoundTrip.WriteThenParse | scripts/e2e-npm-pack.ts:902-1007 | Writing and parsing gives the entries with the directories they imply, and is refused exactly when a file is an ancestor of another entry |
| TarRoundTrip.HeaderReadsBack | scripts/e2e-npm-pack.ts:832-860 | A written header passes the checksum and gives back name, prefix, mode, size and flag |
| TarRoundTrip.NumberReadsBack | scripts/e2e-npm-pack.ts:838-851 | A zero-padded octal field with its terminator reads as its number |
| TarRoundTrip.NameIsCanonical | scripts/e2e-npm-pack.ts:885-900 | The archive name of a canonical path, with a trailing slash for a directory, is accepted as that path |
| TarRoundTrip.PathRecordReadsBack | scripts/e2e-npm-pack.ts:862-883 | A path record carries any archive name |
| TarRoundTrip.LongBlockReadsBack | scripts/e2e-npm-pack.ts:939-942 | A GNU long name waits for the entry that follows it |
| TarRoundTrip.PathBlockReadsBack | scripts/e2e-npm-pack.ts:933-938 | A pax path record waits for the entry that follows it |
| TarRoundTrip.LastBlockReadsBack | scripts/e2e-npm-pack.ts:945-969 | An entry takes its name from a long name, else a path record, else prefix and name field, and clears what waited |
| VersionRanges.ParsesExactly | scripts/e2e-npm-pack.ts:1262-1266 | A text is read as a version exactly when it is that version's canonical text, with or without a leading v |
| VersionRanges.SatisfiesIsMeets | scripts/e2e-npm-pack.ts:1275-1297 | A version passes an exact, caret or tilde range exactly when it is not below the range's version and agrees with it where the operator demands; every other range is refused |
| ProductionClosure.CollectClosure | scripts/e2e-npm-pack.ts:1337-1366 | The worklist accepts if and only if some closed set of lock paths is sound (every edge's version in its range, provenance of every package, exact pin of every direct dependency), and returns the least closed set; it terminates on cyclic locks |
| ProductionClosure.ResolvesToInnermost | scripts/e2e-npm-pack.ts:1171-1187 | Resolution finds the innermost enclosing node_modules that has the package and fails only when none has it |
| ProductionClosure.LockPackagePathForDependency | scripts/e2e-npm-pack.ts:1171-1187 | The loop computes that resolution and returns a path of the lock |
| ProductionClosure.TakeNext | scripts/e2e-npm-pack.ts:1339-1365 | One turn rejects an edge only for a reason no sound closed set can remove, and otherwise keeps the invariant |
| ProductionClosure.RejectionIsSound | scripts/e2e-npm-pack.ts:1341-1361 | If an edge is rejected, no closed set is sound |
| ProductionClosure.KeepsOrder | scripts/e2e-npm-pack.ts:1338-1365 | First in, first out: while direct dependencies are left the next one resolves to a package not yet in the closure, so each meets the exact pin check |
| ProductionClosure.FinishedIsLeast | scripts/e2e-npm-pack.ts:1339-1366 | When the queue is empty the closure is closed, sound and least |
| BundleOwnership.BundledManifestOwnership | scripts/e2e-npm-pack.ts:1235-1258 | The check accepts exactly when all roots are well formed and every bundled entry is a container and a directory or belongs to some package, whatever the order of the roots |
| BundleOwnership.DeterminedByLock | scripts/e2e-npm-pack.ts:2321-2342 | Two accepted trees for the same non-empty packages have the same bundled paths and entries, except for the modes of container directories |
| BundleOwnership.OwnedByOne | scripts/e2e-npm-pack.ts:1235-1258 | Each bundled entry that is not a container belongs to exactly one package |
| BundleOwnership.OwnerIsUnique | scripts/e2e-npm-pack.ts:1244-1256 | No path belongs to two packages |
| BundleOwnership.NestedThroughModules | scripts/e2e-npm-pack.ts:1197-1214 | A package inside another lies in its node_modules |
| BundleOwnership.BundledPackageContainerPaths | scripts/e2e-npm-pack.ts:1216-1233 | Refused exactly when a root is malformed; otherwise the node_modules directories, scopes and roots of all packages |
| BundleOwnership.FirstOwnerDecides | scripts/e2e-npm-pack.ts:1239-1256 | With the longest roots first, the first root that contains an entry owns it if any does |
| BundleOwnership.ContainersPresent | scripts/e2e-npm-pack.ts:2321-2342 | Every container of a non-empty package is in an accepted tree, as a directory |
| StableJson.CanonicalForm | scripts/queue-swebench-batch.ts:916-927 | Two values print the same text if and only if they are equal up to the order of object keys |
| StableJson.IsUnique | scripts/queue-swebench-batch.ts:916-927 | Printed values are uniquely decodable, also in front of other text |
| StableJson.SamePrints | scripts/queue-swebench-batch.ts:916-927 | Values equal up to key order print the same |
| StableJson.EscapeReadsBack | scripts/queue-swebench-batch.ts:926 | String escaping is undone by reading, for every sequence of code units, lone surrogates included |
| StableJson.QuoteIsUnique | scripts/queue-swebench-batch.ts:923 | A quoted string is determined by any text that starts with it |
| StableJson.NumbersAreUnique | scripts/queue-swebench-batch.ts:926 | An integer is determined by its text in front of any delimiter |
| StableJson.MembersAreUnique | scripts/queue-swebench-batch.ts:920-925 | Printed members determine the keys in order and, per key, the value |
| StableJson.SameSortedKeys | scripts/queue-swebench-batch.ts:921-922 | The sorted keys depend only on which keys there are |
| Order.IncreasingIsUnique | scripts/queue-swebench-batch.ts:921-922 | A strictly increasing sequence is determined by its elements |
| Order.Total | scripts/release-source-fingerprint.ts:92-94 | Different texts are ordered one way |
| Order.Transitive | scripts/release-source-fingerprint.ts:92-94 | The order is transitive |
| Order.SortIncreases | scripts/release-source-fingerprint.ts:236 | Sorting distinct texts gives a strictly increasing sequence |
| WorkerCleanup.Cleanup.StopStartedWorkers | scripts/queue-swebench-batch.ts:3645-3810 | Whatever scans, checks and kills answer: each incarnation is killed at most once, never the current process, a spawned pid only as the spawned process; each attempt is a check followed by a kill unless dead; there are three scans, and what the first two find is tried; a clean verdict means every started worker with a pid had an exact matching identity, every discovered process is accounted for, no scan, check or kill failed, and every known identity answered dead after the last scan |
| WorkerCleanup.Cleanup.AddIdentity | scripts/queue-swebench-batch.ts:3692-3699 | Only a valid identity of another process becomes known; anything else spoils the verdict; known pids never change |
| WorkerCleanup.Cleanup.AdmitWorkers | scripts/queue-swebench-batch.ts:3688-3715 | An unspoiled verdict means every started worker is accounted for |
| WorkerCleanup.Cleanup.Discover | scripts/queue-swebench-batch.ts:3729-3764 | A discovered process is accounted for or the verdict is spoiled; a spawned pid is never adopted under another incarnation |
| WorkerCleanup.Cleanup.StopOne | scripts/queue-swebench-batch.ts:3776-3795 | One attempt: marked, checked and, unless dead, killed |
| WorkerCleanup.Cleanup.CountAlive | scripts/queue-swebench-batch.ts:3808 | A zero count means every known identity answered dead in this very check |
| WorkerCleanup.IncarnationIsInjective | scripts/queue-swebench-batch.ts:3626-3643 | A valid incarnation names one pid and one birth |
| SourceFingerprint.ManifestHolds | scripts/release-source-fingerprint.ts:229-332 | A scan is accepted exactly when every root entry is skipped or is an included directory or file of the right kind without links and special files; it then lists every regular file outside the skipped names exactly once, in strictly increasing byte order of path |
| SourceFingerprint.ManifestDecides | scripts/release-source-fingerprint.ts:305-332 | Two accepted trees have the same manifest if and only if they agree on path, executable bit and content |
| SourceFingerprint.OrderFree | scripts/release-source-fingerprint.ts:229-332 | The order of directory listings, at any level, changes neither acceptance nor manifest |
| SourceFingerprint.Scan.Build | scripts/release-source-fingerprint.ts:269-332 | The loop over the root computes that manifest |
| SourceFingerprint.Scan.CollectIncludedTree | scripts/release-source-fingerprint.ts:229-267 | The recursion pushes exactly the walk of the directory, or refuses it |
| SourceFingerprint.VisitLists | scripts/release-source-fingerprint.ts:238-260 | The walk of a node is accepted exactly when it holds no link and no special file, and lists exactly its regular files |
| SourceFingerprint.WalkOnce | scripts/release-source-fingerprint.ts:238-260 | No path is listed twice |
| SourceFingerprint.KeyIsInjective | scripts/release-source-fingerprint.ts:96-102 | Paths of slash-free names are told apart by their text |
| SourceFingerprint.SortItemsSorts | scripts/release-source-fingerprint.ts:321 | Sorting by path gives a strictly increasing manifest |
| SourceFingerprint.SameItemsSameManifest | scripts/release-source-fingerprint.ts:321 | Sorted manifests with the same items are equal |

## Left out

- CleanupIsolation.FileSystem.RemoveDirectoryAfterIsolation: other processes do not touch an unguessable name between the call that makes or last inspects it and the next call on it (mkdir then lstat of the container; the slot until its first inspection and from its last inspection to the removal; the container from its validation to its rmdir). With those windows open the source's own checks cannot tell generations apart.
- CleanupIsolation.FileSystem.RemoveOwnedFile: the same private windows; when the look that asks where a moved entry is fails itself, the raw error names no path, and the contract says only that a call then failed; of a JSON text only whether it is an owner marker, its token and its recorded identity are kept; symbolic links are files that cannot be read.
- DirectoryLock.PinnedLockIsExclusive: process identity checks never judge a live owner dead, and generations are unique; timeouts, sleeps and the TCP fence are not modelled because no safety decision reads them.
- PromotionProtocol.ManifestNeverDangles: one manifest target; the run lock and the manifest lock exclude, as DirectoryLock proves for undisturbed takeovers; updateCleanupReceipt is one step whose torn outcome makes the next read refuse the receipt; files are changed by promotions only.
- PromotionProtocol.CommitDetectionIsExact: after another full promotion has replaced the manifest, a committed promotion's receipt is reported as not committed; the equivalence says so.
- PromotionProtocol.RecoveryConverges: hidden clean-up containers are not part of the state; a receipt torn by a half-written update is not read by the rerun, which then stops.
- PromotionRollback.PromotionRun.Run: a rename either happens or not; hidden containers are counted as one artifact; each call stands for a fixed group of the source's system calls; the retry of removeOwnedFile finds the disk as its first try left it, so other processes appear here only as failures; runs that find an earlier receipt are covered by PromotionProtocol and appear here as a refusal.
- PromotionEndings.ReportsExactly: an outcome whose error could carry committed = true or not is an input; some of these inputs need an unlikely failure, such as an lstat inside a catch block. Results taken over from an earlier promotion's receipt (3994-4080, 4395-4410) are not modelled here.
- RemoteRehearsal.Rehearsal.Rehearse: starts once origin, acknowledgement, authentication and marker have been verified; commit ids are given values; discovery lists pull requests in number order; closing a pull request when its branch is deleted is not modelled.
- PaxRecords.ParsePaxRecords: keys and values are bytes, so the replacement of invalid UTF-8 by U+FFFD is not modelled.
- PackedTar.ParsePackedTreeManifest: works on decompressed bytes; texts are bytes, so the length bound of a path counts bytes; the meaning of a pax size text is a parameter over which every result quantifies; the manifest is a map, so its locale-dependent listing order is not modelled.
- VersionRanges.ParsesExactly: numbers are exact, without the rounding of JavaScript numbers above 2^53 - 1.
- ProductionClosure.CollectClosure: the comparison of the lock's root with the package, the bundled-names check and the tarball re-read are not modelled; dependency lists come in their given order.
- BundleOwnership.DeterminedByLock: paths are lists of segments; an empty closure is treated by EmptyClosure.
- StableJson.CanonicalForm: numbers are integers printed in decimal; undefined, functions and toJSON do not occur.
- WorkerCleanup.Cleanup.StopStartedWorkers: a captured identity carries the pid it was asked for; forced-kill counting and failure texts are not modelled.
- SourceFingerprint.ManifestHolds: the tree stays still during the scan, so the generation checks before and after reads never fire; content stands for digest and size.
- Real input and output, fsync, descriptors, ownership bits, hashing, subprocess plumbing, timers and retry delays: only their success, failure and failed-but-applied outcomes appear.
- Test hooks, error texts, CLI parsing, notification and benchmarks decide nothing that is published or deleted; the long evidence validators check one field after another against a constant, so that their only property is their own list of fields.
- core/runtime, shared and server code called by these scripts is not part of this model.
