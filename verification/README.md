# Verification of the backup archive and the control box's tools

A Dafny model of the parts of arena whose correctness is hardest to see from one function: the
backup archive's sync as a crash-prone protocol, the reservation of disk space between runs, the
managed block in someone else's crontab, base64, and the wrapping of help text. `dafny verify
dfyconfig.toml` checks all of it.

## What is modelled

**The archive protocol** (`ArchiveState`, `ArchiveWorld`). The state is the control box's backup
tree, what the archive's two volumes hold, the state files as they read now *and every version a
power loss may bring back*, the two tier locks, and the processes: a snap sync, a big sync, one
`forget`/`unforget`, `archive up`, and what is left over from those that died: an rsync or a delete
on the archive may go on after its command was killed and its lock is free. Each step is small: one
file read or written by rsync, one save, one lock. Pulls, deaths of any process at any point, and
power losses come between any two steps. What the outside decides (which labels, which failures, how
long rsync runs, whether links are whole) is a free choice carried by the step, so what is proved
holds for every choice. Which push a pod gets, what a push records before and after it runs, when a
label is sealed and when a pod is given up are the program's own rules, function by function
(`ArchiveState`).

`ArchiveInvariant` shows what every step keeps. `ArchiveTheorems`, `ArchiveStrays`, `ArchiveDeletes`,
`ArchiveForgets`, `ArchivePartial`, `ArchiveCharges` and `ArchiveRotation` (on the ring of `ArchiveRing`) say what
follows for whole runs, each with its condition, and for each condition the run that breaks the
result without it. `ArchiveReached` and `ArchiveUnfresh` have those runs start from nothing, and one to
a sealed label.
`ArchiveRules` says what the rules come to over several pushes, turns and runs, and `ArchivePlan` which
labels a run takes on, and that none of a backlog waits for ever.
`ArchiveSync` is `sync_snap` itself: its loops over labels and pods with its own variables, each of
its effects one step of the protocol, with any number of the others' steps in between; so that the
theorems hold of it (`SyncedBox`). `ArchiveUp` is `archive up`, attempt by attempt.

Findings about the code, each with its lemma:

- An rsync that outlives a killed sync holds no lock (`run_local` has `kill_on_drop` only). A
  `forget --delete-archived` that comes meanwhile reports the pod as deleted, and the rsync puts it
  back (`StrayOutlivesForget`); and one that had read a file before the label's last pull may
  overwrite it after the label was sealed (`StrayUnseals`).
- A power loss may bring back a `forgotten.json` from before a reported deletion (it is saved
  without syncing the directory), and the next sync then pushes the pod again (`UnsafePowerLoss`).
- A `forget --delete-archived` killed between the delete and the clearing of the sync state,
  followed by an `unforget`, leaves a label sealed that lacks the files removed
  (`KilledDeleteStaysSealed`): `unforget` clears only what is marked deleted, and that mark comes last.
  So does a clearing that is lost with the power, being saved without syncing the directory
  (`LostClearStaysSealed`).
- A `forget --delete-archived` that finds nothing of the pod on the archive ends without taking the
  locks, and a sync that was already running may then put the pod there (`NothingToDeleteIsReached`).
- Where no lock is to be had for the reservations file, runs judge their copies without one, and two
  at a time can take a disk under its floor (`UnlockedBreaksTheFloor`).
- A backup line whose log is in a folder that is just `snapshot`, or is itself named `snapshot`, is
  rendered into a line that reads back as no backup line, and the next install adds another; likewise
  a log named `--no-pull` turns the pull off (`ReadsBack` and `ReinstallChangesNothing` say exactly
  which logs do neither).

**Disk space** (`DiskLedger`, `DiskNotes`, `DiskProtocol`, `DirCover`). The ledger groups a copy's
parts by device and admits all or none; the notes file is loaded, pruned and rewritten under its
lock, or without one where none is to be had; the protocol has any number of runs reading free space,
admitting, writing, ending and dying. `u64` additions saturate as in the program. The protocol's note of a run
is, by definition, the file that `Box.JudgeCopies` leaves. `DirCover` is the choice of directories to
measure.

**The crontab** (`Text`, `CronText`, `CronLine`, `CronReadBack`, `CronDate`, `CronCommand`,
`CronMerge`, `CronInstall`, `CronMoveLog`). Taking the block out and putting it back, merging lines by kind, the diff, rendering
the backup line and reading it back, an install end to end, and moving an old log in a file system
of names, inodes and bytes.

**Base64 and wrapping** (`Base64`, `Base64Table`, `Wrap`).

## Model

| member | source | states |
|---|---|---|
| ArchiveTheorems.CrashSafeSealing | crates/cli/src/archive.rs:1386-1477 | Over every run with pulls, kills, power losses and rsyncs left over anywhere: a storable file of a pod not given up on a sealed label is on the archive with the local bytes, exactly if since these were last written no delete has removed it and no rsync left over has written others |
| ArchiveTheorems.SealedIsSettled | crates/cli/src/archive.rs:1386-1402 | The same from any world of the invariant, for the label as the program judges it |
| ArchiveTheorems.LatePullStaysSealed | crates/core/src/archive/sync.rs:150-170 | No pull of the clock's comes into a sealed label any more; one sent there by its week and day leaves it sealed, and the archive with the bytes it had |
| ArchiveState.LabelIsOfItsDay | crates/core/src/schedule.rs:55-58 | From the start date on, a time is of the label wNdM exactly on its day, start + 7N + M - 1 |
| ArchiveState.LabelEndsWithItsDay | crates/core/src/archive/sync.rs:137-147 | A label ends after every time of its own day, at midnight, and within a day of each |
| ArchiveState.OverExactly | crates/core/src/archive/sync.rs:150-170 | It may be sealed from two hours past that midnight on, and no sooner; a custom label never |
| ArchiveState.PulledIsOpen | crates/cli/src/cron.rs:93-113 | What a pull writes, begun on some day and done two hours past its midnight, goes into a label that may not yet be sealed |
| ArchiveTheorems.BornEmptySound | crates/cli/src/archive.rs:416-443 | A state marked born empty for the mounted volume, whichever version a power loss may bring back, has recorded a push for every file the volume holds, and for every rsync left over that may still write |
| ArchiveTheorems.StaleSyncBreaksBornEmpty | crates/cli/src/archive.rs:1283-1289 | A sync that read the old volume from the host file, starting before `up` marks the new one, leaves a born-empty state that does not know of its file |
| ArchiveTheorems.KilledDeleteStaysSealed | crates/cli/src/archive.rs:2122-2164 | Whenever a delete has begun to remove and has not marked its pods: killed there, and an unforget, and the label is sealed with the file gone |
| ArchiveTheorems.StrayUnseals | crates/core/src/remote.rs:183-187 | An rsync left over that has read other bytes than a sealed label's file now has, and whose comparison sends them, writes them over it |
| ArchiveTheorems.ClearedReopens | crates/core/src/archive/sync.rs:335-358 | Clearing a pod's pushes reopens every label for it and changes nothing of what is recorded of other pods |
| ArchiveTheorems.FirstWrite | crates/cli/src/archive.rs:1456-1464 | A sync that starts may write any file of a listed pod that the Files pass takes, after one durable save |
| ArchiveStrays.SealedUnlessRemoved | crates/cli/src/archive.rs:1386-1477 | Where no push that may seal begins beside an rsync left over from before its label's day and grace, a sealed label's file is on the archive exactly if no delete has removed it |
| ArchiveStrays.StepCalm | crates/cli/src/archive.rs:1267-1612 | Every step keeps that no rsync left over has undone, or will, what a state calls final |
| ArchiveDeletes.SealedIsThere | crates/cli/src/archive.rs:1386-1477 | And where besides every delete that has its locks comes to clear the sync state, and no clearing is lost with the power, what is sealed is on the archive, unless a delete of it is at work |
| ArchiveDeletes.SealedIsWhole | crates/cli/src/archive.rs:2036-2083 | Of deletes alone: then none has removed a file of a sealed label but one at work, so that it is on the archive exactly if no rsync left over has overwritten it |
| ArchiveDeletes.StepWhole | crates/cli/src/archive.rs:2036-2083 | Every step keeps that of a tree the state calls final nothing is gone but what a delete at work removes |
| ArchiveDeletes.FailedClearStaysSealed | crates/cli/src/archive.rs:2053-2080 | A clearing that fails leaves the label sealed without its file, the deletion reported |
| ArchiveDeletes.LostClearStaysSealed | crates/cli/src/archive.rs:2090-2095 | So does one that is lost with the power |
| ArchiveForgets.ForgetBeatsPush | crates/cli/src/archive.rs:2038-2077 | From the report of a deletion until an unforget the archive's two volumes hold nothing of the pod, nothing left over may still write it and no running sync may push it, however syncs were waiting, running, starting or dying; if no rsync of the pod is left over when the delete takes its locks, and the power is lost only when every list it may bring back has the reported pods |
| ArchiveForgets.UnsafePowerLoss | crates/cli/src/archive.rs:1965-2077 | When one lacks a reported pod, the power loss that brings it back is followed by a sync that puts a file of it back on the archive, any that the Files pass takes |
| ArchiveForgets.SyncedIsSafe | crates/cli/src/archive.rs:1456-1462 | The durable save at the start of any push makes a power loss safe for the forgets |
| ArchiveForgets.ReportIsSafe | crates/cli/src/archive.rs:2038-2077 | The report of a deletion keeps it safe exactly if the forget's own list can no longer be lost |
| ArchiveForgets.OthersStaySafe | crates/cli/src/archive.rs:1965-2164 | No other step of any process makes it unsafe |
| ArchiveForgets.StrayOutlivesForget | crates/core/src/remote.rs:183-187 | Whenever an rsync of one of its pods is left over as a delete takes its locks, the delete may be reported and a file of the pod be on the archive afterwards |
| ArchiveForgets.BigStrayOutlivesForget | crates/core/src/remote.rs:183-187 | The same of the big tier |
| ArchiveReached.SealedIsReached | crates/cli/src/archive.rs:1386-1477 | From nothing there is a run to a sealed label with its file on the archive |
| ArchiveReached.KilledDeleteIsReached | crates/cli/src/archive.rs:2122-2164 | From nothing there is one to a sealed label whose file a killed delete has removed |
| ArchiveReached.LostForgetIsReached | crates/cli/src/archive.rs:1965-2077 | And one to a pod back on the archive after its reported deletion, the forget lost with the power |
| ArchiveReached.StrayOutlivesForgetIsReached | crates/core/src/remote.rs:183-187 | And one to a pod that an rsync left over has put back after its reported deletion |
| ArchiveReached.StrayUnsealsIsReached | crates/core/src/remote.rs:183-187 | And, where the label is still open, one to a sealed label whose file an rsync left over has overwritten with older bytes |
| ArchiveReached.LostSuccessIsReached | crates/cli/src/archive.rs:1512-1514 | And one to a pod given up with no failure since it last got through, that success lost with the power |
| ArchiveReached.FailedClearIsReached | crates/cli/src/archive.rs:2053-2080 | And one to a sealed label without its file after a clearing that failed |
| ArchiveReached.LostClearIsReached | crates/cli/src/archive.rs:2090-2095 | And one to such a label after a clearing that was lost with the power |
| ArchiveReached.NothingToDeleteIsReached | crates/cli/src/archive.rs:2011-2016 | And one to a forgotten pod on the archive, its delete having found nothing and ended beside a sync that had begun before |
| ArchiveUnfresh.StaleSyncIsReached | crates/cli/src/archive.rs:1283-1289 | And one to a born-empty state that does not know of a file, by a sync that read the old host file |
| ArchiveUnfresh.StrayBreaksBornEmptyIsReached | crates/core/src/remote.rs:183-187 | And one to such a state by an rsync left over as its pod's delete takes its locks |
| ArchiveUnfresh.StrayBreaksSealingIsReached | crates/core/src/remote.rs:183-187 | And from there one to a label sealed by a seed, whose file the archive has older bytes of though nothing was removed or overwritten since |
| ArchiveInvariant.StepKeeps | crates/cli/src/archive.rs:1267-1612 | Every step of every process, left-over ones included, keeps the protocol's invariant: locks, volumes, claims of the state files on both sides of a power loss, the push under way, the forgotten |
| ArchiveInvariant.CompletedIsSettled | crates/core/src/archive/sync.rs:280-298 | After a check that ends, or a seed that ends on a volume born empty, after the day and its grace, each storable file of the pod is on the archive with equal bytes, exactly if none removed or overwrote it since |
| ArchiveInvariant.PutSettles | crates/core/src/archive/sync.rs:1206-1252 | Whoever writes what under whatever comparison: a file known to be on the archive, or known not to be, stays known; and one written with its own bytes is there |
| ArchiveInvariant.StartStates | crates/cli/src/archive.rs:1456-1462 | What any state that a power loss may bring back claims of the archive stays so when a push is recorded and starts |
| ArchiveInvariant.StartKeeps | crates/cli/src/archive.rs:1456-1462 | The start of a push keeps the invariant, in which the saved record is then the only one a power loss can bring back |
| ArchiveInvariant.OkStates | crates/core/src/archive/sync.rs:280-298 | What a push that went through records as final is so, in every state that may come back |
| ArchiveInvariant.SettleSaysNoMore | crates/cli/src/archive.rs:1570-1586 | Charging failures makes no state claim more of the archive |
| ArchiveInvariant.GoneKeeps | crates/cli/src/archive.rs:2122-2164 | A file may be removed at any moment, by a delete that runs or is left over: the invariant stays |
| ArchiveLocks.StepKeepsLocks | crates/cli/src/archive.rs:905-941 | Every step of every run, whatever volume a sync was told, keeps each lock with its one owner |
| ArchivePartial.PartialIsNeverAnOutage | crates/cli/src/archive.rs:1563-1586 | Over every run, power losses included: a pod given up on a label failed there in at least three runs, by a push of its own (or one that could not be made) that began after the day and its grace, each time in its own way, each run without an archive-wide failure and with the baseline or another pod getting through |
| ArchivePartial.PartialSinceSuccess | crates/cli/src/archive.rs:1563-1586 | And all of these since it last got through there, where no power loss brings back a version of the state from before the last push that did |
| ArchiveCharges.AllIsCounted | crates/cli/src/archive.rs:1563-1586 | And the other way: over every run, when a sync comes to its end, each failure in it that was a pod's own, in a push begun two hours after the label's day or later, is charged, if no failure of the archive was met and the baseline or another pod got through |
| ArchiveCharges.StepHeld | crates/cli/src/archive.rs:1465-1514 | Every step keeps that the run under way holds a charge for each failure in it, and knows who got through |
| ArchivePartial.LonePodIsNeverGivenUp | crates/cli/src/archive.rs:1245-1254 | Over every run: if nothing but the one pod ever gets through, it is never given up |
| ArchivePartial.LostSuccessStaysGivenUp | crates/cli/src/archive.rs:1512-1514 | A lost save of a success leaves the pod given up with no failure since |
| ArchivePartial.StepCounts | crates/cli/src/archive.rs:1563-1586 | Every step keeps every count of failures, in every state that may come back, within the charges made |
| ArchivePartial.SettleStands | crates/cli/src/archive.rs:1570-1586 | Every charge a run makes stands on that run's own evidence, once per pod and label |
| ArchivePartial.SettleBacked | crates/core/src/archive/sync.rs:303-317 | No count of failures exceeds the charges that were made |
| ArchiveState.RotatedIsPermutation | crates/cli/src/archive.rs:1257-1262 | The push order is a permutation that starts at the cursor |
| ArchiveState.SplitPermutes | crates/cli/src/archive.rs:1259 | The two halves exchanged hold the same pods, each once |
| ArchiveRules.TwoPushesDo | crates/core/src/archive/sync.rs:180-209 | Once a label is over, a pod's first push that gets through makes it final, unless it is its first of all and the volume was not born empty; its second does in any case; then it is only updated. A whole chain leaves it linked |
| ArchiveRules.OnePushDoes | crates/core/src/archive/sync.rs:180-209 | Before that nothing becomes final, and after one push a pod is only updated |
| ArchiveRules.LinkedByContent | crates/core/src/archive/sync.rs:274-298 | A pod comes to be linked exactly by a push against a whole chain, and by no update that had something to link to |
| ArchiveRules.CutOffIsTakenUp | crates/core/src/archive/sync.rs:265-272 | A seed that was cut off is followed by a check, another push by the same again |
| ArchiveRules.HeldExactly | crates/core/src/archive/sync.rs:221-232 | A pod waits for its pull exactly if it was never pushed on a label that is not yet over |
| ArchiveRules.ForcedIsChecked | crates/core/src/archive/sync.rs:180-209 | Asked for by name it is checked, and final once the label is over |
| ArchiveRules.ClearedIsNew | crates/core/src/archive/sync.rs:335-358 | Its copy deleted, a pod is new to every label: the next push a seed, no failures, not given up, not the cursor; every other pod's record is as before |
| ArchiveRules.FailureClasses | crates/core/src/archive/sync.rs:1256-1306 | A failure is charged to the pod exactly if it is not the archive's: a timeout, something in the way, an error of rsync's |
| ArchiveRules.GivenUpAtTheThird | crates/core/src/archive/sync.rs:303-317 | A pod is given up exactly from its third failure of its own in a row in a push begun two hours after the label's day or later, until it gets through |
| ArchiveRules.SettledExactly | crates/cli/src/archive.rs:1570-1586 | A run without an outage charges a pod exactly its own failures in such pushes where the baseline or another pod got through, and gives up on who comes to three |
| ArchiveRules.TurnSeals | crates/cli/src/archive.rs:1518-1536 | A complete turn seals its label exactly if it is dated, the turn began two hours after its day or later, every push left its pod linked, and each pod is through and final or given up |
| ArchiveRules.UnfinishedIsOpen | crates/core/src/archive/sync.rs:150-170 | Without a complete turn, or one that linked every pod, a label is not sealed |
| ArchiveRules.FilterKeepsOrder | crates/cli/src/archive.rs:1395 | Who is left out of a turn changes nothing of the others' order |
| ArchiveRules.OnceListed | crates/core/src/archive/sync.rs:598-613 | Whoever was on the list of a sync that pushed is pushed by every later one, on the list or off it, through kills and power losses: but the staff, and who is forgotten then |
| ArchiveRules.ListedIsRemembered | crates/cli/src/archive.rs:1287 | A sync adds to those who were ever to be pushed exactly who is on its list, but the staff and the forgotten |
| ArchiveRules.StartRemembers | crates/cli/src/archive.rs:1456-1462 | From its first push on they are in every version that a power loss may bring back |
| ArchiveRules.StepKnows | crates/cli/src/archive.rs:1287 | Every step keeps that, in the file, the run and every version a power loss may bring back |
| ArchiveRules.OnlyWhatMayLeave | crates/core/src/archive/sync.rs:1225-1243 | Over every run, left-over rsyncs included, no barred file comes to the archive, nor one over the cap and not in git |
| ArchiveRules.AllThatMay | crates/core/src/archive/sync.rs:1225-1243 | Every file that may go is in one of the passes of every kind of push |
| ArchiveRules.PushLeaves | crates/core/src/archive/sync.rs:170-181 | What the passes of a push make of a file that may go: a seed leaves it there, as it is here if it was missing; an update with its size and time; a check with its bytes and its time; and no push touches another file |
| ArchiveRules.TurnIsTried | crates/cli/src/archive.rs:1391-1394 | A label's turn has it tried when the turn began, and leaves the other labels as they were |
| ArchiveRules.StepKeepsTried | crates/cli/src/archive.rs:1391-1394 | Every step of a turn keeps that |
| ArchivePlan.PlanSnap | crates/core/src/archive/sync.rs:467-497 | The plan: the newest label first if it is not sealed; then, oldest first, the open ones with fewer than three others tried less recently; then those asked for, dated ones by their day; each once. Deferred is the rest of the open ones |
| ArchivePlan.NoLabelWaitsForEver | crates/core/src/archive/sync.rs:457-466 | In runs in a row, a label with k of the backlog ahead of it is pushed in the run k / 3 later, or before; in just that one while none of the backlog is sealed |
| ArchivePlan.PassedOver | crates/core/src/archive/sync.rs:457-466 | A run that passes a label over leaves three fewer ahead of it, or fewer still |
| ArchiveSync.SnapSync.SyncSnap | crates/cli/src/archive.rs:1267-1612 | A whole sync is a run of the protocol from where the box was to where it is, one of those the theorems are about if it read the current host file; it runs exactly if the lock was free, and ends with it free. Unless the archive itself failed, each label of the plan whose folder is there has had its turn, in the plan's order, over those of its pods that are or were listed, neither staff nor forgotten nor given up (but when asked for by name), rotated to the cursor it found. Each pod reached was left out, held for its pull or pushed, as the outside had it; and of a push that went through, what lay in the pod's tree before, steady, and may go was sent. Its last step settles what it charged |
| ArchiveSync.AskedIs | crates/cli/src/archive.rs:1380-1396 | Who a label's turn is over |
| ArchiveSync.SnapSync.PushLabels | crates/cli/src/archive.rs:1366-1376 | The loop over the plan gives each label its turn in order, until all had it or the archive failed |
| ArchiveSync.SnapSync.PushBaseline | crates/cli/src/archive.rs:1310-1365 | The baseline got through exactly as the outside had it; a failure of the archive ends the run there |
| ArchiveSync.SyncedBox | crates/cli/src/archive.rs:1267-1612 | After any number of such syncs on a box that began with nothing: sealed labels are as sealing promises, a born-empty state covers the volume, and nothing of a reported pod is there |
| ArchiveSync.SnapSync.PushLabel | crates/cli/src/archive.rs:1386-1524 | One label's turn: the pods reached are a prefix of the rotated order, and the cursor saved is the first not reached, else one cut off, else none |
| ArchiveSync.SnapSync.PushPods | crates/cli/src/archive.rs:1408-1516 | The loop over the order reaches pods one by one until all, the budget, or an archive-wide failure |
| ArchiveSync.SnapSync.NextPod | crates/cli/src/archive.rs:1425-1454 | One pod is past, or none for want of time; nobody is charged, or that pod once, with a failure of its own kind |
| ArchiveSync.SnapSync.LeaveItOut | crates/cli/src/archive.rs:1424-1433 | A pod that cannot be pushed is past, and charged |
| ArchiveSync.SnapSync.LeaveTheRest | crates/cli/src/archive.rs:1435-1441 | Without time for a pod the turn is over, and it is the cursor |
| ArchiveSync.SnapSync.WaitForPull | crates/cli/src/archive.rs:1442-1455 | A pod that waits for its pull is past, and not charged |
| ArchiveSync.SnapSync.PushPod | crates/cli/src/archive.rs:1456-1464 | Past its push the run is where the variables say, the pod counted as reached and nobody else charged; or stopped by a failure of the archive |
| ArchiveSync.SnapSync.SaveBeforePush | crates/cli/src/archive.rs:1456-1464 | The record is saved as the protocol saves one durably, before a file is sent |
| ArchiveSync.SnapSync.Record | crates/cli/src/archive.rs:1465-1514 | Through: the pod is recorded so, its failures wiped; cut off: it is the cursor unless one was before, and not charged; failed: charged once, its label incomplete; a failure of the archive: the run stops and charges nobody |
| ArchiveSync.SnapSync.RunPush | crates/cli/src/archive.rs:1117-1154 | A push whose rsync runs all end is past the last of its passes, and has sent every file of the pod that was there before, steady, and may go |
| ArchiveSync.SnapSync.SendAll | crates/cli/src/archive.rs:1117-1154 | An rsync run that ended has gone past every file of its pass that was there when it began and steady since, and over a final tree past every file, whatever others did meanwhile |
| ArchiveSync.SnapSync.SettleCharges | crates/cli/src/archive.rs:1570-1586 | The loop over the charges is the protocol's settling of all of them |
| ArchiveSync.OthersLeave | crates/cli/src/archive.rs:905-941 | No other process changes the state file, the run or a past day's tree of a sync that holds its lock, but for deleting files |
| ArchiveSync.TurnEnds | crates/cli/src/archive.rs:1518-1528 | What is saved when a turn ends, cursor included |
| ArchiveRotation.NoPodStarves | crates/cli/src/archive.rs:1395-1402 | Over every run of the protocol in which the label's cursor survives: in any n turns of it over the same n pods, each getting to at least one, every pod is reached: in one of them its push was started, or it was left out or held back for its pull |
| ArchiveRotation.StepGiven | crates/cli/src/archive.rs:1408-1464 | Every step keeps that each pod a turn has reached was pushed, left out or held in it |
| ArchiveRotation.StepCursor | crates/cli/src/archive.rs:1257-1262 | Every step but a clearing of the pod it is at, a change of the volume and a power loss that may lose it keeps the cursor where the label's last turn left it, in the file, the run and the turn |
| ArchiveRotation.CursorSaved | crates/cli/src/archive.rs:1518-1528 | The cursor saved at the end of a turn is the one the next finds, and the turn went from the last one's on |
| ArchiveRing.RingIsReached | crates/cli/src/archive.rs:1395-1402 | Turns in a row, each starting where the last stopped, go round the ring of pods |
| ArchiveRing.FewerMayStarve | crates/cli/src/archive.rs:1435-1441 | n - 1 turns may leave one pod out, for every n |
| ArchiveRing.RotatedAgain | crates/cli/src/archive.rs:1257-1262 | Rotating a rotated order is rotating the order: the pods form a ring |
| ArchiveUp.Project.Up | crates/cli/src/archive.rs:400-413 | An attempt makes nothing twice and loses nothing; a project that is ambiguous is left alone, and one that is not is never refused: if each call succeeds and is whole, the attempt gets through, and then server, volumes and guards are all there; one that finds them so does nothing |
| ArchiveUp.RefusedExactly | crates/core/src/archive/plan.rs:216-272 | A project is refused exactly if it is ambiguous: a lookalike, two servers, keys or volumes of a tier, a volume of none, unfit or attached to another server, or a foreign key without a server |
| ArchiveUp.EmptyIsNotRefused | crates/core/src/archive/plan.rs:216-272 | An empty project is not |
| ArchiveUp.Project.RunPlan | crates/cli/src/archive.rs:447-530 | The steps of a plan, until one fails: what is there then has a plan again, and none is left to do if all went through |
| ArchiveUp.Project.RunUpStep | crates/cli/src/archive.rs:447-530 | A step that fails with or without its effect keeps at most one of everything; one that succeeds leaves exactly the rest of the plan to do |
| ArchiveUp.Project.Attempts | crates/cli/src/archive.rs:400-413 | Any number of attempts, each stopping anywhere: never two servers, keys or volumes of a tier, every volume stays the same one, and a project that is not ambiguous never comes to be; a last one whose calls all succeed leaves everything there |
| ArchiveUp.Project.ListAgain | crates/cli/src/archive.rs:460-509 | What a fresh listing finds lets a create go on only where the thing is missing |
| ArchiveUp.StepDone | crates/core/src/archive/plan.rs:216-272 | The plan for what is there after a planned step is the rest of the plan |
| ArchiveUp.HalfDone | crates/cli/src/archive.rs:498-513 | A volume made but not guarded is not refused by the next attempt: for its tier that one has only to guard it, and makes no other |
| ArchiveUp.EffectKeeps | crates/cli/src/archive.rs:458-530 | Whatever comes of a step, planned or not, nothing is there twice and nothing is gone |
| ArchiveUp.EmptyIsReady | crates/core/src/archive/plan.rs:216-272 | With nothing left to do everything is there, guarded, attached and on |
| DiskLedger.JudgeIsExact | crates/core/src/disk.rs:247-273 | On any filesystem with less than the whole of u64 free the saturating sums judge exactly |
| DiskLedger.ShortIsJustEnough | crates/core/src/disk.rs:247-273 | What the skip says must be freed is just enough, to the byte |
| DiskLedger.Ledger.Admit | crates/core/src/disk.rs:306-325 | A copy is admitted exactly if on every device it touches its first reading has room for the floor, others, what is held and the copy: 3 GB for each first copy not measured, 100 MB for each later one, the bytes of each measured; all parts or none, and the skip is about the first device that is short |
| DiskLedger.FitsExactly | crates/core/src/disk.rs:306-325 | On readings of less than the whole of u64 the saturating judgement of a copy is the sum over its parts, device by device |
| DiskLedger.HoldsMore | crates/core/src/disk.rs:306-325 | On a device a copy touches what is held after it is what was held and what it takes, if that fits into 64 bits |
| DiskLedger.NeedIs | crates/core/src/disk.rs:100-107 | What the parts on a device need, counted part by part and capped |
| DiskLedger.FirstReading | crates/core/src/disk.rs:307-310 | The reading a copy is judged on is that of its first part on the device |
| DiskLedger.GroupByDev | crates/core/src/disk.rs:307-310 | Parts by device, each with the first reading of it |
| DiskLedger.AdmittedFits | crates/core/src/disk.rs:306-325 | Floor, others and all admitted fit into the one reading held for each device |
| DiskNotes.JudgeCopiesWith | crates/cli/src/disk.rs:124-138 | The skipped are exactly the copies not admitted in turn, in order, and what is taken is the admitted ones' |
| DiskNotes.Box.JudgeCopies | crates/cli/src/disk.rs:85-119 | With the lock kept by another run, without the notes or without the note of its own, nothing is admitted and nothing written; else, and also where no lock is to be had, the file is the pruned notes and the run's own |
| DiskNotes.Box.Drop | crates/cli/src/disk.rs:149-157 | Letting go removes this admission's notes and no others, or nothing |
| DiskNotes.SkippedLeaveNoTrace | crates/core/src/disk.rs:306-325 | A skipped copy costs the others nothing: judged alone the admitted ones are admitted again, holding the same |
| DiskNotes.RunFits | crates/cli/src/disk.rs:124-138 | All a run admits, with what others hold and the floor, fits into its readings |
| DiskNotes.ByDevSums | crates/core/src/disk.rs:877-884 | The saturating totals are the sums, capped |
| DiskNotes.PruneCounts | crates/core/src/disk.rs:872-874 | Pruning keeps each note that stands as often as it is there, and no other |
| DiskNotes.ReleaseCounts | crates/core/src/disk.rs:892-894 | Releasing drops exactly the admission's notes |
| DiskProtocol.NeverUnderTheFloor | crates/cli/src/disk.rs:85-119 | Over every run of any number of runs, each at the notes under their lock: free space less what live copies may still write stays at or above the floor where it was, and on a device under it nothing is live |
| DiskProtocol.UnlockedBreaksTheFloor | crates/core/src/snapshot.rs:552-567 | Where no lock is to be had, two runs judge at once, the second's save drops the first's note, and free space goes under the floor |
| DiskProtocol.StepKeeps | crates/cli/src/disk.rs:85-157 | Every step of every run that holds the lock when at the notes keeps that, readings taken while others write included |
| DiskProtocol.RoomFor | crates/core/src/disk.rs:313-320 | What a run is about to hold is spare now, though its reading is older |
| DiskProtocol.PrunedLiveBreaksTheFloor | crates/core/src/disk.rs:870-874 | A note pruned while its copy still writes (a day and two hours old, or its run not seen) lets the next run take the disk under the floor |
| DiskProtocol.PrunedLiveIsReached | crates/core/src/disk.rs:870-874 | From a box with nothing noted there is such a run |
| DirCover.Kept | crates/cli/src/disk.rs:341-350 | The kept directories are inputs, none inside another, and everything lies in one |
| DirCover.HeldOnce | crates/cli/src/disk.rs:341-350 | No path lies in two kept directories |
| DirCover.CoverIsTheTopmost | crates/cli/src/disk.rs:341-350 | There is only one such choice: the inputs with no other input above them |
| DirCover.Sort | crates/cli/src/disk.rs:343 | Component-wise sorted, the same paths |
| DirCover.UnderSortsAfter | crates/cli/src/disk.rs:343 | A directory sorts before everything under it |
| CronText.StripArenaBlock | crates/cli/src/cron.rs:118-133 | The loops leave the lines outside every block, without the newlines at the end |
| CronText.WithArenaBlock | crates/cli/src/cron.rs:145-164 | The new crontab is someone else's lines, then the markers around the new ones; without lines, just the former |
| CronText.WithReadsBack | crates/cli/src/cron.rs:145-164 | Between the markers are exactly the lines written; stripping gives what stripping gave before |
| CronText.WithTwice | crates/cli/src/cron.rs:145-164 | The last block written is the only one |
| CronText.StripTwice | crates/cli/src/cron.rs:118-133 | Stripping is idempotent |
| CronText.UnclosedSwallows | crates/cli/src/cron.rs:118-133 | A block whose end is missing reaches to the end of the text |
| CronText.ManagedIsWritten | crates/core/src/cron.rs:153-168 | What is written is what the next install reads as arena's |
| CronMerge.MergeCronBlock | crates/cli/src/cron.rs:913-936 | The two loops are the merge the laws below are about |
| CronMerge.MergeIsTargeted | crates/cli/src/cron.rs:907-936 | Untouched lines stay byte for byte in order; of each touched kind there is its added line once, or none |
| CronMerge.MergeKeepsThePlace | crates/cli/src/cron.rs:913-926 | A new line is where the first old one of its kind was |
| CronMerge.MergeAppends | crates/cli/src/cron.rs:927-934 | One that replaces none comes after the block's lines |
| CronMerge.MergeTwice | crates/cli/src/cron.rs:913-936 | Merging the same additions again changes nothing |
| CronMerge.CronDiff | crates/cli/src/cron.rs:943-972 | The diff shows every copy: removed, added and kept are the two excesses and the lesser count of each line, and kept with added in order are the new block |
| CronReadBack.ReadsBack | crates/cli/src/cron.rs:806-825 | A rendered backup line gives back schedule, date and pull exactly if its log is not mistaken for a job's name or the option; with a log given from the root it never is |
| CronReadBack.NoPullIsRead | crates/cli/src/cron.rs:806-825 | With the log `--no-pull`, all but the pull is read back, and the pull as off |
| CronReadBack.LogReadsBack | crates/core/src/cron.rs:275-284 | The log read from a rendered line is the one rendered |
| CronReadBack.JobOfRender | crates/core/src/cron.rs:225-249 | A rendered line is of the backup kind exactly if neither its log nor its log's folder is `snapshot` |
| CronReadBack.WordsOfRender | crates/cli/src/cron.rs:1062-1082 | A rendered line splits into the words it was made of |
| CronReadBack.DateIsWord | crates/core/src/schedule.rs:42-51 | A valid trimmed date is one word |
| CronDate.FirstDateIsRead | crates/cli/src/cron.rs:806-825 | Of a line's assignments before the command the first with a valid date gives the start date |
| CronDate.NoDateBehindTheCommand | crates/cli/src/cron.rs:806-825 | Behind a word that is no assignment none is read |
| CronDate.ValueIs | crates/core/src/schedule.rs:42-51 | Numbers are read as decimal |
| CronDate.DateIsRead | crates/core/src/schedule.rs:42-51 | Three numbers with dashes between them are a date exactly if the month is 1 to 12, the day 1 to 31 and the year fits into 64 bits |
| CronReadBack.RenderIsPlain | crates/cli/src/cron.rs:515-538 | A rendered line is one line and no marker |
| CronInstall.ReinstallChangesNothing | crates/cli/src/cron.rs:872-907 | Where its line can be written, installing again without flags leaves the crontab as it is exactly if the line can be read back, whatever the crontab and the flags |
| CronInstall.FirstInstall | crates/cli/src/cron.rs:222-224 | After a first install with paths that `crontab_word` accepts, installing again always changes nothing |
| CronInstall.InstallIsTargeted | crates/cli/src/cron.rs:326-333 | An install that can write its line leaves the rest of the crontab alone, and the block's other lines exactly if the line is of the backup kind |
| CronInstall.InstallGives | crates/cli/src/cron.rs:872-907 | After an install the block has one backup line, and it reads as the flags say, else as the line before did, else the default: schedule, start date and pull; its log is the one the line before had chosen, else today's default |
| CronCommand.RenderIs | crates/cli/src/cron.rs:1062-1082 | The line as one text: its schedule, the folders it makes, the date it sets, the lock that a second tick does not wait for, the command, and where both outputs go |
| CronCommand.FolderOfLog | crates/core/src/cron.rs:131-138 | It makes the folder its log is in besides arena's own, exactly if the log is a plain word in another folder |
| CronLine.KindIs | crates/core/src/cron.rs:225-249 | A line is of a kind exactly if it is no comment, has the words of that job next to each other, and of no other |
| CronMoveLog.FileSystem.MoveCronLog | crates/cli/src/cron.rs:719-739 | Moved: the old name gone, the new file what it held and then the old log (or just that); refused, exactly if the new name is of something that is no regular file: nothing changed; failed: the old log whole, the new one at most a piece longer. With no call failing it is moved or refused |
| CronMoveLog.FileSystem.CopyOnto | crates/cli/src/cron.rs:731-733 | The copy appends a prefix of the old log as it was, all of it when it ends |
| CronMoveLog.StoppedAfterTheLink | crates/cli/src/cron.rs:723-737 | Stopped between link and unlink and run again, the content is there once |
| CronMoveLog.StoppedAfterTheCopy | crates/cli/src/cron.rs:731-737 | Stopped between copy and unlink and run again, it is there twice |
| Base64.Encode | crates/core/src/base64.rs:9-23 | The loops compute the encoding |
| Base64.Decode | crates/core/src/base64.rs:29-60 | The loops compute the decoding, errors included |
| Base64.RoundTrip | crates/core/src/base64.rs:9-60 | Every byte string comes back |
| Base64.DecodesExactlyTheGrammar | crates/core/src/base64.rs:29-60 | Decoding succeeds exactly on the padded grammar, giving three bytes a quad less the padding |
| Base64.NearCanonical | crates/core/src/base64.rs:46-57 | Encoding what a text decodes to gives its length and all its characters but the last data one of a padded end; all of them exactly if the discarded bits are zero |
| Base64.EncodedLength | crates/core/src/base64.rs:9-23 | Four characters for every three bytes begun |
| Base64Table.EncodedAt | crates/core/src/base64.rs:9-23 | Each character is of six bits of the bytes in order, by the table, with zeros past the last byte, then padding (section 4 of RFC 4648) |
| Base64Table.RefusalTells | crates/core/src/base64.rs:29-60 | A refusal names the length that is no number of quads, or a character that is there and not in the alphabet; padding out of place is said only where there is some |
| Base64.TablesInverse | crates/core/src/base64.rs:34-43 | The alphabet and the values are inverse |
| Wrap.WrapText | crates/cli/src/help.rs:140-158 | The nested loops compute the wrapping |
| Wrap.WrapsEachLine | crates/cli/src/help.rs:138-158 | The lines of the result are those of each source line wrapped, in order, and no others |
| Wrap.WrapKeepsTheWords | crates/cli/src/help.rs:140-158 | A line's words in order and its indent are kept; each output line fits or is one word |
| Wrap.WrapIsShortest | crates/cli/src/help.rs:145-154 | No other way to put the words on lines that fit uses fewer |
| Wrap.WrapAgain | crates/cli/src/help.rs:138-158 | Wrapping again is the identity exactly when the text is not of several lines the last of which is blank |

## Left out

- ArchiveTheorems.CrashSafeSealing: has two exceptions, files that a delete has removed and files that an rsync left over has overwritten, because `KilledDeleteIsReached` and `StrayUnsealsIsReached` show both (`ArchiveDeletes.SealedIsThere` says when there are none); and assumes that a sync reads the current host file, that `up` mounts another volume when no sync runs and no rsync is left over, and that a delete that has its locks finds none left over of its pods (`Fresh`; `StaleSyncIsReached` and `StrayBreaksSealingIsReached` otherwise).
- ArchiveStrays.SealedUnlessRemoved: assumes that no push that may seal begins beside an rsync of its pod and label left over from before the day and grace (`StrayUnsealsIsReached` otherwise).
- ArchiveDeletes.SealedIsThere: assumes that no delete at work is killed, times out or fails to clear the state, and that the power is not lost while one is at work or while a clearing may still be lost with it (`KilledDeleteIsReached`, `FailedClearIsReached` and `LostClearIsReached` otherwise).
- ArchiveForgets.ForgetBeatsPush: is about deletions that were reported, not about one that found nothing to delete (`NothingToDeleteIsReached`); assumes, at a power loss, that the directory was synced since the last report (`LostForgetIsReached` otherwise), and, when a delete has its locks, that no rsync of its pods is left over (`StrayOutlivesForget` otherwise); and one forget or unforget in flight, since these do not lock against each other.
- ArchiveTheorems.BornEmptySound: assumes each sync reads the current host file, because `StaleSyncIsReached` shows what happens otherwise, that none of its pods' rsyncs is left over when a delete has its locks (`StrayBreaksBornEmptyIsReached` otherwise), and that a new volume is mounted when no sync runs and no rsync is left over.
- ArchivePartial.PartialSinceSuccess: assumes that no power loss brings back a version of the state from before the last push that got through (`LostSuccessIsReached` otherwise).
- ArchiveRotation.NoPodStarves: is about a fixed set of pods, turns that come to the end of the label, as the cursor is saved only there, and runs in which the cursor survives: no forget that clears the pod it is at, no other volume, no power loss that may bring back another cursor.
- ArchiveSync.SnapSync.SyncSnap: is a run that does not die and during which the power holds; deaths and power losses are the protocol's own steps. What the outside decides for a pod (its folder, time left, a pull at work, how its push ends) is one input for its turn.
- DiskProtocol.NeverUnderTheFloor: assumes that who comes to the notes gets their lock (`UnlockedBreaksTheFloor` otherwise), that live copies write no more than was noted, that nothing else writes, that only dead runs' notes are pruned (`PrunedLiveBreaksTheFloor` otherwise), that no other version replaces the notes, and that no two live admissions share process id and token.
- CronInstall.ReinstallChangesNothing: is about an install of the backup line in a block without archive lines, which an install of the backup line renders again too; and about schedules written with single spaces between their fields and start dates without space around them.
- Pulls into a dated label that the operator names by week and day, or that run on for more than two hours past midnight: the clock's own pulls are modelled (`LatePullStaysSealed` otherwise).
- A save that fails: one that fails before its rename is a sync killed there; one that fails after it, before the directory is synced, leaves one more version that a power loss may bring back, and the sync ends without starting its push.
- A push under way reads and writes a file in one step, since the files it must have final do not change; an rsync left over reads and writes in two.
- An rsync on the archive ends with a power loss of the control box that feeds it; a delete that runs on the archive does not.
- ArchivePlan.NoLabelWaitsForEver: is about runs at different seconds that the archive lets come to their end, and a backlog that only shrinks; a label that comes to it untried goes ahead of the others.
- The choice of link sources (`link_labels_for`, `chain_ok`): any choice is allowed, which covers theirs. `SyncSnap` takes any plan, `PlanSnap` is the one that is made.
- What the state files carry for `status` only: last run, last error, counts of files and bytes, pods failing, waits for pulls.
- The contents of the fleet baselines, and whether labels seal without them; only that their push got through or failed matters here.
- The inodes that labels share on the archive: a saving of space, not of content.
- The big tier's state file and its order of pods; its pushes and its lock are modelled.
- The readings of `Watch`, `tier_size` and the words of skips: they would add only easy members.
- Which old cron files are tidied, and the other jobs' lines: `CronMoveLog` moves one log.
- Locations, types and prices of servers; a volume's format, place and size are one condition. A placement error is taken to have made nothing.
- Dry runs, printed text, confirmation, SSH and HTTP themselves, real clocks.
- Text is a sequence of characters with `\n` as the only line break; a character is one column and, for base64, one byte.
