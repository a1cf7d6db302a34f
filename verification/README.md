# kdmp: a model of the data export protocol

kdmp moves the contents of a Kubernetes volume to an object store and back. A `DataExport` object asks for one transfer;
a controller drives it through its stages, starts a job whose pod runs kopia, and reads the outcome from a
`VolumeBackup` object that the pod keeps up to date. This project models that protocol in Dafny and proves what holds
over whole runs of it: with crashes between any two side effects, lost answers, edits by others, pods that restart, and
threads that interleave at every field access.

## How the model is laid out

| files | what they model |
|---|---|
| `KdmpApi`, `Text`, `Wrappers`, `ExecutorApi` | the custom resources, the string functions of Go the code relies on, results |
| `StatusStore` | the versions of one export on the API server, and `updateStatus`, the retry loop every status change goes through |
| `Reconciler` | `sync` and its stage handlers: what a handler decides is a function of the object and of the cluster's answers |
| `Controller` | `sync` as it runs: decide, then write through `updateStatus`; the wait for the VolumeBackup; `Reconcile` |
| `Verdicts` | each answer of the drivers and the snapshotter and what `sync` makes of it: success, a recorded failure and its reason, an error, or waiting |
| `Runs`, `Lifecycle`, `GoodRuns` | the state diagram, the invariant of every reachable export, progress, verdict, bookkeeping over whole runs, and how good answers lead to success |
| `Naming`, `Repositories` | job ids, snapshot claim names, repository paths, and which repository a run of an export writes to |
| `Drivers`, `VolumeBackups`, `OtherPods` | the drivers' verdicts, the backup pod and the VolumeBackup it writes, the restore pod, which writes it too, and the delete pod |
| `Handshake`, `Transfers` | the backup protocol end to end, over all VolumeBackups of a cluster and with restore pods around; traces of it that succeed, and exactly when one can succeed without a snapshot |
| `KopiaExecutors` | the executors of kopia commands, whose waiter and `Status` share fields without a lock |
| `ResticExecutors`, `ResticOutput` | the executors of restic commands, which lock, and the parsing of what restic prints |
| `JobRateLimit`, `Admission`, `Slots`, `Overload` | counting jobs, `StartJob` of three drivers as an interleaved protocol with locks, what its refusals mean and when it must succeed, and a run of it that exceeds the limit |
| `JobStarts` | the reconciler and `StartJob` together, for a `sync` repeated any number of times |
| `Cleanup`, `CleanRuns` | the cleanup under partial failure, and the reconciler and the namespace together: what is left when an export ends or is deleted |
| `Maintenance`, `Credentials` | the maintenance loop, the backup location on its way through a secret |

What the environment may do is a parameter everywhere: the answers of the API server, the drivers and the snapshotter,
which requests fail, which take effect although their answer is lost, when commands end, and where a process dies.
One answer is not free: a kopia `StartJob` that succeeds names the job after the export (`Reconciler.Honest`). That is no
assumption about the drivers: `JobStarts.JointRunIsRun` derives it for every run of the reconciler and `StartJob` together.

## Assumptions

- One controller process works on an export at a time, and its `sync` reads the status it last wrote
  (`Lifecycle.StaleReadUndoesVerdict` shows what a stale read would do). Reads inside `updateStatus` may be stale.
- Only the controller writes `Status`; the creator's `Spec` and `Status.LocalSnapshotRestore` do not change. Labels,
  finalizers and the deletion mark may change at any moment.
- One backup pod writes the VolumeBackup at a time, and only the controller's cleanup deletes it. Restore pods write it
  too, at any moment while a restore export that names it exists: that no such export exists is not assumed, but is the
  condition of the end-to-end result (`Handshake.EndToEnd`), and needed (`Transfers.SafeExactlyWhenUnshared`).
- Jobs are listed and read linearizably, a listing names every namespace once, and no request of a dead process lands later.
- The end-to-end results are about namespaces without a slash in their names, which Kubernetes does not allow.
- A deletion that the API server accepts counts as done; finalizers on the deleted resources are not modelled.
- Retry loops (`task.DoRetryWithTimeout`) are bounded; a loop that waits forever may be cut by the death of its process.

## Where the code does not do what one would expect

- An error in listing the namespaces is only logged, and the empty list counts as no jobs. The rate limit is kept up to a
  point if and only if no call whose listing failed creates a job while all slots are taken (`Admission.RateLimit`);
  whatever the driver and the limit, that does happen in a run with a single failed listing (`Overload.LimitCanBeExceeded`).
- The reconciler reads the VolumeBackup a second time after the driver has said Completed, and does not check it. A restore
  export that names this VolumeBackup, through its source's name and its destination's namespace, has a pod that replaces
  the whole status with one that names no snapshot. Between the two reads that makes a backup end Final and Successful
  without its snapshot (`Transfers.SharedBackupCanLoseItsSnapshot`); a backup is safe from it if and only if no restore
  export names its VolumeBackup (`Transfers.SafeExactlyWhenUnshared`).
- When the temporary claim of a snapshot exists already, as after a crash, the CSI snapshotter returns the empty result
  of its failed create. The export records no claim name, and the backup goes to a repository whose name lacks the last
  dash-separated part of the claim's (`Repositories.ExistingClaimLosesRepository`, `Repositories.RunUsesOwnRepository`).
- `updateStatus` treats "not found" as success and writes the caller's object, with whatever the handler had changed in
  it (`Lifecycle.CallerCopyAgrees` says exactly when that makes a difference).
- For the same reason a recorded snapshot is lost once it is restored from: a VolumeBackup keeps what it records if and
  only if it is neither deleted nor written by a restore pod (`OtherPods.SnapshotIsWriteOnce`).
- The driver reports the job's first condition, true or not, next to its verdict, and `sync` looks at that first: as long as
  the job has no condition, and when the id does not parse, a failed node or an error recorded by the pod keeps the export
  waiting instead of failing it (`Verdicts.AnswerDecides`, `Verdicts.BackupVerdict`).
- A failure of the snapshotter without a reason leaves the reason of an earlier state in the export
  (`Lifecycle.FailureIsExplained`).
- A secret that exists is kept, although the backup location has changed since; `Credentials.StaleSecretIsCurrent` says
  when that matters.
- The kopia delete and maintenance executors can report a failed command as done (`KopiaExecutors.FalseSuccessWindow`).
- A failed restic restore whose stderr is nothing but newlines is never done (`ResticExecutors.FinishedIsDone`).
- A snapshot backup of a claim whose name is longer than 247 bytes uses another repository even when nothing goes wrong:
  the name is cut for the temporary claim, and not restored from it (`Repositories.RepositoryIdentity`). A deletion, which
  frames the full name, then does not find the backup (`Repositories.EveryPodFindsTheRepository`).
- `cleanUp` without a recorded transfer id deletes only the certificate secret (`Cleanup.Namespace.CleanUp`). When the
  controller dies between `StartJob` and recording the id and the export is deleted, it loses its finalizer while the job,
  its accounts and its credentials are all still there (`CleanRuns.DeletionCanLeaveTheJob`); the namespace is clean if and
  only if an id was recorded or nothing was left to delete (`CleanRuns.ReleasedExportIsClean`).
- The VolumeBackup is deleted before the role that lets a pod create it: a pod that comes back in between recreates it, and
  `cleanUp` still returns nil (`Cleanup.PodReturns`, in `Cleanup.Namespace.CleanUp`).
- Two claims of different namespaces can share a repository (`Naming.RepositoryCollisionExists`).
- The quick maintenance (pkg/executor/kopia/maintenance.go:209-238) runs the command of the full one; the model's
  outcomes cover either.

## Model

| member | source | states |
|---|---|---|
| StatusStore.ExportStore.UpdateStatus | pkg/controllers/dataexport/reconcile.go:1211-1279 | Against any foreign writes, stale reads, conflicts and lost answers, all the call adds to the history are others' edits and its own patch on the version it replaces. On a nil return the newest version is its own and holds, field by field, what the patch asks for, and where it does not ask, what the version before it, or the caller's copy of that version, had; likewise the finalizer; merging again changes nothing. It fails only if turn after turn has failed, and a turn between whose read and write nobody else wrote, and whose requests were answered, only because its read was stale, or the object gone, at that turn. |
| StatusStore.ExportStore.TryUpdate | pkg/controllers/dataexport/reconcile.go:1213-1270 | The same for one turn of the retry loop, measured against the history as that turn found it, and what the copy in memory is afterwards. |
| StatusStore.ExportStore.WriteBack | pkg/controllers/dataexport/reconcile.go:1262-1267 | The write of one turn: accepted exactly if it is delivered, the object is live and nobody has written since the version it carries. |
| StatusStore.ExportStore.ReadAndMerge | pkg/controllers/dataexport/reconcile.go:1217-1260 | The copy in hand is the patch on a stored version, or, when the read misses the object, on the caller's own copy. |
| StatusStore.ExportStore.Put | pkg/controllers/dataexport/reconcile.go:1262-1267 | An update lands exactly if it is delivered and nobody has written since the version it carries. |
| StatusStore.ExportStore.Interfere | pkg/controllers/dataexport/reconcile.go:1211-1279 | Other writers only append edits to a live object. |
| StatusStore.MergeIsIdempotent | pkg/controllers/dataexport/reconcile.go:1223-1260 | Repeating a patch after a lost answer changes nothing. |
| StatusStore.MergeIsThePatchedObject | pkg/controllers/dataexport/reconcile.go:1223-1260 | The merge of a patch is the one object that has each of the eleven fields as asked, or as it was when not asked, the controller's finalizer as asked, and everything else unchanged. |
| StatusStore.DisjointPatchesCommute | pkg/controllers/dataexport/reconcile.go:1223-1260 | Two patches that ask for different fields both get in, in whichever order they land; neither clears what the other has put there. |
| Controller.Controller.Sync | pkg/controllers/dataexport/reconcile.go:98-496 | Everything `sync` does to the stored object is steps of the run relation on the answers heard. What it returns, and that the newest version holds the decided patch, or the verdict on the VolumeBackup, unless an error is returned; an error of a status update means that all of its turns failed, each for a reason of its own moment. |
| Controller.Controller.Reconcile | pkg/controllers/dataexport/dataexport.go:74-104 | An object without the finalizer only gets the finalizer in this call, its status untouched; any other object is synced, with the outcome of Sync; everything appended is steps of the run relation. |
| Controller.Controller.AwaitVolumeBackup | pkg/controllers/dataexport/reconcile.go:427-458 | However often the read fails and "in progress" is written in between, the verdict is Successful exactly with the first VolumeBackup read after nothing but errors, and Failed exactly for one of these reasons: the read after nothing but errors finds nothing, a status update in between gave up, or time ran out with nothing but errors. |
| Controller.Controller.Record | pkg/controllers/dataexport/reconcile.go:1211-1279 | One status update on behalf of `sync` is steps of the run relation, ending with the patch in place when it succeeds. |
| Controller.Controller.RecordVerdict | pkg/controllers/dataexport/reconcile.go:446-465 | The verdict is written on whatever waiting status was recorded before. |
| Controller.Controller.RecordAwaited | pkg/controllers/dataexport/reconcile.go:427-465 | The wait and the verdict together: nil means the newest version holds the verdict on the reads and updates heard; an error means that one particular update gave up. |
| Controller.CallIsSteps | pkg/controllers/dataexport/reconcile.go:1211-1279 | Every version an `updateStatus` call appends, first write or repeated, is a step of `sync` or metadata. |
| Controller.WaitingKeepsPlan | pkg/controllers/dataexport/reconcile.go:348-426 | While the transfer runs, the decision does not depend on which waiting status was last recorded. |
| Runs.PlanFollowsDiagram | pkg/controllers/dataexport/reconcile.go:98-496 | Whatever the answers, a patch removes the finalizer alone or moves the export along an arrow of the state diagram, and asks for the id, claim name, size or snapshot only where those may be set. |
| Runs.LocalCopyAddsNoStatus | pkg/controllers/dataexport/reconcile.go:498-513 | What a handler has put into the status in memory is what its patch asks for, so it does not matter which copy is written. |
| Runs.StepKeepsInvariant | pkg/controllers/dataexport/reconcile.go:98-496 | Each step keeps the invariant on stage, job id and claim name, stays at its place or follows one arrow, and takes no recorded name away. |
| Runs.RunKeepsInvariant | pkg/controllers/dataexport/reconcile.go:98-496 | The invariant holds at every point of every run. |
| Runs.StepsExtendRun | pkg/controllers/dataexport/reconcile.go:98-131 | What one `sync` appends to a run makes a longer run. |
| Lifecycle.StageNeverGoesBack | pkg/controllers/dataexport/reconcile.go:98-496 | Over every run the rank of the stage never decreases. |
| Lifecycle.AtMostNineStageChanges | pkg/controllers/dataexport/reconcile.go:98-496 | A run, however long, changes stage at most nine times. |
| Lifecycle.FinalIsAbsorbing | pkg/controllers/dataexport/reconcile.go:492-495 | Once Final, the whole status stays as it is. |
| Lifecycle.AtMostSixPointChanges | pkg/controllers/dataexport/reconcile.go:182-496 | From the transfer stages on, every change of stage or status uses up a measure that starts at six at most. |
| Lifecycle.SyncMakesProgress | pkg/controllers/dataexport/reconcile.go:182-496 | From there on each `sync` uses up the measure, fails with an error, or waits, for a slot or for a transfer the driver reports as unfinished. |
| Lifecycle.VerdictMakesProgress | pkg/controllers/dataexport/reconcile.go:427-465 | Waiting for the VolumeBackup always ends in a settled status. |
| Lifecycle.StageSucceedsWhenAllIsGood | pkg/controllers/dataexport/reconcile.go:498-1089 | A stage with an open outcome is recorded successful, or goes on to read the VolumeBackup, if and only if every answer it depends on is good. |
| GoodRuns.GoodSyncsSucceed | pkg/controllers/dataexport/reconcile.go:98-496 | From every reachable export that has a driver, is not being deleted and has no failure of its transfer recorded, any sixteen undisturbed syncs whose answers are good, whatever else they hear, lead to Final and Successful; on the way each is a step of the run. |
| GoodRuns.GoodSyncsCountDown | pkg/controllers/dataexport/reconcile.go:98-496 | Each such sync brings the end exactly one sync nearer, and the end stays. |
| GoodRuns.SuccessStaysPossible | pkg/controllers/dataexport/reconcile.go:182-201 | A reachable export with a driver, not being deleted, can still end successful if and only if no failure is recorded in the transfer stages or later. |
| Lifecycle.FailureIsExplained | pkg/controllers/dataexport/reconcile.go:641-686 | A failure recorded in its stage carries a reason of its own if and only if it is not the snapshotter's failed state without one; then the reason recorded earlier stays. |
| Verdicts.BackupVerdict | pkg/drivers/kopiabackup/kopiabackup.go:188-237 | Driver and `sync` together, for a kopia backup whose transfer is open: it is recorded as failed, goes on to read its VolumeBackup, or keeps waiting, each if and only if a condition holds on the id, the job's conditions, its node, its pod and the VolumeBackup. |
| Verdicts.RestoreVerdict | pkg/drivers/kopiarestore/kopiarestore.go:104-147 | The same for a kopia restore, which goes by the job alone. |
| Verdicts.FailedJobFailsTheExport | pkg/controllers/dataexport/reconcile.go:374-391 | A job that lists a true Failed condition first, and one with any condition whose pod has recorded an error, fails the export at the next `sync`, whatever else is seen. |
| Verdicts.AnswerDecides | pkg/controllers/dataexport/reconcile.go:360-426 | What `sync` makes of every answer a driver can give: exactly when it records a failure, waits, or goes on to the VolumeBackup. |
| Verdicts.TransferFailureNamesItsError | pkg/controllers/dataexport/reconcile.go:360-403 | The recorded reason ends with the driver's error, or with the reason the driver gave. |
| Verdicts.TransferIsRequeued | pkg/controllers/dataexport/reconcile.go:360-403 | A transfer is looked at again at once exactly when its job has no condition yet or has just been found to have failed. |
| Verdicts.StageOutcomes | pkg/controllers/dataexport/reconcile.go:498-1089 | Before the transfer a stage succeeds, records a failure, returns an error or waits, exactly one of them, each exactly for the answers listed; it is requeued exactly on success or for want of a slot. |
| Verdicts.SuccessIsStored | pkg/controllers/dataexport/reconcile.go:641-1032 | What a successful stage leaves in the stored status is what it was told: the snapshot and its namespace, the claim made from it, the restored size, the job's id; everything else of these stays. |
| Verdicts.SnapshotterReasonIsStored | pkg/controllers/dataexport/reconcile.go:660-672 | While a stage waits for the snapshotter, and when the snapshotter has failed, the stored reason is the one it gave. |
| Verdicts.FailureNamesItsError | pkg/controllers/dataexport/reconcile.go:498-1089 | The reason of a failure before the transfer ends with the text of the first error met, in the order in which the stage asks. |
| Verdicts.SettledStageMovesOn | pkg/controllers/dataexport/reconcile.go:182-358 | From a stage whose outcome is known `sync` goes on to the one next stage, whatever it hears, and changes nothing else but a reason; only a restored snapshot stays put while its driver is not found. |
| Verdicts.DeletedExportIsReleased | pkg/controllers/dataexport/reconcile.go:108-165 | A deleted export that carries the controller's finalizer loses it, and nothing else changes, exactly when what there is to clean up is cleaned up; until then `sync` comes back with an error; without the finalizer it does nothing. |
| Verdicts.UnknownDriverFails | pkg/controllers/dataexport/reconcile.go:133-151 | An export whose references or type name no known driver is recorded as failed, with a reason, by every `sync`, apart from the first look at it and a deletion before anything was started. |
| Verdicts.SnapshotDriverIsFound | pkg/controllers/dataexport/reconcile.go:613-639 | There is a snapshot driver if and only if there is a class that is the default one or is not answered with "not found", and the driver exists; its name is empty, and not an error, when the lookup of the class fails. |
| Lifecycle.FinalSuccessHasOrigin | pkg/controllers/dataexport/reconcile.go:348-358 | A run that ends Final and Successful has recorded a successful transfer or local restore, and after that a cleanup attempt that returned nil. |
| Lifecycle.CleanupSuccessHasOrigin | pkg/controllers/dataexport/reconcile.go:1012-1032 | A successful cleanup stage goes back to a successful transfer or local restore. |
| Lifecycle.FailureIsPermanent | pkg/controllers/dataexport/reconcile.go:192-201 | Failed, recorded in the transfer stages or later, is never replaced. |
| Lifecycle.FailedLocalRestoreFallsBack | pkg/controllers/dataexport/reconcile.go:926-936 | A failed local restore is never final: the first place the run moves on to is the transfer from the bucket. |
| Lifecycle.RecordedNamesStay | pkg/controllers/dataexport/reconcile.go:1229-1250 | Across all runs the transfer id, snapshot id and claim name never become empty again, and a made claim's name never changes. |
| Lifecycle.TransferIdNamesTheExport | pkg/controllers/dataexport/reconcile.go:342-347 | While a kopia transfer is on, the recorded id parses to the job namespace, which is the source's for a backup and the destination's for a restore, and the export's name. That a started job has the id this rests on is derived in JobStarts.JointRunIsRun. |
| Lifecycle.FinalizerNeedsCleanUp | pkg/controllers/dataexport/reconcile.go:153-165 | The controller takes its finalizer off only a deleted export, and past the initial stage only after `cleanUp` returned nil. |
| Lifecycle.CallerCopyAgrees | pkg/controllers/dataexport/reconcile.go:1217-1222 | Writing the caller's object instead of the stored one makes a difference if and only if the handler had defaulted the type or added a driver label to a shared map. |
| Naming.ParseInvertsNamespacedName | pkg/drivers/utils/utils.go:34-49 | Parsing a printed id gives namespace and name back, for every namespace without a slash. |
| Naming.NamespacedNameInvertsParse | pkg/drivers/utils/utils.go:43-49 | An id parses if and only if it holds a slash, and printing the parts gives it back. |
| KdmpApi.DriverFollowsReferences | pkg/controllers/dataexport/reconcile.go:1644-1688 | A generic export is a backup if and only if its references lead from a claim to a backup location, a restore if and only if they lead from a VolumeBackup to a claim, and otherwise has no driver; any other type is the driver's name, unless the references begin like one of these and do not go on like it. |
| Naming.SnapshotNameRoundTrip | pkg/controllers/dataexport/reconcile.go:1853-1875 | The repository name of a snapshot claim is the source claim's, cut to 247 bytes, for every uid; equal if and only if it fits. |
| Naming.RepoNameOfPlainClaimDiffers | pkg/controllers/dataexport/reconcile.go:1869-1875 | The same derivation applied to a claim that is not a snapshot claim always loses part of its name. |
| Naming.SnapshotNamesDiffer | pkg/controllers/dataexport/reconcile.go:1844-1860 | Two exports of one claim use the same snapshot claim if and only if the first groups of their uids are equal. |
| Naming.RepositorySharing | pkg/executor/kopia/kopiabackup.go:485-487 | Which claims share a repository path; within a namespace only equal ones. |
| Naming.RepositoryCollisionExists | pkg/drivers/kopiabackup/kopiabackup.go:386-388 | Two claims of different namespaces with one path. |
| Naming.MaintenanceResolvesRepository | pkg/executor/kopia/maintenance.go:141-149 | From the listing of a repository's own objects, maintenance arrives at that repository's path. |
| Repositories.RepositoryIdentity | pkg/drivers/kopiabackup/kopiabackup.go:263-264 | In every reachable state a backup uses its claim's own repository if and only if it has no snapshot stage, or has recorded its snapshot claim and the claim's name is at most 247 bytes long. |
| Repositories.RunUsesOwnRepository | pkg/controllers/dataexport/reconcile.go:203-207 | Over every run, once the transfer is ahead, that is so if and only if it took no snapshot, or took one of a claim whose name fits, restores nothing locally, and never found the temporary claim already there. |
| Repositories.LostClaims | pkg/controllers/dataexport/reconcile.go:738-777 | The claim name is missing after the snapshot stages exactly when the claim had been found already there. |
| Repositories.ExistingClaimLosesRepository | vendor/github.com/libopenstorage/stork/pkg/snapshotter/snapshotter_csi.go:288-295 | Every snapshot backup has a run without any error answer that ends up in another repository. |
| Repositories.RunBackupJob | pkg/executor/kopia/kopiabackup.go:71-104 | A backup pod started with the options of this export and returning nil leaves a VolumeBackup that names the repository it has backed up to, the backup location, and a snapshot. |
| Repositories.EveryPodFindsTheRepository | pkg/executor/kopia/restore.go:66 | Restore, which takes the path the backup pod wrote, and maintenance, which lists the bucket, always work on the path the backup used, whatever became of the claim's name; delete, which frames the claim's name again, does exactly when the backup used its claim's own repository. |
| Drivers.BackupJobCompleted | pkg/drivers/kopiabackup/kopiabackup.go:188-237 | The driver says Completed if and only if the id parses, the job is there, neither it nor its node has failed, and its VolumeBackup shows 100 percent and no error. |
| Drivers.BackupJobFailures | pkg/drivers/kopiabackup/kopiabackup.go:188-237 | Exactly when it gives up with an error, and exactly when it reports a failed state; the status beside it is the subject of Verdicts.BackupVerdict. |
| VolumeBackups.Pod.RunBackup | pkg/executor/kopia/kopiabackup.go:71-158 | One life of the pod only appends legal changes, each judged by the commands that had ended when it was written, and does its commands in order, each only after those before it have done their work. A nil return means all of them have, and the object names this pod's repository and a snapshot made by an accepted kopia command. A run in which nothing goes wrong returns nil. A failed snapshot, and credentials that cannot be read, leave an error text in the object, if the pod lives to write it and the write lands. A snapshot recorded before is left alone and the pod fails. |
| VolumeBackups.Pod.RunKopiaBackup | pkg/executor/kopia/kopiabackup.go:276-322 | The poll loop writes out exactly the polls of its interleaved executor, one a turn, and ends with the first one that is over and known to be written: nil for a success, which is genuine, and a failure with the error text stored. Nothing else ends it but a command that does not start, or the death of its process. |
| VolumeBackups.Pod.RunBackupCommands | pkg/executor/kopia/kopiabackup.go:106-158 | All commands of one life together: their order, how the object changes meanwhile, what a nil return means, that a good run returns one, and that a failed snapshot is recorded as an error. |
| VolumeBackups.Pod.PollBackup | pkg/executor/kopia/kopiabackup.go:297-319 | A polled success is the accepted summary of a command that ended well, and later polls repeat it. |
| VolumeBackups.Pod.RunCreateRepository | pkg/executor/kopia/kopiabackup.go:190-274 | Creating the repository writes out exactly the executor's polls, a repository that is there already as no error, and never progress or a snapshot; it ends with the first success known to be written, whose command was accepted or found the repository there, and fails only when there is no more time for that. |
| VolumeBackups.Pod.RunCommand | pkg/executor/kopia/kopiabackup.go:387-481 | Setting the policy and the compression writes out exactly the errors that are polled before the first success, and fails if and only if there is no success; nil means the command was accepted, except for the policy, which is not waited for. |
| VolumeBackups.Pod.EnsureRepository | pkg/executor/kopia/kopiabackup.go:106-127 | The commands to create a repository and set its policy run exactly when the bucket's first answer says it is not there; without an answer nothing runs and it fails; nil means that is done, and in a good run it is. |
| VolumeBackups.Pod.ConnectAndCompress | pkg/executor/kopia/kopiabackup.go:129-149 | Connecting, then the compression if one is set: it fails if and only if one of them has no success; a failed connection is recorded as an error in the object, if that write lands. |
| VolumeBackups.ConnectRepository | pkg/executor/kopia/kopiabackup.go:324-385 | It fails if and only if no poll is a success; nil means the connect command ended well during these polls and said it was connected. |
| VolumeBackups.Pod.IsRepositoryExists | pkg/executor/kopia/kopiabackup.go:527-576 | The answer is the bucket's first one, each failed check before it is written out as an error, and it fails only when no check is answered. |
| VolumeBackups.ExistingRepositoryIsEffective | pkg/kopia/create.go:128-136 | "Already exists" is reported, however the reads interleave, only for a failed create command whose stderr says so. |
| VolumeBackups.SuccessIsEffective | pkg/executor/kopia/kopiabackup.go:324-481 | A polled success of create, connect, compression means the command was accepted. |
| VolumeBackups.Pod.WriteStatus | pkg/executor/common.go:405-433 | A status write replaces the whole status or leaves it; exactly when it fails; nil means it is stored; and what is stored says, field by field, what was polled, with an error text if and only if the poll carried an error. |
| VolumeBackups.Pod.CreateVolumeBackup | pkg/executor/common.go:436-471 | An existing object is never overwritten; it fails exactly for an unanswered read or create, another spec, or a recorded snapshot; nil means the object is there, with this spec and no snapshot. |
| VolumeBackups.ProgressMeansSnapshot | pkg/executor/common.go:419-428 | Over any number of backup pod lives, 100 percent and a snapshot id go together, then without error, and the snapshot is one whose command had ended well by then. |
| OtherPods.SnapshotIsWriteOnce | pkg/executor/common.go:464-468 | With any number of lives of backup and restore pods, a recorded snapshot stays unchanged between two moments if and only if no deletion and no write of a restore pod lands in between. |
| OtherPods.SharedProgressMeansSnapshot | pkg/executor/kopia/restore.go:90-134 | With restore pods writing too, whatever snapshot the object names is still a genuine one, together with full progress and no error. |
| VolumeBackups.PollVerdict | pkg/executor/kopia/kopiabackup.go:297-319 | A poll succeeds if and only if the command ended well, its output was accepted and the waiter is through. |
| OtherPods.RestorePod.RunRestore | pkg/executor/kopia/restore.go:46-88 | A nil return means the restore command ended well and its size is recorded, and a run in which nothing goes wrong returns nil; a failed restore, and credentials that cannot be read, leave an error text; whatever happens, the VolumeBackup restored from only ever gets a status that names no snapshot. |
| OtherPods.RestorePod.RunKopiaRestore | pkg/executor/kopia/restore.go:90-134 | The poll loop writes out exactly its executor's polls and ends with the first one that is over and known to be written: nil for a restore that ended well, a failure with the error text stored. |
| OtherPods.RunKopiaDelete | pkg/executor/kopia/kopiadelete.go:79-111 | It fails if and only if the command does not start or the first poll that is over is not a success; nil means the delete command has ended, and ended well if no poll was interrupted between its two reads. |
| Drivers.RestoreJobCompleted | pkg/drivers/kopiarestore/kopiarestore.go:104-147 | The restore driver says Completed if and only if the id parses and the job is there, complete, not failed and not pending, on a node that exists. |
| Handshake.RestoreSuccessNeedsCompleteJob | pkg/controllers/dataexport/reconcile.go:404-465 | A kopia restore is recorded successful only when its driver saw the job complete. |
| Handshake.EndToEnd | pkg/controllers/dataexport/reconcile.go:404-465 | In every interleaving of reconciler, driver, backup pods, restore pods, cleanup and others, each reading and writing the VolumeBackups of the cluster under the key it names, in which no restore export has named this export's VolumeBackup so far: a kopia backup recorded as transferred, or ending successful, shows progress 100 and the id and size of a snapshot whose command ended well, without fatal errors. |
| Handshake.AwaitedObject | pkg/controllers/dataexport/reconcile.go:404-426 | The object `sync` goes on to read is, by namespace and name, the one under which the export's own backup pods keep their VolumeBackup, for a kopia backup; the spec's source for a kopia restore; and a nameless one otherwise. |
| Transfers.SafeExactlyWhenUnshared | pkg/controllers/dataexport/reconcile.go:1464-1477 | With these restore exports in the cluster, every trace of a kopia backup records its transfer only with a snapshot that was really made, if and only if none of them has this export's name as its source's and this export's source namespace as its destination's. |
| Transfers.SharedBackupCanLoseItsSnapshot | pkg/executor/kopia/restore.go:90-134 | For every kopia backup and every restore export that names its VolumeBackup there is a trace to Final and Successful that does not name the snapshot its pod has made. |
| Transfers.EveryBackupCanSucceed | pkg/controllers/dataexport/reconcile.go:404-465 | Every kopia backup has a trace from its creation to Final and Successful, with the id of the snapshot its pod has made. |
| Handshake.TraceKeepsInvariant | pkg/controllers/dataexport/reconcile.go:348-469 | The inductive invariant behind it, under the same condition: once the driver has said Completed, the VolumeBackup it saw stays what every later read finds. |
| Handshake.SnapshotOutlivesPods | pkg/executor/common.go:464-468 | While no restore export names the object, a recorded snapshot stays as it is in every interleaving until the object is deleted. |
| Handshake.SyncIsTraced | pkg/controllers/dataexport/reconcile.go:98-131 | Everything one `Controller.Sync` appends to the history of the export prolongs a trace. |
| Handshake.PodLifeIsTraced | pkg/executor/kopia/kopiabackup.go:71-158 | So does everything one life of a backup pod does to the VolumeBackup, and every deletion that falls into that life while an export with a recorded id is to be cleaned up. |
| Handshake.SuccessNeedsVolumeBackup | pkg/controllers/dataexport/reconcile.go:404-465 | A transfer is recorded successful only on a VolumeBackup that was read under the planned name, after the driver said Completed, for an export not being deleted, and with that VolumeBackup's snapshot and size. |
| Handshake.SecondReadIsNotChecked | pkg/controllers/dataexport/reconcile.go:455-465 | Were the second read to find a VolumeBackup without a snapshot, success would be recorded without one. |
| KopiaExecutors.NoFalseSuccess | pkg/kopia/backup.go:103-155 | However the three reads of `Status` interleave with the waiter's writes, backup, connect, create, compression and restore report success if and only if the command ended well, its output was accepted and the waiter is through; a backup then reports the accepted summary. |
| KopiaExecutors.FalseSuccessWindow | pkg/kopia/delete.go:40-80 | Delete and maintenance report a failed command as success if and only if both writes of the waiter fall between the two reads. |
| KopiaExecutors.SummaryIsTheFirstLine | pkg/kopia/backup.go:157-208 | A backup's output is accepted if and only if what stands before its first newline is the summary of a snapshot with an id and no fatal errors, whatever comes after. |
| KopiaExecutors.AlreadyExistsExactly | pkg/kopia/create.go:128-136 | A failed create is put down to a repository that exists if and only if its stderr holds the message, anywhere. |
| KopiaExecutors.FinishedStatusIsRight | pkg/kopia/create.go:62-112 | Once the waiter is through, every executor reports done, with an error exactly when the command was not accepted: a failed command's own stderr, or for a create what that stderr says about an existing repository. |
| KopiaExecutors.VerdictIsStable | pkg/kopia/connect.go:57-107 | A done verdict of the executors without that window is never taken back. |
| KopiaExecutors.StatusShape | pkg/kopia/restore.go:123-180 | Only a successful backup reports progress or a snapshot id. |
| KopiaExecutors.KopiaExecutor.Status | pkg/kopia/compression.go:68-88 | The field-by-field reads return what the specification says for the waiter's progress at each of them. |
| KopiaExecutors.KopiaExecutor.Run | pkg/kopia/maintenancerun.go:39-59 | A failed start is kept as the error; a good one leaves the fields of a running command. |
| KopiaExecutors.KopiaExecutor.Proceed | pkg/kopia/backup.go:111-127 | Commands end once, and the waiter's writes come in order, whatever happens in between. |
| ResticExecutors.AtMostOneProcess | pkg/restic/backup.go:96-113 | Over every sequence of calls at most one command is ever started. |
| ResticExecutors.VerdictNeverFlips | pkg/restic/backup.go:135-172 | A done verdict never changes from error to success or back, whatever is called in between. |
| ResticExecutors.FinishedIsDone | pkg/restic/restore.go:103-122 | After the command has ended `Status` is done if and only if it is not a failed restore whose stderr is a non-empty run of newlines. |
| ResticExecutors.OutcomeIsRight | pkg/restic/init.go:83-107 | When starting never failed, success is reported if and only if the command ended well and, for a backup, printed a summary last. |
| ResticExecutors.BackupReportsItsSummary | pkg/restic/backup.go:135-172 | A backup reported as done without error shows the snapshot id and size of the last summary it printed, and full progress. |
| ResticExecutors.FailureReportsItsCause | pkg/restic/init.go:65-107 | A failed command with a non-empty line on stderr is reported as done with the cause in the last such line, and nothing else. |
| ResticExecutors.RunningReportsProgress | pkg/restic/backup.go:208-223 | While nothing is decided, a backup reports the progress in its last completed line, or that there is none yet; the others report that they run. |
| ResticExecutors.ResticExecutor.Run | pkg/restic/backup.go:96-113 | `Run` is the corresponding step of the state machine; nil if and only if a command was started. |
| ResticExecutors.ResticExecutor.Exit | pkg/restic/backup.go:114-134 | The waiter's locked section is the corresponding step, for all three kinds. |
| ResticExecutors.ResticExecutor.Status | pkg/restic/restore.go:124-144 | Done exactly when an error or a summary is there. |
| ResticOutput.SummaryIsExact | pkg/restic/backup.go:174-206 | Over more than two lines the summary returned is line i if and only if i is the last summary and every later non-empty line decodes as something else; otherwise an error. |
| ResticOutput.FindSummary | pkg/restic/backup.go:174-206 | The backward loop computes it. |
| ResticOutput.StdErrIsExact | pkg/restic/init.go:135-149 | No cause is found if and only if stderr is empty or newlines only; otherwise the last non-empty line alone decides it. |
| ResticOutput.ClassifyIsExact | pkg/restic/init.go:135-149 | The cause in a line: the repository is there already if it says so; a fatal error with what follows the leading letters of the mark; or the line itself. |
| ResticOutput.FindError | pkg/restic/init.go:135-149 | The backward loop computes it. |
| JobRateLimit.GetJobCountByType | pkg/jobratelimit/jobratelimit.go:59-89 | The nested loops count the jobs without a true Complete condition, over all listings, and fail as soon as one listing fails. |
| JobRateLimit.CountNeedsEveryListing | pkg/jobratelimit/jobratelimit.go:67-74 | A count is returned if and only if every namespace answered. |
| Admission.RateLimit | pkg/jobratelimit/jobratelimit.go:137-147 | For any number of callers of three drivers, with jobs and namespaces coming and going and listings failing at any step: the incomplete jobs of every driver stay within max(0, limit) up to a point if and only if no call whose listing failed has created a job while all slots were taken. |
| Admission.AnsweredListingsDoNoHarm | pkg/jobratelimit/jobratelimit.go:91-98 | A run in which every listing of the namespaces is answered does no such harm. |
| Admission.BlindCreateExceeds | pkg/jobratelimit/jobratelimit.go:91-98 | A creation after a failed listing exceeds the limit if and only if all slots are taken at that moment. |
| Overload.LimitCanBeExceeded | pkg/jobratelimit/jobratelimit.go:91-98 | For every driver and every positive limit there is a run from a cluster without jobs, with exactly one failed listing, that ends above the limit. |
| Admission.ListingCountsSlots | pkg/jobratelimit/jobratelimit.go:67-86 | What the nested loops count in a namespace's listing is the number of slots its jobs occupy in the protocol. |
| Slots.RefusalMeansFull | pkg/jobratelimit/jobratelimit.go:59-89 | In every run, a call whose listing was answered is refused for lack of slots only if its own driver had at least as many incomplete jobs as the limit at the moment of that listing. |
| Slots.UndisturbedCallGetsItsJob | pkg/drivers/kopiabackup/kopiabackup.go:41-104 | From every cluster in which the driver's lock, the claim and a slot are free, an undisturbed call whose requests are answered ends after a bounded number of steps, and then has created its job and nothing else. |
| Slots.AnsweredStepIsStep | pkg/drivers/kopiabackup/kopiabackup.go:41-104 | The steps of such a call are steps of the protocol of `Admission`. |
| Slots.AlreadyRunningNamesAJob | pkg/jobratelimit/jobratelimit.go:150-168 | A call is told that its claim is being backed up only if its namespace has a job of its own driver with exactly the labels of its claim. |
| Admission.OneBackupPerClaim | pkg/jobratelimit/jobratelimit.go:150-168 | In every run, no two kopia backup jobs of a namespace carry the same claim name and uid labels. |
| Admission.ReentryChangesNothing | pkg/drivers/kopiabackup/kopiabackup.go:46-52 | Each step of a call for an export whose job exists leaves every job and slot as it is. |
| JobStarts.PresentJobIsLeftAlone | pkg/drivers/kopiabackup/kopiabackup.go:46-52 | Over runs of repeated, crashing `sync` calls among any other callers: as long as the job of an export is there, no call for it creates or changes a job or takes a slot, and the job itself can only complete. |
| JobStarts.EverySuccessIsTheRecordedId | pkg/controllers/dataexport/reconcile.go:1448-1477 | At any point of such a run every success on its way to a caller for this export's job carries the id recorded, or about to be recorded, in the export, and that id parses to the job's namespace and the export's name. |
| JobStarts.JointRunIsRun | pkg/controllers/dataexport/reconcile.go:1448-1477 | What such a run does to the export is a run of the reconciler: that a started job is named after the export follows from the options `startTransferJob` passes on. |
| JobStarts.HeardIsHonest | pkg/drivers/kopiabackup/kopiabackup.go:86-102 | A success heard for the export's own order is the id of the job namespace and the export's name. |
| JobStarts.CreatedJobIsTheExports | pkg/controllers/dataexport/reconcile.go:1448-1477 | The job created on an export's order is the one its id will name, counts for the export's own driver, and carries the claim's labels exactly as far as the export has them; nothing else is created. |
| Admission.StartedJobId | pkg/drivers/kopiabackup/kopiabackup.go:86-102 | Success means the ordered job is there, and always with the id of the order, whether created, found, or created before. |
| Admission.CreateKeeps | pkg/drivers/kopiarestore/kopiarestore.go:35-79 | Creating under the lock takes one slot of its driver and disturbs no other driver's count. |
| Admission.CallerMoveKeeps | pkg/drivers/kopiadelete/kopiadelete.go:36-94 | Every other step of a caller keeps what the lock holder knows about the slots outside the namespaces it has still to count. |
| Cleanup.Namespace.CleanUpStage | pkg/controllers/dataexport/reconcile.go:470-491 | The attempts follow each other, each from what the one before has left, up to the first nil and no further, or until time runs out. |
| Cleanup.StageOutcome | pkg/controllers/dataexport/reconcile.go:470-491 | Over any number of partly failed attempts: an attempt whose requests are all answered returns nil if and only if there is no id or it parses; what the nil leaves exactly, and nothing at all if no pod starts in the window. |
| Cleanup.Namespace.CleanUp | pkg/controllers/dataexport/reconcile.go:1136-1152 | One attempt from any partly cleaned state: exactly when it fails, and exactly what a nil leaves, with a transfer id and without. |
| CleanRuns.ReleasedExportIsClean | pkg/controllers/dataexport/reconcile.go:153-165 | Over every run of reconciler, pods, other exports and deletions: when the controller takes its finalizer off an export past the initial stage, the namespace is clean, and stays so, if and only if a transfer id was recorded or the last `cleanUp` had found it clean. |
| CleanRuns.SuccessfulExportIsClean | pkg/controllers/dataexport/reconcile.go:470-491 | A backup that ends Final and Successful leaves the namespace clean for good. |
| CleanRuns.DeletionCanLeaveTheJob | pkg/controllers/dataexport/reconcile.go:1145-1150 | Every such backup has a run without any failed request in which the finalizer goes while the job, its accounts and its credentials are all still there. |
| CleanRuns.DeletionIsDeleteStep | pkg/controllers/dataexport/reconcile.go:1136-1152 | Only a `cleanUp` attempt takes the VolumeBackup away, and only as the deletion step of `Handshake` does. |
| Cleanup.Namespace.DeleteJob | pkg/drivers/kopiabackup/kopiabackup.go:106-185 | It fails exactly when its id does not parse or a request fails; nil leaves nothing it names but a VolumeBackup a pod recreated; an id that does not parse touches nothing. |
| Cleanup.Namespace.RemoveJob | pkg/drivers/kopiabackup/kopiabackup.go:131-182 | When the job's removal fails, and that nil means the job is gone, by force or not. |
| Cleanup.Namespace.CleanServiceAccount | pkg/drivers/utils/common.go:98-109 | Role, binding and account go in this order, tolerating what is gone already; the first failure leaves the later ones untouched and the earlier ones deleted. |
| Maintenance.EveryOutcomeIsRecorded | pkg/executor/kopia/maintenance.go:148-204 | With distinct repositories and updates that land: Success for exactly those whose connect, owner and run all succeeded, and Failed with a text exactly if that is the first error of the three. |
| Maintenance.LastOutcomeShows | pkg/executor/kopia/maintenance.go:81-118 | In general, duplicates and lost updates included, the last update that lands decides. |
| Maintenance.OthersStay | pkg/executor/kopia/maintenance.go:100-110 | Every other entry is as it was. |
| Maintenance.MaintenancePod.RunMaintenance | pkg/executor/kopia/maintenance.go:148-204 | The loop produces that map for the chosen type and leaves the other type's map alone, whatever fails. |
| Maintenance.GetRepoList | pkg/executor/kopia/maintenance.go:53-79 | The list is the entries with a repository file; an entry that cannot be looked up is skipped, a failed listing is an error. |
| Maintenance.RepositoriesAreThoseFound | pkg/executor/kopia/maintenance.go:53-79 | A key is listed if and only if its repository file was found. |
| Credentials.RoutesAgree | pkg/executor/common.go:237-277 | For every S3, Google and Azure location the executor's route gives the location the controller reads back, and the password besides. |
| Credentials.ControllerReadsItBack | pkg/controllers/dataexport/reconcile.go:868-913 | The controller reads back the type, the path and that provider's credentials. |
| Credentials.LosslessWhenNothingElseIsSet | pkg/controllers/dataexport/reconcile.go:1759-1796 | Nothing is lost if and only if none of the fields the secret has no room for is set. |
| Credentials.Secrets.CreateCredentialsSecret | pkg/controllers/dataexport/reconcile.go:1717-1735 | It fails exactly if the location cannot be read, is not supported, or the creation is not answered; nil means the secret is there, this location's if there was none and otherwise as it was; no other secret is touched, and after an error only one whose answer was lost can be new. |
| Credentials.SupportedIsWritten | pkg/controllers/dataexport/reconcile.go:1737-1811 | A location is written into a secret if and only if its provider is S3, Google or Azure and that provider's part of the configuration is set. |
| Credentials.StaleSecretIsCurrent | pkg/controllers/dataexport/reconcile.go:1836-1841 | A secret kept from an earlier version of the location is the one this version would write if and only if the two agree in what the secret carries and in the password; its readers see the new location if and only if they agree in what it carries. |
| Credentials.Repository.ParseCloudCred | pkg/executor/common.go:237-277 | The repository filled in place is the one the files describe; it fails exactly when a needed file is missing or malformed. |
| Credentials.Repository.ParseS3Creds | pkg/executor/common.go:279-331 | The same for the S3 files. |
| Credentials.Repository.ParseGoogleCreds | pkg/executor/common.go:333-356 | The same for the Google files. |
| Credentials.Repository.ParseAzureCreds | pkg/executor/common.go:358-382 | The same for the Azure files. |

## Left out

- Controller.Controller.Sync: the reason texts of the patches are those of the code, but errors of libraries inside them are parameters; timestamps, events and log lines are not modelled.
- VolumeBackups.Pod.RunBackup: the process sets its commands' arguments and environment; here a command is only how it ends and what it prints. Error texts are shortened.
- KopiaExecutors.NoFalseSuccess: field accesses are sequentially consistent; the Go memory model, under which the unlocked accesses are races, is not part of this model.
- KopiaExecutors.KopiaExecutor.Status: the size parsed from a restore's stderr, a floating-point number, is a parameter.
- Cleanup.Namespace.CleanUp: the branches for the snapshot and local-restore stages are not modelled; the early return on a missing secret (pkg/controllers/dataexport/reconcile.go:1117-1121) skips the later deletions there, so the claim would not hold.
- CleanRuns.ReleasedExportIsClean: for kopia backups without the snapshot stages and the local-restore flag, as far as `cleanUp` is modelled. Clean means that nothing of the export is left but perhaps a VolumeBackup a returning pod has created; the certificate secret is shared by all exports of a namespace and not counted.
- Cleanup.Namespace.RemoveJob: the pods deleted by force are not tracked; a failure there is not retried, since the job is gone by then.
- Admission.RateLimit: the limit is a fixed function of the driver; reading it from the config map, with its defaults, is left out. The maintenance driver, which creates cron jobs without asking for a slot, is left out.
- GoodRuns.GoodSyncsSucceed: for drivers other than the two of kopia the code reads a VolumeBackup with an empty name once the driver has said Completed; the result then speaks of the case that this read is answered with one.
- Transfers.SharedBackupCanLoseItsSnapshot: a restore pod may write at any moment while its export is there; how far that export's own controller has got is not modelled.
- Handshake.EndToEnd: for kopia backups without the local-restore flag. For a restore the claim ends at the job: that a job is complete only when its pod returned nil is Kubernetes' part.
- OtherPods.RunKopiaDelete: the object that holds the outcome of a delete is not modelled.
- Rsync and restic at the level of the controller: their driver names go through the model, their `StartJob` and `JobStatus` are answers of the environment.
- Pod, job and RBAC specs, command lines, certificate mounts, resource settings, generated clients, the command line of the operator: plain construction.
- Kubernetes, the CSI snapshotter, the object store and the JSON decoder: answers of the environment or uninterpreted functions.
