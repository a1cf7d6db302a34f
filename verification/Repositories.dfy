/** Which repository a kopia backup writes to, with and without the snapshot stages. */
module Repositories {
  import opened Wrappers
  import opened KdmpApi
  import opened Naming
  import opened StatusStore
  import opened Reconciler
  import opened Runs
  import Lifecycle
  import K = KopiaExecutors
  import V = VolumeBackups

  /** The repository named after the source claim itself. */
  function OwnRepository(de: DataExport): string {
    FrameBackupPath(ToRepoName(de.spec.source.name, de.spec.source.namespace))
  }

  lemma SamePathSameName(name1: string, name2: string, namespace: string)
    ensures FrameBackupPath(ToRepoName(name1, namespace)) == FrameBackupPath(ToRepoName(name2, namespace)) <==> name1 == name2
  {
    RepositorySharing(namespace, name1, namespace, name2);
  }

  /** In every reachable state with the transfer ahead or under way, a backup uses its claim's own repository exactly
      when it has no snapshot stage, or has recorded its snapshot claim and the claim's name was not cut for it. The uid
      plays no part. */
  lemma RepositoryIdentity(de: DataExport)
    requires Invariant(de) && de.spec.source.name != ""
    ensures BackupRepository(de) == OwnRepository(de) <==>
            || !HasSnapshotStage(de)
            || (de.status.snapshotPVCName != "" && |de.spec.source.name| <= PVC_NAME_LEN_LIMIT)
  {
    hide FrameBackupPath, GetRepoPVCName, ToRepoName, ToSnapshotPVCName, StageInv, JobIdInv;
    SnapshotNameRoundTrip(de.spec.source.name, de.uid);
    RepoNameOfPlainClaimDiffers(de.spec.source.name);
    SamePathSameName(GetRepoPVCName(HasSnapshotStage(de), SourceClaimName(de)), de.spec.source.name, de.spec.source.namespace);
    PlainClaimKeepsItsName(SourceClaimName(de));
  }

  lemma PlainClaimKeepsItsName(pvcName: string)
    ensures GetRepoPVCName(false, pvcName) == pvcName
  {
  }

  /** The restore pod uses the path recorded in the VolumeBackup as it is. */
  function RestoreRepository(vb: VolumeBackup): string {
    vb.spec.repository
  }

  /** The delete pod frames the name its job was given again. */
  function DeleteRepository(pvcName: string, pvcNamespace: string): string {
    FrameBackupPath(ToRepoName(pvcName, pvcNamespace))
  }

  /** One life of the backup pod, started with the options of this export: a nil return means the path of the repository
      it has backed up to is the one recorded. */
  method RunBackupJob(de: DataExport, store: V.VolumeBackupStore, decode: K.Decoder, run: V.PodRun) returns (failed: bool)
    requires store.states != [] && de.name != ""
    modifies store
    ensures store.states != [] && V.VbSteps(decode, old(store.states), store.states)
    ensures !failed ==>
              && store.Current().Some?
              && store.Current().value.spec.repository == BackupRepository(de)
              && store.Current().value.spec.locationName == de.spec.destination.name
              && store.Current().value.spec.locationNamespace == de.spec.destination.namespace
              && store.Current().value.status.snapshotID != ""
  {
    hide FrameBackupPath, RepositoryArgument, V.VbSteps;
    var location := (de.spec.destination.name, de.spec.destination.namespace);
    var pod := new V.Pod(store, decode, de.name, RepositoryArgument(de), location);
    ghost var died;
    failed, died := pod.RunBackup(run);
  }

  /** The backup's claim name is the source claim's own, as far as it fits, or a part of it. */
  lemma ClaimNameIsPrefix(de: DataExport)
    requires Invariant(de) && de.spec.source.name != ""
    ensures GetRepoPVCName(HasSnapshotStage(de), SourceClaimName(de)) <= de.spec.source.name
  {
    hide GetRepoPVCName, ToSnapshotPVCName, StageInv, JobIdInv;
    SnapshotNameRoundTrip(de.spec.source.name, de.uid);
    RepoNameOfPlainClaimDiffers(de.spec.source.name);
    PlainClaimKeepsItsName(SourceClaimName(de));
  }

  /** The path a backup's pod has recorded (`RunBackupJob`) leads a restore, which takes it as it is, and maintenance, which
      only sees the bucket's listing, to the repository the backup used, whatever became of the claim's name. A deletion,
      which frames the name of the claim again, finds it exactly when the backup used its claim's own repository. */
  lemma EveryPodFindsTheRepository(de: DataExport, vb: VolumeBackup, file: string)
    requires Invariant(de) && de.spec.source.name != ""
    requires vb.spec.repository == FrameBackupPath(RepositoryArgument(de))
    requires '/' !in de.spec.source.namespace && '/' !in de.spec.source.name
    ensures RestoreRepository(vb) == BackupRepository(de)
    ensures DeleteRepository(de.spec.source.name, de.spec.source.namespace) == BackupRepository(de) <==>
            || !HasSnapshotStage(de)
            || (de.status.snapshotPVCName != "" && |de.spec.source.name| <= PVC_NAME_LEN_LIMIT)
    ensures GENERIC_BACKUP_DIR + "/" <= BackupRepository(de) + file
    ensures var key := ListingKey(GENERIC_BACKUP_DIR + "/", BackupRepository(de) + file);
            key.Some? && GetBackupPathWithRepoName(key.value) == BackupRepository(de)
  {
    RepositoryIdentity(de);
    ClaimNameIsPrefix(de);
    hide Invariant, FrameBackupPath, ListingKey, GetBackupPathWithRepoName, GetRepoPVCName, SourceClaimName;
    assert '/' !in RepositoryArgument(de);
    MaintenanceResolvesRepository(RepositoryArgument(de), file);
  }

  // ---------------------------------------------------------------- how the snapshot claim gets recorded

  /** `sync` went through the claim creation with a claim that was already there, and recorded no name for it. */
  ghost predicate ClaimLost(prev: DataExport, next: DataExport) {
    && prev.status.stage == StageSnapshotRestore && prev.status.status != StatusSuccessful
    && next.status.stage == StageSnapshotRestore && next.status.status == StatusSuccessful
    && exists in_, a, p :: SyncWrite(in_, prev, next, a, p) && a.restoreClaim.ClaimExists?
  }

  ghost predicate LostBefore(run: seq<DataExport>, n: nat)
    requires n < |run|
  {
    exists i :: 0 <= i < n && ClaimLost(run[i], run[i + 1])
  }

  lemma ClaimStepRecords(prev: DataExport, next: DataExport)
    requires Step(prev, next) && Invariant(prev)
    requires !ClaimMade(prev) && ClaimMade(next) && HasSnapshotStage(next) && !HasLocalRestoreStage(next)
    ensures next.status.snapshotPVCName == "" ==> ClaimLost(prev, next)
  {
    hide SyncWrite, GetDriverType, ToSnapshotPVCName, JobIdInv;
    assert !ForeignWrite(prev, next, true);
    var in_, a, p :| SyncWrite(in_, prev, next, a, p);
    WriteLands(in_, prev, next, a, p);
    SnapshotNameIsNotEmpty(prev.spec.source.name, prev.uid);
  }

  lemma LostClaimHasNoName(prev: DataExport, next: DataExport)
    requires Invariant(prev) && ClaimLost(prev, next)
    ensures ClaimMade(next) && next.status.snapshotPVCName == ""
  {
    hide SyncWrite, GetDriverType, ToSnapshotPVCName, JobIdInv;
    var in_, a, p :| SyncWrite(in_, prev, next, a, p) && a.restoreClaim.ClaimExists?;
    WriteLands(in_, prev, next, a, p);
  }

  lemma {:induction false} LostClaims(run: seq<DataExport>, n: nat)
    requires Run(run) && n < |run|
    ensures LostBefore(run, n) ==> ClaimMade(run[n]) && run[n].status.snapshotPVCName == ""
    ensures ClaimMade(run[n]) && HasSnapshotStage(run[n]) && !HasLocalRestoreStage(run[n]) ==>
              (run[n].status.snapshotPVCName == "" ==> LostBefore(run, n))
    decreases n
  {
    hide Step, GetDriverType, Invariant, ClaimLost, ToSnapshotPVCName;
    if n == 0 {
      Lifecycle.RunStartsUnset(run);
    } else {
      LostClaims(run, n - 1);
      RunStep(run, n - 1);
      Lifecycle.RecordedNamesStay(run, n - 1, n);
      hide Run;
      if ClaimLost(run[n - 1], run[n - 1 + 1]) {
        LostClaimHasNoName(run[n - 1], run[n]);
      }
      if !ClaimMade(run[n - 1]) && ClaimMade(run[n]) && HasSnapshotStage(run[n]) && !HasLocalRestoreStage(run[n]) {
        ClaimStepRecords(run[n - 1], run[n]);
      }
      assert LostBefore(run, n - 1) || ClaimLost(run[n - 1], run[n - 1 + 1]) <==> LostBefore(run, n);
    }
  }

  /** Over every run: once the transfer is ahead or under way, the backup uses its claim's own repository exactly when
      it took no snapshot, or took one of a claim whose name fits without ever finding the temporary claim already there. */
  lemma RunUsesOwnRepository(run: seq<DataExport>, n: nat)
    requires Run(run) && n < |run| && Rank(run[n].status.stage) >= 6
    requires run[n].spec.source.name != ""
    ensures BackupRepository(run[n]) == OwnRepository(run[n]) <==>
            || !HasSnapshotStage(run[n])
            || (!HasLocalRestoreStage(run[n]) && !LostBefore(run, n) && |run[n].spec.source.name| <= PVC_NAME_LEN_LIMIT)
  {
    RunKeepsInvariant(run, n);
    LostClaims(run, n);
    RepositoryIdentity(run[n]);
    hide Run, Invariant, BackupRepository, OwnRepository;
  }

  // ---------------------------------------------------------------- the case it rests on does occur

  lemma WriteIsStep(de: DataExport, a: Answers)
    requires Live(de) && Honest(de, a) && SyncPlan(de, a).Write?
    ensures Step(de, Merge(de, SyncPlan(de, a).patch))
  {
    hide SyncPlan, LocalCopy, Honest;
    assert SyncWrite(de, de, Merge(de, SyncPlan(de, a).patch), a, SyncPlan(de, a).patch);
  }

  /** The way through the snapshot stages when every answer is a good one. */
  const SNAPSHOT_PATH: seq<(Stage, Status)> := [
    (StageUnset, StatusUnset),
    (StageInitial, StatusInitial), (StageInitial, StatusSuccessful),
    (StageSnapshotScheduled, StatusInitial), (StageSnapshotScheduled, StatusSuccessful),
    (StageSnapshotInProgress, StatusInitial), (StageSnapshotInProgress, StatusSuccessful),
    (StageSnapshotRestore, StatusInitial), (StageSnapshotRestore, StatusSuccessful),
    (StageSnapshotRestoreInProgress, StatusInitial), (StageSnapshotRestoreInProgress, StatusSuccessful),
    (StageTransferScheduled, StatusInitial)]

  predicate GoodAnswers(a: Answers) {
    && a.checkErr.None? && a.classLookup.ClassFound? && a.snapshotDriverErr.None? && a.createSnapshot.Ok?
    && a.snapshotStatus.Ok? && a.snapshotStatus.value.0 == SnapshotReady && a.backupLocationErr.None? && a.uploadErr.None?
    && a.sourceClaimErr.None? && a.temporaryClaimErr.None?
    && a.restoreStatus.Ok? && a.restoreStatus.value.state == SnapshotReady
    && !a.start.Started?
  }

  /** The export is at the k-th place of the path, with no claim name recorded. */
  predicate OnPath(de: DataExport, start: DataExport, k: nat)
    requires k < |SNAPSHOT_PATH|
  {
    && de.status.stage == SNAPSHOT_PATH[k].0 && de.status.status == SNAPSHOT_PATH[k].1
    && de.status.snapshotPVCName == "" && !de.status.localSnapshotRestore
    && de.spec == start.spec && !de.deleting
  }

  lemma NextOnPath(de: DataExport, start: DataExport, k: nat, a: Answers)
    requires k + 1 < |SNAPSHOT_PATH| && OnPath(de, start, k) && GoodAnswers(a) && a.restoreClaim.ClaimExists?
    requires Resolvable(start.spec) && HasSnapshotStage(start)
    ensures SyncPlan(de, a).Write? && OnPath(Merge(de, SyncPlan(de, a).patch), start, k + 1)
  {
    hide Message, GetDriverType, ToSnapshotPVCName;
  }

  /** Every snapshot backup of every claim has a run, without any error answer, in which the claim creation finds
      the claim already there, as after a crash between creating it and recording its name, and the backup then
      writes to a repository of another name. */
  lemma ExistingClaimLosesRepository(start: DataExport, a: Answers)
    returns (run: seq<DataExport>)
    requires Fresh(start) && !start.deleting && IsKopiaBackup(start.spec) && HasSnapshotStage(start) && !HasLocalRestoreStage(start)
    requires start.spec.source.name != ""
    requires GoodAnswers(a) && a.restoreClaim.ClaimExists?
    ensures Run(run) && run[0] == start
    ensures var last := run[|run| - 1];
            last.status.stage == StageTransferScheduled && BackupRepository(last) != OwnRepository(last)
  {
    hide Invariant, SyncPlan, Step, GetDriverType, BackupRepository, OwnRepository, GoodAnswers;
    assert Resolvable(start.spec) && !a.start.Started? by { GoodStart(start, a); }
    run := [start];
    for k := 0 to |SNAPSHOT_PATH| - 1
      invariant Run(run) && run[0] == start && OnPath(run[|run| - 1], start, k)
    {
      var de := run[|run| - 1];
      NextOnPath(de, start, k, a);
      WriteIsStep(de, a);
      run := run + [Merge(de, SyncPlan(de, a).patch)];
    }
    RunKeepsInvariant(run, |run| - 1);
    RepositoryIdentity(run[|run| - 1]);
  }

  lemma GoodStart(start: DataExport, a: Answers)
    requires IsKopiaBackup(start.spec) && GoodAnswers(a)
    ensures Resolvable(start.spec) && !a.start.Started?
  {
    hide GetDriverType;
  }
}
