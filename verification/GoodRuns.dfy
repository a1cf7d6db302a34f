/** From everywhere but a recorded failure of the transfer, good answers take an export to its end in at most sixteen
    `sync` calls. */
module GoodRuns {
  import opened Wrappers
  import opened KdmpApi
  import opened Naming
  import opened StatusStore
  import opened Reconciler
  import opened Runs
  import opened Lifecycle
  import Controller
  import D = Drivers

  /** The transfer has failed, or the cleanup has, and it is recorded. */
  predicate Doomed(de: DataExport) {
    Rank(de.status.stage) >= 6 && de.status.status == StatusFailed
  }

  predicate Finished(de: DataExport) {
    de.status.stage == StageFinal && de.status.status == StatusSuccessful
  }

  predicate Promising(de: DataExport) {
    && Invariant(de) && Resolvable(de.spec) && Live(de) && !de.deleting && !Doomed(de)
    && (Rank(de.status.stage) >= 8 ==> de.status.status == StatusSuccessful)
  }

  /** How many syncs are left from the first stage of this export's way. */
  function LeftFromFirstStage(de: DataExport): nat {
    if HasLocalRestoreStage(de) then (if HasSnapshotStage(de) then 5 else 7)
    else if HasSnapshotStage(de) then 13 else 5
  }

  /** How many syncs are left when all goes well. A local restore without a storage class falls back to the transfer. */
  function Left(de: DataExport): nat {
    var done := de.status.status == StatusSuccessful;
    var failed := de.status.status == StatusFailed;
    match de.status.stage
    case StageUnset => LeftFromFirstStage(de) + 3
    case StageInitial => LeftFromFirstStage(de) + (if done then 1 else 2)
    case StageSnapshotScheduled => if done then 12 else 13
    case StageSnapshotInProgress => if done then 10 else 11
    case StageSnapshotRestore => if done then 8 else 9
    case StageSnapshotRestoreInProgress => if done then 6 else 7
    case StageLocalSnapshotRestore =>
      if failed then 6 else if HasSnapshotStage(de) then (if done then 4 else 5) else if done then 8 else 7
    case StageLocalSnapshotRestoreInProgress =>
      if failed then 6 else if done then 2 else if HasSnapshotStage(de) then 3 else 7
    case StageTransferScheduled => if done then 4 else 5
    case StageTransferInProgress => if done then 2 else 3
    case StageCleanup => 1
    case StageFinal => 0
  }

  predicate InLocalRestore(de: DataExport) {
    de.status.stage in {StageLocalSnapshotRestore, StageLocalSnapshotRestoreInProgress}
  }

  /** The stage has no outcome yet that this `sync` could be told. */
  predicate Open(de: DataExport) {
    && de.status.stage !in {StageUnset, StageCleanup, StageFinal} && de.status.status != StatusSuccessful
    && (InLocalRestore(de) ==> de.status.status != StatusFailed && HasSnapshotStage(de))
  }

  /** Every answer that counts at this stage is a good one. */
  predicate GoodFor(de: DataExport, a: Answers) {
    && Honest(de, a)
    && (Open(de) ==> AllAnswersGood(de, a))
    && (Open(de) && de.status.stage == StageTransferInProgress ==> a.vbReads != [] && a.vbReads[0].VbFound?)
    && (de.status.stage == StageSnapshotRestoreInProgress ==> SnapshotDriver(de, a).Ok?) // asked for even after a success
    && (de.status.stage == StageCleanup ==> true in a.cleanUps)
  }

  /** What is stored after a `sync` whose update nobody disturbs. */
  function After(de: DataExport, a: Answers): DataExport {
    match SyncPlan(de, a)
    case Stop(_, _) => de
    case Write(_, patch) => Merge(de, patch)
    case AwaitVolumeBackup(_, _, progressPercents) =>
      if a.vbReads != [] && a.vbReads[0].VbFound? then Merge(de, Completed(a.vbReads[0].vb, progressPercents)) else de
  }

  /** The decision of a good sync: the outcome is recorded, and the stage is not left in the same write. */
  ghost predicate RecordsSuccess(de: DataExport, a: Answers, p: Patch) {
    Decides(de, a, p) && After(de, a) == Merge(de, p) && p.status == StatusSuccessful
  }

  lemma WrittenSuccess(de: DataExport, a: Answers)
    requires SyncPlan(de, a).Write? && SyncPlan(de, a).patch.status == StatusSuccessful
    ensures RecordsSuccess(de, a, SyncPlan(de, a).patch)
  {
    hide SyncPlan, Merge;
  }

  lemma AwaitedSuccess(de: DataExport, a: Answers, vb: VolumeBackup)
    requires SyncPlan(de, a).AwaitVolumeBackup? && a.vbReads != [] && a.vbReads[0] == D.VbFound(vb)
    ensures RecordsSuccess(de, a, Completed(vb, SyncPlan(de, a).progressPercents))
  {
    hide SyncPlan, Merge, VolumeBackupUnread;
    assert D.VbFound(vb) in a.vbReads;
  }

  /** Only a stage whose transfer is in progress reads the VolumeBackup. */
  lemma AwaitsGoodRead(de: DataExport, a: Answers)
    requires GoodFor(de, a) && Open(de) && SyncPlan(de, a).AwaitVolumeBackup?
    ensures a.vbReads != [] && a.vbReads[0].VbFound?
  {
    hide AllAnswersGood, Honest, SyncPlan;
    Controller.AwaitMeansTransferring(de, a);
  }

  lemma OpenSucceeds(de: DataExport, a: Answers) returns (p: Patch)
    requires Promising(de) && GoodFor(de, a) && Open(de)
    ensures RecordsSuccess(de, a, p)
  {
    hide *;
    OpenHasAllGood(de, a);
    if SyncPlan(de, a).Write? {
      p := SyncPlan(de, a).patch;
      WrittenSuccess(de, a);
    } else {
      AwaitsGoodRead(de, a);
      p := Completed(a.vbReads[0].vb, SyncPlan(de, a).progressPercents);
      AwaitedSuccess(de, a, a.vbReads[0].vb);
    }
  }

  lemma OpenHasAllGood(de: DataExport, a: Answers)
    requires Promising(de) && GoodFor(de, a) && Open(de)
    ensures SyncPlan(de, a).AwaitVolumeBackup? || (SyncPlan(de, a).Write? && SyncPlan(de, a).patch.status == StatusSuccessful)
  {
    hide SyncPlan, AllAnswersGood, Invariant, Resolvable, Honest;
    StageSucceedsWhenAllIsGood(de, a);
  }

  lemma OpenStays(de: DataExport, a: Answers, p: Patch)
    requires Promising(de) && Open(de) && Decides(de, a, p) && p.status == StatusSuccessful
    ensures p.stage in {StageUnset, de.status.stage}
  {
    PlanFollowsDiagram(de, a, p);
    hide Decides, GetDriverType, AsksOnly;
  }

  /** The patch of a `sync` whose stage has its outcome, or cannot get one. */
  predicate OneStepOn(de: DataExport, p: Patch) {
    var next := Merge(de, p);
    && Left(next) + 1 == Left(de) && !Doomed(next) && !p.removeFinalizer
    && (Rank(next.status.stage) >= 8 ==> next.status.status == StatusSuccessful)
  }

  lemma NoClassNoDriver(de: DataExport, a: Answers)
    requires !HasSnapshotStage(de)
    ensures SnapshotDriver(de, a).Err?
  {
    hide Message;
  }

  lemma LocalRestoreMovesOn(de: DataExport, a: Answers)
    requires Promising(de) && GoodFor(de, a) && !Open(de) && InLocalRestore(de)
    ensures SyncPlan(de, a).Write? && OneStepOn(de, SyncPlan(de, a).patch)
  {
    hide Message, GetDriverType, SnapshotDriver, JobIdInv, ClaimNameInv, AllAnswersGood, Honest, PlanInitial,
      PlanSnapshotScheduled, PlanSnapshotInProgress, PlanSnapshotRestore, PlanSnapshotRestoreInProgress, PlanTransferScheduled,
      PlanTransferInProgress;
    if !HasSnapshotStage(de) {
      NoClassNoDriver(de, a);
    }
  }

  /** The outcome of the stage is known: the export moves on. */
  lemma ClosedMovesOn(de: DataExport, a: Answers)
    requires Promising(de) && GoodFor(de, a) && !Open(de) && !InLocalRestore(de) && !Finished(de)
    ensures SyncPlan(de, a).Write? && OneStepOn(de, SyncPlan(de, a).patch)
  {
    hide Message, GetDriverType, SnapshotDriver, JobIdInv, ClaimNameInv, AllAnswersGood, Honest, ParseJobID;
  }

  lemma OpenOneStepOn(de: DataExport, p: Patch)
    requires Promising(de) && Open(de) && p.status == StatusSuccessful && p.stage in {StageUnset, de.status.stage}
    requires !p.removeFinalizer
    ensures OneStepOn(de, p)
  {
    hide Invariant, GetDriverType;
  }

  lemma StepOnIsPromising(de: DataExport, a: Answers, p: Patch)
    requires Promising(de) && Honest(de, a) && Decides(de, a, p) && OneStepOn(de, p)
    ensures Step(de, Merge(de, p)) && Promising(Merge(de, p)) && Left(Merge(de, p)) + 1 == Left(de)
  {
    hide Decides, LocalCopy, GetDriverType, Invariant, Honest, Diagram, Continues, Left, Doomed;
    assert SyncWrite(de, de, Merge(de, p), a, p);
    StepKeepsInvariant(de, Merge(de, p));
    SpecIsKept(de, p);
  }

  lemma OneStepOnKeepsFinalizer(de: DataExport, p: Patch)
    requires OneStepOn(de, p)
    ensures !p.removeFinalizer
  {
  }

  lemma SpecIsKept(de: DataExport, p: Patch)
    ensures Merge(de, p).spec == de.spec && Merge(de, p).deleting == de.deleting
    ensures !p.removeFinalizer ==> Merge(de, p).finalizers == de.finalizers
  {
  }

  /** One good sync is a step of the run, and brings the end one sync nearer. */
  lemma GoodSyncAdvances(de: DataExport, a: Answers)
    requires Promising(de) && GoodFor(de, a)
    ensures Promising(After(de, a))
    ensures if Finished(de) then After(de, a) == de else Step(de, After(de, a)) && Left(After(de, a)) + 1 == Left(de)
    ensures !Finished(de) ==> exists p :: Decides(de, a, p) && After(de, a) == Merge(de, p) && !p.removeFinalizer
  {
    hide Invariant, GetDriverType, Honest, Left, OneStepOn, AllAnswersGood, LocalCopy, Step;
    if Finished(de) {
      FinishedStops(de, a);
    } else if Open(de) {
      hide SyncPlan, Merge;
      var p := OpenSucceeds(de, a);
      OpenStays(de, a, p);
      NoRemoval(de, a, p);
      OpenOneStepOn(de, p);
      StepOnIsPromising(de, a, p);
    } else {
      hide SyncPlan, Merge;
      if InLocalRestore(de) {
        LocalRestoreMovesOn(de, a);
      } else {
        ClosedMovesOn(de, a);
      }
      var p := SyncPlan(de, a).patch;
      OneStepOnKeepsFinalizer(de, p);
      assert Decides(de, a, p);
      StepOnIsPromising(de, a, p);
    }
  }

  lemma FinishedStops(de: DataExport, a: Answers)
    requires Finished(de) && !de.deleting && Resolvable(de.spec)
    ensures SyncPlan(de, a).Stop?
  {
    hide GetDriverType;
  }

  lemma NoRemoval(de: DataExport, a: Answers, p: Patch)
    requires Decides(de, a, p) && Promising(de)
    ensures !p.removeFinalizer
  {
    PlanFollowsDiagram(de, a, p);
    if p == EMPTY_PATCH.(removeFinalizer := true) {
      RemovalNeedsCleanUp(de, a, p);
    }
    hide Decides, GetDriverType, Diagram;
  }

  // ---------------------------------------------------------------- over whole runs

  ghost predicate GoodSync(de: DataExport, de': DataExport) {
    exists a :: GoodFor(de, a) && de' == After(de, a)
  }

  /** One undisturbed `sync` with good answers after the other. */
  ghost predicate GoodSyncs(run: seq<DataExport>) {
    run != [] && forall i :: 0 <= i < |run| - 1 ==> GoodSync(run[i], run[i + 1])
  }

  /** In any sequence of good syncs, whatever each of them hears, the end comes after exactly `Left` of them, and stays. */
  lemma {:induction false} GoodSyncsCountDown(run: seq<DataExport>, i: nat)
    requires GoodSyncs(run) && Promising(run[0]) && i < |run|
    ensures Promising(run[i])
    ensures Left(run[i]) == if i <= Left(run[0]) then Left(run[0]) - i else 0
    ensures i > 0 && i <= Left(run[0]) ==> Step(run[i - 1], run[i])
    ensures Finished(run[i]) <==> i >= Left(run[0])
    decreases i
  {
    hide Promising, GoodFor, After, Left, Step;
    if i > 0 {
      GoodSyncsCountDown(run, i - 1);
      assert GoodSync(run[i - 1], run[i - 1 + 1]);
      var a :| GoodFor(run[i - 1], a) && run[i] == After(run[i - 1], a);
      GoodSyncAdvances(run[i - 1], a);
    }
    NothingLeftMeansFinished(run[i]);
  }

  lemma NothingLeftMeansFinished(de: DataExport)
    requires Promising(de)
    ensures Left(de) == 0 <==> Finished(de)
    ensures Left(de) <= 16
  {
    hide Invariant, GetDriverType;
  }

  /** From every reachable export that is not being deleted, has a driver and is not doomed, sixteen good syncs lead to
      Final and Successful, and on the way there every one is a step of the run. */
  lemma GoodSyncsSucceed(history: seq<DataExport>, run: seq<DataExport>) returns (n: nat)
    requires Run(history) && GoodSyncs(run) && run[0] == history[|history| - 1] && |run| > 16
    requires Resolvable(run[0].spec) && !run[0].deleting && !Doomed(run[0])
    ensures n <= 16 && Run(history + run[1..n + 1])
    ensures forall m :: n <= m < |run| ==> Finished(run[m])
  {
    hide Resolvable, Left, GoodSync, Step;
    ReachableIsPromising(history);
    hide Promising, Doomed, Fresh;
    n := Left(run[0]);
    NothingLeftMeansFinished(run[0]);
    forall m | 0 <= m < |run| ensures m >= n ==> Finished(run[m]) {
      GoodSyncsCountDown(run, m);
    }
    GoodSyncsAreSteps(history, run, n);
  }

  lemma GoodSyncsAreSteps(history: seq<DataExport>, run: seq<DataExport>, n: nat)
    requires Run(history) && GoodSyncs(run) && run[0] == history[|history| - 1] && Promising(run[0]) && n < |run|
    requires n <= Left(run[0])
    ensures Run(history + run[1..n + 1])
  {
    hide Promising, Left, GoodSync, Step, Fresh;
    var longer, h := history + run[1..n + 1], |history|;
    forall i | 0 <= i < |longer| - 1 ensures Step(longer[i], longer[i + 1]) {
      if i + 1 < h {
        assert longer[i] == history[i] && longer[i + 1] == history[i + 1];
      } else {
        GoodSyncsCountDown(run, i + 2 - h);
        assert longer[i] == run[i + 1 - h] && longer[i + 1] == run[i + 2 - h];
      }
    }
  }

  lemma ReachableIsPromising(history: seq<DataExport>)
    requires Run(history)
    ensures var de := history[|history| - 1];
            Resolvable(de.spec) && !de.deleting && !Doomed(de) ==> Promising(de)
  {
    assert history != [];
    hide Run, Resolvable, Invariant;
    RunKeepsInvariant(history, |history| - 1);
    EndIsSettled(history, |history| - 1);
  }

  lemma {:induction false} EndIsSettled(run: seq<DataExport>, n: nat)
    requires Run(run) && n < |run|
    ensures Rank(run[n].status.stage) >= 8 ==> Settled(run[n].status.status)
    decreases n
  {
    hide Step, GetDriverType, Run, Invariant, Continues;
    if n == 0 {
      RunStartsUnset(run);
    } else {
      EndIsSettled(run, n - 1);
      RunStep(run, n - 1);
    }
  }

  // ---------------------------------------------------------------- good answers exist

  const FOUND := VolumeBackup(VolumeBackupSpec("", "", ""), EMPTY_VOLUME_BACKUP_STATUS)

  /** Nothing goes wrong; the started job has this id. */
  function AllGood(id: string): Answers {
    Answers(
      deleteOk := true, cleanUps := [true], checkErr := None, classLookup := ClassFound, snapshotDriverErr := None,
      createSnapshot := Ok(("", "")), snapshotStatus := Ok((SnapshotReady, "")), backupLocationErr := None,
      uploadErr := None, sourceClaimErr := None, restoreClaim := ClaimCreated,
      restoreStatus := Ok(RestoreInfo(SnapshotReady, "", 0)), temporaryClaimErr := None, volumeBackupErr := None,
      localRestore := Ok(true), certificateErr := None, credentialErr := None, createClaimErr := None,
      boundClaimErr := None, start := Started(id), labelsShared := true,
      jobStatus := Ok(D.JobStatus(100.0, D.JobStateCompleted, "", D.JOB_COMPLETE)), vbReads := [D.VbFound(FOUND)])
  }

  /** The same but for the name of the snapshot and what is heard of the transfer. */
  predicate AllGoodBut(a: Answers, id: string) {
    && a == AllGood(id).(createSnapshot := a.createSnapshot, jobStatus := a.jobStatus, vbReads := a.vbReads)
    && a.createSnapshot.Ok?
  }

  predicate TransferDone(a: Answers) {
    && a.jobStatus.Ok? && a.jobStatus.value.status !in {"", D.JOB_FAILED} && a.jobStatus.value.state == D.JobStateCompleted
    && a.vbReads != [] && a.vbReads[0].VbFound?
  }

  lemma AllGoodIsGood(de: DataExport, a: Answers)
    requires Promising(de) && AllGoodBut(a, StartedID(de))
    requires de.status.stage == StageTransferInProgress && Open(de) ==> TransferDone(a)
    ensures GoodFor(de, a)
  {
    StartedIdHasSlash(de);
    hide GetDriverType, Message, NamespacedName, ToSnapshotPVCName, ClaimNameInv;
    assert Honest(de, a);
    assert HasSnapshotStage(de) ==> SnapshotDriver(de, a).Ok?;
    assert Open(de) ==> AllAnswersGood(de, a);
  }

  lemma CompleteIsNotFailed()
    ensures D.JOB_COMPLETE !in {"", D.JOB_FAILED}
  {
    assert D.JOB_COMPLETE[0] != D.JOB_FAILED[0];
  }

  lemma StartedIdHasSlash(de: DataExport)
    ensures '/' in StartedID(de)
  {
    assert StartedID(de)[|JobNamespace(de.spec)|] == '/';
    hide GetDriverType;
  }

  lemma GoodMakesGoodSync(de: DataExport, a: Answers)
    requires GoodFor(de, a)
    ensures GoodSync(de, After(de, a))
  {
    hide GoodFor, After;
  }

  lemma NextGoodSync(de: DataExport) returns (next: DataExport)
    requires Promising(de)
    ensures GoodSync(de, next)
  {
    hide *;
    var a := AllGood(StartedID(de));
    AllGoodSuits(StartedID(de));
    AllGoodIsGood(de, a);
    GoodMakesGoodSync(de, a);
    next := After(de, a);
  }

  lemma AllGoodSuits(id: string)
    ensures AllGoodBut(AllGood(id), id) && TransferDone(AllGood(id))
  {
    CompleteIsNotFailed();
  }

  lemma {:induction false} GoodSyncsExist(de: DataExport, n: nat) returns (run: seq<DataExport>)
    requires Promising(de)
    ensures |run| == n + 1 && run[0] == de && GoodSyncs(run)
  {
    hide Promising, GoodSync;
    if n == 0 {
      run := [de];
    } else {
      var shorter := GoodSyncsExist(de, n - 1);
      GoodSyncsCountDown(shorter, n - 1);
      var last := shorter[n - 1];
      var next := NextGoodSync(last);
      run := shorter + [next];
    }
  }

  ghost predicate CanFinish(history: seq<DataExport>) {
    exists more :: Run(history + more) && Finished((history + more)[|history + more| - 1])
  }

  /** A reachable export with a driver, not being deleted, can still end successful if and only if no failure of its
      transfer is recorded. */
  lemma SuccessStaysPossible(history: seq<DataExport>)
    requires Run(history)
    requires var de := history[|history| - 1]; Resolvable(de.spec) && !de.deleting
    ensures CanFinish(history) <==> !Doomed(history[|history| - 1])
  {
    assert history != [];
    hide Run, Resolvable, Invariant, GoodSyncs, Honest;
    var last := history[|history| - 1];
    if Doomed(last) {
      forall more | Run(history + more) ensures !Finished((history + more)[|history + more| - 1]) {
        FailureIsPermanent(history + more, |history| - 1, |history + more| - 1);
      }
    } else {
      ReachableIsPromising(history);
      var run := GoodSyncsExist(last, 16);
      var n := GoodSyncsSucceed(history, run);
      EndOfGoodRun(history, run, n);
      assert Run(history + run[1..n + 1]) && Finished((history + run[1..n + 1])[|history + run[1..n + 1]| - 1]);
    }
  }

  lemma EndOfGoodRun(history: seq<DataExport>, run: seq<DataExport>, n: nat)
    requires history != [] && run != [] && run[0] == history[|history| - 1] && n < |run|
    ensures (history + run[1..n + 1])[|history + run[1..n + 1]| - 1] == run[n]
  {
  }
}
