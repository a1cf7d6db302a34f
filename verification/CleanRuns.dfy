/** The reconciler and what its transfer leaves in the namespace together: what is left when an export loses its finalizer,
    or ends, after a `cleanUp` that returned nil. For a kopia backup without the snapshot stages. */
module CleanRuns {
  import opened Wrappers
  import opened KdmpApi
  import opened Naming
  import opened StatusStore
  import opened Reconciler
  import opened Runs
  import opened GoodRuns
  import Lifecycle
  import Handshake
  import Transfers
  import C = Cleanup

  /** The one `sync` of this export: the object it works on, what its `cleanUp` attempts have returned so far, and the
      namespace as the last of them found it. */
  datatype Sync =
    | Idle
    | Busy(in_: DataExport, heard: seq<bool>, found: set<C.Resource>)

  /** `known`: the controller has read that the export is being deleted. */
  datatype Scene = Scene(de: DataExport, present: set<C.Resource>, sync: Sync, known: bool)

  predicate Plain(de: DataExport) {
    de.spec.exportType != "" && IsKopiaBackup(de.spec) && !HasSnapshotStage(de) && !HasLocalRestoreStage(de)
  }

  /** Nothing of this export is left but perhaps its VolumeBackup. The certificate secret is not its own: all exports of the
      namespace share it. */
  predicate Clean(present: set<C.Resource>) {
    present <= {C.VolumeBackupObject, C.CertificateSecret}
  }

  ghost predicate ForeignStep(s: Scene, s': Scene) {
    ForeignWrite(s.de, s'.de, true) && s' == s.(de := s'.de)
  }

  /** Another export of the namespace creates or deletes the certificate secret. */
  predicate OthersStep(s: Scene, s': Scene) {
    s' == s.(present := s'.present) && s'.present - {C.CertificateSecret} == s.present - {C.CertificateSecret}
  }

  /** The controller's cache does not go back behind a deletion it has shown. */
  predicate BeginStep(s: Scene, s': Scene) {
    && s.sync.Idle? && s'.sync.Busy? && s'.sync.heard == []
    && SameOwned(s'.sync.in_, s.de)
    && (s'.sync.in_.deleting ==> s.de.deleting) && (s.known ==> s'.sync.in_.deleting)
    && s' == s.(sync := s'.sync, known := s'.sync.in_.deleting)
  }

  /** On its way to `StartJob`, and in it, `sync` creates secrets, accounts and the job, in whichever part. */
  predicate MakeStep(s: Scene, s': Scene) {
    && s.sync.Busy? && s.sync.in_.status.stage == StageTransferScheduled && !s.sync.in_.deleting
    && !Settled(s.sync.in_.status.status)
    && s.present <= s'.present && s' == s.(present := s'.present)
  }

  /** A pod of the job starts and creates its VolumeBackup. */
  predicate PodStep(s: Scene, s': Scene) {
    C.PodMayCreate(s.present) && s' == s.(present := s.present + {C.VolumeBackupObject})
  }

  /** `sync` comes to `cleanUp`: once for an export being deleted, until the first nil in the cleanup stage. */
  predicate MayAttempt(sync: Sync) {
    && sync.Busy? && Handshake.CleansUp(sync.in_)
    && (if sync.in_.deleting then
          sync.heard == [] && sync.in_.status.stage !in {StageUnset, StageInitial} && CLEANUP_FINALIZER in sync.in_.finalizers
        else true !in sync.heard)
  }

  ghost predicate AttemptStep(s: Scene, s': Scene) {
    && MayAttempt(s.sync)
    && exists a, failed ::
         && C.Attempted(s.sync.in_.status.transferID, a, s.present, s'.present, failed)
         && s' == s.(present := s'.present, sync := s.sync.(heard := s.sync.heard + [!failed], found := s.present))
  }

  /** `sync` writes the export, with what its `cleanUp` attempts have returned. */
  ghost predicate WriteStep(s: Scene, s': Scene) {
    && s.sync.Busy? && s' == s.(de := s'.de, sync := Idle)
    && exists a, p :: SyncWrite(s.sync.in_, s.de, s'.de, a, p) && (Handshake.CleansUp(s.sync.in_) ==> a.cleanUps == s.sync.heard)
  }

  /** `sync` returns, or the controller crashes. */
  predicate EndStep(s: Scene, s': Scene) {
    s' == s.(sync := Idle)
  }

  ghost predicate SceneStep(s: Scene, s': Scene) {
    || ForeignStep(s, s') || OthersStep(s, s') || BeginStep(s, s') || MakeStep(s, s')
    || PodStep(s, s') || AttemptStep(s, s') || WriteStep(s, s') || EndStep(s, s')
  }

  ghost predicate SceneRun(ss: seq<Scene>) {
    && ss != [] && Fresh(ss[0].de) && Plain(ss[0].de) && Clean(ss[0].present) && ss[0].sync.Idle? && !ss[0].known
    && forall i :: 0 <= i < |ss| - 1 ==> SceneStep(ss[i], ss[i + 1])
  }

  // ---------------------------------------------------------------- the invariant

  /** The last attempt has returned nil: what it has left, against what it has found. */
  predicate AfterNil(sync: Sync, present: set<C.Resource>) {
    sync.Busy? && true in sync.heard ==>
      && Handshake.CleansUp(sync.in_)
      && (Clean(present) <==> sync.in_.status.transferID != "" || Clean(sync.found))
  }

  predicate SyncInv(s: Scene) {
    s.sync.Busy? ==> SameOwned(s.sync.in_, s.de) && s.sync.in_.deleting == s.known && (s.known ==> s.de.deleting)
  }

  /** A backup that has succeeded has a job to clean up after. */
  predicate SuccessInv(de: DataExport) {
    Rank(de.status.stage) >= 8 && de.status.status == StatusSuccessful ==> de.status.transferID != ""
  }

  ghost predicate SceneInv(s: Scene) {
    Invariant(s.de) && Plain(s.de) && SuccessInv(s.de) && SyncInv(s) && AfterNil(s.sync, s.present) && (s.known ==> s.de.deleting)
  }

  lemma PodMakesNoDifference(present: set<C.Resource>)
    ensures Clean(present + {C.VolumeBackupObject}) <==> Clean(present)
    ensures Clean(present - {C.CertificateSecret}) <==> Clean(present)
    ensures C.PodMayCreate(present) ==> !Clean(present)
  {
    assert C.Role in C.POD_NEEDS;
  }

  lemma AttemptLeaves(id: string, a: C.Attempt, was: set<C.Resource>, now: set<C.Resource>)
    requires C.Attempted(id, a, was, now, false)
    ensures Clean(now) <==> id != "" || Clean(was)
  {
    PodMakesNoDifference(was);
    PodMakesNoDifference(was + {C.VolumeBackupObject});
    hide C.DeleteFails, C.PodReturns;
  }

  lemma QuietStepKeeps(s: Scene, s': Scene)
    requires SceneInv(s)
    requires OthersStep(s, s') || BeginStep(s, s') || MakeStep(s, s') || PodStep(s, s') || EndStep(s, s')
    ensures SceneInv(s')
  {
    hide Invariant, Plain, SuccessInv, C.PodMayCreate;
    PodMakesNoDifference(s.present);
    PodMakesNoDifference(s'.present);
  }

  lemma AttemptKeeps(s: Scene, s': Scene)
    requires SceneInv(s) && AttemptStep(s, s')
    ensures SceneInv(s')
  {
    hide Invariant, Plain, SuccessInv, C.Attempted, Clean;
    var a, failed :|
      && C.Attempted(s.sync.in_.status.transferID, a, s.present, s'.present, failed)
      && s' == s.(present := s'.present, sync := s.sync.(heard := s.sync.heard + [!failed], found := s.present));
    if !failed {
      AttemptLeaves(s.sync.in_.status.transferID, a, s.present, s'.present);
    }
  }

  lemma ObjectStepKeeps(prev: DataExport, next: DataExport)
    requires Step(prev, next) && Invariant(prev) && Plain(prev) && SuccessInv(prev)
    ensures Invariant(next) && Plain(next) && SuccessInv(next) && (prev.deleting ==> next.deleting)
    ensures Rank(prev.status.stage) <= Rank(next.status.stage)
  {
    hide Step, GetDriverType, ClaimNameInv, NamespacedName, JobNamespace, StartedID;
    StepKeepsInvariant(prev, next);
    StartedIdIsNotEmpty(prev);
  }

  lemma StartedIdIsNotEmpty(de: DataExport)
    ensures StartedID(de) != ""
  {
    assert StartedID(de)[|JobNamespace(de.spec)|] == '/';
    hide GetDriverType;
  }

  lemma WriteIsStep(s: Scene, s': Scene)
    requires WriteStep(s, s')
    ensures Step(s.de, s'.de)
  {
    hide SyncWrite;
  }

  lemma SceneStepKeeps(s: Scene, s': Scene)
    requires SceneInv(s) && SceneStep(s, s')
    ensures SceneInv(s')
  {
    hide Invariant, Plain, SuccessInv, WriteStep, OthersStep, BeginStep, MakeStep, PodStep, AttemptStep, Step;
    if ForeignStep(s, s') || WriteStep(s, s') {
      ObjectChanges(s, s');
    } else if AttemptStep(s, s') {
      AttemptKeeps(s, s');
    } else {
      QuietStepKeeps(s, s');
    }
  }

  lemma ObjectChanges(s: Scene, s': Scene)
    requires SceneInv(s) && (ForeignStep(s, s') || WriteStep(s, s'))
    ensures SceneInv(s')
  {
    hide Invariant, Plain, SuccessInv, SyncWrite;
    assert Step(s.de, s'.de) by {
      if WriteStep(s, s') {
        WriteIsStep(s, s');
      }
    }
    hide Step;
    ObjectStepKeeps(s.de, s'.de);
  }

  lemma {:induction false} RunKeepsSceneInv(ss: seq<Scene>, i: nat)
    requires SceneRun(ss) && i < |ss|
    ensures SceneInv(ss[i])
    decreases i
  {
    hide SceneStep, Fresh, Invariant, Plain;
    if i == 0 {
      FreshIsInvariant(ss[0].de);
      FreshIsUnfinished(ss[0].de);
    } else {
      RunKeepsSceneInv(ss, i - 1);
      assert SceneStep(ss[i - 1], ss[i - 1 + 1]);
      SceneStepKeeps(ss[i - 1], ss[i]);
    }
  }

  lemma FreshIsUnfinished(de: DataExport)
    requires Fresh(de)
    ensures SuccessInv(de)
  {
  }

  // ---------------------------------------------------------------- what is left

  /** This write takes the controller's finalizer off. */
  ghost predicate Releases(s: Scene, s': Scene) {
    && WriteStep(s, s') && s.de.status.stage != StageInitial
    && CLEANUP_FINALIZER in s.de.finalizers && CLEANUP_FINALIZER !in s'.de.finalizers
  }

  /** This write ends the export, successful. */
  ghost predicate Succeeds(s: Scene, s': Scene) {
    && WriteStep(s, s') && s.de.status.stage == StageCleanup
    && s'.de.status.stage == StageFinal && s'.de.status.status == StatusSuccessful
  }

  /** Neither `StartJob` nor anything before it will run for this export any more. */
  predicate PastMaking(s: Scene) {
    s.known || Rank(s.de.status.stage) >= 8
  }

  /** A write decided on a nil: what that `cleanUp` had left is there still. */
  lemma NilLeaves(s: Scene, s': Scene)
    requires SceneInv(s) && WriteStep(s, s') && true in s.sync.heard
    ensures Clean(s'.present) <==> s.de.status.transferID != "" || Clean(s.sync.found)
  {
    hide Invariant, Plain, SuccessInv, SyncWrite, Clean;
  }

  lemma ReleaseLeaves(s: Scene, s': Scene)
    requires SceneInv(s) && Releases(s, s')
    ensures s.sync.Busy? && PastMaking(s')
    ensures Clean(s'.present) <==> s.de.status.transferID != "" || Clean(s.sync.found)
  {
    hide SyncWrite, Invariant, Plain, SuccessInv, AfterNil, Clean;
    var a, p :| SyncWrite(s.sync.in_, s.de, s'.de, a, p) && (Handshake.CleansUp(s.sync.in_) ==> a.cleanUps == s.sync.heard);
    Lifecycle.FinalizerNeedsCleanUp(s.sync.in_, s.de, s'.de, a, p);
    NilLeaves(s, s');
  }

  lemma SuccessLeaves(s: Scene, s': Scene)
    requires SceneInv(s) && Succeeds(s, s')
    ensures PastMaking(s') && Clean(s'.present)
  {
    hide SyncWrite, Invariant, Plain, AfterNil, Clean, Decides, LocalCopy, Honest, JobIdInv, ClaimNameInv, GetDriverType;
    var a, p :| SyncWrite(s.sync.in_, s.de, s'.de, a, p) && (Handshake.CleansUp(s.sync.in_) ==> a.cleanUps == s.sync.heard);
    WriteLands(s.sync.in_, s.de, s'.de, a, p);
    EndNeedsNil(s.de, s'.de, a, p);
    NilLeaves(s, s');
  }

  lemma EndNeedsNil(prev: DataExport, next: DataExport, a: Answers, p: Patch)
    requires Lands(prev, next, p) && (p == EMPTY_PATCH.(removeFinalizer := true) || Moves(prev, a, p))
    requires prev.status.stage == StageCleanup && next.status.stage == StageFinal && next.status.status == StatusSuccessful
    ensures true in a.cleanUps && prev.status.status == StatusSuccessful
  {
    hide GetDriverType;
  }

  lemma StepKeepsClean(s: Scene, s': Scene)
    requires SceneInv(s) && SceneStep(s, s') && PastMaking(s)
    ensures PastMaking(s') && (Clean(s.present) ==> Clean(s'.present))
  {
    hide Invariant, Plain, SuccessInv, SyncWrite, C.DeleteFails, C.PodReturns, AfterNil;
    PodMakesNoDifference(s.present);
    if ForeignStep(s, s') || WriteStep(s, s') {
      assert Step(s.de, s'.de) by {
        if WriteStep(s, s') {
          WriteIsStep(s, s');
        }
      }
      ObjectStepKeeps(s.de, s'.de);
    }
  }

  lemma {:induction false} CleanStays(ss: seq<Scene>, i: nat, j: nat)
    requires SceneRun(ss) && i <= j < |ss| && PastMaking(ss[i]) && Clean(ss[i].present)
    ensures PastMaking(ss[j]) && Clean(ss[j].present)
    decreases j
  {
    hide SceneStep, Fresh, SceneInv, Clean, PastMaking, Plain;
    if i < j {
      CleanStays(ss, i, j - 1);
      assert SceneStep(ss[j - 1], ss[j - 1 + 1]);
      RunKeepsSceneInv(ss, j - 1);
      StepKeepsClean(ss[j - 1], ss[j]);
    }
  }

  /** Over every run: when the controller takes its finalizer off an export past the initial stage, the namespace is clean,
      and stays so, if and only if a transfer id was recorded or the last `cleanUp` had found it clean already. */
  lemma ReleasedExportIsClean(ss: seq<Scene>, i: nat, j: nat)
    requires SceneRun(ss) && i < j < |ss| && Releases(ss[i], ss[i + 1])
    ensures ss[i].sync.Busy?
    ensures Clean(ss[i + 1].present) <==> ss[i].de.status.transferID != "" || Clean(ss[i].sync.found)
    ensures Clean(ss[i + 1].present) ==> Clean(ss[j].present)
  {
    hide *;
    RunKeepsSceneInv(ss, i);
    ReleaseLeaves(ss[i], ss[i + 1]);
    if Clean(ss[i + 1].present) {
      CleanStays(ss, i + 1, j);
    }
  }

  /** A backup that ends Final and Successful leaves the namespace clean for good. */
  lemma SuccessfulExportIsClean(ss: seq<Scene>, i: nat, j: nat)
    requires SceneRun(ss) && i < j < |ss| && Succeeds(ss[i], ss[i + 1])
    ensures Clean(ss[j].present)
  {
    hide *;
    RunKeepsSceneInv(ss, i);
    SuccessLeaves(ss[i], ss[i + 1]);
    CleanStays(ss, i + 1, j);
  }

  /** Of all these steps only a `cleanUp` attempt takes the VolumeBackup away, and it does so as `Handshake` has it. */
  lemma DeletionIsDeleteStep(s: Scene, s': Scene, w: Handshake.World)
    requires SceneStep(s, s') && C.VolumeBackupObject in s.present && C.VolumeBackupObject !in s'.present
    requires s.sync.Busy? ==> w.worker.Syncing? && w.worker.in_ == s.sync.in_
    ensures s.sync.Busy? && ParseJobID(s.sync.in_.status.transferID).Ok?
    ensures Handshake.DeleteStep(w, w.(vbs := w.vbs - {ParseJobID(s.sync.in_.status.transferID).value}))
  {
    NamespacedNameInvertsParse(if s.sync.Busy? then s.sync.in_.status.transferID else "");
    hide C.DeleteFails, C.PodReturns, SyncWrite, Handshake.CleansUp, ParseJobID;
    assert C.VolumeBackupObject !in {C.CertificateSecret};
    assert OthersStep(s, s') ==>
        (C.VolumeBackupObject in s'.present - {C.CertificateSecret} <==> C.VolumeBackupObject in s.present - {C.CertificateSecret});
  }

  // ---------------------------------------------------------------- the case that leaves the job behind

  ghost predicate RunTo(ss: seq<Scene>, start: DataExport, s: Scene) {
    SceneRun(ss) && ss[0].de == start && ss[|ss| - 1] == s
  }

  lemma On(ss: seq<Scene>, start: DataExport, s: Scene, s': Scene) returns (ss': seq<Scene>)
    requires RunTo(ss, start, s) && SceneStep(s, s')
    ensures RunTo(ss', start, s') && ss' == ss + [s']
  {
    hide SceneStep, Fresh, Plain, Clean;
    ss' := ss + [s'];
    forall i | 0 <= i < |ss'| - 1 ensures SceneStep(ss'[i], ss'[i + 1]) {
      if i < |ss| - 1 {
        assert ss'[i] == ss[i] && ss'[i + 1] == ss[i + 1];
      }
    }
  }

  function Resting(de: DataExport, present: set<C.Resource>): Scene {
    Scene(de, present, Idle, false)
  }

  /** One sync that writes, before any cleanup. */
  lemma OneSync(ss: seq<Scene>, start: DataExport, de: DataExport, next: DataExport, a: Answers, p: Patch)
    returns (ss': seq<Scene>)
    requires RunTo(ss, start, Resting(de, {})) && SyncWrite(de, de, next, a, p) && !Handshake.CleansUp(de)
    ensures RunTo(ss', start, Resting(next, {}))
  {
    hide RunTo, SyncWrite, OthersStep, MakeStep, PodStep, AttemptStep, ForeignStep;
    var s := Resting(de, {}).(sync := Busy(de, [], {}));
    assert BeginStep(Resting(de, {}), s);
    ss' := On(ss, start, Resting(de, {}), s);
    assert WriteStep(s, Resting(next, {}));
    ss' := On(ss', start, s, Resting(next, {}));
  }

  predicate ReadyToStart(de: DataExport) {
    de.status.stage == StageTransferScheduled && Open(de)
  }

  lemma LeftOnTheWay(de: DataExport)
    requires Promising(de) && Plain(de) && Left(de) >= 5
    ensures Left(de) == 5 ==> ReadyToStart(de)
    ensures !Finished(de) && !Transfers.AwaitsTransfer(de) && !Handshake.CleansUp(de)
  {
    hide Resolvable, JobIdInv, ClaimNameInv, IsKopiaBackup;
  }

  /** Sync after sync as far as the transfer. */
  lemma {:induction false} ToTransfer(ss: seq<Scene>, start: DataExport, de: DataExport) returns (ss': seq<Scene>, end: DataExport)
    requires RunTo(ss, start, Resting(de, {})) && Plain(start) && Transfers.Onward(start, de, "") && Left(de) >= 5
    ensures RunTo(ss', start, Resting(end, {})) && Transfers.Onward(start, end, "") && ReadyToStart(end)
    decreases Left(de)
  {
    assert Plain(de);
    LeftOnTheWay(de);
    hide RunTo, Plain, Promising, Left, ReadyToStart, Finished, Transfers.AwaitsTransfer, Handshake.CleansUp, SyncWrite;
    if Left(de) == 5 {
      ss', end := ss, de;
    } else {
      var next, a, p := Transfers.OnwardByQuietSync(start, de, "");
      ss' := OneSync(ss, start, de, next, a, p);
      ss', end := ToTransfer(ss', start, next);
    }
  }

  /** Everything the transfer makes, but for what others may share. */
  const LEFTOVERS: set<C.Resource> := C.ALL - {C.CertificateSecret}

  const NO_TROUBLE := C.Call(false, C.Answered)

  const ANSWERED := C.Attempt(NO_TROUBLE, NO_TROUBLE, NO_TROUBLE, NO_TROUBLE, NO_TROUBLE, NO_TROUBLE, NO_TROUBLE, C.NodeReady,
                              NO_TROUBLE, NO_TROUBLE)

  lemma LeftoversAreNotClean()
    ensures C.TransferJob in LEFTOVERS && !Clean(LEFTOVERS)
    ensures C.PodMayCreate(C.ALL) && C.Attempted("", ANSWERED, C.ALL, LEFTOVERS, false)
  {
    assert C.TransferJob in C.ALL && C.CertificateSecret != C.TransferJob;
    assert C.POD_NEEDS <= C.ALL by {
      forall r | r in C.POD_NEEDS ensures r in C.ALL {
        C.EveryResource(r);
      }
    }
  }

  /** `StartJob` has made everything and its pod the VolumeBackup, and the controller dies before it records the id. */
  lemma JobStartsUnrecorded(ss: seq<Scene>, start: DataExport, de: DataExport) returns (ss': seq<Scene>)
    requires RunTo(ss, start, Resting(de, {})) && ReadyToStart(de) && !de.deleting
    requires !Settled(de.status.status)
    ensures RunTo(ss', start, Resting(de, C.ALL))
  {
    hide RunTo, ForeignStep, WriteStep, AttemptStep, OthersStep, C.Attempted, C.PodMayCreate, Open;
    var s := Resting(de, {}).(sync := Busy(de, [], {}));
    assert BeginStep(Resting(de, {}), s);
    ss' := On(ss, start, Resting(de, {}), s);
    var made := s.(present := C.ALL);
    assert MakeStep(s, made);
    ss' := On(ss', start, s, made);
    assert EndStep(made, Resting(de, C.ALL));
    ss' := On(ss', start, made, Resting(de, C.ALL));
  }

  /** The export as it is when it is being deleted, with the controller's finalizer on. */
  function BeingDeleted(de: DataExport): DataExport {
    de.(deleting := true, finalizers := de.finalizers + {CLEANUP_FINALIZER})
  }

  lemma DeletionIsAnEdit(de: DataExport)
    requires !de.deleting
    ensures ForeignWrite(de, BeingDeleted(de), true)
  {
    assert BeingDeleted(de) == ApplyEdit(de, Edit(de.labels, de.finalizers + {CLEANUP_FINALIZER}, true, None, None));
  }

  /** Deleted now, it loses its finalizer. */
  lemma DeletedReleases(de: DataExport) returns (next: DataExport, a: Answers, p: Patch)
    requires ReadyToStart(de) && Resolvable(de.spec)
    ensures a.cleanUps == [true] && SyncWrite(BeingDeleted(de), BeingDeleted(de), next, a, p)
    ensures CLEANUP_FINALIZER !in next.finalizers
  {
    hide GetDriverType, Message, PlanTransferScheduled, PlanTransferInProgress;
    var gone := BeingDeleted(de);
    a := AllGood(StartedID(gone));
    p := EMPTY_PATCH.(removeFinalizer := true);
    next := Merge(gone, p);
    assert SyncPlan(gone, a) == Write(true, p);
    assert Decides(gone, a, p) && Honest(gone, a) && Live(gone);
  }

  lemma CleanedWithoutId(ss: seq<Scene>, start: DataExport, de: DataExport)
    returns (ss': seq<Scene>, s: Scene)
    requires RunTo(ss, start, Resting(de, C.ALL)) && ReadyToStart(de) && de.status.transferID == "" && !de.deleting
    ensures RunTo(ss', start, s)
    ensures s == Scene(BeingDeleted(de), LEFTOVERS, Busy(BeingDeleted(de), [true], C.ALL), true)
  {
    LeftoversAreNotClean();
    DeletionIsAnEdit(de);
    hide RunTo, WriteStep, MakeStep, OthersStep, C.Attempted, ForeignWrite, PodStep, LEFTOVERS;
    var gone := BeingDeleted(de);
    var deleted := Resting(gone, C.ALL);
    assert ForeignStep(Resting(de, C.ALL), deleted);
    ss' := On(ss, start, Resting(de, C.ALL), deleted);
    var s1 := Scene(gone, C.ALL, Busy(gone, [], {}), true);
    assert BeginStep(deleted, s1);
    ss' := On(ss', start, deleted, s1);
    s := Scene(gone, LEFTOVERS, Busy(gone, [true], C.ALL), true);
    assert MayAttempt(s1.sync) && [] + [!false] == [true];
    assert AttemptStep(s1, s);
    ss' := On(ss', start, s1, s);
  }

  /** Every kopia backup has a run, without any request that fails, in which the controller dies between `StartJob` and
      recording its id, the export is deleted, `cleanUp` returns nil, and the finalizer goes while the job, its accounts and
      its credentials are all still there. */
  lemma DeletionCanLeaveTheJob(start: DataExport) returns (ss: seq<Scene>, n: nat)
    requires Transfers.KopiaBackupAhead(start) && Plain(start)
    ensures SceneRun(ss) && ss[0].de == start && |ss| == n + 2 && Releases(ss[n], ss[n + 1])
    ensures ss[n + 1].present == LEFTOVERS && C.TransferJob in LEFTOVERS
  {
    Transfers.AheadIsOnward(start, "");
    LeftoversAreNotClean();
    assert Left(start) >= 5;
    var first := [Resting(start, {})];
    assert RunTo(first, start, Resting(start, {})) by { FirstScene(start); }
    hide RunTo, Left, Plain, SyncWrite, LEFTOVERS, Transfers.KopiaBackupAhead, Invariant, C.Attempted, C.PodMayCreate;
    var de;
    ss, de := ToTransfer(first, start, start);
    NothingRecordedYet(de);
    ss := JobStartsUnrecorded(ss, start, de);
    var s;
    ss, s := CleanedWithoutId(ss, start, de);
    var next, a, p := DeletedReleases(de);
    var s' := s.(de := next, sync := Idle);
    assert WriteStep(s, s');
    n := |ss| - 1;
    assert ss[n] == s by { LastScene(ss, start, s); }
    ss := On(ss, start, s, s');
    LastScene(ss, start, s');
  }

  lemma LastScene(ss: seq<Scene>, start: DataExport, s: Scene)
    requires RunTo(ss, start, s)
    ensures ss != [] && SceneRun(ss) && ss[0].de == start && ss[|ss| - 1] == s
  {
    hide SceneStep;
  }

  lemma FirstScene(start: DataExport)
    requires Fresh(start) && Plain(start)
    ensures RunTo([Resting(start, {})], start, Resting(start, {}))
  {
    hide SceneStep, Fresh, Plain;
  }

  lemma NothingRecordedYet(de: DataExport)
    requires Promising(de) && ReadyToStart(de)
    ensures de.status.transferID == "" && Resolvable(de.spec) && !de.deleting && !Settled(de.status.status)
  {
    hide GetDriverType, ClaimNameInv, StageInv;
  }
}
