/** What holds over every run of the reconciler: any number of `sync` calls, crashes between their side effects,
    repeated calls, and edits of the object's metadata by others. */
module Runs {
  import opened Wrappers
  import opened KdmpApi
  import opened Naming
  import opened StatusStore
  import opened Reconciler
  import Controller

  /** As created: nothing of the controller's own fields is set yet. */
  predicate Fresh(de: DataExport) {
    && Live(de)
    && de.status == ExportStatus(StageUnset, StatusUnset, "", "", "", "", "", "", 0, 0, "", de.status.localSnapshotRestore)
  }

  ghost predicate Run(run: seq<DataExport>) {
    && run != [] && Fresh(run[0])
    && forall i :: 0 <= i < |run| - 1 ==> Step(run[i], run[i + 1])
  }

  function Rank(stage: Stage): nat {
    match stage
    case StageUnset => 0
    case StageInitial => 1
    case StageLocalSnapshotRestore => 2
    case StageSnapshotScheduled => 2
    case StageLocalSnapshotRestoreInProgress => 3
    case StageSnapshotInProgress => 3
    case StageSnapshotRestore => 4
    case StageSnapshotRestoreInProgress => 5
    case StageTransferScheduled => 6
    case StageTransferInProgress => 7
    case StageCleanup => 8
    case StageFinal => 9
  }

  predicate Settled(t: Status) {
    t == StatusSuccessful || t == StatusFailed
  }

  /** The state diagram of the export: which (stage, status) may follow which. */
  predicate Diagram(de: DataExport, s': Stage, t': Status) {
    var t := de.status.status;
    var s := de.status.stage;
    var again := s' == s;
    var start := t' == StatusInitial;
    match s
    case StageUnset => s' == StageInitial && start
    case StageInitial =>
      if t == StatusSuccessful && Resolvable(de.spec) then s' == FirstWorkingStage(de) && start
      else again && Settled(t') && (!Resolvable(de.spec) ==> t' == StatusFailed)
    case StageSnapshotScheduled =>
      if t == StatusSuccessful then s' == StageSnapshotInProgress && start else again && Settled(t')
    case StageSnapshotInProgress =>
      if t == StatusSuccessful then s' == StageSnapshotRestore && start
      else again && (Settled(t') || t' == StatusInProgress)
    case StageSnapshotRestore =>
      if t == StatusSuccessful then s' == StageSnapshotRestoreInProgress && start else again && Settled(t')
    case StageSnapshotRestoreInProgress =>
      if t == StatusSuccessful then s' == StageTransferScheduled && start
      else again && (Settled(t') || t' == StatusInProgress)
    case StageLocalSnapshotRestore =>
      if t == StatusSuccessful then s' == StageLocalSnapshotRestoreInProgress && start
      else if t == StatusFailed then s' == StageTransferScheduled && start
      else again && Settled(t')
    case StageLocalSnapshotRestoreInProgress =>
      if t == StatusSuccessful then s' == StageCleanup && t' == StatusSuccessful
      else if t == StatusFailed then s' == StageTransferScheduled && start
      else again && (Settled(t') || t' == StatusInProgress)
    case StageTransferScheduled =>
      if t == StatusSuccessful then s' == StageTransferInProgress && start
      else if t == StatusFailed then s' == StageCleanup && t' == StatusFailed
      else again && Settled(t')
    case StageTransferInProgress =>
      if Settled(t) then s' == StageCleanup && t' == t
      else again && (Settled(t') || t' == StatusInProgress)
    case StageCleanup => s' == StageFinal && (t' == t || t' == StatusFailed)
    case StageFinal => false
  }

  predicate SamePoint(a: DataExport, b: DataExport) {
    a.status.stage == b.status.stage && a.status.status == b.status.status
  }

  /** Which fields a decided patch may ask for besides stage, status, reason and the volume snapshot. */
  predicate AsksOnly(de: DataExport, a: Answers, p: Patch) {
    p == Fail(p.reason) || AsksInPlace(de, a, p)
  }

  predicate AsksInPlace(de: DataExport, a: Answers, p: Patch) {
    var s, done := de.status.stage, p.status == StatusSuccessful;
    && (p.transferID != "" ==> s == StageTransferScheduled && done && a.start == Started(p.transferID))
    && (s == StageTransferScheduled && done ==> a.start == Started(p.transferID))
    && (p.snapshotPVCName != "" || p.snapshotPVCNamespace != "" ==>
          s == StageSnapshotRestore && done && a.restoreClaim.ClaimCreated?)
    && (s == StageSnapshotRestore && done ==>
          !a.restoreClaim.ClaimFailed? && p.snapshotPVCName == RestoredClaimName(de, a.restoreClaim))
    && (p.size != 0 ==>
          s in {StageLocalSnapshotRestoreInProgress, StageTransferInProgress} && !Settled(de.status.status) && done)
    && (p.progressPercentage != 0 ==> s == StageTransferInProgress && !Settled(de.status.status) && done)
    && (p.snapshotID != "" ==>
          s in {StageSnapshotScheduled, StageTransferInProgress} && de.status.status != StatusSuccessful && done)
    && (s == StageCleanup && p.status != StatusFailed ==> true in a.cleanUps)
    && !p.removeFinalizer
  }

  /** The patch moves the export along the state diagram. */
  predicate Moves(de: DataExport, a: Answers, p: Patch) {
    && Diagram(de, if p.stage != StageUnset then p.stage else de.status.stage,
               if p.status != StatusUnset then p.status else de.status.status)
    && AsksOnly(de, a, p)
  }

  predicate Follows(de: DataExport, a: Answers, plan: Plan) {
    plan.Write? ==> Moves(de, a, plan.patch)
  }

  lemma InitialFollows(de: DataExport, a: Answers)
    requires de.status.stage == StageInitial && Resolvable(de.spec)
    ensures Follows(de, a, PlanInitial(de, a))
  {
    hide Message, GetDriverType;
  }

  lemma SnapshotScheduledFollows(de: DataExport, a: Answers)
    requires de.status.stage == StageSnapshotScheduled && Resolvable(de.spec)
    ensures Follows(de, a, PlanSnapshotScheduled(de, a))
  {
    hide Message, GetDriverType, SnapshotDriver, ToSnapshotPVCName;
  }

  lemma SnapshotInProgressFollows(de: DataExport, a: Answers)
    requires de.status.stage == StageSnapshotInProgress && Resolvable(de.spec)
    ensures Follows(de, a, PlanSnapshotInProgress(de, a))
  {
    hide Message, GetDriverType, SnapshotDriver, ToSnapshotPVCName;
  }

  lemma SnapshotRestoreFollows(de: DataExport, a: Answers)
    requires de.status.stage == StageSnapshotRestore && Resolvable(de.spec)
    ensures Follows(de, a, PlanSnapshotRestore(de, a))
  {
    hide Message, GetDriverType, SnapshotDriver, ToSnapshotPVCName;
  }

  lemma SnapshotRestoreInProgressFollows(de: DataExport, a: Answers)
    requires de.status.stage == StageSnapshotRestoreInProgress && Resolvable(de.spec)
    ensures Follows(de, a, PlanSnapshotRestoreInProgress(de, a))
  {
    hide Message, GetDriverType, SnapshotDriver, ToSnapshotPVCName;
  }

  lemma LocalSnapshotRestoreFollows(de: DataExport, a: Answers)
    requires de.status.stage == StageLocalSnapshotRestore && Resolvable(de.spec)
    ensures Follows(de, a, PlanLocalSnapshotRestore(de, a))
  {
    hide Message, GetDriverType, SnapshotDriver, ToSnapshotPVCName;
  }

  lemma LocalSnapshotRestoreInProgressFollows(de: DataExport, a: Answers)
    requires de.status.stage == StageLocalSnapshotRestoreInProgress && Resolvable(de.spec)
    ensures Follows(de, a, PlanLocalSnapshotRestoreInProgress(de, a))
  {
    hide Message, GetDriverType, SnapshotDriver, ToSnapshotPVCName;
  }

  lemma BeforeStartJobFollows(de: DataExport, a: Answers, driver: string)
    requires de.status.stage == StageTransferScheduled && Resolvable(de.spec)
    ensures BeforeStartJob(de, a, driver).Some? ==> Follows(de, a, BeforeStartJob(de, a, driver).value)
    ensures BeforeStartJob(de, a, driver).None? ==> !Settled(de.status.status)
  {
    hide Message, GetDriverType;
  }

  lemma TransferScheduledFollows(de: DataExport, a: Answers, driver: string)
    requires de.status.stage == StageTransferScheduled && Resolvable(de.spec)
    ensures Follows(de, a, PlanTransferScheduled(de, a, driver))
  {
    BeforeStartJobFollows(de, a, driver);
    hide Message, GetDriverType, BeforeStartJob;
  }

  lemma TransferInProgressFollows(de: DataExport, a: Answers, driver: string)
    requires de.status.stage == StageTransferInProgress && Resolvable(de.spec)
    ensures Follows(de, a, PlanTransferInProgress(de, a, driver))
  {
    hide Message, GetDriverType, ParseJobID;
  }

  /** Before any stage handler: the first write, a deletion at the initial stage, and an unknown driver. */
  lemma PreludeFollows(de: DataExport, a: Answers)
    requires SyncPlan(de, a).Write? && (Rank(de.status.stage) >= 2 ==> Resolvable(de.spec))
    requires !Resolvable(de.spec) || de.deleting || de.status.stage in {StageUnset, StageCleanup, StageFinal}
    ensures SyncPlan(de, a).patch == EMPTY_PATCH.(removeFinalizer := true) || Moves(de, a, SyncPlan(de, a).patch)
  {
    hide Message, GetDriverType, PlanInitial, PlanSnapshotScheduled, PlanSnapshotInProgress, PlanSnapshotRestore,
      PlanSnapshotRestoreInProgress, PlanLocalSnapshotRestore, PlanLocalSnapshotRestoreInProgress, PlanTransferScheduled,
      PlanTransferInProgress, RestoredClaimName;
  }

  lemma HandlersFollow(de: DataExport, a: Answers)
    requires Resolvable(de.spec) && !de.deleting && de.status.stage !in {StageUnset, StageCleanup, StageFinal}
    ensures Follows(de, a, SyncPlan(de, a))
  {
    hide Message, GetDriverType, Follows, PlanInitial, PlanSnapshotScheduled, PlanSnapshotInProgress, PlanSnapshotRestore,
      PlanSnapshotRestoreInProgress, PlanLocalSnapshotRestore, PlanLocalSnapshotRestoreInProgress, PlanTransferScheduled,
      PlanTransferInProgress;
    match de.status.stage
    case StageInitial => InitialFollows(de, a);
    case StageSnapshotScheduled => SnapshotScheduledFollows(de, a);
    case StageSnapshotInProgress => SnapshotInProgressFollows(de, a);
    case StageSnapshotRestore => SnapshotRestoreFollows(de, a);
    case StageSnapshotRestoreInProgress => SnapshotRestoreInProgressFollows(de, a);
    case StageLocalSnapshotRestore => LocalSnapshotRestoreFollows(de, a);
    case StageLocalSnapshotRestoreInProgress => LocalSnapshotRestoreInProgressFollows(de, a);
    case StageTransferScheduled => TransferScheduledFollows(de, a, GetDriverType(de.spec).value);
    case StageTransferInProgress => TransferInProgressFollows(de, a, GetDriverType(de.spec).value);
    case _ =>
  }

  /** Every patch `sync` decides on either removes the finalizer alone or follows the diagram. */
  lemma PlanFollowsDiagram(de: DataExport, a: Answers, p: Patch)
    requires Decides(de, a, p) && (Rank(de.status.stage) >= 2 ==> Resolvable(de.spec))
    ensures p == EMPTY_PATCH.(removeFinalizer := true) || Moves(de, a, p)
  {
    hide SyncPlan, GetDriverType, Moves, Completed, VolumeBackupUnread;
    if SyncPlan(de, a).AwaitVolumeBackup? {
      AwaitMoves(de, a, p);
    } else if !Resolvable(de.spec) || de.deleting || de.status.stage in {StageUnset, StageCleanup, StageFinal} {
      PreludeFollows(de, a);
    } else {
      HandlersFollow(de, a);
    }
  }

  lemma TransferVerdictMoves(de: DataExport, a: Answers, p: Patch)
    requires de.status.stage == StageTransferInProgress && !Settled(de.status.status)
    requires p == IN_PROGRESS || p == Fail(p.reason) || exists vb, progressPercents :: p == Completed(vb, progressPercents)
    ensures Moves(de, a, p)
  {
    hide Message;
  }

  lemma AwaitMoves(de: DataExport, a: Answers, p: Patch)
    requires Decides(de, a, p) && SyncPlan(de, a).AwaitVolumeBackup?
    ensures Moves(de, a, p)
  {
    Controller.AwaitMeansTransferring(de, a);
    hide Message, SyncPlan, GetDriverType, Moves, Completed;
    TransferVerdictMoves(de, a, p);
  }

  // ---------------------------------------------------------------- what every reachable export satisfies

  predicate JobStarted(de: DataExport) {
    de.status.stage == StageTransferInProgress || (de.status.stage == StageTransferScheduled && de.status.status == StatusSuccessful)
  }

  predicate ClaimMade(de: DataExport) {
    Rank(de.status.stage) >= 5 || (de.status.stage == StageSnapshotRestore && de.status.status == StatusSuccessful)
  }

  function StartedID(de: DataExport): string {
    NamespacedName(JobNamespace(de.spec), de.name)
  }

  predicate JobIdInv(de: DataExport) {
    && (de.status.transferID != "" ==> JobStarted(de) || Rank(de.status.stage) >= 8)
    && (IsKopia(de.spec) ==> de.status.transferID in {"", StartedID(de)})
    && (IsKopia(de.spec) && JobStarted(de) ==> de.status.transferID == StartedID(de))
  }

  predicate ClaimNameInv(de: DataExport) {
    && (de.status.snapshotPVCName != "" ==>
          && ClaimMade(de) && HasSnapshotStage(de) && !HasLocalRestoreStage(de)
          && de.status.snapshotPVCName == ToSnapshotPVCName(de.spec.source.name, de.uid))
    && (de.status.snapshotPVCNamespace != "" ==> de.status.snapshotPVCName != "")
  }

  predicate StageInv(de: DataExport) {
    var r := Rank(de.status.stage);
    && (r >= 2 ==> Resolvable(de.spec))
    && (2 <= r < 6 ==>
          if de.status.stage in {StageLocalSnapshotRestore, StageLocalSnapshotRestoreInProgress} then HasLocalRestoreStage(de)
          else HasSnapshotStage(de) && !HasLocalRestoreStage(de))
  }

  predicate Invariant(de: DataExport) {
    StageInv(de) && JobIdInv(de) && ClaimNameInv(de)
  }

  lemma FreshIsInvariant(de: DataExport)
    requires Fresh(de)
    ensures Invariant(de)
  {
    hide GetDriverType;
  }

  /** What the handler has already put into the object in memory is what its patch asks for anyway. */
  lemma LocalCopyAddsNoStatus(de: DataExport, a: Answers, p: Patch)
    requires Invariant(de) && Decides(de, a, p)
    ensures MergeStatus(LocalCopy(de, a).status, p) == MergeStatus(de.status, p)
  {
    hide Message, GetDriverType, PlanInitial, PlanSnapshotScheduled, PlanSnapshotInProgress,
      PlanSnapshotRestoreInProgress, PlanLocalSnapshotRestore, PlanLocalSnapshotRestoreInProgress, PlanTransferInProgress,
      BeforeStartJob, ToSnapshotPVCName, NamespacedName, Follows;
    if ReachesStartJob(de, a) {
      BeforeStartJobFollows(de, a, GetDriverType(de.spec).value);
    }
  }

  /** The spec stays, except that the first write may put in the default for a type that is not set. */
  predicate SpecContinues(a: DataExport, b: DataExport) {
    || b.spec == a.spec
    || (a.status.stage == StageUnset && a.spec.exportType == "" && b.spec == a.spec.(exportType := RSYNC))
  }

  /** `next` is `prev` with the patch over its status. */
  predicate Lands(prev: DataExport, next: DataExport, p: Patch) {
    && next.status == MergeStatus(prev.status, p)
    && next.name == prev.name && next.namespace == prev.namespace && next.uid == prev.uid
    && SpecContinues(prev, next)
    && next.finalizers == (if p.removeFinalizer then prev.finalizers - {CLEANUP_FINALIZER} else prev.finalizers)
    && next.deleting == prev.deleting
  }

  /** Neither the invariant nor the diagram looks at the metadata others may change. */
  lemma MetadataDoesNotMatter(in_: DataExport, prev: DataExport, a: Answers, p: Patch)
    requires SameOwned(in_, prev)
    ensures Invariant(prev) ==> Invariant(in_)
    ensures Moves(in_, a, p) ==> Moves(prev, a, p)
    ensures Honest(in_, a) ==> Honest(prev, a)
  {
    hide GetDriverType, NamespacedName, ToSnapshotPVCName, Fail;
  }

  /** The stored status after one write of `sync` is its patch over the status it read, whichever copy was written. */
  lemma WriteLands(in_: DataExport, prev: DataExport, next: DataExport, a: Answers, p: Patch)
    requires SyncWrite(in_, prev, next, a, p) && Invariant(prev)
    ensures Lands(prev, next, p) && Honest(prev, a)
    ensures p == EMPTY_PATCH.(removeFinalizer := true) || Moves(prev, a, p)
  {
    hide Decides, LocalCopy, Moves, Invariant, Honest;
    MetadataDoesNotMatter(in_, prev, a, p);
    WriteLandsOnOwned(in_, a, p);
  }

  lemma WriteLandsOnOwned(in_: DataExport, a: Answers, p: Patch)
    requires Invariant(in_) && Decides(in_, a, p)
    ensures Lands(in_, Merge(LocalCopy(in_, a), p), p)
    ensures p == EMPTY_PATCH.(removeFinalizer := true) || Moves(in_, a, p)
  {
    LocalCopyAddsNoStatus(in_, a, p);
    Controller.LocalCopyKeepsIdentity(in_, a);
    PlanFollowsDiagram(in_, a, p);
    hide Decides, LocalCopy, Moves, Invariant;
  }

  // ---------------------------------------------------------------- one step

  predicate Arrow(a: DataExport, b: DataExport) {
    Diagram(a, b.status.stage, b.status.status)
  }

  predicate Kept(was: string, now: string) {
    was != "" ==> now != ""
  }

  /** What no step takes away. */
  predicate Continues(a: DataExport, b: DataExport) {
    && a.name == b.name && a.namespace == b.namespace && a.uid == b.uid
    && SpecContinues(a, b)
    && a.status.localSnapshotRestore == b.status.localSnapshotRestore
    && Kept(a.status.transferID, b.status.transferID)
    && Kept(a.status.snapshotID, b.status.snapshotID)
    && Kept(a.status.snapshotPVCName, b.status.snapshotPVCName)
    && (ClaimMade(a) ==> a.status.snapshotPVCName == b.status.snapshotPVCName)
    && (a.status.stage == StageFinal ==> a.status == b.status)
    && (a.deleting ==> b.deleting)
  }

  lemma MoveKeepsStages(prev: DataExport, next: DataExport, a: Answers, p: Patch)
    requires Lands(prev, next, p) && Moves(prev, a, p) && StageInv(prev)
    ensures Arrow(prev, next) && StageInv(next)
  {
    hide AsksOnly, GetDriverType;
  }

  lemma MoveKeepsJobId(prev: DataExport, next: DataExport, a: Answers, p: Patch)
    requires Lands(prev, next, p) && Moves(prev, a, p) && Honest(prev, a) && JobIdInv(prev)
    ensures JobIdInv(next)
    ensures Kept(prev.status.transferID, next.status.transferID)
  {
    hide GetDriverType, NamespacedName, RestoredClaimName;
  }

  lemma MoveKeepsClaimName(prev: DataExport, next: DataExport, a: Answers, p: Patch)
    requires Lands(prev, next, p) && Moves(prev, a, p) && StageInv(prev) && ClaimNameInv(prev)
    ensures ClaimNameInv(next)
    ensures ClaimMade(prev) ==> prev.status.snapshotPVCName == next.status.snapshotPVCName
  {
    SnapshotNameIsNotEmpty(prev.spec.source.name, prev.uid);
    hide GetDriverType, ToSnapshotPVCName;
  }

  lemma WriteKeepsInvariant(in_: DataExport, prev: DataExport, next: DataExport, a: Answers, p: Patch)
    requires SyncWrite(in_, prev, next, a, p) && Invariant(prev)
    ensures Invariant(next)
    ensures SamePoint(prev, next) || Arrow(prev, next)
    ensures Continues(prev, next)
  {
    WriteLands(in_, prev, next, a, p);
    hide SyncWrite, Lands, Moves, Honest, Invariant, SamePoint, Arrow, Continues;
    if Moves(prev, a, p) {
      MoveKeepsInvariant(prev, next, a, p);
    } else {
      RemovalKeepsInvariant(prev, next);
    }
  }

  lemma RemovalKeepsInvariant(prev: DataExport, next: DataExport)
    requires Lands(prev, next, EMPTY_PATCH.(removeFinalizer := true)) && Invariant(prev)
    ensures Invariant(next) && SamePoint(prev, next) && Continues(prev, next)
  {
    hide GetDriverType, NamespacedName, ToSnapshotPVCName;
  }

  lemma MoveKeepsInvariant(prev: DataExport, next: DataExport, a: Answers, p: Patch)
    requires Lands(prev, next, p) && Moves(prev, a, p) && Honest(prev, a) && Invariant(prev)
    ensures Invariant(next) && Arrow(prev, next) && Continues(prev, next)
  {
    assert prev.status.stage != StageFinal;
    MoveKeepsStages(prev, next, a, p);
    MoveKeepsJobId(prev, next, a, p);
    MoveKeepsClaimName(prev, next, a, p);
    hide Moves, Honest, StageInv, JobIdInv, ClaimNameInv, Arrow, ClaimMade;
  }

  /** Every step of a run keeps the invariant and stays where it was on the state diagram or follows one arrow. */
  lemma StepKeepsInvariant(prev: DataExport, next: DataExport)
    requires Step(prev, next) && Invariant(prev)
    ensures Invariant(next)
    ensures SamePoint(prev, next) || Arrow(prev, next)
    ensures Continues(prev, next)
  {
    hide SyncWrite, GetDriverType, NamespacedName, ToSnapshotPVCName, Diagram;
    if ForeignWrite(prev, next, true) {
    } else {
      var in_, a, p :| SyncWrite(in_, prev, next, a, p);
      WriteKeepsInvariant(in_, prev, next, a, p);
    }
  }

  lemma {:induction false} RunKeepsInvariant(run: seq<DataExport>, i: nat)
    requires Run(run) && i < |run|
    ensures Invariant(run[i])
    decreases i
  {
    hide Step, Invariant, Fresh;
    if i == 0 {
      FreshIsInvariant(run[0]);
    } else {
      RunKeepsInvariant(run, i - 1);
      assert Step(run[i - 1], run[i - 1 + 1]);
      StepKeepsInvariant(run[i - 1], run[i]);
    }
  }

  lemma RunStep(run: seq<DataExport>, i: nat)
    requires Run(run) && i + 1 < |run|
    ensures Invariant(run[i]) && Step(run[i], run[i + 1]) && Invariant(run[i + 1])
    ensures SamePoint(run[i], run[i + 1]) || Arrow(run[i], run[i + 1])
    ensures Continues(run[i], run[i + 1])
  {
    hide Step, Invariant, Fresh, Arrow, Continues, SamePoint;
    RunKeepsInvariant(run, i);
    StepKeepsInvariant(run[i], run[i + 1]);
  }

  /** What `Controller.Sync` appends to the history of an export makes a longer run. */
  lemma StepsExtendRun(was: seq<DataExport>, now: seq<DataExport>)
    requires Run(was) && Steps(was, now)
    ensures Run(now)
  {
    hide Step, Fresh;
    assert now[0] == was[0];
    forall i | 0 <= i < |now| - 1 ensures Step(now[i], now[i + 1]) {
      if i + 1 < |was| {
        assert now[i] == was[i] && now[i + 1] == was[i + 1];
      } else {
        assert Step(now[i + 1 - 1], now[i + 1]);
      }
    }
  }
}
