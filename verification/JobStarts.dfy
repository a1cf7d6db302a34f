/** The reconciler and `StartJob` together: one export whose `sync` is repeated any number of times, with crashes and lost
    status updates in between, while any number of other callers use the drivers. */
module JobStarts {
  import opened Wrappers
  import opened KdmpApi
  import opened Naming
  import opened StatusStore
  import R = Reconciler
  import Runs
  import A = Admission

  const PVC_NAME_KEY := "kdmp.portworx.com/pvc-name"
  const PVC_UID_KEY := "kdmp.portworx.com/pvc-uid"

  function Label(labels: map<string, string>, key: string): Option<string> {
    if key in labels then Some(labels[key]) else None
  }

  /** The job a kopia export asks for: `startTransferJob` passes on its name, its labels, and the namespace of the claim
      that is read or written. */
  function OrderOf(de: DataExport): A.Order
    requires R.IsKopia(de.spec)
  {
    A.Order(GetDriverType(de.spec).value, KeyOf(de), Label(de.labels, PVC_NAME_KEY), Label(de.labels, PVC_UID_KEY))
  }

  function KeyOf(de: DataExport): A.Key {
    (R.JobNamespace(de.spec), de.name)
  }

  /** The export, the cluster with its jobs and callers, and what the last `StartJob` of the controller's `sync` returned. */
  datatype Joint = Joint(de: DataExport, cluster: A.Cluster, got: Option<(A.Order, A.Outcome)>)

  /** A caller somewhere moves, or the cluster changes; when a caller returns, its outcome may be what `sync` gets. A crash
      forgets it. */
  ghost predicate ClusterStep(j: Joint, j': Joint, limit: string -> int) {
    && j'.de == j.de && A.Step(j.cluster, j'.cluster, limit)
    && (|| j'.got == j.got || j'.got.None?
        || exists i: nat ::
             && A.Release(j.cluster, j'.cluster, i)
             && j'.got == Some((j.cluster.callers[i].order, j.cluster.callers[i].pc.outcome)))
  }

  /** "Started" is an answer only if the `StartJob` called with this export's options returned it. */
  ghost predicate Heard(j: Joint, in_: DataExport, a: R.Answers) {
    R.IsKopia(in_.spec) && a.start.Started? ==> j.got == Some((OrderOf(in_), A.Started(a.start.id)))
  }

  /** Someone edits the metadata, or `sync` writes, as often as it likes. */
  ghost predicate ExportStep(j: Joint, j': Joint) {
    && j' == j.(de := j'.de)
    && (|| ForeignWrite(j.de, j'.de, true)
        || exists in_, a, p :: R.WriteOf(in_, j.de, j'.de, a, p) && Heard(j, in_, a))
  }

  ghost predicate JointStep(j: Joint, j': Joint, limit: string -> int) {
    ClusterStep(j, j', limit) || ExportStep(j, j')
  }

  ghost predicate JointRun(js: seq<Joint>, limit: string -> int) {
    && js != [] && Runs.Fresh(js[0].de) && A.Start(js[0].cluster) && js[0].got.None?
    && forall i :: 0 <= i < |js| - 1 ==> JointStep(js[i], js[i + 1], limit)
  }

  // ---------------------------------------------------------------- the id is the export's

  /** Every success on its way back, and the one `sync` got, carries the id of its order. */
  predicate IdsInv(j: Joint) {
    && (forall i :: 0 <= i < |j.cluster.callers| && j.cluster.callers[i].pc.Returning?
                    && j.cluster.callers[i].pc.outcome.Started? ==>
          A.ParsesToKey(j.cluster.callers[i].pc.outcome.id, j.cluster.callers[i].order.key))
    && (j.got.Some? && j.got.value.1.Started? ==> A.ParsesToKey(j.got.value.1.id, j.got.value.0.key))
  }

  lemma CallersKeepIds(c: A.Cluster, c': A.Cluster, limit: string -> int, i: nat)
    requires A.Step(c, c', limit) && i < |c'.callers| == |c.callers|
    requires c'.callers[i].pc.Returning? && c'.callers[i].pc.outcome.Started?
    requires c.callers[i].pc.Returning? && c.callers[i].pc.outcome.Started? ==>
               A.ParsesToKey(c.callers[i].pc.outcome.id, c.callers[i].order.key)
    ensures A.ParsesToKey(c'.callers[i].pc.outcome.id, c'.callers[i].order.key)
  {
    hide A.ParsesToKey, A.ActiveIn, A.ClaimBusy, A.LockFree;
    if exists k: nat :: A.CallerStep(c, c', limit, k) || A.ListFailed(c, c', k) {
      var k: nat :| A.CallerStep(c, c', limit, k) || A.ListFailed(c, c', k);
      if k == i && A.CallerStep(c, c', limit, k) {
        A.StartedJobId(c, c', limit, i);
      } else {
        assert c'.callers[i] == c.callers[i];
      }
    }
  }

  lemma JointStepKeepsIds(j: Joint, j': Joint, limit: string -> int)
    requires IdsInv(j) && JointStep(j, j', limit)
    ensures IdsInv(j')
  {
    hide A.ParsesToKey, ForeignWrite, R.WriteOf;
    if ExportStep(j, j') {
    } else {
      A.StepKeepsCallers(j.cluster, j'.cluster, limit);
      forall i | 0 <= i < |j'.cluster.callers| && j'.cluster.callers[i].pc.Returning?
                 && j'.cluster.callers[i].pc.outcome.Started?
        ensures A.ParsesToKey(j'.cluster.callers[i].pc.outcome.id, j'.cluster.callers[i].order.key)
      {
        CallersKeepIds(j.cluster, j'.cluster, limit, i);
      }
      hide A.Step;
    }
  }

  /** Hearing the outcome of one's own order is what makes the answer an honest one. */
  lemma HeardIsHonest(j: Joint, in_: DataExport, a: R.Answers)
    requires IdsInv(j) && Heard(j, in_, a)
    ensures R.Honest(in_, a)
  {
    hide GetDriverType, ParseJobID;
  }

  /** The job created on an export's order is the one `JobStatus` and `cleanUp` will look for, counts against the limit of the
      export's driver, and carries the claim's labels as far as the export has them. */
  lemma CreatedJobIsTheExports(c: A.Cluster, c': A.Cluster, i: nat, de: DataExport)
    requires R.IsKopia(de.spec) && A.Create(c, c', i) && c.callers[i].order == OrderOf(de) && c'.jobs != c.jobs
    ensures var key := (R.JobNamespace(de.spec), de.name);
            && key !in c.jobs && key in c'.jobs && c'.jobs == c.jobs[key := c'.jobs[key]]
            && var job := c'.jobs[key];
               && Ok(job.driver) == GetDriverType(de.spec) && !job.complete
               && (forall name :: job.pvcName == Some(name) <==> PVC_NAME_KEY in de.labels && de.labels[PVC_NAME_KEY] == name)
               && (forall uid :: job.pvcUid == Some(uid) <==> PVC_UID_KEY in de.labels && de.labels[PVC_UID_KEY] == uid)
  {
    hide GetDriverType, NamespacedName;
  }

  lemma JointStepIsStep(j: Joint, j': Joint, limit: string -> int)
    requires IdsInv(j) && JointStep(j, j', limit)
    ensures j'.de == j.de || R.Step(j.de, j'.de)
  {
    hide A.Step, R.WriteOf, ForeignWrite, Heard, IdsInv;
    if ExportStep(j, j') && !ForeignWrite(j.de, j'.de, true) {
      var in_, a, p :| R.WriteOf(in_, j.de, j'.de, a, p) && Heard(j, in_, a);
      HeardIsHonest(j, in_, a);
      assert R.SyncWrite(in_, j.de, j'.de, a, p);
    }
  }

  /** The states of the export on the way, without the steps that leave it as it is. */
  function Exports(js: seq<Joint>): seq<DataExport>
    requires js != []
    ensures Exports(js) != [] && Exports(js)[|Exports(js)| - 1] == js[|js| - 1].de
  {
    if |js| == 1 then [js[0].de]
    else
      var before := Exports(js[..|js| - 1]);
      if js[|js| - 1].de == js[|js| - 2].de then before else before + [js[|js| - 1].de]
  }

  lemma RunGrows(run: seq<DataExport>, next: DataExport)
    requires Runs.Run(run) && R.Step(run[|run| - 1], next)
    ensures Runs.Run(run + [next])
  {
    hide R.Step, Runs.Fresh;
    var longer := run + [next];
    forall i | 0 <= i < |longer| - 1 ensures R.Step(longer[i], longer[i + 1]) {
      if i < |run| - 1 {
        assert longer[i] == run[i] && longer[i + 1] == run[i + 1];
      }
    }
  }

  /** What happens to the export in a run of everything together is a run of the reconciler: that its answers are honest
      need not be assumed. */
  lemma {:induction false} JointRunIsRun(js: seq<Joint>, limit: string -> int)
    requires JointRun(js, limit)
    ensures Runs.Run(Exports(js)) && IdsInv(js[|js| - 1])
    decreases |js|
  {
    hide JointStep, Runs.Fresh, A.Start, IdsInv, R.Step;
    if |js| == 1 {
      StartHasNoIds(js, limit);
    } else {
      var n := |js| - 1;
      var shorter := js[..n];
      forall i | 0 <= i < |shorter| - 1 ensures JointStep(shorter[i], shorter[i + 1], limit) {
        assert shorter[i] == js[i] && shorter[i + 1] == js[i + 1];
      }
      JointRunIsRun(shorter, limit);
      assert JointStep(js[n - 1], js[n - 1 + 1], limit);
      JointStepKeepsIds(js[n - 1], js[n], limit);
      JointStepIsStep(js[n - 1], js[n], limit);
      if js[n].de != js[n - 1].de {
        RunGrows(Exports(shorter), js[n].de);
      }
    }
  }

  lemma StartHasNoIds(js: seq<Joint>, limit: string -> int)
    requires JointRun(js, limit)
    ensures IdsInv(js[0])
  {
  }

  // ---------------------------------------------------------------- one job, one id, however often

  /** While the export's job is there, every call for it, of any `sync` in any state, leaves every job and every slot of
      every driver as they are; the job itself can only complete. */
  lemma {:induction false} PresentJobIsLeftAlone(js: seq<Joint>, limit: string -> int, key: A.Key, i: nat, j: nat)
    requires JointRun(js, limit) && i <= j < |js|
    requires forall m :: i <= m <= j ==> key in js[m].cluster.jobs
    ensures var was, now := js[i].cluster.jobs[key], js[j].cluster.jobs[key]; now == was || now == was.(complete := true)
    ensures forall m :: i <= m < j && CallFor(js[m].cluster, js[m + 1].cluster, limit, key) ==>
                          js[m + 1].cluster.jobs == js[m].cluster.jobs
    decreases j
  {
    hide JointStep, Runs.Fresh, A.Start, CallFor;
    if i < j {
      PresentJobIsLeftAlone(js, limit, key, i, j - 1);
      assert JointStep(js[j - 1], js[j - 1 + 1], limit);
      JobOnlyCompletes(js[j - 1], js[j], limit, key);
      if CallFor(js[j - 1].cluster, js[j].cluster, limit, key) {
        CallForPresentJob(js[j - 1].cluster, js[j].cluster, limit, key);
      }
    }
  }

  /** A caller that holds its driver's lock for an order with this key takes a step. */
  ghost predicate CallFor(c: A.Cluster, c': A.Cluster, limit: string -> int, key: A.Key) {
    exists k: nat :: A.CallerStep(c, c', limit, k) && !A.Acquire(c, c', k) && c.callers[k].order.key == key
  }

  lemma CallForPresentJob(c: A.Cluster, c': A.Cluster, limit: string -> int, key: A.Key)
    requires CallFor(c, c', limit, key) && key in c.jobs
    ensures c'.jobs == c.jobs
  {
    var k: nat :| A.CallerStep(c, c', limit, k) && !A.Acquire(c, c', k) && c.callers[k].order.key == key;
    A.ReentryChangesNothing(c, c', limit, k);
    hide A.CallerStep, A.Acquire;
  }

  lemma JobOnlyCompletes(j: Joint, j': Joint, limit: string -> int, key: A.Key)
    requires JointStep(j, j', limit) && key in j.cluster.jobs && key in j'.cluster.jobs
    ensures var was, now := j.cluster.jobs[key], j'.cluster.jobs[key]; now == was || now == was.(complete := true)
  {
    hide A.ActiveIn, A.ClaimBusy, A.LockFree, R.WriteOf, Heard;
  }

  /** At any point of any such run, a success on its way back to any caller for this export's job carries the one id the
      export records, and while the transfer is on that id parses to the job's namespace and the export's name. */
  lemma EverySuccessIsTheRecordedId(js: seq<Joint>, limit: string -> int, k: nat)
    requires JointRun(js, limit) && R.IsKopia(js[|js| - 1].de.spec)
    ensures var j := js[|js| - 1];
            && (&& k < |j.cluster.callers| && j.cluster.callers[k].pc.Returning? && j.cluster.callers[k].pc.outcome.Started?
                && j.cluster.callers[k].order.key == KeyOf(j.de) ==>
                  && j.cluster.callers[k].pc.outcome.id == Runs.StartedID(j.de)
                  && j.de.status.transferID in {"", j.cluster.callers[k].pc.outcome.id})
            && (Runs.JobStarted(j.de) && '/' !in R.JobNamespace(j.de.spec) ==> ParseJobID(j.de.status.transferID) == Ok(KeyOf(j.de)))
  {
    JointRunIsRun(js, limit);
    var run, j := Exports(js), js[|js| - 1];
    Runs.RunKeepsInvariant(run, |run| - 1);
    if '/' !in R.JobNamespace(j.de.spec) {
      ParseInvertsNamespacedName(R.JobNamespace(j.de.spec), j.de.name);
    }
    hide JointRun, Runs.Run, Runs.StageInv, Runs.ClaimNameInv, ParseJobID, NamespacedName, GetDriverType;
  }
}
