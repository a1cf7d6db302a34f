/** How the kopia backup driver turns a job and its VolumeBackup into a verdict. */
module Drivers {
  import opened Wrappers
  import opened KdmpApi
  import opened Naming

  const TRANSFER_PROGRESS_COMPLETED: real := 100.0
  const JOB_FAILED := "Failed"
  const JOB_COMPLETE := "Complete"

  datatype JobCondition = JobCondition(kind: string, isTrue: bool)

  datatype Job = Job(conditions: seq<JobCondition>, nodeName: string)

  datatype JobState = JobStateInProgress | JobStateCompleted | JobStateFailed

  datatype JobStatus = JobStatus(progressPercents: real, state: JobState, reason: string, status: string)

  /** The cluster as one `JobStatus` call sees it, apart from the VolumeBackup. */
  datatype JobView = JobView(job: Result<Job>, nodeExists: bool, nodeReady: bool, podPending: bool)

  datatype VolumeBackupAnswer = VbFound(vb: VolumeBackup) | VbNotFound | VbError(msg: string)

  function ToJobStatus(progress: real, errMsg: string, jobStatus: string): JobStatus {
    if |errMsg| > 0 then JobStatus(0.0, JobStateFailed, errMsg, jobStatus)
    else if progress == TRANSFER_PROGRESS_COMPLETED then JobStatus(progress, JobStateCompleted, "", jobStatus)
    else JobStatus(progress, JobStateInProgress, "", jobStatus)
  }

  predicate HasCondition(j: Job, kind: string) {
    exists c :: c in j.conditions && c.kind == kind && c.isTrue
  }

  /** (job failed, node failed): an unready node hides a failed job. */
  function IsJobOrNodeFailed(j: Job, nodeReady: bool): (bool, bool) {
    if j.nodeName != "" && !nodeReady then (false, true)
    else (HasCondition(j, JOB_FAILED), false)
  }

  function BackupJobStatus(id: string, view: JobView, vb: VolumeBackupAnswer): Result<JobStatus> {
    match ParseJobID(id)
    case Err(msg) => Ok(ToJobStatus(0.0, msg, ""))
    case Ok((namespace, name)) =>
      match view.job
      case Err(msg) => Err("failed to fetch backup " + id + " job: " + msg)
      case Ok(job) =>
        var jobStatus := if job.conditions != [] then job.conditions[0].kind else "";
        if job.nodeName != "" && !view.nodeExists then
          Err("failed to fetch the node info tied to the job " + id)
        else
          var (jobErr, nodeErr) := IsJobOrNodeFailed(job, view.nodeReady);
          if jobErr then Ok(ToJobStatus(0.0, "check " + id + " job for details: data transfer job failed", jobStatus))
          else if nodeErr then Ok(ToJobStatus(0.0, "Node [" + job.nodeName + "] is NotReady", jobStatus))
          else
            match vb
            case VbFound(found) =>
              Ok(ToJobStatus(found.status.progressPercentage, found.status.lastKnownError, jobStatus))
            case VbNotFound =>
              if view.podPending then Ok(ToJobStatus(0.0, "", jobStatus))
              else Err("failed to fetch volumebackup " + id + " status")
            case VbError(msg) => Err("failed to fetch volumebackup " + id + " status: " + msg)
  }

  /** The driver says Completed exactly when the id parses, the job is there, neither it nor its node
      has failed, and its VolumeBackup shows 100 percent and no error. */
  lemma BackupJobCompleted(id: string, view: JobView, vb: VolumeBackupAnswer)
    ensures var r := BackupJobStatus(id, view, vb);
            (r.Ok? && r.value.state == JobStateCompleted)
            <==>
            && '/' in id
            && view.job.Ok?
            && (view.job.value.nodeName != "" ==> view.nodeExists && view.nodeReady)
            && !HasCondition(view.job.value, JOB_FAILED)
            && vb.VbFound?
            && vb.vb.status.progressPercentage == TRANSFER_PROGRESS_COMPLETED
            && vb.vb.status.lastKnownError == ""
    ensures var r := BackupJobStatus(id, view, vb);
            r.Ok? && r.value.state == JobStateCompleted ==> r.value.progressPercents == TRANSFER_PROGRESS_COMPLETED
  {
    NamespacedNameInvertsParse(id);
    if view.job.Ok? && view.job.value.nodeName != "" && !view.nodeReady && ParseJobID(id).Ok? && view.nodeExists {
      assert |"Node [" + view.job.value.nodeName + "] is NotReady"| > 0;
    }
  }

  /** The job or its node has failed; a node that is not ready speaks for the job it runs. */
  predicate HasFailed(job: Job, nodeReady: bool) {
    if job.nodeName != "" && !nodeReady then true else HasCondition(job, JOB_FAILED)
  }

  /** The driver gives up, with an error instead of a status, exactly when it cannot see the job, its node or its
      VolumeBackup, except that a VolumeBackup may be missing while the pod is pending. It reports a failed state exactly
      for a malformed id, a failed job or node, or an error recorded by the pod. */
  lemma BackupJobFailures(id: string, view: JobView, vb: VolumeBackupAnswer)
    ensures var r := BackupJobStatus(id, view, vb);
            var seen := '/' in id && view.job.Ok? && (view.job.value.nodeName == "" || view.nodeExists);
            var failed := seen && HasFailed(view.job.value, view.nodeReady);
            && (r.Err? <==> '/' in id && (!seen || (!failed && !vb.VbFound? && !(vb.VbNotFound? && view.podPending))))
            && (r.Ok? && r.value.state == JobStateFailed
                <==> '/' !in id || failed || (seen && vb.VbFound? && vb.vb.status.lastKnownError != ""))
  {
    NamespacedNameInvertsParse(id);
    if ParseJobID(id).Ok? && view.job.Ok? {
      assert |"check " + id + " job for details: data transfer job failed"| > 0;
      assert |"Node [" + view.job.value.nodeName + "] is NotReady"| > 0;
    } else if ParseJobID(id).Err? {
      assert ParseJobID(id).msg == "invalid job id";
    }
  }

  /** The restore driver goes by the job alone. */
  function RestoreJobStatus(id: string, view: JobView): Result<JobStatus> {
    match ParseJobID(id)
    case Err(msg) => Ok(ToJobStatus(0.0, msg, ""))
    case Ok((namespace, name)) =>
      match view.job
      case Err(msg) => Err(msg)
      case Ok(job) =>
        var jobStatus := if job.conditions != [] then job.conditions[0].kind else "";
        if job.nodeName != "" && !view.nodeExists then Err("failed to fetch the node info tied to the job " + id)
        else if HasCondition(job, JOB_FAILED) then
          Ok(ToJobStatus(0.0, "check " + id + " job for details: data transfer job failed", jobStatus))
        else if view.podPending || !HasCondition(job, JOB_COMPLETE) then Ok(ToJobStatus(0.0, "", jobStatus))
        else Ok(ToJobStatus(TRANSFER_PROGRESS_COMPLETED, "", jobStatus))
  }

  lemma RestoreJobCompleted(id: string, view: JobView)
    ensures var r := RestoreJobStatus(id, view);
            (r.Ok? && r.value.state == JobStateCompleted)
            <==>
            && '/' in id
            && view.job.Ok?
            && (view.job.value.nodeName != "" ==> view.nodeExists)
            && HasCondition(view.job.value, JOB_COMPLETE) && !HasCondition(view.job.value, JOB_FAILED)
            && !view.podPending
  {
    NamespacedNameInvertsParse(id);
  }
}
