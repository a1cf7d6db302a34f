/** What an executor of a kopia or restic command reports to the loop that polls it. */
module ExecutorApi {
  import opened Wrappers

  datatype ExecError =
    | StartFailed(msg: string)
    | CommandFailed(msg: string)
    | SummaryRejected(msg: string)
    | RepositoryAlreadyExists
    | ResticFatal(msg: string)

  datatype ExecStatus = ExecStatus(
    done: bool,
    error: Option<ExecError>,
    progressPercentage: real,
    totalBytes: nat,
    totalBytesProcessed: nat,
    snapshotID: string)

  const RUNNING := ExecStatus(false, None, 0.0, 0, 0, "")
  const FINISHED := ExecStatus(true, None, 0.0, 0, 0, "")

  function Failed(error: Option<ExecError>): ExecStatus {
    ExecStatus(true, error, 0.0, 0, 0, "")
  }

  predicate Success(s: ExecStatus) {
    s.done && s.error.None?
  }

  /** A command that has ended: its exit code is zero or not, and what it printed. */
  datatype Process = Process(exitOk: bool, stdout: string, stderr: string)
}
