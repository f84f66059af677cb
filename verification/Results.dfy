/** Check results (`internal/monitor/result.go`, `input.go`) and how a worker fills one in. */
module Results {
  import opened Domain
  import opened Jobs

  /** `monitor.CheckResultInput`. */
  datatype CheckResultInput = CheckResultInput(
    monitorID: Id,
    configID: Id,
    checkType: CheckType,
    statusCode: int,
    responseTime: Duration,
    checkedAt: Time,
    reachable: bool,
    error: Option<string>,
    foundKeywords: Strings)

  /** What happens to a job in a worker: no checker for its type, an error from `Check`, or an answer. */
  datatype CheckOutcome =
    | NoChecker
    | CheckError(message: string)
    | Answer(reachable: bool, statusCode: int, responseTime: Duration, err: Option<string>, found: Strings)

  function Name(t: CheckType): string {
    match t
    case CheckPing => "ping"
    case CheckHTTP => "http"
    case CheckHeadless => "headless"
  }

  /** The result a worker reports for `job` when the check ends at `now`. */
  function WorkerResult(job: CheckJob, outcome: CheckOutcome, now: Time): CheckResultInput {
    var blank := CheckResultInput(
                   job.base.monitorID, job.base.configID, job.CheckType(), 0, 0, now, false, None, NilSlice);
    match outcome
    case NoChecker => blank.(error := Some("Not available checker for this config: " + Name(job.CheckType())))
    case CheckError(message) => blank.(error := Some(message))
    case Answer(reachable, statusCode, responseTime, err, found) =>
      blank.(reachable := reachable, statusCode := statusCode, responseTime := responseTime, error := err,
             foundKeywords := found)
  }
}
