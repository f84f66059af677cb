/** Vocabulary shared by every module: identifiers, times, optional values and errors. */
module Domain {

  /** A UUID. Only equality and the order of the textual form matter, so a number stands for it. */
  type Id = nat

  type Port = p: int | 0 <= p < 0x1_0000

  /** Instants and durations count nanoseconds. */
  type Time = int

  type Duration = int

  const SECOND: Duration := 1_000_000_000

  datatype Option<+T> = None | Some(value: T) {
    function GetOr(default: T): T {
      if Some? then value else default
    }
  }

  /** A value or the error returned instead; `:-` passes the error on. */
  datatype Result<+T> = Ok(value: T) | Err(error: Error) {
    predicate IsFailure() {
      Err?
    }

    function PropagateFailure<U>(): Result<U>
      requires Err?
    {
      Err(error)
    }

    function Extract(): T
      requires Ok?
    {
      value
    }
  }

  datatype Error =
    | EmptyName
    | EmptyHost
    | InvalidHost
    | InvalidPath
    | IntervalTooSmall
    | TimeoutTooSmall
    | MaxAttemptsTooSmall
    | InvalidPort
    | InvalidScheme
    | MethodNotAllowed
    | KeywordsRequireGET
    | MonitorNotFound
    | MonitorExists
    | HTTPConfigNotFound
    | HTTPConfigExists
    | PingConfigNotFound
    | ReasonNotFound
    | UndefinedCheckType
    | StorageFailure
}
