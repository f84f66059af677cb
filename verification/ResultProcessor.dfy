/** How a check result becomes a journal entry and moves its monitor's incident
  * (`internal/services/resultprocessor/resultprocessor.go`). */
module ResultProcessors {
  import opened Domain
  import opened Jobs
  import opened Results
  import opened Incidents
  import opened IncidentTables
  import opened IncidentStores

  datatype CheckStatus = CheckSuccess | CheckFailure

  /** `monitor.CheckResult`. */
  datatype CheckResult = CheckResult(
    id: Id,
    monitorID: Id,
    configID: Id,
    checkType: CheckType,
    status: CheckStatus,
    statusCode: int,
    responseTime: Duration,
    checkedAt: Time,
    error: string,
    foundKeywords: Strings)

  /** A check succeeded when its target was reachable and no error was reported. */
  function StatusOf(input: CheckResultInput): CheckStatus {
    if input.reachable && input.error.None? then CheckSuccess else CheckFailure
  }

  function BuildCheckResult(id: Id, input: CheckResultInput): CheckResult {
    CheckResult(id, input.monitorID, input.configID, input.checkType, StatusOf(input), input.statusCode,
                input.responseTime, input.checkedAt, input.error.GetOr(""), input.foundKeywords)
  }

  function BuildReason(cr: CheckResult): Result<Reason> {
    match cr.checkType
    case CheckPing => Ok(Reason(cr.configID, PingConfigType, cr.error, cr.id, cr.checkedAt, cr.checkedAt))
    case CheckHTTP => Ok(Reason(cr.configID, HTTPConfigType, cr.error, cr.id, cr.checkedAt, cr.checkedAt))
    case CheckHeadless => Err(UndefinedCheckType)
  }

  /** What is saved for a result, given the monitor's open incident: nothing, or the incident moved on. */
  function Transition(open: Option<IncidentRecord>, cr: CheckResult, newID: Id): Result<Option<IncidentRecord>> {
    match (open, cr.status)
    case (Some(inc), CheckSuccess) =>
      if cr.configID !in inc.reasons then Ok(None)
      else Ok(Some(WithoutReason(inc, cr.configID, Recovered, cr.checkedAt)))
    case (None, CheckSuccess) => Ok(None)
    case (Some(inc), CheckFailure) =>
      var r :- BuildReason(cr);
      Ok(Some(WithFailure(inc, r)))
    case (None, CheckFailure) =>
      var r :- BuildReason(cr);
      Ok(Some(Opened(newID, cr.monitorID, r)))
  }

  /** The incident tables after a result. */
  ghost function AfterResult(t: Tables, cr: CheckResult, newID: Id): Result<Tables> {
    var moved :- Transition(Open(t, cr.monitorID), cr, newID);
    if moved.None? then Ok(t) else Saved(t, moved.value)
  }

  /** The journal of check results (`internal/storage/sqlite/monitors.go`, `SaveCheckResult`). */
  class Journal {
    var results: seq<CheckResult>

    constructor ()
      ensures results == []
    {
      results := [];
    }

    /** `refused` stands for the failures of the database itself, a missing monitor or config among them. */
    predicate Accepts(r: CheckResult, refused: bool)
      reads this
    {
      !r.checkType.CheckHeadless? && !refused && forall k | 0 <= k < |results| :: results[k].id != r.id
    }

    method SaveCheckResult(r: CheckResult, refused: bool) returns (error: Option<Error>)
      modifies this
      ensures if old(Accepts(r, refused)) then error == None && results == old(results) + [r]
              else error.Some? && results == old(results)
    {
      if r.checkType.CheckHeadless? {
        return Some(UndefinedCheckType);
      }
      if refused || exists k | 0 <= k < |results| :: results[k].id == r.id {
        return Some(StorageFailure);
      }
      results := results + [r];
      return None;
    }
  }

  class ResultProcessor {
    const journal: Journal
    const store: IncidentStore

    constructor (journal: Journal, store: IncidentStore)
      ensures this.journal == journal && this.store == store
    {
      this.journal, this.store := journal, store;
    }

    /** `HandleCheckResult`: a result the journal refuses changes nothing; one it takes moves the incident. */
    method HandleCheckResult(input: CheckResultInput, resultID: Id, incidentID: Id, refused: bool)
      returns (error: Option<Error>)
      modifies journal, store
      ensures var cr := BuildCheckResult(resultID, input);
              if !old(journal.Accepts(cr, refused)) then
                error.Some? && journal.results == old(journal.results) && store.Contents() == old(store.Contents())
              else
                && journal.results == old(journal.results) + [cr]
                && (cr.status.CheckSuccess? <==> input.reachable && input.error.None?)
                && match AfterResult(old(store.Contents()), cr, incidentID)
                   case Ok(t) => error == None && store.Contents() == t
                   case Err(e) => error == Some(e) && store.Contents() == old(store.Contents())
    {
      var cr := BuildCheckResult(resultID, input);
      error := journal.SaveCheckResult(cr, refused);
      if error.Some? {
        return;
      }
      var open := store.GetOpenByMonitor(cr.monitorID);
      if cr.status.CheckSuccess? {
        if open.None? || cr.configID !in open.value.reasons {
          return None;
        }
        var inc := new Incident(open.value);
        var closed := inc.RecoverReason(cr.configID, cr.checkedAt);
        error := store.Save(inc.Record());
      } else {
        var reason := BuildReason(cr);
        if reason.Err? {
          return Some(reason.error);
        }
        if open.Some? {
          var inc := new Incident(open.value);
          inc.RecordFailure(reason.value);
          error := store.Save(inc.Record());
        } else {
          error := store.Save(Opened(incidentID, cr.monitorID, reason.value));
        }
      }
    }
  }
}
