/** Incidents (`internal/monitor/incident.go`): the failing configs of one outage of a monitor. */
module Incidents {
  import opened Domain
  import opened Jobs

  datatype ConfigType = PingConfigType | HTTPConfigType

  /** How an incident ended; `Unresolved` is the empty text of an open one. */
  datatype ResolvedReason = Unresolved | Recovered | ConfigRemoved

  datatype Reason = Reason(
    configID: Id,
    configType: ConfigType,
    lastError: string,
    latestResultID: Id,
    startedAt: Time,
    lastSeenAt: Time)

  /** The fields of an incident, as a value; `reasons` goes by config. */
  datatype IncidentRecord = IncidentRecord(
    id: Id,
    monitorID: Id,
    reasons: map<Id, Reason>,
    resolvedReason: ResolvedReason,
    startedAt: Time,
    resolvedAt: Option<Time>)

  /** Every reason is filed under its own config. */
  ghost predicate KeyedOwn(reasons: map<Id, Reason>) {
    forall c | c in reasons :: reasons[c].configID == c
  }

  ghost predicate Keyed(inc: IncidentRecord) {
    KeyedOwn(inc.reasons)
  }

  /** `OpenIncident`. */
  function Opened(id: Id, monitorID: Id, first: Reason): IncidentRecord {
    IncidentRecord(id, monitorID, map[first.configID := first], Unresolved, first.startedAt, None)
  }

  /** A repeated failure keeps the time of the first. */
  function WithReason(reasons: map<Id, Reason>, r: Reason): map<Id, Reason> {
    var startedAt := if r.configID in reasons then reasons[r.configID].startedAt else r.startedAt;
    reasons[r.configID := r.(startedAt := startedAt)]
  }

  function WithFailure(inc: IncidentRecord, r: Reason): IncidentRecord {
    inc.(reasons := WithReason(inc.reasons, r))
  }

  function Closed(inc: IncidentRecord, cause: ResolvedReason, at: Time): IncidentRecord {
    if inc.resolvedAt.Some? then inc else inc.(resolvedReason := cause, resolvedAt := Some(at))
  }

  /** Without its last reason an incident is closed. */
  function WithoutReason(inc: IncidentRecord, config: Id, cause: ResolvedReason, at: Time): IncidentRecord {
    var rest := inc.(reasons := inc.reasons - {config});
    if rest.reasons == map[] then Closed(rest, cause, at) else rest
  }

  /** What opens, prolongs or shrinks an incident leaves it keyed by its own configs. */
  lemma StaysKeyed(inc: IncidentRecord, id: Id, r: Reason, config: Id, cause: ResolvedReason, at: Time)
    ensures Keyed(Opened(id, inc.monitorID, r))
    ensures Keyed(inc) ==> Keyed(WithFailure(inc, r)) && Keyed(WithoutReason(inc, config, cause, at))
  {
  }

  /** An incident is open exactly while it has a reason. */
  ghost predicate OpenWhileFailing(inc: IncidentRecord) {
    inc.resolvedAt.None? <==> inc.reasons != map[]
  }

  lemma StaysOpenWhileFailing(inc: IncidentRecord, id: Id, r: Reason, config: Id, cause: ResolvedReason, at: Time)
    ensures OpenWhileFailing(Opened(id, inc.monitorID, r))
    ensures OpenWhileFailing(inc) && inc.resolvedAt.None? ==> OpenWhileFailing(WithFailure(inc, r))
    ensures OpenWhileFailing(inc) && config in inc.reasons ==> OpenWhileFailing(WithoutReason(inc, config, cause, at))
  {
    assert r.configID in WithFailure(inc, r).reasons;
    assert r.configID in Opened(id, inc.monitorID, r).reasons;
  }

  class Incident {
    const id: Id
    const monitorID: Id
    var reasons: map<Id, Reason>
    var resolvedReason: ResolvedReason
    const startedAt: Time
    var resolvedAt: Option<Time>

    constructor (inc: IncidentRecord)
      ensures Record() == inc
    {
      id, monitorID, reasons := inc.id, inc.monitorID, inc.reasons;
      resolvedReason, startedAt, resolvedAt := inc.resolvedReason, inc.startedAt, inc.resolvedAt;
    }

    function Record(): IncidentRecord
      reads this
    {
      IncidentRecord(id, monitorID, reasons, resolvedReason, startedAt, resolvedAt)
    }

    method RecordFailure(r: Reason)
      modifies this`reasons
      ensures Record() == WithFailure(old(Record()), r)
    {
      var kept := r;
      if r.configID in reasons {
        kept := r.(startedAt := reasons[r.configID].startedAt);
      }
      reasons := reasons[r.configID := kept];
    }

    /** Removes the reason of a recovered config and tells whether that closed the incident. A config that was not
      * failing is the caller's mistake. */
    method RecoverReason(config: Id, at: Time) returns (closed: Result<bool>)
      modifies this
      ensures closed.Ok? <==> config in old(reasons)
      ensures closed.Err? ==> closed.error == ReasonNotFound && Record() == old(Record())
      ensures closed.Ok? ==>
                && Record() == WithoutReason(old(Record()), config, Recovered, at)
                && (closed.value <==> reasons == map[])
    {
      if config !in reasons {
        return Err(ReasonNotFound);
      }
      reasons := reasons - {config};
      var done := TryClose(Recovered, at);
      return Ok(done);
    }

    /** As `RecoverReason`, for a config that is gone; one that was not failing is no mistake. */
    method RemoveReason(config: Id, at: Time) returns (closed: bool)
      modifies this
      ensures config !in old(reasons) ==> !closed && Record() == old(Record())
      ensures config in old(reasons) ==>
                && Record() == WithoutReason(old(Record()), config, ConfigRemoved, at)
                && (closed <==> reasons == map[])
    {
      if config !in reasons {
        return false;
      }
      reasons := reasons - {config};
      closed := TryClose(ConfigRemoved, at);
    }

    method TryClose(cause: ResolvedReason, at: Time) returns (closed: bool)
      modifies this`resolvedReason, this`resolvedAt
      ensures closed <==> reasons == map[]
      ensures Record() == if closed then Closed(old(Record()), cause, at) else old(Record())
    {
      if |reasons| == 0 {
        Close(cause, at);
        return true;
      }
      return false;
    }

    method Close(cause: ResolvedReason, at: Time)
      modifies this`resolvedReason, this`resolvedAt
      ensures Record() == Closed(old(Record()), cause, at)
    {
      if resolvedAt.Some? {
        return;
      }
      resolvedReason := cause;
      resolvedAt := Some(at);
    }
  }
}
