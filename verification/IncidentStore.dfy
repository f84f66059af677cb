/** The incidents' half of the SQLite storage (`internal/storage/sqlite/incident.go`): two tables updated in place. */
module IncidentStores {
  import opened Domain
  import opened Incidents
  import opened IncidentTables

  /** `written` are the reason rows of the reasons filed under the configs in `done`; `from` tells for each row the
    * one reason it comes from. */
  ghost predicate Writes(reasons: map<Id, Reason>, done: set<Id>, written: map<Id, Reason>, from: map<Id, Id>) {
    && done <= reasons.Keys && from.Keys == written.Keys
    && (forall c | c in done :: reasons[c].configID in from && from[reasons[c].configID] == c)
    && (forall w | w in written ::
          from[w] in done && reasons[from[w]].configID == w && written[w] == reasons[from[w]])
  }

  lemma WritesNext(reasons: map<Id, Reason>, done: set<Id>, written: map<Id, Reason>, from: map<Id, Id>, c: Id)
    requires Writes(reasons, done, written, from) && c in reasons && c !in done
    ensures var w := reasons[c].configID;
            if w in written then !ReasonsApart(reasons)
            else Writes(reasons, done + {c}, written[w := reasons[c]], from[w := c])
  {
    var w := reasons[c].configID;
    if w in written {
      assert SameConfig(reasons, c, from[w]);
    }
  }

  lemma WrittenByConfig(reasons: map<Id, Reason>, written: map<Id, Reason>, from: map<Id, Id>)
    requires Writes(reasons, reasons.Keys, written, from)
    ensures ReasonsApart(reasons) && written == ByConfig(reasons)
  {
    if KeyedOwn(reasons) {
      assert forall w :: w in written <==> w in reasons;
    } else {
      assert forall w :: w in written <==> w in Refiled(reasons);
    }
  }

  /** The loop of inserts, in any order of the reasons; a second row for a config breaks the primary key. */
  method InsertReasons(reasons: map<Id, Reason>) returns (r: Result<map<Id, Reason>>)
    ensures r.Err? ==> r.error == StorageFailure && !ReasonsApart(reasons)
    ensures r.Ok? ==> ReasonsApart(reasons) && r.value == ByConfig(reasons)
  {
    var written: map<Id, Reason> := map[];
    var rest := reasons.Keys;
    ghost var done, from: map<Id, Id> := {}, map[];
    while rest != {}
      invariant rest <= reasons.Keys && done == reasons.Keys - rest && Writes(reasons, done, written, from)
      decreases |rest|
    {
      var c :| c in rest;
      var w := reasons[c].configID;
      WritesNext(reasons, done, written, from, c);
      if w in written {
        return Err(StorageFailure);
      }
      written, from := written[w := reasons[c]], from[w := c];
      done, rest := done + {c}, rest - {c};
    }
    assert done == reasons.Keys;
    WrittenByConfig(reasons, written, from);
    return Ok(written);
  }

  class IncidentStore {
    var incidents: seq<IncidentRow>
    var reasons: map<Id, map<Id, Reason>>

    constructor ()
      ensures Contents() == EMPTY
    {
      incidents, reasons := [], map[];
    }

    function Contents(): Tables
      reads this
    {
      Tables(incidents, reasons)
    }

    /** `Save`, one transaction: a broken constraint leaves both tables as they were. */
    method Save(inc: IncidentRecord) returns (error: Option<Error>)
      modifies this
      ensures match Saved(old(Contents()), inc)
              case Ok(t) => error == None && Contents() == t
              case Err(e) => error == Some(e) && Contents() == old(Contents())
    {
      if ClashesOpen(incidents, inc) {
        return Some(StorageFailure);
      }
      var written := InsertReasons(inc.reasons);
      if written.Err? {
        return Some(written.error);
      }
      var i := RowAt(incidents, inc.id);
      if i >= 0 {
        incidents := incidents[i := Rewritten(incidents[i], inc)];
      } else {
        incidents := incidents + [RowOf(inc)];
      }
      reasons := reasons[inc.id := written.value];
      return None;
    }

    /** `GetOpenByMonitor`: the open row of the monitor and, in any order, its reason rows. */
    method GetOpenByMonitor(monitor: Id) returns (found: Option<IncidentRecord>)
      ensures found == Open(Contents(), monitor)
    {
      var i := OpenAt(incidents, monitor);
      if i < 0 {
        return None;
      }
      var row := incidents[i];
      var stored := ReasonsOf(Contents(), row.id);
      var byConfig: map<Id, Reason> := map[];
      var rest := stored.Keys;
      while rest != {}
        invariant rest <= stored.Keys && byConfig == stored - rest
        decreases |rest|
      {
        var c :| c in rest;
        byConfig := byConfig[c := stored[c]];
        rest := rest - {c};
      }
      assert byConfig == stored;
      return Some(IncidentRecord(row.id, row.monitorID, byConfig, row.resolvedReason, row.startedAt, row.resolvedAt));
    }

    /** `ListMonitorIDsWithOpenIncident`: the monitors `GetOpenByMonitor` finds an incident for. */
    method ListMonitorIDsWithOpenIncident() returns (monitors: set<Id>)
      ensures forall m :: m in monitors <==> Open(Contents(), m).Some?
    {
      monitors := {};
      for i := 0 to |incidents|
        invariant forall m :: m in monitors <==> exists k :: 0 <= k < i && IsOpenFor(incidents[k], m)
      {
        if incidents[i].resolvedAt.None? {
          monitors := monitors + {incidents[i].monitorID};
        }
      }
    }
  }
}
