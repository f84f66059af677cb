/** The monitor service (`internal/monitor/service.go`): each operation reads a monitor, changes it in memory, stores
  * the change and tells the scheduler what became of its jobs. */
module Services {
  import opened Domain
  import opened Jobs
  import opened ValueObjects
  import opened Configs
  import opened Monitors
  import opened MonitorTables
  import opened StoredMonitors
  import opened StoredJobs
  import opened MonitorStores
  import opened SchedulerCore
  import opened ConfigDiff
  import opened Commands
  import opened IncidentStores
  import IncidentTables

  /** What an operation did, given what it should do: an error and no change, or the new tables and, on the channel,
    * the diff of the monitor's jobs, less the events dropped. */
  ghost predicate Did(
    should: Result<Change>, before: Tables, after: Tables, error: Option<Error>, queue: seq<ConfigEvent>,
    queue': seq<ConfigEvent>, sent: seq<ConfigEvent>, dropped: set<nat>)
  {
    match should
    case Err(e) => error == Some(e) && after == before && queue' == queue
    case Ok(c) =>
      && error == None && after == c.tables
      && IsDiff(JobsOfRecord(c.before), JobsOfRecord(c.after), sent)
      && queue' == queue + Delivered(sent, dropped)
  }

  /** The change leaves the monitor as `m`. */
  ghost predicate Leaves(change: Result<Change>, m: MonitorRecord) {
    change.Ok? && change.value.after == Some(m)
  }

  /** The change leaves the monitor with `cfg` as its last HTTP config, and otherwise as it was. */
  ghost predicate Appends(change: Result<Change>, cfg: HTTPConfig) {
    && change.Ok? && change.value.before.Some?
    && var m := change.value.before.value;
       change.value.after == Some(m.(https := m.https + [cfg]))
  }

  /** The configs in `done` have been compared and `sent` are the sends so far, on a channel that held `queue` and now
    * holds `queue'`. */
  ghost predicate Sending(
    before: Registry, after: Registry, done: set<Id>, sent: seq<ConfigEvent>, dropped: set<nat>,
    queue: seq<ConfigEvent>, queue': seq<ConfigEvent>)
  {
    DiffOf(before, after, done, sent) && queue' == queue + Delivered(sent, dropped)
  }

  /** The state of `syncScheduler`'s first loop, before it has compared `rest`. */
  ghost predicate InPresent(
    before: Registry, after: Registry, rest: set<Id>, n: nat, sent: seq<ConfigEvent>, dropped: set<nat>,
    queue: seq<ConfigEvent>, queue': seq<ConfigEvent>)
  {
    && rest <= after.Keys && n == |sent|
    && Sending(before, after, after.Keys - rest, sent, dropped, queue, queue')
  }

  /** The state of its second loop. */
  ghost predicate InAbsent(
    before: Registry, after: Registry, rest: set<Id>, n: nat, sent: seq<ConfigEvent>, dropped: set<nat>,
    queue: seq<ConfigEvent>, queue': seq<ConfigEvent>)
  {
    && rest <= before.Keys && n == |sent|
    && Sending(before, after, after.Keys + (before.Keys - rest), sent, dropped, queue, queue')
  }

  lemma PresentDone(
    before: Registry, after: Registry, n: nat, sent: seq<ConfigEvent>, dropped: set<nat>, queue: seq<ConfigEvent>,
    queue': seq<ConfigEvent>)
    requires InPresent(before, after, {}, n, sent, dropped, queue, queue')
    ensures InAbsent(before, after, before.Keys, n, sent, dropped, queue, queue')
  {
    assert after.Keys - {} == after.Keys + (before.Keys - before.Keys);
  }

  lemma AbsentDone(
    before: Registry, after: Registry, n: nat, sent: seq<ConfigEvent>, dropped: set<nat>, queue: seq<ConfigEvent>,
    queue': seq<ConfigEvent>)
    requires InAbsent(before, after, {}, n, sent, dropped, queue, queue')
    ensures IsDiff(before, after, sent) && queue' == queue + Delivered(sent, dropped)
  {
    assert after.Keys + (before.Keys - {}) == before.Keys + after.Keys;
  }

  function Derived(m: MonitorRecord, incidents: IncidentTables.Tables): MonitorRecord {
    m.(status := if IncidentTables.Open(incidents, m.id).Some? then Down else Up)
  }

  class Service {
    const repo: MonitorStore
    const incidents: IncidentStore

    /** The channel to the scheduler: events sent and not yet received. */
    var events: seq<ConfigEvent>

    constructor (repo: MonitorStore, incidents: IncidentStore)
      ensures this.repo == repo && this.incidents == incidents && events == []
    {
      this.repo, this.incidents, events := repo, incidents, [];
    }

    /** `sendEvent`: the event is lost when the request's context ends first. */
    method SendEvent(ev: ConfigEvent, lost: bool)
      modifies this`events
      ensures events == old(events) + if lost then [] else [ev]
    {
      if !lost {
        events := events + [ev];
      }
    }

    /** One send of `syncScheduler`, the `n`-th. */
    method SendChange(
      ev: ConfigEvent, n: nat, dropped: set<nat>, ghost before: Registry, ghost after: Registry, ghost done: set<Id>,
      ghost sent: seq<ConfigEvent>, ghost queue: seq<ConfigEvent>)
      requires Sending(before, after, done, sent, dropped, queue, events) && n == |sent|
      requires ev.Config() !in done && EventFor(before, after, ev)
      modifies this`events
      ensures Sending(before, after, done + {ev.Config()}, sent + [ev], dropped, queue, events)
    {
      DiffNext(before, after, done, sent, ev.Config(), ev);
      DeliveredNext(sent, ev, dropped);
      SendEvent(ev, n in dropped);
    }

    /** The body of `syncScheduler`'s first loop: some config that is there after the change. */
    method ComparePresent(
      rest: set<Id>, before: Registry, after: Registry, n: nat, dropped: set<nat>, ghost sent: seq<ConfigEvent>,
      ghost queue: seq<ConfigEvent>)
      returns (less: set<Id>, m: nat, ghost more: seq<ConfigEvent>)
      requires rest != {} && Filed(after) && InPresent(before, after, rest, n, sent, dropped, queue, events)
      modifies this`events
      ensures InPresent(before, after, less, m, more, dropped, queue, events) && |less| < |rest|
    {
      var id :| id in rest;
      less, m, more := rest - {id}, n, sent;
      ghost var done := after.Keys - rest;
      assert after.Keys - less == done + {id};
      if id !in before {
        SendChange(Created(after[id]), n, dropped, before, after, done, sent, queue);
        m, more := n + 1, sent + [Created(after[id])];
      } else if !after[id].Equal(before[id]) {
        SendChange(Updated(after[id]), n, dropped, before, after, done, sent, queue);
        m, more := n + 1, sent + [Updated(after[id])];
      } else {
      }
    }

    /** The body of the second loop: some config that was there before. */
    method CompareAbsent(
      rest: set<Id>, before: Registry, after: Registry, n: nat, dropped: set<nat>, ghost sent: seq<ConfigEvent>,
      ghost queue: seq<ConfigEvent>)
      returns (less: set<Id>, m: nat, ghost more: seq<ConfigEvent>)
      requires rest != {} && Filed(before) && InAbsent(before, after, rest, n, sent, dropped, queue, events)
      modifies this`events
      ensures InAbsent(before, after, less, m, more, dropped, queue, events) && |less| < |rest|
    {
      var id :| id in rest;
      less, m, more := rest - {id}, n, sent;
      ghost var done := after.Keys + (before.Keys - rest);
      assert after.Keys + (before.Keys - less) == done + {id};
      if id !in after {
        SendChange(Deleted(before[id]), n, dropped, before, after, done, sent, queue);
        m, more := n + 1, sent + [Deleted(before[id])];
      } else {
      }
    }

    /** The first loop of `syncScheduler`: created and updated configs, in any order. */
    method SendPresent(before: Registry, after: Registry, dropped: set<nat>)
      returns (n: nat, ghost sent: seq<ConfigEvent>)
      requires Filed(after)
      modifies this`events
      ensures InAbsent(before, after, before.Keys, n, sent, dropped, old(events), events)
    {
      n, sent := 0, [];
      var rest := after.Keys;
      while rest != {}
        invariant InPresent(before, after, rest, n, sent, dropped, old(events), events)
        decreases |rest|
      {
        rest, n, sent := ComparePresent(rest, before, after, n, dropped, sent, old(events));
      }
      PresentDone(before, after, n, sent, dropped, old(events), events);
    }

    /** The second loop of `syncScheduler`: deleted configs, in any order. */
    method SendAbsent(
      before: Registry, after: Registry, first: nat, dropped: set<nat>, ghost present: seq<ConfigEvent>,
      ghost queue: seq<ConfigEvent>)
      returns (ghost sent: seq<ConfigEvent>)
      requires Filed(before) && InAbsent(before, after, before.Keys, first, present, dropped, queue, events)
      modifies this`events
      ensures IsDiff(before, after, sent) && events == queue + Delivered(sent, dropped)
    {
      sent := present;
      var n, rest := first, before.Keys;
      while rest != {}
        invariant InAbsent(before, after, rest, n, sent, dropped, queue, events)
        decreases |rest|
      {
        rest, n, sent := CompareAbsent(rest, before, after, n, dropped, sent, queue);
      }
      AbsentDone(before, after, n, sent, dropped, queue, events);
    }

    /** `syncScheduler`. `dropped` numbers the sends that lose to the end of the request's context. */
    method SyncScheduler(before: Registry, after: Registry, dropped: set<nat>) returns (ghost sent: seq<ConfigEvent>)
      requires Filed(before) && Filed(after)
      modifies this`events
      ensures IsDiff(before, after, sent) && events == old(events) + Delivered(sent, dropped)
    {
      var n;
      n, sent := SendPresent(before, after, dropped);
      sent := SendAbsent(before, after, n, dropped, sent, old(events));
    }

    method Create(ids: NewIDs, input: CreateMonitorInput, parsesIP: ParsesIP, dropped: set<nat>)
      returns (r: Result<MonitorRecord>, ghost sent: seq<ConfigEvent>)
      requires Schema(repo.Contents()) && |ids.https| == |input.https|
      modifies this`events, repo
      ensures Did(Perform(old(repo.Contents()), CreateMonitor(ids, input), parsesIP), old(repo.Contents()),
                  repo.Contents(), ErrorOf(r), old(events), events, sent, dropped)
      ensures r.Ok? ==> Leaves(Perform(old(repo.Contents()), CreateMonitor(ids, input), parsesIP), r.value)
    {
      sent := [];
      r := New(ids, input, parsesIP);
      if r.Err? {
        return;
      }
      var error := repo.CreateMonitor(r.value);
      if error.Some? {
        r := Err(error.value);
        return;
      }
      var m := new Monitor(r.value);
      var after := m.JobProjection();
      ProjectionFiled(r.value);
      sent := SyncScheduler(map[], after, dropped);
    }

    method Update(id: Id, input: UpdateMonitorInput, parsesIP: ParsesIP, dropped: set<nat>)
      returns (r: Result<MonitorRecord>, ghost sent: seq<ConfigEvent>)
      requires Schema(repo.Contents())
      modifies this`events, repo
      ensures Did(Perform(old(repo.Contents()), UpdateMonitor(id, input), parsesIP), old(repo.Contents()),
                  repo.Contents(), ErrorOf(r), old(events), events, sent, dropped)
      ensures r.Ok? ==> Leaves(Perform(old(repo.Contents()), UpdateMonitor(id, input), parsesIP), r.value)
    {
      sent := [];
      r := repo.GetMonitor(id);
      if r.Err? {
        return;
      }
      var m := new Monitor(r.value);
      var before := m.JobProjection();
      var host: Option<Host> := None;
      if input.host.Some? {
        var parsed := NewHost(input.host.value, parsesIP);
        if parsed.Err? {
          r := Err(parsed.error);
          return;
        }
        m.ChangeHost(parsed.value);
        host := Some(parsed.value);
      }
      if input.name.Some? {
        m.Rename(input.name.value);
      }
      var error := repo.UpdateMonitor(id, input.name, host);
      if error.Some? {
        r := Err(error.value);
        return;
      }
      var after := m.JobProjection();
      ProjectionFiled(r.value);
      ProjectionFiled(m.Record());
      sent := SyncScheduler(before, after, dropped);
      r := Ok(m.Record());
    }

    method Delete(id: Id, parsesIP: ParsesIP, dropped: set<nat>)
      returns (error: Option<Error>, ghost sent: seq<ConfigEvent>)
      requires Schema(repo.Contents())
      modifies this`events, repo
      ensures Did(Perform(old(repo.Contents()), DeleteMonitor(id), parsesIP), old(repo.Contents()), repo.Contents(),
                  error, old(events), events, sent, dropped)
    {
      sent := [];
      var read := repo.GetMonitor(id);
      if read.Err? {
        return Some(read.error), [];
      }
      error := repo.DeleteMonitor(id);
      if error.Some? {
        return;
      }
      var m := new Monitor(read.value);
      var before := m.JobProjection();
      ProjectionFiled(read.value);
      sent := SyncScheduler(before, map[], dropped);
    }

    method AddHTTPCheck(id: Id, configID: Id, input: CreateHTTPInput, parsesIP: ParsesIP, dropped: set<nat>)
      returns (r: Result<HTTPConfig>, ghost sent: seq<ConfigEvent>)
      requires Schema(repo.Contents())
      modifies this`events, repo
      ensures Did(Perform(old(repo.Contents()), Command.AddHTTPCheck(id, configID, input), parsesIP),
                  old(repo.Contents()), repo.Contents(), ErrorOf(r), old(events), events, sent, dropped)
      ensures r.Ok? ==>
                Appends(Perform(old(repo.Contents()), Command.AddHTTPCheck(id, configID, input), parsesIP), r.value)
    {
      sent := [];
      var read := repo.GetMonitor(id);
      if read.Err? {
        r := Err(read.error);
        return;
      }
      var m := new Monitor(read.value);
      var before := m.JobProjection();
      r := m.AddHTTPConfig(configID, input);
      if r.Err? {
        return;
      }
      var error := repo.AddHTTPConfig(r.value);
      if error.Some? {
        r := Err(error.value);
        return;
      }
      var after := m.JobProjection();
      ProjectionFiled(read.value);
      ProjectionFiled(m.Record());
      sent := SyncScheduler(before, after, dropped);
    }

    method UpdateHTTPCheck(id: Id, configID: Id, input: UpdateHTTPInput, parsesIP: ParsesIP, dropped: set<nat>)
      returns (error: Option<Error>, ghost sent: seq<ConfigEvent>)
      requires Schema(repo.Contents())
      modifies this`events, repo
      ensures Did(Perform(old(repo.Contents()), Command.UpdateHTTPCheck(id, configID, input), parsesIP),
                  old(repo.Contents()), repo.Contents(), error, old(events), events, sent, dropped)
    {
      sent := [];
      var read := repo.GetMonitor(id);
      if read.Err? {
        return Some(read.error), [];
      }
      var m := new Monitor(read.value);
      var before := m.JobProjection();
      var updated := m.UpdateHTTPConfig(configID, input);
      if updated.Err? {
        return Some(updated.error), [];
      }
      error := repo.UpdateHTTPConfig(updated.value);
      if error.Some? {
        return;
      }
      var after := m.JobProjection();
      ProjectionFiled(read.value);
      ProjectionFiled(m.Record());
      sent := SyncScheduler(before, after, dropped);
    }

    method RemoveHTTPCheck(id: Id, configID: Id, parsesIP: ParsesIP, dropped: set<nat>)
      returns (error: Option<Error>, ghost sent: seq<ConfigEvent>)
      requires Schema(repo.Contents())
      modifies this`events, repo
      ensures Did(Perform(old(repo.Contents()), Command.RemoveHTTPCheck(id, configID), parsesIP),
                  old(repo.Contents()), repo.Contents(), error, old(events), events, sent, dropped)
    {
      sent := [];
      var read := repo.GetMonitor(id);
      if read.Err? {
        return Some(read.error), [];
      }
      var m := new Monitor(read.value);
      var before := m.JobProjection();
      error := m.RemoveHTTPConfig(configID);
      if error.Some? {
        return;
      }
      error := repo.RemoveHTTPConfig(configID);
      if error.Some? {
        return;
      }
      var after := m.JobProjection();
      ProjectionFiled(read.value);
      ProjectionFiled(m.Record());
      sent := SyncScheduler(before, after, dropped);
    }

    method UpdatePing(id: Id, input: UpdatePingInput, parsesIP: ParsesIP, dropped: set<nat>)
      returns (error: Option<Error>, ghost sent: seq<ConfigEvent>)
      requires Schema(repo.Contents())
      modifies this`events, repo
      ensures Did(Perform(old(repo.Contents()), UpdatePingCheck(id, input), parsesIP), old(repo.Contents()),
                  repo.Contents(), error, old(events), events, sent, dropped)
    {
      sent := [];
      var read := repo.GetMonitor(id);
      if read.Err? {
        return Some(read.error), [];
      }
      var m := new Monitor(read.value);
      var before := m.JobProjection();
      error := m.UpdatePingConfig(input);
      if error.Some? {
        return;
      }
      error := repo.UpdatePingConfig(m.ping);
      if error.Some? {
        return;
      }
      var after := m.JobProjection();
      ProjectionFiled(read.value);
      ProjectionFiled(m.Record());
      sent := SyncScheduler(before, after, dropped);
    }

    /** `Get`: the stored monitor, down while it has an open incident and up otherwise. */
    method Get(id: Id) returns (r: Result<MonitorRecord>)
      requires Schema(repo.Contents())
      ensures match ReadMonitor(repo.Contents(), id)
              case Ok(m) => r == Ok(Derived(m, incidents.Contents()))
              case Err(e) => r == Err(e)
      ensures r.Ok? ==>
                && r.value.id == id
                && (r.value.status.Down? <==> IncidentTables.Open(incidents.Contents(), id).Some?)
                && (r.value.status.Up? <==> IncidentTables.Open(incidents.Contents(), id).None?)
    {
      r := repo.GetMonitor(id);
      if r.Err? {
        return;
      }
      ReadHolds(repo.Contents(), id);
      var open := incidents.GetOpenByMonitor(id);
      var m := new Monitor(r.value);
      m.DeriveStatus(open.Some?);
      r := Ok(m.Record());
    }

    /** The loop of `List`. */
    method DeriveEach(read: seq<MonitorRecord>, open: set<Id>) returns (monitors: seq<MonitorRecord>)
      ensures |monitors| == |read|
      ensures forall i | 0 <= i < |read| :: monitors[i] == read[i].(status := if read[i].id in open then Down else Up)
    {
      monitors := read;
      for i := 0 to |monitors|
        invariant |monitors| == |read|
        invariant forall j | 0 <= j < |read| ::
                    monitors[j] ==
                    if j < i then read[j].(status := if read[j].id in open then Down else Up) else read[j]
      {
        var m := new Monitor(monitors[i]);
        m.DeriveStatus(monitors[i].id in open);
        monitors := monitors[i := m.Record()];
      }
    }

    /** `List`: every stored monitor, with the status `Get` gives it. It fails only over an HTTP config whose monitor
      * has no ping config, which no command leaves behind. */
    method List() returns (r: Result<seq<MonitorRecord>>)
      requires Schema(repo.Contents())
      ensures r.Ok? <==> ChecksJoined(repo.Contents())
      ensures r.Ok? ==> ListsDerived(repo.Contents(), incidents.Contents(), r.value)
    {
      var t := repo.Contents();
      r := repo.GetMonitorList();
      if r.Err? {
        return;
      }
      var read := r.value;
      ListHasEveryMonitor(t, read);
      var open := incidents.ListMonitorIDsWithOpenIncident();
      var monitors := DeriveEach(read, open);
      EachDerived(t, incidents.Contents(), open, read, monitors);
      r := Ok(monitors);
    }
  }

  /** Exactly the stored monitors with a ping config, each as `Get` returns it. */
  ghost predicate ListsDerived(t: Tables, incidents: IncidentTables.Tables, list: seq<MonitorRecord>)
    requires OnePing(t)
  {
    && (forall i | 0 <= i < |list| ::
          && ReadMonitor(t, list[i].id).Ok?
          && list[i] == Derived(ReadMonitor(t, list[i].id).value, incidents))
    && (forall id :: id in t.monitors && HasPing(t, id) <==> HasID(list, id))
  }

  lemma EachDerived(
    t: Tables, incidents: IncidentTables.Tables, open: set<Id>, read: seq<MonitorRecord>, list: seq<MonitorRecord>)
    requires OnePing(t) && |list| == |read|
    requires forall m :: m in open <==> IncidentTables.Open(incidents, m).Some?
    requires forall i | 0 <= i < |read| ::
               && list[i] == read[i].(status := if read[i].id in open then Down else Up)
               && ReadMonitor(t, read[i].id) == Ok(read[i])
    requires forall id :: id in t.monitors && HasPing(t, id) <==> HasID(read, id)
    ensures ListsDerived(t, incidents, list)
  {
    assert forall i | 0 <= i < |list| :: list[i].id == read[i].id;
    forall id
      ensures HasID(list, id) <==> HasID(read, id)
    {
      if i :| 0 <= i < |read| && read[i].id == id {
        assert list[i].id == id;
      }
      if i :| 0 <= i < |list| && list[i].id == id {
        assert read[i].id == id;
      }
    }
  }

  function ErrorOf<T>(r: Result<T>): Option<Error> {
    if r.Ok? then None else Some(r.error)
  }
}
