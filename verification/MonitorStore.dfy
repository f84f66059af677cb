/** The monitors' half of the SQLite storage (`internal/storage/sqlite/monitors.go`): tables updated in place, row
  * loops that rebuild the aggregates. */
module MonitorStores {
  import opened Domain
  import opened Jobs
  import opened ValueObjects
  import opened Configs
  import opened Monitors
  import opened MonitorTables
  import opened StoredMonitors
  import opened StoredJobs

  /** A row of the monitors joined with their ping configs. */
  predicate IsJoined(t: Tables, k: RowKey) {
    k.config in t.pings && t.pings[k.config].monitorID == k.monitor && k.monitor in t.monitors
  }

  function JoinedKeys(t: Tables): (keys: set<RowKey>)
    ensures forall k :: k in keys <==> IsJoined(t, k)
  {
    set p | p in t.pings && t.pings[p].monitorID in t.monitors :: RowKey(t.pings[p].monitorID, p)
  }

  predicate IsCheck(t: Tables, k: RowKey) {
    k.config in t.https && t.https[k.config].monitorID == k.monitor
  }

  function CheckKeys(t: Tables): (keys: set<RowKey>)
    ensures forall k :: k in keys <==> IsCheck(t, k)
  {
    set h | h in t.https :: RowKey(t.https[h].monitorID, h)
  }

  ghost predicate AllJoined(t: Tables, keys: seq<RowKey>) {
    forall i | 0 <= i < |keys| :: IsJoined(t, keys[i])
  }

  ghost predicate AllChecks(t: Tables, rows: seq<RowKey>) {
    forall i | 0 <= i < |rows| :: IsCheck(t, rows[i])
  }

  lemma QueriesReturnRows(t: Tables)
    ensures AllJoined(t, InOrder(JoinedKeys(t))) && AllChecks(t, InOrder(CheckKeys(t)))
  {
    var keys, rows := InOrder(JoinedKeys(t)), InOrder(CheckKeys(t));
    assert forall i | 0 <= i < |keys| :: keys[i] in keys;
    assert forall i | 0 <= i < |rows| :: rows[i] in rows;
  }

  /** The rows of one monitor, in the order they come. */
  ghost function RowsOf(rows: seq<RowKey>, monitor: Id): seq<RowKey> {
    if rows == [] then []
    else
      var n := |rows| - 1;
      RowsOf(rows[..n], monitor) + if rows[n].monitor == monitor then [rows[n]] else []
  }

  lemma {:induction false} RowsOfAscend(rows: seq<RowKey>, monitor: Id)
    requires Ascending(rows)
    ensures Ascending(RowsOf(rows, monitor))
    ensures forall k :: k in RowsOf(rows, monitor) <==> k in rows && k.monitor == monitor
  {
    if rows != [] {
      var n := |rows| - 1;
      var init := RowsOf(rows[..n], monitor);
      RowsOfAscend(rows[..n], monitor);
      assert rows == rows[..n] + [rows[n]];
      forall i | 0 <= i < |init|
        ensures Before(init[i], rows[n])
      {
        assert init[i] in rows[..n];
      }
    }
  }

  /** Grouping the rows of `ORDER BY monitor_id, id` gives each monitor its rows in `ORDER BY id`. */
  lemma GroupedRows(t: Tables, monitor: Id)
    ensures RowsOf(InOrder(CheckKeys(t)), monitor) == InOrder(ChecksOf(t, monitor))
  {
    var rows, own := InOrder(CheckKeys(t)), InOrder(ChecksOf(t, monitor));
    RowsOfAscend(rows, monitor);
    var grouped := RowsOf(rows, monitor);
    forall i | 0 <= i < |grouped|
      ensures grouped[i] in own
    {
      assert grouped[i] in grouped && IsCheck(t, grouped[i]);
    }
    forall i | 0 <= i < |own|
      ensures own[i] in grouped
    {
      assert own[i] in own && IsCheck(t, own[i]);
    }
    AscendingIsUnique(grouped, own);
  }

  /** The HTTP configs the rows attach to a monitor, in the order they come. */
  ghost function AttachedConfigs(t: Tables, rows: seq<RowKey>, monitor: Id): seq<HTTPConfig>
    requires AllChecks(t, rows)
  {
    if rows == [] then []
    else
      var n := |rows| - 1;
      AttachedConfigs(t, rows[..n], monitor) +
      if rows[n].monitor == monitor then [ReadHTTP(rows[n].config, t.https[rows[n].config])] else []
  }

  lemma {:induction false} AttachedAreRows(t: Tables, rows: seq<RowKey>, monitor: Id)
    requires AllChecks(t, rows)
    ensures Stored(t, RowsOf(rows, monitor))
    ensures AttachedConfigs(t, rows, monitor) == ReadAll(t, RowsOf(rows, monitor))
  {
    if rows != [] {
      var n := |rows| - 1;
      AttachedAreRows(t, rows[..n], monitor);
      var own := RowsOf(rows[..n], monitor);
      assert (own + [rows[n]])[..|own|] == own;
    }
  }

  /** All rows attached, each monitor has the configs `GetMonitor` reads. */
  lemma AllAttached(t: Tables, monitor: Id)
    requires AllChecks(t, InOrder(CheckKeys(t)))
    ensures AttachedConfigs(t, InOrder(CheckKeys(t)), monitor) == ReadChecks(t, monitor)
  {
    AttachedAreRows(t, InOrder(CheckKeys(t)), monitor);
    GroupedRows(t, monitor);
    ChecksStored(t, monitor);
  }

  /** The jobs the start-up query builds straight from its rows; absent keywords stay nil. */
  function ListedPing(id: Id, row: PingRow, host: Host): CheckJob {
    CheckJob(JobBase(row.monitorID, id, Wrap64(SECOND * row.interval), Wrap64(SECOND * row.timeout), row.maxAttempts),
             PingProbe(host, row.port))
  }

  function ListedHTTP(id: Id, row: HTTPRow, host: Host): CheckJob {
    CheckJob(JobBase(row.monitorID, id, Wrap64(SECOND * row.interval), Wrap64(SECOND * row.timeout), row.maxAttempts),
             HTTPProbe(row.scheme, host, row.path, row.verb, ReadKeywords(row.keywords, NilSlice)))
  }

  function ListedJob(t: Tables, id: Id): CheckJob
    requires Enabled(t, id)
  {
    if EnabledPing(t, id) then ListedPing(id, t.pings[id], t.monitors[t.pings[id].monitorID].host)
    else ListedHTTP(id, t.https[id], t.monitors[t.https[id].monitorID].host)
  }

  /** They are the jobs the aggregate would project, up to nil and empty keywords. */
  lemma ListedJobEqual(t: Tables, id: Id)
    requires Enabled(t, id)
    ensures ListedJob(t, id).Equal(JobAt(t, id)) && ListedJob(t, id).base.configID == id
  {
  }

  /** `jobs` holds one job for each enabled config of `ids`, and no other. */
  ghost predicate Lists(t: Tables, ids: set<Id>, jobs: seq<CheckJob>) {
    && (forall k | 0 <= k < |jobs| ::
          var id := jobs[k].base.configID; id in ids && Enabled(t, id) && jobs[k] == ListedJob(t, id))
    && (forall id | id in ids && Enabled(t, id) :: exists k :: 0 <= k < |jobs| && jobs[k].base.configID == id)
    && (forall i, j | 0 <= i < j < |jobs| :: jobs[i].base.configID != jobs[j].base.configID)
  }

  lemma ListsNext(t: Tables, ids: set<Id>, jobs: seq<CheckJob>, id: Id)
    requires Lists(t, ids, jobs) && id !in ids
    ensures !Enabled(t, id) ==> Lists(t, ids + {id}, jobs)
    ensures Enabled(t, id) ==> Lists(t, ids + {id}, jobs + [ListedJob(t, id)])
  {
    if Enabled(t, id) {
      var longer := jobs + [ListedJob(t, id)];
      ListedJobEqual(t, id);
      forall c | c in ids + {id} && Enabled(t, c)
        ensures exists k :: 0 <= k < |longer| && longer[k].base.configID == c
      {
        if c == id {
          assert longer[|jobs|].base.configID == c;
        } else {
          var k :| 0 <= k < |jobs| && jobs[k].base.configID == c;
          assert longer[k].base.configID == c;
        }
      }
    }
  }

  /** The monitor of a joined row, as the first loop builds it. */
  function JoinedRecord(t: Tables, k: RowKey): MonitorRecord
    requires IsJoined(t, k)
  {
    var row := t.monitors[k.monitor];
    MonitorRecord(k.monitor, row.name, row.host, row.status, ReadPing(k.config, t.pings[k.config]), [])
  }

  lemma AttachedIsRead(t: Tables, k: RowKey)
    requires OnePing(t) && IsJoined(t, k)
    ensures ReadMonitor(t, k.monitor) == Ok(JoinedRecord(t, k).(https := ReadChecks(t, k.monitor)))
  {
    assert SameOwner(t, k.config, PingOf(t, k.monitor).value);
  }

  /** No two joined rows are of the same monitor. */
  ghost predicate Once(keys: seq<RowKey>) {
    forall i, j | 0 <= i < j < |keys| :: keys[i].monitor != keys[j].monitor
  }

  lemma JoinedOnce(t: Tables, keys: seq<RowKey>)
    requires OnePing(t) && AllJoined(t, keys) && Ascending(keys)
    ensures Once(keys)
  {
    forall i, j | 0 <= i < j < |keys|
      ensures keys[i].monitor != keys[j].monitor
    {
      assert IsJoined(t, keys[i]) && IsJoined(t, keys[j]) && Before(keys[i], keys[j]);
      assert !SameOwner(t, keys[i].config, keys[j].config);
    }
  }

  /** `found` holds the monitors of the joined rows `keys`, with the HTTP configs of `rows` attached. */
  ghost predicate Shows(t: Tables, keys: seq<RowKey>, rows: seq<RowKey>, found: map<Id, MonitorRecord>)
    requires AllJoined(t, keys) && AllChecks(t, rows)
  {
    && (forall i | 0 <= i < |keys| ::
          && keys[i].monitor in found
          && found[keys[i].monitor] ==
             JoinedRecord(t, keys[i]).(https := AttachedConfigs(t, rows, keys[i].monitor)))
    && (forall id | id in found :: found[id].id == id)
  }

  lemma ShowsJoined(t: Tables, keys: seq<RowKey>, found: map<Id, MonitorRecord>, k: RowKey)
    requires AllJoined(t, keys) && Shows(t, keys, [], found) && IsJoined(t, k) && Once(keys + [k])
    ensures Shows(t, keys + [k], [], found[k.monitor := JoinedRecord(t, k)])
  {
    forall i | 0 <= i < |keys|
      ensures (keys + [k])[i].monitor != k.monitor
    {
      assert (keys + [k])[|keys|] == k;
    }
  }

  /** The first loop of `GetMonitorList`: the joined rows, by monitor and in order. */
  method CollectMonitors(t: Tables, keys: seq<RowKey>) returns (found: map<Id, MonitorRecord>, order: seq<Id>)
    requires AllJoined(t, keys) && Once(keys)
    ensures |order| == |keys| && forall i | 0 <= i < |keys| :: order[i] == keys[i].monitor
    ensures Shows(t, keys, [], found) && forall id | id in found :: id in t.monitors && HasPing(t, id)
  {
    found, order := map[], [];
    for i := 0 to |keys|
      invariant |order| == i && forall j | 0 <= j < i :: order[j] == keys[j].monitor
      invariant Shows(t, keys[..i], [], found) && forall id | id in found :: id in t.monitors && HasPing(t, id)
    {
      assert keys[..i + 1] == keys[..i] + [keys[i]];
      ShowsJoined(t, keys[..i], found, keys[i]);
      found := found[keys[i].monitor := JoinedRecord(t, keys[i])];
      order := order + [keys[i].monitor];
    }
    assert keys[..|keys|] == keys;
  }

  /** Every HTTP config's monitor has a ping config. */
  ghost predicate ChecksJoined(t: Tables) {
    forall h | h in t.https :: HasPing(t, t.https[h].monitorID)
  }

  /** The monitors found are those with a ping config. */
  ghost predicate FindsJoined(t: Tables, found: map<Id, MonitorRecord>) {
    forall id :: id in found <==> id in t.monitors && HasPing(t, id)
  }

  lemma ShowsFinds(t: Tables, found: map<Id, MonitorRecord>)
    requires AllJoined(t, InOrder(JoinedKeys(t))) && Shows(t, InOrder(JoinedKeys(t)), [], found)
    requires forall id | id in found :: id in t.monitors && HasPing(t, id)
    ensures FindsJoined(t, found)
  {
    var keys := InOrder(JoinedKeys(t));
    forall id | id in t.monitors && HasPing(t, id)
      ensures id in found
    {
      var p :| p in t.pings && t.pings[p].monitorID == id;
      assert IsJoined(t, RowKey(id, p));
      assert RowKey(id, p) in keys;
    }
  }

  /** One more row joins the configs of its monitor. */
  function AttachRow(t: Tables, found: map<Id, MonitorRecord>, k: RowKey): map<Id, MonitorRecord>
    requires IsCheck(t, k) && k.monitor in found
  {
    var m := found[k.monitor];
    found[m.id := m.(https := m.https + [ReadHTTP(k.config, t.https[k.config])])]
  }

  lemma ShowsRow(t: Tables, keys: seq<RowKey>, rows: seq<RowKey>, k: RowKey, found: map<Id, MonitorRecord>)
    requires AllJoined(t, keys) && AllChecks(t, rows) && IsCheck(t, k) && Shows(t, keys, rows, found)
    requires k.monitor in found
    ensures AllChecks(t, rows + [k]) && AttachRow(t, found, k).Keys == found.Keys
    ensures Shows(t, keys, rows + [k], AttachRow(t, found, k))
  {
    assert (rows + [k])[..|rows|] == rows;
    forall id
      ensures AttachedConfigs(t, rows + [k], id) ==
              AttachedConfigs(t, rows, id) +
              if k.monitor == id then [ReadHTTP(k.config, t.https[k.config])] else []
    {
    }
  }

  /** The second loop of `GetMonitorList`: each HTTP row joins the configs of its monitor, which must be there. */
  method AttachChecks(t: Tables, keys: seq<RowKey>, rows: seq<RowKey>, found: map<Id, MonitorRecord>)
    returns (r: Result<map<Id, MonitorRecord>>)
    requires AllJoined(t, keys) && AllChecks(t, rows) && Shows(t, keys, [], found)
    ensures r.Ok? <==> RowsFound(rows, found)
    ensures r.Ok? ==> Shows(t, keys, rows, r.value)
  {
    var attached := found;
    for i := 0 to |rows|
      invariant attached.Keys == found.Keys && AllChecks(t, rows[..i]) && Shows(t, keys, rows[..i], attached)
      invariant forall j | 0 <= j < i :: rows[j].monitor in found
    {
      if rows[i].monitor !in attached {
        return Err(StorageFailure);
      }
      ShowsRow(t, keys, rows[..i], rows[i], attached);
      attached := AttachRow(t, attached, rows[i]);
      assert rows[..i + 1] == rows[..i] + [rows[i]];
    }
    assert rows[..|rows|] == rows;
    return Ok(attached);
  }

  /** The third loop of `GetMonitorList`. */
  method InRowOrder(order: seq<Id>, found: map<Id, MonitorRecord>) returns (output: seq<MonitorRecord>)
    requires forall i | 0 <= i < |order| :: order[i] in found
    ensures |output| == |order| && forall i | 0 <= i < |order| :: output[i] == found[order[i]]
  {
    output := [];
    for i := 0 to |order|
      invariant |output| == i && forall j | 0 <= j < i :: output[j] == found[order[j]]
    {
      output := output + [found[order[i]]];
    }
  }

  /** One monitor per joined row, in identifier order, each as `GetMonitor` returns it. */
  ghost predicate IsMonitorList(t: Tables, list: seq<MonitorRecord>)
    requires OnePing(t)
  {
    var keys := InOrder(JoinedKeys(t));
    && |list| == |keys|
    && forall i | 0 <= i < |keys| :: ReadMonitor(t, keys[i].monitor) == Ok(list[i])
  }

  /** Every row's monitor is among those found. */
  ghost predicate RowsFound(rows: seq<RowKey>, found: map<Id, MonitorRecord>) {
    forall i | 0 <= i < |rows| :: rows[i].monitor in found
  }

  lemma AttachesIfJoined(t: Tables, rows: seq<RowKey>, found: map<Id, MonitorRecord>)
    requires UniqueChecks(t) && FindsJoined(t, found) && AllChecks(t, rows) && ChecksJoined(t)
    ensures RowsFound(rows, found)
  {
    forall i | 0 <= i < |rows|
      ensures rows[i].monitor in found
    {
      assert IsCheck(t, rows[i]);
    }
  }

  lemma JoinedIfAttaches(t: Tables, rows: seq<RowKey>, found: map<Id, MonitorRecord>)
    requires rows == InOrder(CheckKeys(t)) && FindsJoined(t, found) && RowsFound(rows, found)
    ensures ChecksJoined(t)
  {
    forall h | h in t.https
      ensures HasPing(t, t.https[h].monitorID)
    {
      var k := RowKey(t.https[h].monitorID, h);
      assert IsCheck(t, k);
      var i := PlaceOf(rows, k);
      assert rows[i].monitor in found;
    }
  }

  lemma AttachesIffJoined(t: Tables, rows: seq<RowKey>, found: map<Id, MonitorRecord>)
    requires UniqueChecks(t) && FindsJoined(t, found) && rows == InOrder(CheckKeys(t)) && AllChecks(t, rows)
    ensures RowsFound(rows, found) <==> ChecksJoined(t)
  {
    if ChecksJoined(t) {
      AttachesIfJoined(t, rows, found);
    }
    if RowsFound(rows, found) {
      JoinedIfAttaches(t, rows, found);
    }
  }

  lemma OutputIsList(t: Tables, attached: map<Id, MonitorRecord>, output: seq<MonitorRecord>)
    requires OnePing(t) && AllJoined(t, InOrder(JoinedKeys(t))) && AllChecks(t, InOrder(CheckKeys(t)))
    requires Shows(t, InOrder(JoinedKeys(t)), InOrder(CheckKeys(t)), attached)
    requires var keys := InOrder(JoinedKeys(t));
             |output| == |keys| && forall i | 0 <= i < |keys| :: output[i] == attached[keys[i].monitor]
    ensures IsMonitorList(t, output)
  {
    var keys := InOrder(JoinedKeys(t));
    forall i | 0 <= i < |keys|
      ensures ReadMonitor(t, keys[i].monitor) == Ok(output[i])
    {
      AttachedIsRead(t, keys[i]);
      AllAttached(t, keys[i].monitor);
    }
  }

  /** In a store as the commands leave it every monitor is listed, and the listing never fails. */
  lemma ShapedIsJoined(t: Tables)
    requires StoreShaped(t)
    ensures ChecksJoined(t) && forall id | id in t.monitors :: HasPing(t, id)
  {
    forall h | h in t.https
      ensures HasPing(t, t.https[h].monitorID)
    {
    }
  }

  ghost predicate HasID(list: seq<MonitorRecord>, id: Id) {
    exists i :: 0 <= i < |list| && list[i].id == id
  }

  lemma ListIsJoined(t: Tables, list: seq<MonitorRecord>, i: nat)
    requires OnePing(t) && IsMonitorList(t, list) && i < |list|
    ensures var keys := InOrder(JoinedKeys(t));
            |keys| == |list| && keys[i].monitor == list[i].id && IsJoined(t, keys[i])
    ensures ReadMonitor(t, list[i].id) == Ok(list[i])
  {
    var keys := InOrder(JoinedKeys(t));
    assert keys[i] in keys;
    ReadHolds(t, keys[i].monitor);
  }

  /** A stored monitor's row is joined, and so its monitor listed. */
  lemma StoredIsListed(t: Tables, keys: seq<RowKey>, list: seq<MonitorRecord>, id: Id)
    requires keys == InOrder(JoinedKeys(t)) && |keys| == |list|
    requires forall i | 0 <= i < |list| :: keys[i].monitor == list[i].id
    requires id in t.monitors && HasPing(t, id)
    ensures HasID(list, id)
  {
    var p :| p in t.pings && t.pings[p].monitorID == id;
    assert IsJoined(t, RowKey(id, p));
    var i := PlaceOf(keys, RowKey(id, p));
    assert list[i].id == id;
  }

  lemma ListAscends(t: Tables, keys: seq<RowKey>, list: seq<MonitorRecord>, i: nat, j: nat)
    requires OnePing(t) && keys == InOrder(JoinedKeys(t)) && |keys| == |list| && i < j < |list|
    requires keys[i].monitor == list[i].id && keys[j].monitor == list[j].id
    ensures list[i].id < list[j].id
  {
    QueriesReturnRows(t);
    JoinedOnce(t, keys);
    assert Before(keys[i], keys[j]);
  }

  /** The list has every monitor with a ping config, in identifier order. */
  lemma ListHasEveryMonitor(t: Tables, list: seq<MonitorRecord>)
    requires Schema(t) && IsMonitorList(t, list)
    ensures forall i, j | 0 <= i < j < |list| :: list[i].id < list[j].id
    ensures forall id :: id in t.monitors && HasPing(t, id) <==> HasID(list, id)
    ensures forall i | 0 <= i < |list| :: ReadMonitor(t, list[i].id) == Ok(list[i])
  {
    var keys := InOrder(JoinedKeys(t));
    forall i | 0 <= i < |list|
      ensures keys[i].monitor == list[i].id && list[i].id in t.monitors && HasPing(t, list[i].id)
      ensures ReadMonitor(t, list[i].id) == Ok(list[i])
    {
      ListIsJoined(t, list, i);
      assert t.pings[keys[i].config].monitorID == list[i].id;
    }
    forall i, j | 0 <= i < j < |list|
      ensures list[i].id < list[j].id
    {
      ListAscends(t, keys, list, i, j);
    }
    forall id | id in t.monitors && HasPing(t, id)
      ensures HasID(list, id)
    {
      StoredIsListed(t, keys, list, id);
    }
  }

  /** What a command that may fail leaves: the new tables, or the old ones and the error. */
  predicate Outcome(next: Result<Tables>, before: Tables, after: Tables, error: Option<Error>) {
    match next
    case Ok(t) => error == None && after == t
    case Err(e) => error == Some(e) && after == before
  }

  /** The first loop of `ListEnabledCheckConfigs`. */
  method ListPings(t: Tables) returns (jobs: seq<CheckJob>)
    requires t.pings.Keys !! t.https.Keys
    ensures Lists(t, t.pings.Keys, jobs)
  {
    jobs := [];
    var rest := t.pings.Keys;
    ghost var done := {};
    while rest != {}
      invariant rest <= t.pings.Keys && done == t.pings.Keys - rest && Lists(t, done, jobs)
      decreases |rest|
    {
      var id :| id in rest;
      ListsNext(t, done, jobs, id);
      done, rest := done + {id}, rest - {id};
      var row := t.pings[id];
      if row.isEnabled && row.monitorID in t.monitors {
        jobs := jobs + [ListedPing(id, row, t.monitors[row.monitorID].host)];
      }
    }
    assert done == t.pings.Keys;
  }

  /** The second loop of `ListEnabledCheckConfigs`. */
  method ListHTTPs(t: Tables, pings: seq<CheckJob>) returns (jobs: seq<CheckJob>)
    requires t.pings.Keys !! t.https.Keys && Lists(t, t.pings.Keys, pings)
    ensures Lists(t, t.pings.Keys + t.https.Keys, jobs)
  {
    jobs := pings;
    var rest := t.https.Keys;
    ghost var done := t.pings.Keys;
    while rest != {}
      invariant rest <= t.https.Keys && done + rest == t.pings.Keys + t.https.Keys && done !! rest
      invariant Lists(t, done, jobs)
      decreases |rest|
    {
      var id :| id in rest;
      ListsNext(t, done, jobs, id);
      var row := t.https[id];
      if row.isEnabled && row.monitorID in t.monitors {
        jobs := jobs + [ListedHTTP(id, row, t.monitors[row.monitorID].host)];
      }
      done, rest := done + {id}, rest - {id};
    }
    assert done == t.pings.Keys + t.https.Keys;
  }

  class MonitorStore {
    var monitors: map<Id, MonitorRow>
    var pings: map<Id, PingRow>
    var https: map<Id, HTTPRow>

    constructor ()
      ensures Contents() == EMPTY
    {
      monitors, pings, https := map[], map[], map[];
    }

    function Contents(): Tables
      reads this
    {
      Tables(monitors, pings, https)
    }

    method CreateMonitor(m: MonitorRecord) returns (error: Option<Error>)
      requires Schema(Contents())
      modifies this
      ensures Outcome(MonitorInserted(old(Contents()), m), old(Contents()), Contents(), error)
    {
      if m.id in monitors {
        return Some(StorageFailure);
      }
      if HostTaken(Contents(), m.id, m.host) {
        return Some(MonitorExists);
      }
      if m.ping.id in pings {
        return Some(StorageFailure);
      }
      var inserted := https;
      for i := 0 to |m.https|
        invariant HTTPsInserted(https, m.id, m.https[..i]) == Ok(inserted)
      {
        assert m.https[..i + 1][..i] == m.https[..i];
        var id, row := m.https[i].id, HTTPRowOf(m.id, m.https[i]);
        if id in inserted || KeyTaken(inserted, id, row) {
          RefusedInsert(https, m.id, m.https, i + 1);
          return Some(StorageFailure);
        }
        inserted := inserted[id := row];
      }
      assert m.https[..|m.https|] == m.https;
      monitors := monitors[m.id := MonitorRow(m.name, m.host, m.status)];
      pings := pings[m.ping.id := PingRowOf(m.id, m.ping)];
      https := inserted;
      return None;
    }

    method UpdateMonitor(id: Id, name: Option<string>, host: Option<Host>) returns (error: Option<Error>)
      modifies this`monitors
      ensures Outcome(MonitorUpdated(old(Contents()), id, name, host), old(Contents()), Contents(), error)
    {
      if id !in monitors {
        return Some(MonitorNotFound);
      }
      if host.Some? && HostTaken(Contents(), id, host.value) {
        return Some(MonitorExists);
      }
      var row := monitors[id];
      monitors := monitors[id := row.(name := name.GetOr(row.name), host := host.GetOr(row.host))];
      return None;
    }

    method DeleteMonitor(id: Id) returns (error: Option<Error>)
      modifies this
      ensures Outcome(MonitorDeleted(old(Contents()), id), old(Contents()), Contents(), error)
    {
      if id !in monitors {
        return Some(MonitorNotFound);
      }
      monitors := monitors - {id};
      pings := map p | p in pings && pings[p].monitorID != id :: pings[p];
      https := map h | h in https && https[h].monitorID != id :: https[h];
      return None;
    }

    method UpdatePingConfig(cfg: PingConfig) returns (error: Option<Error>)
      modifies this`pings
      ensures Outcome(PingStored(old(Contents()), cfg), old(Contents()), Contents(), error)
    {
      if cfg.id !in pings {
        return Some(PingConfigNotFound);
      }
      pings := pings[cfg.id := PingRowOf(pings[cfg.id].monitorID, cfg)];
      return None;
    }

    method UpdateHTTPConfig(cfg: HTTPConfig) returns (error: Option<Error>)
      modifies this`https
      ensures Outcome(HTTPStored(old(Contents()), cfg), old(Contents()), Contents(), error)
    {
      if cfg.id !in https {
        return Some(HTTPConfigNotFound);
      }
      var row := HTTPRowOf(https[cfg.id].monitorID, cfg);
      if KeyTaken(https, cfg.id, row) {
        return Some(StorageFailure);
      }
      https := https[cfg.id := row];
      return None;
    }

    method AddHTTPConfig(cfg: HTTPConfig) returns (error: Option<Error>)
      modifies this`https
      ensures Outcome(HTTPInserted(old(Contents()), cfg), old(Contents()), Contents(), error)
    {
      if cfg.id in https || cfg.monitorID !in monitors {
        return Some(StorageFailure);
      }
      var row := HTTPRowOf(cfg.monitorID, cfg);
      if KeyTaken(https, cfg.id, row) {
        return Some(HTTPConfigExists);
      }
      https := https[cfg.id := row];
      return None;
    }

    method RemoveHTTPConfig(id: Id) returns (error: Option<Error>)
      modifies this`https
      ensures Outcome(HTTPRemoved(old(Contents()), id), old(Contents()), Contents(), error)
    {
      if id !in https {
        return Some(HTTPConfigNotFound);
      }
      https := https - {id};
      return None;
    }

    method GetMonitor(id: Id) returns (r: Result<MonitorRecord>)
      requires OnePing(Contents())
      ensures r == ReadMonitor(Contents(), id)
    {
      if id !in monitors || !exists p :: p in pings && pings[p].monitorID == id {
        return Err(MonitorNotFound);
      }
      var p :| p in pings && pings[p].monitorID == id;
      assert SameOwner(Contents(), p, PingOf(Contents(), id).value);
      ChecksStored(Contents(), id);
      var rows := InOrder(ChecksOf(Contents(), id));
      var configs := [];
      for i := 0 to |rows|
        invariant Stored(Contents(), rows) && configs == ReadAll(Contents(), rows[..i])
      {
        assert rows[..i + 1][..i] == rows[..i];
        configs := configs + [ReadHTTP(rows[i].config, https[rows[i].config])];
      }
      assert rows[..|rows|] == rows;
      var row := monitors[id];
      return Ok(MonitorRecord(id, row.name, row.host, row.status, ReadPing(p, pings[p]), configs));
    }

    /** `GetMonitorList`: three loops over the rows of two queries. */
    method GetMonitorList() returns (r: Result<seq<MonitorRecord>>)
      requires Schema(Contents())
      ensures r.Ok? <==> ChecksJoined(Contents())
      ensures r.Ok? ==> IsMonitorList(Contents(), r.value)
    {
      var t := Contents();
      var keys, rows := InOrder(JoinedKeys(t)), InOrder(CheckKeys(t));
      QueriesReturnRows(t);
      JoinedOnce(t, keys);
      var found, order := CollectMonitors(t, keys);
      ShowsFinds(t, found);
      AttachesIffJoined(t, rows, found);
      var attached := AttachChecks(t, keys, rows, found);
      if attached.Err? {
        return Err(attached.error);
      }
      var output := InRowOrder(order, attached.value);
      OutputIsList(t, attached.value, output);
      return Ok(output);
    }

    /** `ListEnabledCheckConfigs`: the rows of both queries, each in any order. */
    method ListEnabledCheckConfigs() returns (jobs: seq<CheckJob>)
      requires pings.Keys !! https.Keys
      ensures Lists(Contents(), pings.Keys + https.Keys, jobs)
    {
      jobs := ListPings(Contents());
      jobs := ListHTTPs(Contents(), jobs);
    }
  }

  lemma {:induction false} RefusedInsert(https: map<Id, HTTPRow>, monitor: Id, configs: seq<HTTPConfig>, i: nat)
    requires i <= |configs| && HTTPsInserted(https, monitor, configs[..i]).Err?
    ensures HTTPsInserted(https, monitor, configs) == HTTPsInserted(https, monitor, configs[..i])
  {
    var n := |configs| - 1;
    if i == |configs| {
      assert configs[..i] == configs;
    } else {
      assert configs[..n][..i] == configs[..i];
      RefusedInsert(https, monitor, configs[..n], i);
    }
  }
}
