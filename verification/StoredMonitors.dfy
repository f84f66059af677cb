/** The aggregate and its stored form: what the tables hold of a monitor, that reading and writing agree on it, and
  * what a command leaves of the enabled jobs. */
module StoredMonitors {
  import opened Domain
  import opened Jobs
  import opened ValueObjects
  import opened Configs
  import opened Monitors
  import opened MonitorTables

  // ---- round trips of rows -----------------------------------------------------------------------

  const SOME_PING := PingConfig(0, 0, 443, true, 0, 0, 0)

  const SOME_HTTP := HTTPConfig(0, 0, SchemeHTTP, Path("/"), MethodGET, true, 0, 0, 0, NilSlice)

  predicate WholeHTTP(cfg: HTTPConfig) {
    WholeSeconds(cfg.interval) && WholeSeconds(cfg.timeout)
  }

  predicate WholePing(cfg: PingConfig) {
    WholeSeconds(cfg.interval) && WholeSeconds(cfg.timeout)
  }

  predicate Int64HTTP(cfg: HTTPConfig) {
    IsInt64(cfg.interval) && IsInt64(cfg.timeout)
  }

  predicate Int64Ping(cfg: PingConfig) {
    IsInt64(cfg.interval) && IsInt64(cfg.timeout)
  }

  ghost predicate Int64Durations(m: MonitorRecord) {
    Int64Ping(m.ping) && forall i | 0 <= i < |m.https| :: Int64HTTP(m.https[i])
  }

  /** Every duration is a whole number of seconds. */
  ghost predicate Whole(m: MonitorRecord) {
    WholePing(m.ping) && HTTPsWhole(m.https)
  }

  ghost predicate HTTPsWhole(configs: seq<HTTPConfig>) {
    forall i | 0 <= i < |configs| :: WholeHTTP(configs[i])
  }

  /** A config with its durations as storage gives them back, and likewise a monitor. */
  function AsStoredPing(cfg: PingConfig): PingConfig {
    cfg.(interval := FromSeconds(Seconds(cfg.interval)), timeout := FromSeconds(Seconds(cfg.timeout)))
  }

  function AsStoredHTTP(cfg: HTTPConfig): HTTPConfig {
    cfg.(interval := FromSeconds(Seconds(cfg.interval)), timeout := FromSeconds(Seconds(cfg.timeout)))
  }

  function AsStoredAll(configs: seq<HTTPConfig>): seq<HTTPConfig> {
    seq(|configs|, i requires 0 <= i < |configs| => AsStoredHTTP(configs[i]))
  }

  function AsStored(m: MonitorRecord): MonitorRecord {
    m.(ping := AsStoredPing(m.ping), https := AsStoredAll(m.https))
  }

  /** Storage gives every row back with whole seconds, and unchanged exactly when it had whole seconds. */
  lemma RowsRoundTrip(http: HTTPConfig, ping: PingConfig)
    ensures ReadHTTP(http.id, HTTPRowOf(http.monitorID, http)) == AsStoredHTTP(http)
    ensures ReadPing(ping.id, PingRowOf(ping.monitorID, ping)) == AsStoredPing(ping)
    ensures Int64HTTP(http) ==> WholeHTTP(AsStoredHTTP(http)) && (AsStoredHTTP(http) == http <==> WholeHTTP(http))
    ensures Int64Ping(ping) ==> WholePing(AsStoredPing(ping)) && (AsStoredPing(ping) == ping <==> WholePing(ping))
  {
    if Int64HTTP(http) {
      StoredDuration(http.interval);
      StoredDuration(http.timeout);
    }
    if Int64Ping(ping) {
      StoredDuration(ping.interval);
      StoredDuration(ping.timeout);
    }
  }

  /** The same of a monitor. */
  lemma StoredAsIsIffWhole(m: MonitorRecord)
    requires Int64Durations(m)
    ensures Whole(AsStored(m)) && (AsStored(m) == m <==> Whole(m))
  {
    RowsRoundTrip(SOME_HTTP, m.ping);
    forall i | 0 <= i < |m.https|
      ensures WholeHTTP(AsStoredAll(m.https)[i]) && (AsStoredAll(m.https)[i] == m.https[i] <==> WholeHTTP(m.https[i]))
    {
      RowsRoundTrip(m.https[i], SOME_PING);
    }
    if Whole(m) {
      assert AsStoredAll(m.https) == m.https;
    }
  }

  /** Storing keeps identifiers and positions. */
  lemma StoredIndex(configs: seq<HTTPConfig>, id: Id)
    ensures IndexOf(AsStoredAll(configs), id) == IndexOf(configs, id)
  {
    var i, j := IndexOf(configs, id), IndexOf(AsStoredAll(configs), id);
    assert j >= 0 ==> AsStoredAll(configs)[j].id == configs[j].id;
    assert i >= 0 ==> AsStoredAll(configs)[i].id == configs[i].id;
  }

  // ---- what the tables hold of a monitor ---------------------------------------------------------

  /** The HTTP configs of `monitor` in `t` are exactly `configs`, in some order. */
  ghost predicate HoldsChecks(t: Tables, monitor: Id, configs: seq<HTTPConfig>) {
    && (forall i | 0 <= i < |configs| ::
          && configs[i].id in t.https && t.https[configs[i].id].monitorID == monitor
          && ReadHTTP(configs[i].id, t.https[configs[i].id]) == configs[i])
    && (forall h | h in t.https && t.https[h].monitorID == monitor :: IndexOf(configs, h) >= 0)
    && (forall i, j | 0 <= i < j < |configs| :: configs[i].id != configs[j].id)
  }

  ghost predicate HoldsPing(t: Tables, monitor: Id, ping: PingConfig) {
    ping.id in t.pings && t.pings[ping.id].monitorID == monitor && ReadPing(ping.id, t.pings[ping.id]) == ping
  }

  ghost predicate Holds(t: Tables, m: MonitorRecord) {
    && m.id in t.monitors && t.monitors[m.id] == MonitorRow(m.name, m.host, m.status)
    && HoldsPing(t, m.id, m.ping)
    && HoldsChecks(t, m.id, m.https)
  }

  /** In the order `ORDER BY id` gives. */
  ghost predicate ByID(configs: seq<HTTPConfig>) {
    forall i, j | 0 <= i < j < |configs| :: configs[i].id < configs[j].id
  }

  /** The rows of a monitor, as the query returns them. */
  lemma ChecksInOrder(t: Tables, id: Id)
    ensures var keys := InOrder(ChecksOf(t, id));
            && (forall i | 0 <= i < |keys| ::
                  keys[i].monitor == id && keys[i].config in t.https && t.https[keys[i].config].monitorID == id)
            && (forall i, j | 0 <= i < j < |keys| :: keys[i].config < keys[j].config)
  {
    var keys := InOrder(ChecksOf(t, id));
    forall i | 0 <= i < |keys|
      ensures keys[i].monitor == id && keys[i].config in t.https && t.https[keys[i].config].monitorID == id
    {
      assert keys[i] in keys;
    }
    assert forall i, j | 0 <= i < j < |keys| :: Before(keys[i], keys[j]);
  }

  /** Where a query's answer has a row. */
  lemma PlaceOf(keys: seq<RowKey>, k: RowKey) returns (i: nat)
    requires k in keys
    ensures i < |keys| && keys[i] == k
  {
    i :| 0 <= i < |keys| && keys[i] == k;
  }

  /** The rows of a monitor in ascending order read as what the tables hold of it. */
  lemma ReadRowsHold(t: Tables, id: Id, keys: seq<RowKey>, configs: seq<HTTPConfig>)
    requires Stored(t, keys) && configs == ReadAll(t, keys)
    requires forall i | 0 <= i < |keys| :: t.https[keys[i].config].monitorID == id
    requires forall i, j | 0 <= i < j < |keys| :: keys[i].config < keys[j].config
    requires forall h | h in t.https && t.https[h].monitorID == id :: RowKey(id, h) in keys
    ensures HoldsChecks(t, id, configs) && ByID(configs)
  {
    assert forall i | 0 <= i < |configs| :: configs[i].id == keys[i].config;
    forall h | h in t.https && t.https[h].monitorID == id
      ensures IndexOf(configs, h) >= 0
    {
      var i := PlaceOf(keys, RowKey(id, h));
      assert configs[i].id == h;
    }
  }

  lemma ReadChecksHold(t: Tables, id: Id)
    ensures HoldsChecks(t, id, ReadChecks(t, id)) && ByID(ReadChecks(t, id))
  {
    ChecksInOrder(t, id);
    ChecksStored(t, id);
    ReadRowsHold(t, id, InOrder(ChecksOf(t, id)), ReadChecks(t, id));
  }

  /** The reader returns what the tables hold. */
  lemma ReadHolds(t: Tables, id: Id)
    requires OnePing(t) && ReadMonitor(t, id).Ok?
    ensures ReadMonitor(t, id).value.id == id
    ensures Holds(t, ReadMonitor(t, id).value) && ByID(ReadMonitor(t, id).value.https)
  {
    ReadChecksHold(t, id);
  }

  function KeysOf(monitor: Id, configs: seq<HTTPConfig>): (keys: seq<RowKey>)
    ensures |keys| == |configs|
    ensures forall i | 0 <= i < |configs| :: keys[i] == RowKey(monitor, configs[i].id)
  {
    if configs == [] then [] else [RowKey(monitor, configs[0].id)] + KeysOf(monitor, configs[1..])
  }

  lemma HeldInOrder(t: Tables, monitor: Id, configs: seq<HTTPConfig>)
    requires HoldsChecks(t, monitor, configs) && ByID(configs)
    ensures ReadChecks(t, monitor) == configs
  {
    var keys, rows := KeysOf(monitor, configs), InOrder(ChecksOf(t, monitor));
    forall i | 0 <= i < |rows|
      ensures rows[i] in keys
    {
      assert rows[i] in rows;
      assert keys[IndexOf(configs, rows[i].config)] == rows[i];
    }
    AscendingIsUnique(keys, rows);
  }

  /** What the tables hold of a monitor determines what the reader returns. */
  lemma HeldIsRead(t: Tables, m: MonitorRecord)
    requires OnePing(t) && Holds(t, m) && ByID(m.https)
    ensures ReadMonitor(t, m.id) == Ok(m)
  {
    HeldInOrder(t, m.id, m.https);
    assert SameOwner(t, PingOf(t, m.id).value, m.ping.id);
  }

  // ---- every command leaves the tables holding the aggregate it was given ------------------------

  /** `https` is `before` and the rows of `configs`, which are new to it. */
  ghost predicate RowsAdded(before: map<Id, HTTPRow>, monitor: Id, configs: seq<HTTPConfig>, https: map<Id, HTTPRow>) {
    && (forall i | 0 <= i < |configs| ::
          configs[i].id !in before && configs[i].id in https && https[configs[i].id] == HTTPRowOf(monitor, configs[i]))
    && (forall h | h in before :: h in https && https[h] == before[h])
    && (forall h | h in https :: h in before || IndexOf(configs, h) >= 0)
    && (forall i, j | 0 <= i < j < |configs| :: configs[i].id != configs[j].id)
  }

  lemma RowAdded(
    before: map<Id, HTTPRow>, monitor: Id, configs: seq<HTTPConfig>, https: map<Id, HTTPRow>, cfg: HTTPConfig)
    requires RowsAdded(before, monitor, configs, https) && cfg.id !in https
    ensures RowsAdded(before, monitor, configs + [cfg], https[cfg.id := HTTPRowOf(monitor, cfg)])
  {
    IndexOfLast(configs + [cfg]);
    assert (configs + [cfg])[..|configs|] == configs;
  }

  lemma {:induction false} InsertsAddRows(https: map<Id, HTTPRow>, monitor: Id, configs: seq<HTTPConfig>)
    requires HTTPsInserted(https, monitor, configs).Ok?
    ensures RowsAdded(https, monitor, configs, HTTPsInserted(https, monitor, configs).value)
  {
    if configs != [] {
      var n := |configs| - 1;
      var init, last := configs[..n], configs[n];
      assert configs == init + [last];
      InsertsAddRows(https, monitor, init);
      RowAdded(https, monitor, init, HTTPsInserted(https, monitor, init).value, last);
    }
  }

  lemma IndexOfLast(configs: seq<HTTPConfig>)
    requires configs != []
    ensures forall h :: IndexOf(configs, h) >= 0 <==>
              IndexOf(configs[..|configs| - 1], h) >= 0 || h == configs[|configs| - 1].id
  {
    var n := |configs| - 1;
    forall h
      ensures IndexOf(configs, h) >= 0 <==> IndexOf(configs[..n], h) >= 0 || h == configs[n].id
    {
      var i, j := IndexOf(configs, h), IndexOf(configs[..n], h);
      assert 0 <= i < n ==> configs[..n][i].id == h;
      assert 0 <= j ==> configs[j].id == h;
    }
  }

  /** The rows just added read back as what storage keeps of the configs. */
  lemma AddedRowsHold(before: map<Id, HTTPRow>, monitor: Id, configs: seq<HTTPConfig>, t: Tables)
    requires RowsAdded(before, monitor, configs, t.https)
    requires forall h | h in before :: before[h].monitorID != monitor
    requires forall i | 0 <= i < |configs| :: configs[i].monitorID == monitor
    ensures HoldsChecks(t, monitor, AsStoredAll(configs))
  {
    var stored := AsStoredAll(configs);
    forall i | 0 <= i < |stored|
      ensures ReadHTTP(stored[i].id, t.https[stored[i].id]) == stored[i]
    {
      RowsRoundTrip(configs[i], SOME_PING);
    }
    forall h | h in t.https && t.https[h].monitorID == monitor
      ensures IndexOf(stored, h) >= 0
    {
      StoredIndex(configs, h);
    }
  }

  /** A monitor just inserted is held as storage gives it back. */
  lemma InsertHolds(t: Tables, m: MonitorRecord)
    requires Schema(t) && MonitorInserted(t, m).Ok? && Owned(m)
    ensures Holds(MonitorInserted(t, m).value, AsStored(m))
  {
    InsertsAddRows(t.https, m.id, m.https);
    AddedRowsHold(t.https, m.id, m.https, MonitorInserted(t, m).value);
    RowsRoundTrip(SOME_HTTP, m.ping);
  }

  lemma PingHolds(t: Tables, m: MonitorRecord, cfg: PingConfig)
    requires Holds(t, m) && PingStored(t, cfg).Ok? && cfg.id == m.ping.id && cfg.monitorID == m.id
    ensures Holds(PingStored(t, cfg).value, m.(ping := AsStoredPing(cfg)))
  {
    RowsRoundTrip(SOME_HTTP, cfg);
  }

  lemma ReplacedIndex(configs: seq<HTTPConfig>, i: nat, cfg: HTTPConfig, h: Id)
    requires i < |configs| && configs[i].id == cfg.id
    ensures IndexOf(configs[i := cfg], h) == IndexOf(configs, h)
  {
    var j, k := IndexOf(configs, h), IndexOf(configs[i := cfg], h);
    assert j >= 0 ==> configs[i := cfg][j].id == h;
    assert k >= 0 ==> configs[k].id == h;
  }

  /** Storing a changed HTTP config leaves the tables holding the changed aggregate. */
  lemma ReplacedHolds(t: Tables, m: MonitorRecord, cfg: HTTPConfig)
    requires Holds(t, m) && HTTPStored(t, cfg).Ok? && IndexOf(m.https, cfg.id) >= 0 && cfg.monitorID == m.id
    ensures Holds(HTTPStored(t, cfg).value, WithHTTPReplaced(m, AsStoredHTTP(cfg)))
  {
    RowsRoundTrip(cfg, m.ping);
    var i := IndexOf(m.https, cfg.id);
    forall h {
      ReplacedIndex(m.https, i, AsStoredHTTP(cfg), h);
    }
  }

  lemma ChecksAdded(t: Tables, monitor: Id, configs: seq<HTTPConfig>, cfg: HTTPConfig, row: HTTPRow)
    requires HoldsChecks(t, monitor, configs) && cfg.id !in t.https
    requires row.monitorID == monitor && ReadHTTP(cfg.id, row) == cfg
    ensures HoldsChecks(t.(https := t.https[cfg.id := row]), monitor, configs + [cfg])
  {
    IndexOfLast(configs + [cfg]);
    assert (configs + [cfg])[..|configs|] == configs;
  }

  /** Storing an addition leaves the tables holding the grown aggregate. */
  lemma AddedHolds(t: Tables, m: MonitorRecord, cfg: HTTPConfig)
    requires Holds(t, m) && HTTPInserted(t, cfg).Ok? && cfg.monitorID == m.id
    ensures Holds(HTTPInserted(t, cfg).value, WithHTTPAdded(m, AsStoredHTTP(cfg)))
  {
    RowsRoundTrip(cfg, m.ping);
    ChecksAdded(t, m.id, m.https, AsStoredHTTP(cfg), HTTPRowOf(m.id, cfg));
  }

  lemma IndexFound(configs: seq<HTTPConfig>, k: nat)
    requires k < |configs|
    ensures IndexOf(configs, configs[k].id) >= 0
  {
  }

  lemma IndexAfterRemoval(configs: seq<HTTPConfig>, i: nat, h: Id)
    requires i < |configs| && h != configs[i].id && IndexOf(configs, h) >= 0
    ensures IndexOf(configs[..i] + configs[i + 1..], h) >= 0
  {
    var j, rest := IndexOf(configs, h), configs[..i] + configs[i + 1..];
    var k: nat := if j < i then j else j - 1;
    assert rest[k] == configs[j];
    IndexFound(rest, k);
  }

  lemma RemovedHolds(t: Tables, m: MonitorRecord, id: Id)
    requires Holds(t, m) && WithHTTPRemoved(m, id).Ok?
    ensures HTTPRemoved(t, id).Ok? && Holds(HTTPRemoved(t, id).value, WithHTTPRemoved(m, id).value)
  {
    var i := IndexOf(m.https, id);
    ChecksRemoved(t, m.id, m.https, i);
  }

  lemma ChecksRemoved(t: Tables, monitor: Id, configs: seq<HTTPConfig>, i: nat)
    requires HoldsChecks(t, monitor, configs) && i < |configs|
    ensures HoldsChecks(t.(https := t.https - {configs[i].id}), monitor, configs[..i] + configs[i + 1..])
  {
    var rest := configs[..i] + configs[i + 1..];
    assert forall k | 0 <= k < |rest| :: rest[k] == configs[if k < i then k else k + 1];
    forall h | h in t.https && h != configs[i].id && t.https[h].monitorID == monitor
      ensures IndexOf(rest, h) >= 0
    {
      IndexAfterRemoval(configs, i, h);
    }
  }

  // ---- storing part of a monitor that is held ----------------------------------------------------

  /** A held monitor has whole seconds, so with one config changed it is stored as it is but for that config. */
  lemma ChangedAsStored(m: MonitorRecord, ping: PingConfig, http: HTTPConfig)
    requires Whole(m) && Int64Durations(m)
    ensures AsStored(m.(ping := ping)) == m.(ping := AsStoredPing(ping))
    ensures AsStored(WithHTTPAdded(m, http)) == WithHTTPAdded(m, AsStoredHTTP(http))
    ensures IndexOf(m.https, http.id) >= 0 ==>
              AsStored(WithHTTPReplaced(m, http)) == WithHTTPReplaced(m, AsStoredHTTP(http))
  {
    StoredAsIsIffWhole(m);
    assert AsStored(m).ping == m.ping && AsStoredAll(m.https) == m.https;
    assert AsStoredAll(m.https + [http]) == AsStoredAll(m.https) + [AsStoredHTTP(http)];
    var i := IndexOf(m.https, http.id);
    assert i >= 0 ==> AsStoredAll(m.https[i := http]) == AsStoredAll(m.https)[i := AsStoredHTTP(http)];
  }

  // ---- round trip of a monitor -------------------------------------------------------------------

  ghost predicate DistinctConfigIDs(configs: seq<HTTPConfig>) {
    forall i, j | 0 <= i < j < |configs| :: configs[i].id != configs[j].id
  }

  lemma {:induction false} OccursOnce(configs: seq<HTTPConfig>, c: HTTPConfig)
    requires DistinctConfigIDs(configs)
    ensures multiset(configs)[c] == if c in configs then 1 else 0
  {
    if configs != [] {
      var n := |configs| - 1;
      assert configs == configs[..n] + [configs[n]];
      OccursOnce(configs[..n], c);
      assert c in configs[..n] ==> c.id != configs[n].id;
    }
  }

  /** What the tables hold of a monitor's HTTP configs is determined but for its order. */
  lemma HeldOccurs(t: Tables, monitor: Id, a: seq<HTTPConfig>, b: seq<HTTPConfig>, c: HTTPConfig)
    requires HoldsChecks(t, monitor, a) && HoldsChecks(t, monitor, b) && c in a
    ensures c in b
  {
    var i :| 0 <= i < |a| && a[i] == c;
    assert b[IndexOf(b, c.id)].id == c.id;
  }

  lemma HeldTwice(t: Tables, monitor: Id, a: seq<HTTPConfig>, b: seq<HTTPConfig>)
    requires HoldsChecks(t, monitor, a) && HoldsChecks(t, monitor, b)
    ensures multiset(a) == multiset(b)
  {
    assert DistinctConfigIDs(a) && DistinctConfigIDs(b);
    forall c
      ensures multiset(a)[c] == multiset(b)[c]
    {
      OccursOnce(a, c);
      OccursOnce(b, c);
      if c in a { HeldOccurs(t, monitor, a, b, c); }
      if c in b { HeldOccurs(t, monitor, b, a, c); }
    }
  }

  /** The same monitor, its HTTP configs perhaps in another order. */
  ghost predicate SameButOrder(a: MonitorRecord, b: MonitorRecord) {
    a.(https := []) == b.(https := []) && multiset(a.https) == multiset(b.https)
  }

  /** The reader returns what the tables hold, with its HTTP configs in identifier order. */
  lemma HeldIsReadInOrder(t: Tables, m: MonitorRecord)
    requires OnePing(t) && Holds(t, m)
    ensures ReadMonitor(t, m.id).Ok?
    ensures SameButOrder(ReadMonitor(t, m.id).value, m) && ByID(ReadMonitor(t, m.id).value.https)
  {
    assert SameOwner(t, PingOf(t, m.id).value, m.ping.id);
    ReadHolds(t, m.id);
    HeldTwice(t, m.id, ReadMonitor(t, m.id).value.https, m.https);
  }

  lemma StoredSameIffWhole(m: MonitorRecord, r: MonitorRecord)
    requires Int64Durations(m) && SameButOrder(r, AsStored(m))
    ensures SameButOrder(r, m) <==> Whole(m)
  {
    StoredAsIsIffWhole(m);
    if SameButOrder(r, m) {
      forall i | 0 <= i < |m.https|
        ensures WholeHTTP(m.https[i])
      {
        assert m.https[i] in multiset(AsStored(m).https);
      }
    }
  }

  lemma StoredIsRead(t: Tables, m: MonitorRecord)
    requires OnePing(t) && Holds(t, AsStored(m)) && Int64Durations(m)
    ensures ReadMonitor(t, m.id).Ok?
    ensures var r := ReadMonitor(t, m.id).value;
            SameButOrder(r, AsStored(m)) && ByID(r.https) && (SameButOrder(r, m) <==> Whole(m))
    ensures ByID(m.https) ==> ReadMonitor(t, m.id) == Ok(AsStored(m))
  {
    HeldIsReadInOrder(t, AsStored(m));
    if ByID(m.https) {
      assert ByID(AsStored(m).https);
      HeldIsRead(t, AsStored(m));
    }
    StoredSameIffWhole(m, ReadMonitor(t, m.id).value);
  }

  /** Reading back a monitor just created gives it with the durations storage keeps and its HTTP configs in identifier
    * order; so, but for that order, the same monitor exactly when all its durations are whole seconds. */
  lemma CreateThenGet(t: Tables, m: MonitorRecord)
    requires Schema(t) && MonitorInserted(t, m).Ok? && Owned(m) && Int64Durations(m)
    ensures OnePing(MonitorInserted(t, m).value) && ReadMonitor(MonitorInserted(t, m).value, m.id).Ok?
    ensures var r := ReadMonitor(MonitorInserted(t, m).value, m.id).value;
            SameButOrder(r, AsStored(m)) && ByID(r.https) && (SameButOrder(r, m) <==> Whole(m))
    ensures ByID(m.https) ==> ReadMonitor(MonitorInserted(t, m).value, m.id) == Ok(AsStored(m))
  {
    InsertKeepsSchema(t, m);
    InsertHolds(t, m);
    StoredIsRead(MonitorInserted(t, m).value, m);
  }
}
