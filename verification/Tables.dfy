/** The tables behind the monitors (`internal/storage/sqlite/migrations.go`) and what each command of
  * `internal/storage/sqlite/monitors.go` does to them, on values. A command is one transaction: it succeeds as a
  * whole or leaves the tables as they were. */
module MonitorTables {
  import opened Domain
  import opened Jobs
  import opened ValueObjects
  import opened Configs
  import opened Monitors

  datatype MonitorRow = MonitorRow(name: string, host: Host, status: Status)

  /** Durations are stored in seconds. */
  datatype PingRow = PingRow(
    monitorID: Id,
    port: Port,
    isEnabled: bool,
    interval: int,
    timeout: int,
    maxAttempts: int)

  /** A nullable text column holding a JSON array of strings; an empty text reads like NULL. */
  datatype Column = Null | JSON(value: Strings)

  datatype HTTPRow = HTTPRow(
    monitorID: Id,
    scheme: Scheme,
    path: Path,
    verb: Method,
    isEnabled: bool,
    interval: int,
    timeout: int,
    maxAttempts: int,
    keywords: Column)
  {
    /** What is UNIQUE. */
    function Key(): (Id, Scheme, Path, Method) {
      (monitorID, scheme, path, verb)
    }
  }

  /** Rows by primary key. */
  datatype Tables = Tables(
    monitors: map<Id, MonitorRow>,
    pings: map<Id, PingRow>,
    https: map<Id, HTTPRow>)

  const EMPTY := Tables(map[], map[], map[])

  // ---- constraints -------------------------------------------------------------------------------

  predicate SameHost(t: Tables, a: Id, b: Id) {
    a in t.monitors && b in t.monitors && t.monitors[a].host == t.monitors[b].host
  }

  predicate SameOwner(t: Tables, p: Id, q: Id) {
    p in t.pings && q in t.pings && t.pings[p].monitorID == t.pings[q].monitorID
  }

  predicate SameCheck(t: Tables, g: Id, h: Id) {
    g in t.https && h in t.https && t.https[g].Key() == t.https[h].Key()
  }

  /** `host UNIQUE`. */
  ghost predicate UniqueHosts(t: Tables) {
    forall a, b | SameHost(t, a, b) :: a == b
  }

  /** `UNIQUE (monitor_id)` and the foreign key of the ping configs. */
  ghost predicate OnePing(t: Tables) {
    && (forall p | p in t.pings :: t.pings[p].monitorID in t.monitors)
    && (forall p, q | SameOwner(t, p, q) :: p == q)
  }

  /** `UNIQUE (monitor_id, scheme, path, method)` and the foreign key of the HTTP configs. */
  ghost predicate UniqueChecks(t: Tables) {
    && (forall h | h in t.https :: t.https[h].monitorID in t.monitors)
    && (forall g, h | SameCheck(t, g, h) :: g == h)
  }

  /** What the schema enforces. */
  ghost predicate Schema(t: Tables) {
    UniqueHosts(t) && OnePing(t) && UniqueChecks(t)
  }

  // ---- reading -----------------------------------------------------------------------------------

  function ReadPing(id: Id, row: PingRow): PingConfig {
    PingConfig(id, row.monitorID, row.port, row.isEnabled, FromSeconds(row.interval), FromSeconds(row.timeout),
               row.maxAttempts)
  }

  /** The two readers start from an empty and from a nil slice; a JSON null makes either nil. */
  function ReadKeywords(c: Column, start: Strings): Strings {
    if c.Null? then start else c.value
  }

  function ReadHTTP(id: Id, row: HTTPRow): HTTPConfig {
    HTTPConfig(id, row.monitorID, row.scheme, row.path, row.verb, row.isEnabled, FromSeconds(row.interval),
               FromSeconds(row.timeout), row.maxAttempts, ReadKeywords(row.keywords, Slice([])))
  }

  /** The ping config joined to a monitor, if any. */
  ghost function PingOf(t: Tables, monitor: Id): (p: Option<Id>)
    requires OnePing(t)
    ensures p.Some? ==> p.value in t.pings && t.pings[p.value].monitorID == monitor
    ensures p.None? ==> forall q | q in t.pings :: t.pings[q].monitorID != monitor
  {
    if q :| q in t.pings && t.pings[q].monitorID == monitor then Some(q) else None
  }

  /** A row's place under `ORDER BY monitor_id, id`. */
  datatype RowKey = RowKey(monitor: Id, config: Id)

  predicate Before(a: RowKey, b: RowKey) {
    a.monitor < b.monitor || (a.monitor == b.monitor && a.config < b.config)
  }

  predicate IsFirst(k: RowKey, keys: set<RowKey>) {
    k in keys && forall other | other in keys :: other == k || Before(k, other)
  }

  ghost predicate Ascending(s: seq<RowKey>) {
    forall i, j | 0 <= i < j < |s| :: Before(s[i], s[j])
  }

  lemma {:induction false} SomeIsFirst(keys: set<RowKey>)
    requires keys != {}
    ensures exists k :: IsFirst(k, keys)
  {
    var k :| k in keys;
    if keys == {k} {
      assert IsFirst(k, keys);
    } else {
      SomeIsFirst(keys - {k});
      var l :| IsFirst(l, keys - {k});
      if Before(k, l) {
        assert forall other | other in keys && other != k :: other in keys - {k};
        assert IsFirst(k, keys);
      } else {
        assert k != l && Before(l, k);
        assert IsFirst(l, keys);
      }
    }
  }

  /** The rows in the order a query with `ORDER BY` returns them. */
  function InOrder(keys: set<RowKey>): (s: seq<RowKey>)
    ensures forall k :: k in s <==> k in keys
    ensures Ascending(s)
  {
    if keys == {} then []
    else
      SomeIsFirst(keys);
      var k :| IsFirst(k, keys);
      [k] + InOrder(keys - {k})
  }

  /** Each element of `a` occurs in `b`. */
  ghost predicate Within(a: seq<RowKey>, b: seq<RowKey>) {
    forall i | 0 <= i < |a| :: a[i] in b
  }

  lemma {:induction false} AscendingIsUnique(a: seq<RowKey>, b: seq<RowKey>)
    requires Ascending(a) && Ascending(b) && Within(a, b) && Within(b, a)
    ensures a == b
  {
    assert a != [] ==> a[0] in b;
    assert b != [] ==> b[0] in a;
    if a != [] && b != [] {
      assert a == [a[0]] + a[1..] && b == [b[0]] + b[1..];
      TailWithin(a, b);
      TailWithin(b, a);
      AscendingIsUnique(a[1..], b[1..]);
    }
  }

  lemma TailWithin(a: seq<RowKey>, b: seq<RowKey>)
    requires a != [] && b != [] && a[0] == b[0] && Ascending(a) && Within(a, b)
    ensures Within(a[1..], b[1..])
  {
    forall i | 0 <= i < |a[1..]|
      ensures a[1..][i] in b[1..]
    {
      var k :| 0 <= k < |b| && b[k] == a[i + 1];
      assert b[1..][k - 1] == b[k];
    }
  }

  function ChecksOf(t: Tables, monitor: Id): (keys: set<RowKey>)
    ensures forall k :: k in keys <==>
              k.monitor == monitor && k.config in t.https && t.https[k.config].monitorID == monitor
  {
    set h | h in t.https && t.https[h].monitorID == monitor :: RowKey(monitor, h)
  }

  ghost predicate Stored(t: Tables, keys: seq<RowKey>) {
    forall i | 0 <= i < |keys| :: keys[i].config in t.https
  }

  ghost function ReadAll(t: Tables, keys: seq<RowKey>): (configs: seq<HTTPConfig>)
    requires Stored(t, keys)
    ensures |configs| == |keys|
    ensures forall i | 0 <= i < |keys| :: configs[i] == ReadHTTP(keys[i].config, t.https[keys[i].config])
  {
    if keys == [] then []
    else
      var n := |keys| - 1;
      ReadAll(t, keys[..n]) + [ReadHTTP(keys[n].config, t.https[keys[n].config])]
  }

  lemma ChecksStored(t: Tables, monitor: Id)
    ensures Stored(t, InOrder(ChecksOf(t, monitor)))
  {
    var rows := InOrder(ChecksOf(t, monitor));
    assert forall i | 0 <= i < |rows| :: rows[i] in rows;
  }

  /** A monitor's HTTP configs as `ORDER BY id` returns them. */
  ghost function ReadChecks(t: Tables, monitor: Id): seq<HTTPConfig> {
    ChecksStored(t, monitor);
    ReadAll(t, InOrder(ChecksOf(t, monitor)))
  }

  /** `GetMonitor`: the monitor joined with its ping config, and its HTTP configs in identifier order. */
  ghost function ReadMonitor(t: Tables, id: Id): Result<MonitorRecord>
    requires OnePing(t)
  {
    var p := PingOf(t, id);
    if id !in t.monitors || p.None? then Err(MonitorNotFound)
    else
      var row := t.monitors[id];
      Ok(MonitorRecord(id, row.name, row.host, row.status, ReadPing(p.value, t.pings[p.value]),
                       ReadChecks(t, id)))
  }

  // ---- writing -----------------------------------------------------------------------------------

  function PingRowOf(monitor: Id, cfg: PingConfig): PingRow {
    PingRow(monitor, cfg.port, cfg.isEnabled, Seconds(cfg.interval), Seconds(cfg.timeout), cfg.maxAttempts)
  }

  function HTTPRowOf(monitor: Id, cfg: HTTPConfig): HTTPRow {
    HTTPRow(monitor, cfg.scheme, cfg.path, cfg.verb, cfg.isEnabled, Seconds(cfg.interval), Seconds(cfg.timeout),
            cfg.maxAttempts, JSON(cfg.keywords))
  }

  predicate KeyTaken(https: map<Id, HTTPRow>, id: Id, row: HTTPRow) {
    exists h | h in https && h != id :: https[h].Key() == row.Key()
  }

  /** The inserts of a new monitor's HTTP configs, up to the first that breaks a constraint. */
  function HTTPsInserted(https: map<Id, HTTPRow>, monitor: Id, configs: seq<HTTPConfig>): Result<map<Id, HTTPRow>> {
    if configs == [] then Ok(https)
    else
      var n := |configs| - 1;
      var before :- HTTPsInserted(https, monitor, configs[..n]);
      var id, row := configs[n].id, HTTPRowOf(monitor, configs[n]);
      if id in before || KeyTaken(before, id, row) then Err(StorageFailure) else Ok(before[id := row])
  }

  predicate HostTaken(t: Tables, id: Id, host: Host) {
    exists other | other in t.monitors && other != id :: t.monitors[other].host == host
  }

  /** `CreateMonitor`. */
  function MonitorInserted(t: Tables, m: MonitorRecord): Result<Tables>
    requires OnePing(t)
  {
    if m.id in t.monitors then Err(StorageFailure)
    else if HostTaken(t, m.id, m.host) then Err(MonitorExists)
    else if m.ping.id in t.pings then Err(StorageFailure)
    else
      var https :- HTTPsInserted(t.https, m.id, m.https);
      Ok(Tables(t.monitors[m.id := MonitorRow(m.name, m.host, m.status)],
                t.pings[m.ping.id := PingRowOf(m.id, m.ping)],
                https))
  }

  /** `UpdateMonitor`: `COALESCE` keeps what is not given. */
  function MonitorUpdated(t: Tables, id: Id, name: Option<string>, host: Option<Host>): Result<Tables> {
    if id !in t.monitors then Err(MonitorNotFound)
    else if host.Some? && HostTaken(t, id, host.value) then Err(MonitorExists)
    else
      var row := t.monitors[id];
      Ok(t.(monitors := t.monitors[id := row.(name := name.GetOr(row.name), host := host.GetOr(row.host))]))
  }

  /** Everything but one monitor and its configs. */
  function Without(t: Tables, id: Id): Tables {
    Tables(t.monitors - {id},
           map p | p in t.pings && t.pings[p].monitorID != id :: t.pings[p],
           map h | h in t.https && t.https[h].monitorID != id :: t.https[h])
  }

  /** `DeleteMonitor`, with the cascade to its configs. */
  function MonitorDeleted(t: Tables, id: Id): Result<Tables> {
    if id !in t.monitors then Err(MonitorNotFound) else Ok(Without(t, id))
  }

  /** `UpdatePingConfig`. */
  function PingStored(t: Tables, cfg: PingConfig): Result<Tables> {
    if cfg.id !in t.pings then Err(PingConfigNotFound)
    else Ok(t.(pings := t.pings[cfg.id := PingRowOf(t.pings[cfg.id].monitorID, cfg)]))
  }

  /** `UpdateHTTPConfig`. */
  function HTTPStored(t: Tables, cfg: HTTPConfig): Result<Tables> {
    if cfg.id !in t.https then Err(HTTPConfigNotFound)
    else
      var row := HTTPRowOf(t.https[cfg.id].monitorID, cfg);
      if KeyTaken(t.https, cfg.id, row) then Err(StorageFailure)
      else Ok(t.(https := t.https[cfg.id := row]))
  }

  /** `AddHTTPConfig`. */
  function HTTPInserted(t: Tables, cfg: HTTPConfig): Result<Tables> {
    if cfg.id in t.https || cfg.monitorID !in t.monitors then Err(StorageFailure)
    else
      var row := HTTPRowOf(cfg.monitorID, cfg);
      if KeyTaken(t.https, cfg.id, row) then Err(HTTPConfigExists)
      else Ok(t.(https := t.https[cfg.id := row]))
  }

  /** `RemoveHTTPConfig`. */
  function HTTPRemoved(t: Tables, id: Id): Result<Tables> {
    if id !in t.https then Err(HTTPConfigNotFound) else Ok(t.(https := t.https - {id}))
  }

  // ---- the constraints hold after every command --------------------------------------------------

  lemma RowKeepsUnique(t: Tables, id: Id, row: HTTPRow)
    requires UniqueChecks(t) && row.monitorID in t.monitors && !KeyTaken(t.https, id, row)
    ensures UniqueChecks(t.(https := t.https[id := row]))
  {
    var t' := t.(https := t.https[id := row]);
    forall g, h | SameCheck(t', g, h)
      ensures g == h
    {
      assert SameCheck(t, g, h) || g == id || h == id;
    }
  }

  lemma {:induction false} InsertsKeepUnique(t: Tables, monitor: Id, configs: seq<HTTPConfig>)
    requires UniqueChecks(t) && monitor in t.monitors && HTTPsInserted(t.https, monitor, configs).Ok?
    ensures UniqueChecks(t.(https := HTTPsInserted(t.https, monitor, configs).value))
  {
    if configs != [] {
      var n := |configs| - 1;
      InsertsKeepUnique(t, monitor, configs[..n]);
      var before := t.(https := HTTPsInserted(t.https, monitor, configs[..n]).value);
      RowKeepsUnique(before, configs[n].id, HTTPRowOf(monitor, configs[n]));
    }
  }

  /** Fewer rows break no constraint. */
  lemma FewerKeepUnique(t: Tables, t': Tables)
    requires Schema(t)
    requires t'.monitors.Keys <= t.monitors.Keys && forall id | id in t'.monitors ::
               t'.monitors[id].host == t.monitors[id].host
    requires t'.pings.Keys <= t.pings.Keys && forall p | p in t'.pings ::
               t'.pings[p].monitorID == t.pings[p].monitorID && t'.pings[p].monitorID in t'.monitors
    requires t'.https.Keys <= t.https.Keys && forall h | h in t'.https ::
               t'.https[h] == t.https[h] && t'.https[h].monitorID in t'.monitors
    ensures Schema(t')
  {
    forall a, b
      ensures SameHost(t', a, b) ==> SameHost(t, a, b)
      ensures SameOwner(t', a, b) ==> SameOwner(t, a, b)
      ensures SameCheck(t', a, b) ==> SameCheck(t, a, b)
    {
    }
  }

  lemma InsertKeepsSchema(t: Tables, m: MonitorRecord)
    requires Schema(t) && MonitorInserted(t, m).Ok?
    ensures Schema(MonitorInserted(t, m).value)
  {
    var with := t.(monitors := t.monitors[m.id := MonitorRow(m.name, m.host, m.status)]);
    var t' := MonitorInserted(t, m).value;
    assert forall g, h :: SameCheck(with, g, h) ==> SameCheck(t, g, h);
    InsertsKeepUnique(with, m.id, m.https);
    forall a, b
      ensures SameHost(t', a, b) ==> a == b
      ensures SameOwner(t', a, b) ==> a == b
      ensures SameCheck(t', a, b) ==> SameCheck(with.(https := t'.https), a, b)
    {
      assert SameHost(t, a, b) ==> a == b;
      assert SameOwner(t, a, b) ==> a == b;
    }
  }

  lemma UpdateKeepsSchema(t: Tables, id: Id, name: Option<string>, host: Option<Host>)
    requires Schema(t) && MonitorUpdated(t, id, name, host).Ok?
    ensures Schema(MonitorUpdated(t, id, name, host).value)
  {
    var t' := MonitorUpdated(t, id, name, host).value;
    forall a, b
      ensures SameHost(t', a, b) ==> a == b
      ensures SameOwner(t', a, b) ==> SameOwner(t, a, b)
      ensures SameCheck(t', a, b) ==> SameCheck(t, a, b)
    {
      assert SameHost(t, a, b) ==> a == b;
    }
  }

  lemma WithoutKeepsSchema(t: Tables, id: Id)
    requires Schema(t)
    ensures Schema(Without(t, id))
  {
    FewerKeepUnique(t, Without(t, id));
  }

  lemma PingCommandKeepsSchema(t: Tables, cfg: PingConfig)
    requires Schema(t) && PingStored(t, cfg).Ok?
    ensures Schema(PingStored(t, cfg).value)
  {
    FewerKeepUnique(t, PingStored(t, cfg).value);
  }

  lemma StoreKeepsSchema(t: Tables, cfg: HTTPConfig)
    requires Schema(t) && HTTPStored(t, cfg).Ok?
    ensures Schema(HTTPStored(t, cfg).value)
  {
    RowKeepsUnique(t, cfg.id, HTTPRowOf(t.https[cfg.id].monitorID, cfg));
    SameOthers(t, HTTPStored(t, cfg).value);
  }

  lemma AddKeepsSchema(t: Tables, cfg: HTTPConfig)
    requires Schema(t) && HTTPInserted(t, cfg).Ok?
    ensures Schema(HTTPInserted(t, cfg).value)
  {
    RowKeepsUnique(t, cfg.id, HTTPRowOf(cfg.monitorID, cfg));
    SameOthers(t, HTTPInserted(t, cfg).value);
  }

  lemma RemoveKeepsSchema(t: Tables, id: Id)
    requires Schema(t) && HTTPRemoved(t, id).Ok?
    ensures Schema(HTTPRemoved(t, id).value)
  {
    FewerKeepUnique(t, HTTPRemoved(t, id).value);
  }

  lemma SameOthers(t: Tables, t': Tables)
    requires UniqueHosts(t) && OnePing(t) && t'.monitors == t.monitors && t'.pings == t.pings
    ensures UniqueHosts(t') && OnePing(t')
  {
    assert forall a, b :: SameHost(t', a, b) ==> SameHost(t, a, b);
    assert forall a, b :: SameOwner(t', a, b) ==> SameOwner(t, a, b);
  }
}
