/** The enabled jobs of all stored monitors, and the invariants of the stored monitors. */
module StoredJobs {
  import opened Domain
  import opened Jobs
  import opened ValueObjects
  import opened Configs
  import opened Monitors
  import opened MonitorTables
  import opened StoredMonitors

  // ---- invariants of the store -------------------------------------------------------------------

  /** A ping config as the reader may return it: well shaped, and of whole seconds. */
  predicate KeptPing(cfg: PingConfig) {
    ShapedPing(cfg) && WholePing(cfg)
  }

  predicate KeptHTTP(cfg: HTTPConfig) {
    ShapedHTTP(cfg) && WholeHTTP(cfg)
  }

  ghost predicate RowsShaped(t: Tables) {
    && (forall p | p in t.pings :: KeptPing(ReadPing(p, t.pings[p])))
    && (forall h | h in t.https :: KeptHTTP(ReadHTTP(h, t.https[h])))
  }

  ghost predicate RowsPaced(t: Tables) {
    && (forall p | p in t.pings :: PacedPing(ReadPing(p, t.pings[p])))
    && (forall h | h in t.https :: PacedHTTP(ReadHTTP(h, t.https[h])))
  }

  ghost predicate HasPing(t: Tables, id: Id) {
    exists p :: p in t.pings && t.pings[p].monitorID == id
  }

  /** What every command keeps: the schema, one ping config per monitor, config identifiers distinct across both
    * tables, and well-shaped rows. */
  ghost predicate StoreShaped(t: Tables) {
    && Schema(t)
    && (forall id {:trigger HasPing(t, id)} | id in t.monitors :: HasPing(t, id))
    && t.pings.Keys !! t.https.Keys
    && RowsShaped(t)
  }

  /** What every command keeps whose second counts fit: also a sound pace everywhere. */
  ghost predicate StoreSound(t: Tables) {
    StoreShaped(t) && RowsPaced(t)
  }

  /** Every stored monitor keeps the aggregate's invariants. */
  lemma HeldIsShaped(t: Tables, m: MonitorRecord)
    requires StoreShaped(t) && Holds(t, m)
    ensures Shaped(m) && Whole(m) && Int64Durations(m)
    ensures RowsPaced(t) ==> Paced(m)
  {
    forall i | 0 <= i < |m.https|
      ensures KeptHTTP(m.https[i])
    {
      assert KeptHTTP(ReadHTTP(m.https[i].id, t.https[m.https[i].id]));
    }
    forall i, j | 0 <= i < j < |m.https|
      ensures m.https[i].Key() != m.https[j].Key()
    {
      assert !SameCheck(t, m.https[i].id, m.https[j].id);
    }
  }

  /** A ping row is as it was, or the monitor's that changed. */
  lemma PingRowFrom(t: Tables, t': Tables, m: MonitorRecord, p: Id)
    requires OnePing(t') && Without(t', m.id).pings == Without(t, m.id).pings && HoldsPing(t', m.id, m.ping)
    requires p in t'.pings
    ensures (p in t.pings && t'.pings[p] == t.pings[p]) || ReadPing(p, t'.pings[p]) == m.ping
  {
    if t'.pings[p].monitorID == m.id {
      assert SameOwner(t', p, m.ping.id);
    } else {
      assert p in Without(t', m.id).pings && p in Without(t, m.id).pings;
    }
  }

  lemma HTTPRowFrom(t: Tables, t': Tables, m: MonitorRecord, h: Id)
    requires Without(t', m.id).https == Without(t, m.id).https && HoldsChecks(t', m.id, m.https)
    requires h in t'.https
    ensures || (h in t.https && t'.https[h] == t.https[h])
            || (exists i :: 0 <= i < |m.https| && ReadHTTP(h, t'.https[h]) == m.https[i])
  {
    if t'.https[h].monitorID == m.id {
      assert m.https[IndexOf(m.https, h)].id == h;
    } else {
      assert h in Without(t', m.id).https && h in Without(t, m.id).https;
    }
  }

  /** Rows stay well shaped, and of sound pace, when only one monitor's change and it is so. */
  lemma RowsStayShaped(t: Tables, t': Tables, m: MonitorRecord)
    requires RowsShaped(t) && OnePing(t') && Without(t', m.id) == Without(t, m.id)
    requires Holds(t', m) && Shaped(m) && Whole(m)
    ensures RowsShaped(t')
  {
    forall p | p in t'.pings
      ensures KeptPing(ReadPing(p, t'.pings[p]))
    {
      PingRowFrom(t, t', m, p);
    }
    forall h | h in t'.https
      ensures KeptHTTP(ReadHTTP(h, t'.https[h]))
    {
      HTTPRowFrom(t, t', m, h);
    }
  }

  lemma RowsStayPaced(t: Tables, t': Tables, m: MonitorRecord)
    requires RowsPaced(t) && OnePing(t') && Without(t', m.id) == Without(t, m.id)
    requires Holds(t', m) && Paced(m)
    ensures RowsPaced(t')
  {
    forall p | p in t'.pings
      ensures PacedPing(ReadPing(p, t'.pings[p]))
    {
      PingRowFrom(t, t', m, p);
    }
    forall h | h in t'.https
      ensures PacedHTTP(ReadHTTP(h, t'.https[h]))
    {
      HTTPRowFrom(t, t', m, h);
    }
  }

  // ---- enabled jobs ------------------------------------------------------------------------------

  predicate EnabledPing(t: Tables, id: Id) {
    id in t.pings && t.pings[id].isEnabled && t.pings[id].monitorID in t.monitors
  }

  predicate EnabledHTTP(t: Tables, id: Id) {
    id in t.https && t.https[id].isEnabled && t.https[id].monitorID in t.monitors
  }

  predicate Enabled(t: Tables, id: Id) {
    EnabledPing(t, id) || EnabledHTTP(t, id)
  }

  function JobAt(t: Tables, id: Id): CheckJob
    requires Enabled(t, id)
  {
    if EnabledPing(t, id) then ReadPing(id, t.pings[id]).ToJob(t.monitors[t.pings[id].monitorID].host)
    else ReadHTTP(id, t.https[id]).ToJob(t.monitors[t.https[id].monitorID].host)
  }

  /** The union of the projections of all stored monitors. */
  function ProjectAll(t: Tables): (r: Registry)
    ensures forall id :: id in r <==> Enabled(t, id)
    ensures forall id | id in r :: r[id] == JobAt(t, id)
  {
    map id | id in t.pings.Keys + t.https.Keys && Enabled(t, id) :: JobAt(t, id)
  }

  function JobsOfRecord(m: Option<MonitorRecord>): Registry {
    if m.None? then map[] else ProjectJobs(m.value)
  }

  /** `m` is what the tables hold under `id`, which may be nothing. */
  ghost predicate HoldsOption(t: Tables, id: Id, m: Option<MonitorRecord>) {
    if m.None? then id !in t.monitors else m.value.id == id && Holds(t, m.value)
  }

  /** The projection of a held monitor has exactly its enabled configs' rows. */
  lemma HeldJobs(t: Tables, m: MonitorRecord, id: Id)
    requires StoreShaped(t) && Holds(t, m)
    ensures id in ProjectJobs(m) <==>
              || (EnabledPing(t, id) && t.pings[id].monitorID == m.id)
              || (EnabledHTTP(t, id) && t.https[id].monitorID == m.id)
    ensures id in ProjectJobs(m) ==> ProjectJobs(m)[id] == JobAt(t, id)
  {
    ProjectedJobs(m);
    assert EnabledPing(t, id) && t.pings[id].monitorID == m.id ==> SameOwner(t, id, m.ping.id);
    if EnabledHTTP(t, id) && t.https[id].monitorID == m.id {
      assert EnabledAt(m.https, IndexOf(m.https, id), id);
    }
  }

  /** Registries with no config in common. */
  ghost predicate Apart(a: Registry, b: Registry) {
    forall id :: !(id in a && id in b)
  }

  lemma OwnJobs(t: Tables, id: Id, m: Option<MonitorRecord>, c: Id)
    requires StoreShaped(t) && HoldsOption(t, id, m)
    ensures var own := JobsOfRecord(m);
            && (c in own <==> c in ProjectAll(t) && JobAt(t, c).base.monitorID == id)
            && (c in own ==> own[c] == JobAt(t, c))
  {
    if m.Some? {
      HeldJobs(t, m.value, c);
    }
  }

  lemma OthersJobs(t: Tables, id: Id, c: Id)
    requires StoreShaped(t)
    ensures var others := ProjectAll(Without(t, id));
            && (c in others <==> c in ProjectAll(t) && JobAt(t, c).base.monitorID != id)
            && (c in others ==> others[c] == JobAt(t, c))
  {
    var rest := Without(t, id);
    assert EnabledPing(rest, c) <==> EnabledPing(t, c) && t.pings[c].monitorID != id;
    assert EnabledHTTP(rest, c) <==> EnabledHTTP(t, c) && t.https[c].monitorID != id;
  }

  lemma SplitAt(t: Tables, id: Id, m: Option<MonitorRecord>, c: Id)
    requires StoreShaped(t) && HoldsOption(t, id, m)
    ensures var others, own, all := ProjectAll(Without(t, id)), JobsOfRecord(m), ProjectAll(t);
            && !(c in others && c in own)
            && (c in all <==> c in others || c in own)
            && (c in others ==> all[c] == others[c])
            && (c in own ==> all[c] == own[c])
  {
    OwnJobs(t, id, m, c);
    OthersJobs(t, id, c);
  }

  /** All jobs are those of one monitor and those of the others. */
  lemma JobsSplit(t: Tables, id: Id, m: Option<MonitorRecord>)
    requires StoreShaped(t) && HoldsOption(t, id, m)
    ensures Apart(ProjectAll(Without(t, id)), JobsOfRecord(m))
    ensures ProjectAll(t) == ProjectAll(Without(t, id)) + JobsOfRecord(m)
  {
    SplitUnion(ProjectAll(Without(t, id)), JobsOfRecord(m), ProjectAll(t)) by {
      forall c {
        SplitAt(t, id, m, c);
      }
    }
  }

  lemma SplitUnion(others: Registry, own: Registry, all: Registry)
    requires forall c ::
               && !(c in others && c in own)
               && (c in all <==> c in others || c in own)
               && (c in others ==> all[c] == others[c])
               && (c in own ==> all[c] == own[c])
    ensures Apart(others, own) && all == others + own
  {
  }

  /** All monitors of the store can be read, and `ProjectAll` is the union of what they project. */
  lemma ProjectAllIsUnion(t: Tables, id: Id)
    requires StoreShaped(t) && id in t.monitors
    ensures ReadMonitor(t, id).Ok?
    ensures forall c :: c in ProjectJobs(ReadMonitor(t, id).value) <==>
                        c in ProjectAll(t) && ProjectAll(t)[c].base.monitorID == id
    ensures forall c | c in ProjectJobs(ReadMonitor(t, id).value) ::
              ProjectJobs(ReadMonitor(t, id).value)[c] == ProjectAll(t)[c]
    ensures forall c | c in ProjectAll(t) :: ProjectAll(t)[c].base.monitorID in t.monitors
  {
    assert HasPing(t, id);
    var m := ReadMonitor(t, id).value;
    ReadHolds(t, id);
    forall c
      ensures c in ProjectJobs(m) <==> c in ProjectAll(t) && ProjectAll(t)[c].base.monitorID == id
      ensures c in ProjectJobs(m) ==> ProjectJobs(m)[c] == ProjectAll(t)[c]
    {
      OwnJobs(t, id, Some(m), c);
    }
  }

  // ---- jobs of a monitor and of what storage keeps of it -----------------------------------------

  /** Every enabled config has whole seconds. */
  ghost predicate EnabledWhole(m: MonitorRecord) {
    && (m.ping.isEnabled ==> WholePing(m.ping))
    && (forall i | 0 <= i < |m.https| && m.https[i].isEnabled :: WholeHTTP(m.https[i]))
  }

  lemma StoredHTTPJob(cfg: HTTPConfig, host: Host)
    requires Int64HTTP(cfg)
    ensures cfg.ToJob(host).Equal(AsStoredHTTP(cfg).ToJob(host)) <==> WholeHTTP(cfg)
  {
    RowsRoundTrip(cfg, SOME_PING);
  }

  lemma StoredPingJob(cfg: PingConfig, host: Host)
    requires Int64Ping(cfg)
    ensures cfg.ToJob(host).Equal(AsStoredPing(cfg).ToJob(host)) <==> WholePing(cfg)
  {
    RowsRoundTrip(SOME_HTTP, cfg);
  }

  lemma StoredKeepsIDs(m: MonitorRecord)
    requires DistinctIDs(m)
    ensures DistinctIDs(AsStored(m))
  {
    var a, b := m.https, AsStored(m).https;
    assert forall i | 0 <= i < |b| :: b[i].id == a[i].id;
  }

  lemma StoredEnabledAt(https: seq<HTTPConfig>, i: int, id: Id)
    ensures EnabledAt(AsStoredAll(https), i, id) <==> EnabledAt(https, i, id)
  {
  }

  /** The enabled jobs of one config are the same in memory and as stored exactly when it has whole seconds. */
  lemma StoredJobAt(m: MonitorRecord, id: Id)
    requires DistinctIDs(m) && Int64Durations(m)
    ensures id in ProjectJobs(m) <==> id in ProjectJobs(AsStored(m))
    ensures EnabledWhole(m) && id in ProjectJobs(m) ==> ProjectJobs(m)[id].Equal(ProjectJobs(AsStored(m))[id])
  {
    ProjectedJobs(m);
    StoredKeepsIDs(m);
    ProjectedJobs(AsStored(m));
    StoredPingJob(m.ping, m.host);
    if i :| EnabledAt(m.https, i, id) {
      StoredEnabledAt(m.https, i, id);
      StoredHTTPJob(m.https[i], m.host);
    } else if i :| EnabledAt(AsStoredAll(m.https), i, id) {
      StoredEnabledAt(m.https, i, id);
    }
  }

  /** The jobs of a monitor in memory agree with those of what storage keeps of it, exactly when its enabled configs
    * have whole seconds. */
  lemma StoredJobsAgree(m: MonitorRecord)
    requires DistinctIDs(m) && Int64Durations(m)
    ensures Agree(ProjectJobs(m), ProjectJobs(AsStored(m))) <==> EnabledWhole(m)
  {
    forall id {
      StoredJobAt(m, id);
    }
    assert ProjectJobs(m).Keys == ProjectJobs(AsStored(m)).Keys;
    if !EnabledWhole(m) {
      SomeJobDiffers(m);
    }
  }

  lemma SomeJobDiffers(m: MonitorRecord)
    requires DistinctIDs(m) && Int64Durations(m) && !EnabledWhole(m)
    ensures exists id :: id in ProjectJobs(m) && id in ProjectJobs(AsStored(m)) &&
                         !ProjectJobs(m)[id].Equal(ProjectJobs(AsStored(m))[id])
  {
    ProjectedJobs(m);
    StoredKeepsIDs(m);
    ProjectedJobs(AsStored(m));
    if m.ping.isEnabled && !WholePing(m.ping) {
      StoredPingJob(m.ping, m.host);
      assert m.ping.id in ProjectJobs(m);
    } else {
      var i :| 0 <= i < |m.https| && m.https[i].isEnabled && !WholeHTTP(m.https[i]);
      StoredHTTPJob(m.https[i], m.host);
      StoredEnabledAt(m.https, i, m.https[i].id);
      assert EnabledAt(m.https, i, m.https[i].id);
    }
  }
}
