/** What each service operation does (`internal/monitor/service.go`), on values: the tables it leaves and the
  * monitor before and after it. */
module Commands {
  import opened Domain
  import opened Jobs
  import opened ValueObjects
  import opened Configs
  import opened Monitors
  import opened MonitorTables
  import opened StoredMonitors
  import opened StoredJobs

  datatype Command =
    | CreateMonitor(ids: NewIDs, creation: CreateMonitorInput)
    | UpdateMonitor(id: Id, update: UpdateMonitorInput)
    | DeleteMonitor(id: Id)
    | AddHTTPCheck(id: Id, configID: Id, addition: CreateHTTPInput)
    | UpdateHTTPCheck(id: Id, configID: Id, httpUpdate: UpdateHTTPInput)
    | RemoveHTTPCheck(id: Id, configID: Id)
    | UpdatePingCheck(id: Id, pingUpdate: UpdatePingInput)

  /** The tables a command leaves, and the one monitor it is about, before and after. */
  datatype Change = Change(
    tables: Tables,
    monitor: Id,
    before: Option<MonitorRecord>,
    after: Option<MonitorRecord>)

  function ParsedHost(raw: Option<string>, parsesIP: ParsesIP): Result<Option<Host>> {
    if raw.None? then Ok(None)
    else
      var host :- NewHost(raw.value, parsesIP);
      Ok(Some(host))
  }

  /** One identifier per HTTP config of a new monitor. */
  predicate IDsMatch(cmd: Command) {
    cmd.CreateMonitor? ==> |cmd.ids.https| == |cmd.creation.https|
  }

  ghost function Create(t: Tables, ids: NewIDs, input: CreateMonitorInput, parsesIP: ParsesIP): Result<Change>
    requires OnePing(t) && |ids.https| == |input.https|
  {
    var m :- NewMonitor(ids, input, parsesIP);
    var t' :- MonitorInserted(t, m);
    Ok(Change(t', m.id, None, Some(m)))
  }

  ghost function Update(t: Tables, id: Id, input: UpdateMonitorInput, parsesIP: ParsesIP): Result<Change>
    requires OnePing(t)
  {
    var m :- ReadMonitor(t, id);
    var host :- ParsedHost(input.host, parsesIP);
    var t' :- MonitorUpdated(t, id, input.name, host);
    Ok(Change(t', id, Some(m), Some(m.(name := input.name.GetOr(m.name), host := host.GetOr(m.host)))))
  }

  ghost function Delete(t: Tables, id: Id): Result<Change>
    requires OnePing(t)
  {
    var m :- ReadMonitor(t, id);
    var t' :- MonitorDeleted(t, id);
    Ok(Change(t', id, Some(m), None))
  }

  ghost function AddHTTP(t: Tables, id: Id, configID: Id, input: CreateHTTPInput): Result<Change>
    requires OnePing(t)
  {
    var m :- ReadMonitor(t, id);
    var cfg :- HTTPToAdd(m, configID, input);
    var t' :- HTTPInserted(t, cfg);
    Ok(Change(t', id, Some(m), Some(WithHTTPAdded(m, cfg))))
  }

  ghost function ChangeHTTP(t: Tables, id: Id, configID: Id, input: UpdateHTTPInput): Result<Change>
    requires OnePing(t)
  {
    var m :- ReadMonitor(t, id);
    var cfg :- HTTPUpdated(m, configID, input);
    var t' :- HTTPStored(t, cfg);
    Ok(Change(t', id, Some(m), Some(WithHTTPReplaced(m, cfg))))
  }

  ghost function RemoveHTTP(t: Tables, id: Id, configID: Id): Result<Change>
    requires OnePing(t)
  {
    var m :- ReadMonitor(t, id);
    var m' :- WithHTTPRemoved(m, configID);
    var t' :- HTTPRemoved(t, configID);
    Ok(Change(t', id, Some(m), Some(m')))
  }

  ghost function ChangePing(t: Tables, id: Id, input: UpdatePingInput): Result<Change>
    requires OnePing(t)
  {
    var m :- ReadMonitor(t, id);
    var m' :- WithPingUpdated(m, input);
    var t' :- PingStored(t, m'.ping);
    Ok(Change(t', id, Some(m), Some(m')))
  }

  ghost function Perform(t: Tables, cmd: Command, parsesIP: ParsesIP): Result<Change>
    requires OnePing(t) && IDsMatch(cmd)
  {
    match cmd
    case CreateMonitor(ids, input) => Create(t, ids, input, parsesIP)
    case UpdateMonitor(id, input) => Update(t, id, input, parsesIP)
    case DeleteMonitor(id) => Delete(t, id)
    case AddHTTPCheck(id, configID, input) => AddHTTP(t, id, configID, input)
    case UpdateHTTPCheck(id, configID, input) => ChangeHTTP(t, id, configID, input)
    case RemoveHTTPCheck(id, configID) => RemoveHTTP(t, id, configID)
    case UpdatePingCheck(id, input) => ChangePing(t, id, input)
  }

  /** The command's second counts fit an int64 of nanoseconds. */
  ghost predicate CommandFits(cmd: Command) {
    match cmd
    case CreateMonitor(_, input) => MonitorInputFits(input)
    case AddHTTPCheck(_, _, input) => HTTPInputFits(input)
    case UpdateHTTPCheck(_, _, input) => HTTPUpdateFits(input)
    case UpdatePingCheck(_, input) => PingUpdateFits(input)
    case _ => true
  }

  /** New identifiers are distinct, and unused by the other table; each table's primary key sees to its own. */
  ghost predicate FreshIDs(t: Tables, cmd: Command) {
    match cmd
    case CreateMonitor(ids, _) =>
      DistinctNewIDs(ids) && ids.ping !in t.https && forall i | 0 <= i < |ids.https| :: ids.https[i] !in t.pings
    case AddHTTPCheck(_, configID, _) => configID !in t.pings
    case _ => true
  }

  function AsStoredOption(m: Option<MonitorRecord>): Option<MonitorRecord> {
    if m.None? then None else Some(AsStored(m.value))
  }

  /** A monitor as an operation may leave it in memory: keeping every invariant, but for whole seconds. */
  ghost predicate AfterShaped(m: Option<MonitorRecord>) {
    m.Some? ==> Shaped(m.value) && Int64Durations(m.value)
  }

  /** The change is what it says: a well-shaped store, holding the monitor as the aggregate left it, up to what
    * storage keeps of its durations, and nothing else touched. */
  ghost predicate Faithful(t: Tables, c: Change) {
    && StoreShaped(c.tables)
    && Without(c.tables, c.monitor) == Without(t, c.monitor)
    && HoldsOption(t, c.monitor, c.before)
    && HoldsOption(c.tables, c.monitor, AsStoredOption(c.after))
    && AfterShaped(c.after)
  }

  /** The change keeps every pace sound, and stores the monitor just as the aggregate left it. */
  ghost predicate KeepsPace(t: Tables, c: Change) {
    RowsPaced(t) ==> RowsPaced(c.tables) && AsStoredOption(c.after) == c.after
  }

  lemma ShapedStored(m: MonitorRecord)
    requires Shaped(m)
    ensures Int64Durations(m) && Shaped(AsStored(m)) && Whole(AsStored(m))
    ensures Paced(m) ==> AsStored(m) == m
  {
    StoredAsIsIffWhole(m);
    StoredKeepsIDs(m);
    var a, b := m.https, AsStored(m).https;
    assert forall i | 0 <= i < |b| :: b[i] == AsStoredHTTP(a[i]) && b[i].Key() == a[i].Key();
    assert Paced(m) ==> Whole(m);
  }

  /** A store that holds a well-shaped monitor, and otherwise what a well-shaped store held, is well shaped; and of
    * sound pace, if both were. */
  lemma StoreStaysShaped(t: Tables, t': Tables, m: MonitorRecord)
    requires StoreShaped(t) && Schema(t') && Without(t', m.id) == Without(t, m.id)
    requires Holds(t', m) && Shaped(m) && Whole(m) && t'.pings.Keys !! t'.https.Keys
    ensures StoreShaped(t')
  {
    RowsStayShaped(t, t', m);
    forall id | id in t'.monitors
      ensures HasPing(t', id)
    {
      if id == m.id {
        assert t'.pings[m.ping.id].monitorID == id;
      } else {
        assert id in Without(t', m.id).monitors && id in Without(t, m.id).monitors;
        assert HasPing(t, id);
        var p :| p in t.pings && t.pings[p].monitorID == id;
        assert p in Without(t, m.id).pings && p in Without(t', m.id).pings;
        assert t'.pings[p].monitorID == id;
      }
    }
  }

  /** A change of the tables that stores `m`, as far as storage keeps it, and leaves all else alone. */
  lemma StoresFaithfully(t: Tables, t': Tables, before: Option<MonitorRecord>, m: MonitorRecord)
    requires StoreShaped(t) && HoldsOption(t, m.id, before) && Shaped(m)
    requires Schema(t') && t'.pings.Keys !! t'.https.Keys
    requires Without(t', m.id) == Without(t, m.id) && Holds(t', AsStored(m))
    ensures Faithful(t, Change(t', m.id, before, Some(m)))
    ensures Paced(m) ==> KeepsPace(t, Change(t', m.id, before, Some(m)))
  {
    ShapedStored(m);
    StoreStaysShaped(t, t', AsStored(m));
    if RowsPaced(t) && Paced(m) {
      RowsStayPaced(t, t', m);
    }
  }

  /** The UNIQUE constraint refuses what `New` let pass. */
  lemma InsertedKeysDiffer(t: Tables, m: MonitorRecord)
    requires Schema(t) && MonitorInserted(t, m).Ok?
    ensures DistinctKeys(m.https)
  {
    var t' := MonitorInserted(t, m).value;
    InsertKeepsSchema(t, m);
    InsertsAddRows(t.https, m.id, m.https);
    forall i, j | 0 <= i < j < |m.https|
      ensures m.https[i].Key() != m.https[j].Key()
    {
      assert !SameCheck(t', m.https[i].id, m.https[j].id);
    }
  }

  lemma AddedRowsLeaveOthers(before: map<Id, HTTPRow>, monitor: Id, configs: seq<HTTPConfig>, https: map<Id, HTTPRow>)
    requires RowsAdded(before, monitor, configs, https)
    ensures (map h | h in https && https[h].monitorID != monitor :: https[h]) ==
            (map h | h in before && before[h].monitorID != monitor :: before[h])
  {
    forall h | h in https && IndexOf(configs, h) >= 0
      ensures https[h].monitorID == monitor
    {
      assert configs[IndexOf(configs, h)].id == h;
    }
  }

  lemma PingRowLeavesOthers(pings: map<Id, PingRow>, id: Id, row: PingRow)
    requires id in pings ==> pings[id].monitorID == row.monitorID
    ensures var after := pings[id := row];
            (map p | p in after && after[p].monitorID != row.monitorID :: after[p]) ==
            (map p | p in pings && pings[p].monitorID != row.monitorID :: pings[p])
  {
  }

  lemma RowsLeaveOthers(t: Tables, m: MonitorRecord, https: map<Id, HTTPRow>, row: MonitorRow)
    requires m.ping.id !in t.pings && m.id !in t.monitors && RowsAdded(t.https, m.id, m.https, https)
    ensures Without(Tables(t.monitors[m.id := row], t.pings[m.ping.id := PingRowOf(m.id, m.ping)], https), m.id) ==
            Without(t, m.id)
  {
    AddedRowsLeaveOthers(t.https, m.id, m.https, https);
    PingRowLeavesOthers(t.pings, m.ping.id, PingRowOf(m.id, m.ping));
    assert t.monitors[m.id := row] - {m.id} == t.monitors - {m.id};
  }

  lemma InsertLeavesOthers(t: Tables, m: MonitorRecord)
    requires Schema(t) && MonitorInserted(t, m).Ok?
    ensures Without(MonitorInserted(t, m).value, m.id) == Without(t, m.id)
  {
    InsertsAddRows(t.https, m.id, m.https);
    RowsLeaveOthers(t, m, HTTPsInserted(t.https, m.id, m.https).value, MonitorRow(m.name, m.host, m.status));
  }

  lemma InsertKeepsApart(t: Tables, m: MonitorRecord)
    requires StoreShaped(t) && MonitorInserted(t, m).Ok? && DistinctIDs(m)
    requires m.ping.id !in t.https && forall i | 0 <= i < |m.https| :: m.https[i].id !in t.pings
    ensures MonitorInserted(t, m).value.pings.Keys !! MonitorInserted(t, m).value.https.Keys
  {
    InsertsAddRows(t.https, m.id, m.https);
    var t' := MonitorInserted(t, m).value;
    forall h | h in t'.https
      ensures h !in t'.pings
    {
      assert h !in t.https ==> m.https[IndexOf(m.https, h)].id == h;
    }
  }

  lemma NewUsesIDs(ids: NewIDs, input: CreateMonitorInput, parsesIP: ParsesIP)
    requires |ids.https| == |input.https| && NewMonitor(ids, input, parsesIP).Ok?
    ensures var m := NewMonitor(ids, input, parsesIP).value;
            && m.id == ids.monitor && m.ping.id == ids.ping && |m.https| == |ids.https|
            && forall i | 0 <= i < |m.https| :: m.https[i].id == ids.https[i]
  {
    BuiltConfigs(ids.https, ids.monitor, input.https);
  }

  lemma CreateIsFaithful(t: Tables, ids: NewIDs, input: CreateMonitorInput, parsesIP: ParsesIP)
    requires StoreShaped(t) && |ids.https| == |input.https| && FreshIDs(t, CreateMonitor(ids, input))
    requires Create(t, ids, input, parsesIP).Ok?
    ensures Faithful(t, Create(t, ids, input, parsesIP).value)
    ensures MonitorInputFits(input) ==> KeepsPace(t, Create(t, ids, input, parsesIP).value)
  {
    var m := NewMonitor(ids, input, parsesIP).value;
    NewIsSoundIffKeysDiffer(ids, input, parsesIP);
    NewUsesIDs(ids, input, parsesIP);
    InsertIsFaithful(t, m);
  }

  lemma InsertIsFaithful(t: Tables, m: MonitorRecord)
    requires StoreShaped(t) && MonitorInserted(t, m).Ok?
    requires Shaped(m) <==> DistinctKeys(m.https)
    requires m.ping.id !in t.https && forall i | 0 <= i < |m.https| :: m.https[i].id !in t.pings
    ensures Faithful(t, Change(MonitorInserted(t, m).value, m.id, None, Some(m)))
    ensures Paced(m) ==> KeepsPace(t, Change(MonitorInserted(t, m).value, m.id, None, Some(m)))
  {
    InsertedKeysDiffer(t, m);
    InsertKeepsSchema(t, m);
    InsertHolds(t, m);
    InsertLeavesOthers(t, m);
    InsertKeepsApart(t, m);
    StoresFaithfully(t, MonitorInserted(t, m).value, None, m);
  }

  lemma UpdateIsFaithful(t: Tables, id: Id, input: UpdateMonitorInput, parsesIP: ParsesIP)
    requires StoreShaped(t) && Update(t, id, input, parsesIP).Ok?
    ensures Faithful(t, Update(t, id, input, parsesIP).value)
    ensures KeepsPace(t, Update(t, id, input, parsesIP).value)
  {
    var m := ReadMonitor(t, id).value;
    ReadHolds(t, id);
    HeldIsShaped(t, m);
    var host := ParsedHost(input.host, parsesIP).value;
    UpdateKeepsSchema(t, id, input.name, host);
    var t' := MonitorUpdated(t, id, input.name, host).value;
    assert Without(t', id).monitors == Without(t, id).monitors;
    var m' := m.(name := input.name.GetOr(m.name), host := host.GetOr(m.host));
    StoredAsIsIffWhole(m');
    StoresFaithfully(t, t', Some(m), m');
  }

  lemma WithoutStaysShaped(t: Tables, id: Id)
    requires StoreShaped(t)
    ensures StoreShaped(Without(t, id))
    ensures RowsPaced(t) ==> RowsPaced(Without(t, id))
  {
    WithoutKeepsSchema(t, id);
    var t' := Without(t, id);
    forall other | other in t'.monitors
      ensures HasPing(t', other)
    {
      assert HasPing(t, other);
      var p :| p in t.pings && t.pings[p].monitorID == other;
      assert p in t'.pings;
    }
  }

  lemma DeleteIsFaithful(t: Tables, id: Id)
    requires StoreShaped(t) && Delete(t, id).Ok?
    ensures Faithful(t, Delete(t, id).value) && KeepsPace(t, Delete(t, id).value)
  {
    ReadHolds(t, id);
    WithoutStaysShaped(t, id);
  }

  /** The stores of a config whose addition or change leaves the aggregate well shaped. */
  lemma AdditionIsFaithful(t: Tables, m: MonitorRecord, cfg: HTTPConfig)
    requires StoreShaped(t) && Holds(t, m) && HTTPInserted(t, cfg).Ok?
    requires cfg.monitorID == m.id && cfg.id !in t.pings && Shaped(WithHTTPAdded(m, cfg))
    ensures var c := Change(HTTPInserted(t, cfg).value, m.id, Some(m), Some(WithHTTPAdded(m, cfg)));
            Faithful(t, c) && (Paced(WithHTTPAdded(m, cfg)) ==> KeepsPace(t, c))
  {
    AddKeepsSchema(t, cfg);
    HeldIsShaped(t, m);
    ChangedAsStored(m, m.ping, cfg);
    AddedHolds(t, m, cfg);
    AdditionLeavesOthers(t, cfg);
    StoresFaithfully(t, HTTPInserted(t, cfg).value, Some(m), WithHTTPAdded(m, cfg));
  }

  lemma AdditionLeavesOthers(t: Tables, cfg: HTTPConfig)
    requires HTTPInserted(t, cfg).Ok?
    ensures Without(HTTPInserted(t, cfg).value, cfg.monitorID) == Without(t, cfg.monitorID)
  {
  }

  lemma ReplacementLeavesOthers(t: Tables, cfg: HTTPConfig)
    requires HTTPStored(t, cfg).Ok? && t.https[cfg.id].monitorID == cfg.monitorID
    ensures Without(HTTPStored(t, cfg).value, cfg.monitorID) == Without(t, cfg.monitorID)
  {
  }

  lemma ReplacementIsFaithful(t: Tables, m: MonitorRecord, cfg: HTTPConfig)
    requires StoreShaped(t) && Holds(t, m) && HTTPStored(t, cfg).Ok?
    requires IndexOf(m.https, cfg.id) >= 0 && cfg.monitorID == m.id && Shaped(WithHTTPReplaced(m, cfg))
    ensures var c := Change(HTTPStored(t, cfg).value, m.id, Some(m), Some(WithHTTPReplaced(m, cfg)));
            Faithful(t, c) && (Paced(WithHTTPReplaced(m, cfg)) ==> KeepsPace(t, c))
  {
    StoreKeepsSchema(t, cfg);
    HeldIsShaped(t, m);
    ChangedAsStored(m, m.ping, cfg);
    ReplacedHolds(t, m, cfg);
    assert m.https[IndexOf(m.https, cfg.id)].id == cfg.id;
    ReplacementLeavesOthers(t, cfg);
    StoresFaithfully(t, HTTPStored(t, cfg).value, Some(m), WithHTTPReplaced(m, cfg));
  }

  lemma RemovalIsFaithful(t: Tables, m: MonitorRecord, id: Id)
    requires StoreShaped(t) && Holds(t, m) && WithHTTPRemoved(m, id).Ok?
    ensures HTTPRemoved(t, id).Ok?
    ensures var c := Change(HTTPRemoved(t, id).value, m.id, Some(m), Some(WithHTTPRemoved(m, id).value));
            Faithful(t, c) && KeepsPace(t, c)
  {
    RemovedHolds(t, m, id);
    RemoveKeepsSchema(t, id);
    HeldIsShaped(t, m);
    RemovalStaysSound(m, id);
    var t', m' := HTTPRemoved(t, id).value, WithHTTPRemoved(m, id).value;
    assert m.https[IndexOf(m.https, id)].id == id;
    assert Without(t', m.id).https == Without(t, m.id).https;
    RemovalStaysWhole(m, id);
    StoredAsIsIffWhole(m');
    StoresFaithfully(t, t', Some(m), m');
  }

  lemma RemovalStaysWhole(m: MonitorRecord, id: Id)
    requires Whole(m) && Int64Durations(m) && WithHTTPRemoved(m, id).Ok?
    ensures Whole(WithHTTPRemoved(m, id).value) && Int64Durations(WithHTTPRemoved(m, id).value)
  {
    var i, rest := IndexOf(m.https, id), WithHTTPRemoved(m, id).value.https;
    assert forall k | 0 <= k < |rest| :: rest[k] == m.https[Shifted(k, i)];
  }

  lemma PingChangeIsFaithful(t: Tables, m: MonitorRecord, cfg: PingConfig)
    requires StoreShaped(t) && Holds(t, m) && PingStored(t, cfg).Ok?
    requires cfg.id == m.ping.id && cfg.monitorID == m.id && Shaped(m.(ping := cfg))
    ensures var c := Change(PingStored(t, cfg).value, m.id, Some(m), Some(m.(ping := cfg)));
            Faithful(t, c) && (Paced(m.(ping := cfg)) ==> KeepsPace(t, c))
  {
    PingCommandKeepsSchema(t, cfg);
    HeldIsShaped(t, m);
    ChangedAsStored(m, cfg, SOME_HTTP);
    PingHolds(t, m, cfg);
    var t' := PingStored(t, cfg).value;
    assert Without(t', m.id).pings == Without(t, m.id).pings;
    StoresFaithfully(t, t', Some(m), m.(ping := cfg));
  }

  lemma AddHTTPIsFaithful(t: Tables, id: Id, configID: Id, input: CreateHTTPInput)
    requires StoreShaped(t) && configID !in t.pings && AddHTTP(t, id, configID, input).Ok?
    ensures Faithful(t, AddHTTP(t, id, configID, input).value)
    ensures HTTPInputFits(input) ==> KeepsPace(t, AddHTTP(t, id, configID, input).value)
  {
    var m := ReadMonitor(t, id).value;
    ReadHolds(t, id);
    HeldIsShaped(t, m);
    var cfg := HTTPToAdd(m, configID, input).value;
    NewHTTPIsSound(configID, m.id, input);
    HeldIndex(t, m, configID);
    AdditionStaysSound(m, configID, input);
    AdditionIsFaithful(t, m, cfg);
  }

  lemma HeldIndex(t: Tables, m: MonitorRecord, id: Id)
    requires Holds(t, m)
    ensures IndexOf(m.https, id) >= 0 ==> id in t.https
  {
    var i := IndexOf(m.https, id);
    assert i >= 0 ==> m.https[i].id in t.https;
  }

  lemma ChangeHTTPIsFaithful(t: Tables, id: Id, configID: Id, input: UpdateHTTPInput)
    requires StoreShaped(t) && ChangeHTTP(t, id, configID, input).Ok?
    ensures Faithful(t, ChangeHTTP(t, id, configID, input).value)
    ensures HTTPUpdateFits(input) ==> KeepsPace(t, ChangeHTTP(t, id, configID, input).value)
  {
    var m := ReadMonitor(t, id).value;
    ReadHolds(t, id);
    HeldIsShaped(t, m);
    HTTPUpdateStaysSound(m, configID, input);
    ReplacementIsFaithful(t, m, HTTPUpdated(m, configID, input).value);
  }

  lemma RemoveHTTPIsFaithful(t: Tables, id: Id, configID: Id)
    requires StoreShaped(t) && RemoveHTTP(t, id, configID).Ok?
    ensures Faithful(t, RemoveHTTP(t, id, configID).value) && KeepsPace(t, RemoveHTTP(t, id, configID).value)
  {
    var m := ReadMonitor(t, id).value;
    ReadHolds(t, id);
    RemovalIsFaithful(t, m, configID);
  }

  lemma ChangePingIsFaithful(t: Tables, id: Id, input: UpdatePingInput)
    requires StoreShaped(t) && ChangePing(t, id, input).Ok?
    ensures Faithful(t, ChangePing(t, id, input).value)
    ensures PingUpdateFits(input) ==> KeepsPace(t, ChangePing(t, id, input).value)
  {
    var m := ReadMonitor(t, id).value;
    ReadHolds(t, id);
    HeldIsShaped(t, m);
    PingUpdateStaysSound(m, input);
    PingChangeIsFaithful(t, m, WithPingUpdated(m, input).value.ping);
  }

  /** Every operation that succeeds leaves a well-shaped store that holds the monitor as the operation left it in
    * memory, up to what storage keeps of its durations, and touches no other monitor. Second counts that fit are
    * kept as they are, and every pace stays sound. */
  lemma {:induction false} PerformIsFaithful(t: Tables, cmd: Command, parsesIP: ParsesIP)
    requires StoreShaped(t) && IDsMatch(cmd) && FreshIDs(t, cmd)
    requires Perform(t, cmd, parsesIP).Ok?
    ensures Faithful(t, Perform(t, cmd, parsesIP).value)
    ensures CommandFits(cmd) ==> KeepsPace(t, Perform(t, cmd, parsesIP).value)
  {
    match cmd
    case CreateMonitor(ids, input) => CreateIsFaithful(t, ids, input, parsesIP);
    case UpdateMonitor(id, input) => UpdateIsFaithful(t, id, input, parsesIP);
    case DeleteMonitor(id) => DeleteIsFaithful(t, id);
    case AddHTTPCheck(id, configID, input) => AddHTTPIsFaithful(t, id, configID, input);
    case UpdateHTTPCheck(id, configID, input) => ChangeHTTPIsFaithful(t, id, configID, input);
    case RemoveHTTPCheck(id, configID) => RemoveHTTPIsFaithful(t, id, configID);
    case UpdatePingCheck(id, input) => ChangePingIsFaithful(t, id, input);
  }

  // ---- over any sequence of operations -----------------------------------------------------------

  /** The tables after operations tried one after the other; one that fails changes nothing. */
  ghost function PerformAll(t: Tables, cmds: seq<Command>, parsesIP: ParsesIP): Tables
    requires StoreShaped(t) && Orderly(t, cmds, parsesIP)
    ensures StoreShaped(PerformAll(t, cmds, parsesIP))
    decreases |cmds|
  {
    if cmds == [] then t
    else
      var performed := Perform(t, cmds[0], parsesIP);
      if performed.Ok? then
        PerformIsFaithful(t, cmds[0], parsesIP);
        PerformAll(performed.value.tables, cmds[1..], parsesIP)
      else PerformAll(t, cmds[1..], parsesIP)
  }

  /** Operations each with identifiers that are fresh when it comes. */
  ghost predicate Orderly(t: Tables, cmds: seq<Command>, parsesIP: ParsesIP)
    requires StoreShaped(t)
    decreases |cmds|
  {
    cmds == [] ||
    (IDsMatch(cmds[0]) && FreshIDs(t, cmds[0]) &&
     var performed := Perform(t, cmds[0], parsesIP);
     if performed.Ok? then
       PerformIsFaithful(t, cmds[0], parsesIP);
       Orderly(performed.value.tables, cmds[1..], parsesIP)
     else Orderly(t, cmds[1..], parsesIP))
  }

  ghost predicate AllFit(cmds: seq<Command>) {
    forall k | 0 <= k < |cmds| :: CommandFits(cmds[k])
  }

  lemma {:induction false} PaceStaysSound(t: Tables, cmds: seq<Command>, parsesIP: ParsesIP)
    requires StoreSound(t) && Orderly(t, cmds, parsesIP) && AllFit(cmds)
    ensures RowsPaced(PerformAll(t, cmds, parsesIP))
    decreases |cmds|
  {
    if cmds != [] {
      var performed := Perform(t, cmds[0], parsesIP);
      assert AllFit(cmds[1..]);
      if performed.Ok? {
        PerformIsFaithful(t, cmds[0], parsesIP);
        assert KeepsPace(t, performed.value);
        PaceStaysSound(performed.value.tables, cmds[1..], parsesIP);
      } else {
        PaceStaysSound(t, cmds[1..], parsesIP);
      }
    }
  }

  lemma EmptyIsSound()
    ensures StoreSound(EMPTY)
  {
    assert forall a, b :: !SameHost(EMPTY, a, b) && !SameOwner(EMPTY, a, b) && !SameCheck(EMPTY, a, b);
  }

  /** Whatever operations the service performs on a well-shaped store, such as the empty one, every stored monitor
    * keeps the aggregate's invariants; and every pace stays sound while the second counts given fit. */
  lemma {:induction false} EveryStoredMonitorIsSound(t: Tables, cmds: seq<Command>, parsesIP: ParsesIP, id: Id)
    requires StoreShaped(t) && Orderly(t, cmds, parsesIP)
    requires id in PerformAll(t, cmds, parsesIP).monitors
    ensures ReadMonitor(PerformAll(t, cmds, parsesIP), id).Ok?
    ensures var m := ReadMonitor(PerformAll(t, cmds, parsesIP), id).value;
            Shaped(m) && Whole(m) && (RowsPaced(t) && AllFit(cmds) ==> Paced(m))
  {
    var t' := PerformAll(t, cmds, parsesIP);
    if RowsPaced(t) && AllFit(cmds) {
      PaceStaysSound(t, cmds, parsesIP);
    }
    assert HasPing(t', id);
    ReadHolds(t', id);
    HeldIsShaped(t', ReadMonitor(t', id).value);
  }

  // ---- the aggregate anticipates the store -------------------------------------------------------

  /** The store never refuses a config the aggregate accepted: what its constraints forbid, the aggregate has turned
    * down already, except an identifier in use. */
  lemma StoreTakesAddition(t: Tables, m: MonitorRecord, id: Id, input: CreateHTTPInput)
    requires StoreShaped(t) && Holds(t, m) && HTTPToAdd(m, id, input).Ok?
    ensures HTTPInserted(t, HTTPToAdd(m, id, input).value).Ok? <==> id !in t.https
  {
    var cfg := HTTPToAdd(m, id, input).value;
    if KeyTaken(t.https, cfg.id, HTTPRowOf(m.id, cfg)) {
      KeyTakenIsHeld(t, m, cfg);
    }
  }

  lemma StoreTakesUpdates(t: Tables, m: MonitorRecord, id: Id, http: UpdateHTTPInput, ping: UpdatePingInput)
    requires StoreShaped(t) && Holds(t, m)
    ensures HTTPUpdated(m, id, http).Ok? ==> HTTPStored(t, HTTPUpdated(m, id, http).value).Ok?
    ensures WithPingUpdated(m, ping).Ok? ==> PingStored(t, WithPingUpdated(m, ping).value.ping).Ok?
  {
    if HTTPUpdated(m, id, http).Ok? {
      HTTPUpdateExactly(m.https[IndexOf(m.https, id)], http);
      var cfg := HTTPUpdated(m, id, http).value;
      if KeyTaken(t.https, cfg.id, HTTPRowOf(m.id, cfg)) {
        KeyTakenIsHeld(t, m, cfg);
      }
    }
  }

  /** A key taken in the table is taken in the aggregate. */
  lemma KeyTakenIsHeld(t: Tables, m: MonitorRecord, cfg: HTTPConfig)
    requires Holds(t, m) && KeyTaken(t.https, cfg.id, HTTPRowOf(m.id, cfg))
    ensures SomeOtherHasKey(m.https, cfg)
  {
    var h :| h in t.https && h != cfg.id && t.https[h].Key() == HTTPRowOf(m.id, cfg).Key();
    var k := IndexOf(m.https, h);
    assert m.https[k].id == h && m.https[k].Key() == cfg.Key();
  }
}
