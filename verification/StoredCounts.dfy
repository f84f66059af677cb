/** The counts of seconds in the stored rows, and the commands that leave only whole seconds behind. */
module StoredCounts {
  import opened Domain
  import opened Jobs
  import opened ValueObjects
  import opened Configs
  import opened Monitors
  import opened MonitorTables
  import opened StoredMonitors
  import opened StoredJobs
  import opened Commands

  // ---- counts that are stored --------------------------------------------------------------------

  /** The intervals and timeouts stored are counts that int64 durations have. */
  ghost predicate RowsCounted(t: Tables) {
    && (forall p | p in t.pings :: IsCount(t.pings[p].interval) && IsCount(t.pings[p].timeout))
    && (forall h | h in t.https :: IsCount(t.https[h].interval) && IsCount(t.https[h].timeout))
  }

  lemma WrittenCounts(http: HTTPConfig, ping: PingConfig)
    ensures Int64HTTP(http) ==> IsCount(Seconds(http.interval)) && IsCount(Seconds(http.timeout))
    ensures Int64Ping(ping) ==> IsCount(Seconds(ping.interval)) && IsCount(Seconds(ping.timeout))
  {
    CountKeepsSign(http.interval, 0);
    CountKeepsSign(http.timeout, 0);
    CountKeepsSign(ping.interval, 0);
    CountKeepsSign(ping.timeout, 0);
  }

  lemma InsertKeepsCounts(t: Tables, m: MonitorRecord)
    requires RowsCounted(t) && OnePing(t) && MonitorInserted(t, m).Ok? && Int64Durations(m)
    ensures RowsCounted(MonitorInserted(t, m).value)
  {
    InsertsAddRows(t.https, m.id, m.https);
    var t' := MonitorInserted(t, m).value;
    WrittenCounts(SOME_HTTP, m.ping);
    forall h | h in t'.https
      ensures IsCount(t'.https[h].interval) && IsCount(t'.https[h].timeout)
    {
      if h !in t.https {
        WrittenCounts(m.https[IndexOf(m.https, h)], m.ping);
      }
    }
  }

  lemma ConfigKeepsCounts(t: Tables, http: HTTPConfig, ping: PingConfig)
    requires RowsCounted(t)
    ensures Int64HTTP(http) && HTTPStored(t, http).Ok? ==> RowsCounted(HTTPStored(t, http).value)
    ensures Int64HTTP(http) && HTTPInserted(t, http).Ok? ==> RowsCounted(HTTPInserted(t, http).value)
    ensures Int64Ping(ping) && PingStored(t, ping).Ok? ==> RowsCounted(PingStored(t, ping).value)
  {
    WrittenCounts(http, ping);
  }

  lemma ReplacedInt64(m: MonitorRecord, cfg: HTTPConfig)
    requires IndexOf(m.https, cfg.id) >= 0 && Int64Durations(WithHTTPReplaced(m, cfg))
    ensures Int64HTTP(cfg)
  {
    assert WithHTTPReplaced(m, cfg).https[IndexOf(m.https, cfg.id)] == cfg;
  }

  lemma CreateKeepsCounts(t: Tables, ids: NewIDs, input: CreateMonitorInput, parsesIP: ParsesIP)
    requires StoreShaped(t) && RowsCounted(t) && |ids.https| == |input.https| && FreshIDs(t, CreateMonitor(ids, input))
    requires Create(t, ids, input, parsesIP).Ok?
    ensures RowsCounted(Create(t, ids, input, parsesIP).value.tables)
  {
    CreateIsFaithful(t, ids, input, parsesIP);
    InsertKeepsCounts(t, NewMonitor(ids, input, parsesIP).value);
  }

  lemma AddHTTPKeepsCounts(t: Tables, id: Id, configID: Id, input: CreateHTTPInput)
    requires StoreShaped(t) && RowsCounted(t) && AddHTTP(t, id, configID, input).Ok?
    ensures RowsCounted(AddHTTP(t, id, configID, input).value.tables)
  {
    var m := ReadMonitor(t, id).value;
    NewHTTPIsSound(configID, m.id, input);
    ConfigKeepsCounts(t, HTTPToAdd(m, configID, input).value, m.ping);
  }

  lemma ChangeHTTPKeepsCounts(t: Tables, id: Id, configID: Id, input: UpdateHTTPInput)
    requires StoreShaped(t) && RowsCounted(t) && ChangeHTTP(t, id, configID, input).Ok?
    ensures RowsCounted(ChangeHTTP(t, id, configID, input).value.tables)
  {
    var m := ReadMonitor(t, id).value;
    ChangeHTTPIsFaithful(t, id, configID, input);
    ReplacedInt64(m, HTTPUpdated(m, configID, input).value);
    ConfigKeepsCounts(t, HTTPUpdated(m, configID, input).value, m.ping);
  }

  lemma ChangePingKeepsCounts(t: Tables, id: Id, input: UpdatePingInput)
    requires StoreShaped(t) && RowsCounted(t) && ChangePing(t, id, input).Ok?
    ensures RowsCounted(ChangePing(t, id, input).value.tables)
  {
    ChangePingIsFaithful(t, id, input);
    ConfigKeepsCounts(t, SOME_HTTP, WithPingUpdated(ReadMonitor(t, id).value, input).value.ping);
  }

  /** Every operation keeps the stored counts within those of int64 durations. */
  lemma {:induction false} PerformKeepsCounts(t: Tables, cmd: Command, parsesIP: ParsesIP)
    requires StoreShaped(t) && RowsCounted(t) && IDsMatch(cmd) && FreshIDs(t, cmd)
    requires Perform(t, cmd, parsesIP).Ok?
    ensures RowsCounted(Perform(t, cmd, parsesIP).value.tables)
  {
    match cmd
    case CreateMonitor(ids, input) => CreateKeepsCounts(t, ids, input, parsesIP);
    case AddHTTPCheck(id, configID, input) => AddHTTPKeepsCounts(t, id, configID, input);
    case UpdateHTTPCheck(id, configID, input) => ChangeHTTPKeepsCounts(t, id, configID, input);
    case UpdatePingCheck(id, input) => ChangePingKeepsCounts(t, id, input);
    case _ =>
  }

  /** So the counts of every store reached from a counted one, such as the empty one, are such counts. */
  lemma {:induction false} CountsStay(t: Tables, cmds: seq<Command>, parsesIP: ParsesIP)
    requires StoreShaped(t) && RowsCounted(t) && Orderly(t, cmds, parsesIP)
    ensures RowsCounted(PerformAll(t, cmds, parsesIP))
    decreases |cmds|
  {
    if cmds != [] {
      var performed := Perform(t, cmds[0], parsesIP);
      if performed.Ok? {
        PerformIsFaithful(t, cmds[0], parsesIP);
        PerformKeepsCounts(t, cmds[0], parsesIP);
        CountsStay(performed.value.tables, cmds[1..], parsesIP);
      } else {
        CountsStay(t, cmds[1..], parsesIP);
      }
    }
  }

  // ---- commands that leave whole seconds ---------------------------------------------------------

  /** The count, or the default it asks for, makes a whole number of seconds. */
  predicate CountLands(seconds: int, default: int) {
    WholeSeconds(FromSeconds(Asked(seconds, default)))
  }

  predicate PaceLands(interval: int, timeout: int) {
    CountLands(interval, DEFAULT_INTERVAL) && CountLands(timeout, DEFAULT_TIMEOUT)
  }

  /** The same of the counts an update gives. */
  predicate GivenLands(interval: Option<int>, timeout: Option<int>) {
    && (interval.Some? ==> CountLands(interval.value, DEFAULT_INTERVAL))
    && (timeout.Some? ==> CountLands(timeout.value, DEFAULT_TIMEOUT))
  }

  predicate PingInputLands(input: CreatePingInput) {
    input.isEnabled.GetOr(true) ==> PaceLands(input.interval, input.timeout)
  }

  predicate HTTPInputLands(input: CreateHTTPInput) {
    input.isEnabled.GetOr(true) ==> PaceLands(input.interval, input.timeout)
  }

  ghost predicate PingEnabled(t: Tables, id: Id) {
    exists p :: p in t.pings && t.pings[p].monitorID == id && t.pings[p].isEnabled
  }

  predicate HTTPEnabled(t: Tables, h: Id) {
    h in t.https && t.https[h].isEnabled
  }

  /** Every count the command gives to a config it leaves enabled makes whole seconds. */
  ghost predicate CommandLands(t: Tables, cmd: Command) {
    match cmd
    case CreateMonitor(_, input) =>
      && PingInputLands(input.ping.GetOr(DEFAULT_PING))
      && forall i | 0 <= i < |input.https| :: HTTPInputLands(input.https[i])
    case AddHTTPCheck(_, _, input) => HTTPInputLands(input)
    case UpdateHTTPCheck(_, configID, input) =>
      input.isEnabled.GetOr(HTTPEnabled(t, configID)) ==> GivenLands(input.interval, input.timeout)
    case UpdatePingCheck(id, input) =>
      input.isEnabled.GetOr(PingEnabled(t, id)) ==> GivenLands(input.interval, input.timeout)
    case _ => true
  }

  /** The operation leaves the monitor's enabled configs with whole seconds. */
  ghost predicate AfterWhole(c: Change) {
    c.after.Some? ==> EnabledWhole(c.after.value)
  }

  ghost predicate PingWholeIfEnabled(cfg: PingConfig) {
    cfg.isEnabled ==> WholePing(cfg)
  }

  ghost predicate HTTPWholeIfEnabled(cfg: HTTPConfig) {
    cfg.isEnabled ==> WholeHTTP(cfg)
  }

  lemma NewConfigLands(id: Id, monitorID: Id, http: CreateHTTPInput, ping: CreatePingInput)
    ensures NewHTTPConfig(id, monitorID, http).Ok? ==>
              (HTTPWholeIfEnabled(NewHTTPConfig(id, monitorID, http).value) <==> HTTPInputLands(http))
    ensures NewPingConfig(id, monitorID, ping).Ok? ==>
              (PingWholeIfEnabled(NewPingConfig(id, monitorID, ping).value) <==> PingInputLands(ping))
  {
  }

  lemma UpdatedPingLands(cfg: PingConfig, input: UpdatePingInput)
    requires WholePing(cfg) && UpdatePing(cfg, input).Ok?
    ensures PingWholeIfEnabled(UpdatePing(cfg, input).value) <==>
            (input.isEnabled.GetOr(cfg.isEnabled) ==> GivenLands(input.interval, input.timeout))
  {
  }

  lemma UpdatedHTTPLands(cfg: HTTPConfig, input: UpdateHTTPInput)
    requires WholeHTTP(cfg) && UpdateHTTP(cfg, input).Ok?
    ensures HTTPWholeIfEnabled(UpdateHTTP(cfg, input).value) <==>
            (input.isEnabled.GetOr(cfg.isEnabled) ==> GivenLands(input.interval, input.timeout))
  {
  }

  /** In a monitor with whole seconds, one changed config decides. */
  lemma ChangedIsWhole(m: MonitorRecord, ping: PingConfig, http: HTTPConfig)
    requires Whole(m)
    ensures EnabledWhole(m.(ping := ping)) <==> PingWholeIfEnabled(ping)
    ensures EnabledWhole(WithHTTPAdded(m, http)) <==> HTTPWholeIfEnabled(http)
    ensures IndexOf(m.https, http.id) >= 0 ==>
              (EnabledWhole(WithHTTPReplaced(m, http)) <==> HTTPWholeIfEnabled(http))
  {
    var added := WithHTTPAdded(m, http).https;
    assert added[|m.https|] == http;
    if IndexOf(m.https, http.id) >= 0 {
      assert WithHTTPReplaced(m, http).https[IndexOf(m.https, http.id)] == http;
    }
  }

  lemma CreateLands(t: Tables, ids: NewIDs, input: CreateMonitorInput, parsesIP: ParsesIP)
    requires OnePing(t) && |ids.https| == |input.https| && Create(t, ids, input, parsesIP).Ok?
    ensures AfterWhole(Create(t, ids, input, parsesIP).value) <==> CommandLands(t, CreateMonitor(ids, input))
  {
    var m := NewMonitor(ids, input, parsesIP).value;
    NewConfigLands(ids.ping, ids.monitor, SOME_INPUT, input.ping.GetOr(DEFAULT_PING));
    forall i | 0 <= i < |m.https|
      ensures HTTPWholeIfEnabled(m.https[i]) <==> HTTPInputLands(input.https[i])
    {
      BuiltFrom(ids.https, ids.monitor, input.https, m.https, i);
      NewConfigLands(ids.https[i], ids.monitor, input.https[i], DEFAULT_PING);
    }
  }

  const SOME_INPUT := CreateHTTPInput("", "", "", None, 0, 0, 0, NilSlice)

  lemma AddHTTPLands(t: Tables, id: Id, configID: Id, input: CreateHTTPInput)
    requires StoreShaped(t) && AddHTTP(t, id, configID, input).Ok?
    ensures AfterWhole(AddHTTP(t, id, configID, input).value) <==> HTTPInputLands(input)
  {
    var m := ReadMonitor(t, id).value;
    ReadHolds(t, id);
    HeldIsShaped(t, m);
    NewConfigLands(configID, m.id, input, DEFAULT_PING);
    ChangedIsWhole(m, m.ping, HTTPToAdd(m, configID, input).value);
  }

  lemma ChangeHTTPLands(t: Tables, id: Id, configID: Id, input: UpdateHTTPInput)
    requires StoreShaped(t) && ChangeHTTP(t, id, configID, input).Ok?
    ensures AfterWhole(ChangeHTTP(t, id, configID, input).value) <==>
            (input.isEnabled.GetOr(HTTPEnabled(t, configID)) ==> GivenLands(input.interval, input.timeout))
  {
    var m := ReadMonitor(t, id).value;
    ReadHolds(t, id);
    HeldIsShaped(t, m);
    var i := IndexOf(m.https, configID);
    UpdatedHTTPLands(m.https[i], input);
    ChangedIsWhole(m, m.ping, HTTPUpdated(m, configID, input).value);
  }

  lemma ChangePingLands(t: Tables, id: Id, input: UpdatePingInput)
    requires StoreShaped(t) && ChangePing(t, id, input).Ok?
    ensures AfterWhole(ChangePing(t, id, input).value) <==>
            (input.isEnabled.GetOr(PingEnabled(t, id)) ==> GivenLands(input.interval, input.timeout))
  {
    var m := ReadMonitor(t, id).value;
    ReadHolds(t, id);
    HeldIsShaped(t, m);
    PingFlag(t, m);
    UpdatedPingLands(m.ping, input);
    ChangedIsWhole(m, WithPingUpdated(m, input).value.ping, SOME_HTTP);
  }

  lemma PingFlag(t: Tables, m: MonitorRecord)
    requires OnePing(t) && Holds(t, m)
    ensures PingEnabled(t, m.id) <==> m.ping.isEnabled
  {
    if p :| p in t.pings && t.pings[p].monitorID == m.id && t.pings[p].isEnabled {
      assert SameOwner(t, p, m.ping.id);
    }
  }

  /** Operations that touch no count leave a stored monitor's whole seconds whole. */
  lemma UncountedIsWhole(t: Tables, cmd: Command, parsesIP: ParsesIP)
    requires StoreShaped(t) && (cmd.UpdateMonitor? || cmd.DeleteMonitor? || cmd.RemoveHTTPCheck?)
    requires Perform(t, cmd, parsesIP).Ok?
    ensures AfterWhole(Perform(t, cmd, parsesIP).value)
  {
    var m := ReadMonitor(t, cmd.id).value;
    ReadHolds(t, cmd.id);
    HeldIsShaped(t, m);
    if cmd.RemoveHTTPCheck? {
      RemovalStaysWhole(m, cmd.configID);
    }
  }

  /** An operation leaves the enabled configs of its monitor with whole seconds exactly when the counts it gives to
    * enabled configs make whole seconds, which can be told before it is performed. */
  lemma {:induction false} WholeIffLands(t: Tables, cmd: Command, parsesIP: ParsesIP)
    requires StoreShaped(t) && IDsMatch(cmd) && Perform(t, cmd, parsesIP).Ok?
    ensures AfterWhole(Perform(t, cmd, parsesIP).value) <==> CommandLands(t, cmd)
  {
    match cmd
    case CreateMonitor(ids, input) => CreateLands(t, ids, input, parsesIP);
    case AddHTTPCheck(id, configID, input) => AddHTTPLands(t, id, configID, input);
    case UpdateHTTPCheck(id, configID, input) => ChangeHTTPLands(t, id, configID, input);
    case UpdatePingCheck(id, input) => ChangePingLands(t, id, input);
    case _ => UncountedIsWhole(t, cmd, parsesIP);
  }

  /** A count that is accepted and fits makes whole seconds. */
  lemma FittingCountLands(interval: int, timeout: int)
    ensures NewInterval(interval).Ok? && Fits(interval) ==> CountLands(interval, DEFAULT_INTERVAL)
    ensures NewTimeout(timeout).Ok? && Fits(timeout) ==> CountLands(timeout, DEFAULT_TIMEOUT)
  {
    NewPaceIsSound(interval, timeout);
  }

  lemma FittingHTTPLands(id: Id, monitorID: Id, input: CreateHTTPInput)
    requires NewHTTPConfig(id, monitorID, input).Ok? && HTTPInputFits(input)
    ensures HTTPInputLands(input)
  {
    FittingCountLands(input.interval, input.timeout);
  }

  lemma FittingCreateLands(t: Tables, ids: NewIDs, input: CreateMonitorInput, parsesIP: ParsesIP)
    requires |ids.https| == |input.https| && NewMonitor(ids, input, parsesIP).Ok? && MonitorInputFits(input)
    ensures CommandLands(t, CreateMonitor(ids, input))
  {
    var ping := input.ping.GetOr(DEFAULT_PING);
    FittingCountLands(ping.interval, ping.timeout);
    var configs := HTTPConfigsOf(ids.https, ids.monitor, input.https).value;
    forall i | 0 <= i < |input.https|
      ensures HTTPInputLands(input.https[i])
    {
      BuiltFrom(ids.https, ids.monitor, input.https, configs, i);
      FittingHTTPLands(ids.https[i], ids.monitor, input.https[i]);
    }
  }

  /** An operation on counts that fit, if it is accepted at all, leaves whole seconds. */
  lemma FittingLands(t: Tables, cmd: Command, parsesIP: ParsesIP)
    requires OnePing(t) && IDsMatch(cmd) && CommandFits(cmd) && Perform(t, cmd, parsesIP).Ok?
    ensures CommandLands(t, cmd)
  {
    match cmd
    case CreateMonitor(ids, input) => FittingCreateLands(t, ids, input, parsesIP);
    case AddHTTPCheck(id, configID, input) => FittingHTTPLands(configID, ReadMonitor(t, id).value.id, input);
    case UpdateHTTPCheck(_, _, input) => FittingCountLands(input.interval.GetOr(0), input.timeout.GetOr(0));
    case UpdatePingCheck(_, input) => FittingCountLands(input.interval.GetOr(0), input.timeout.GetOr(0));
    case _ =>
  }
}
