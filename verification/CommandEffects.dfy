/** What a service operation does for whoever asked for it (`internal/monitor/service.go`): when it is accepted, what
  * reading the monitor gives afterwards, and which jobs are announced, told by the operation's own input. */
module CommandEffects {
  import opened Domain
  import opened Jobs
  import opened ValueObjects
  import opened Configs
  import opened Monitors
  import opened MonitorTables
  import opened StoredMonitors
  import opened StoredJobs
  import opened SchedulerCore
  import opened ConfigDiff
  import opened Commands

  // ---- reading afterwards ------------------------------------------------------------------------

  /** A stored monitor can be read, and what is read is held, of whole seconds and well shaped. */
  lemma StoredIsReadable(t: Tables, id: Id)
    requires StoreShaped(t)
    ensures ReadMonitor(t, id).Ok? <==> id in t.monitors
    ensures ReadMonitor(t, id).Err? ==> ReadMonitor(t, id).error == MonitorNotFound
    ensures ReadMonitor(t, id).Ok? ==>
              var m := ReadMonitor(t, id).value;
              m.id == id && Holds(t, m) && ByID(m.https) && Shaped(m) && Whole(m) && Int64Durations(m)
  {
    if id in t.monitors {
      assert HasPing(t, id);
      ReadHolds(t, id);
      HeldIsShaped(t, ReadMonitor(t, id).value);
    }
  }

  /** After an operation its monitor reads as the operation left it, up to what storage keeps of its durations and the
    * order of its HTTP configs, and a deleted one is not found. */
  lemma AfterIsRead(t: Tables, c: Change)
    requires StoreShaped(t) && Faithful(t, c)
    ensures c.after.None? ==> ReadMonitor(c.tables, c.monitor) == Err(MonitorNotFound)
    ensures c.after.Some? ==>
              && c.after.value.id == c.monitor && ReadMonitor(c.tables, c.monitor).Ok?
              && SameButOrder(ReadMonitor(c.tables, c.monitor).value, AsStored(c.after.value))
              && ByID(ReadMonitor(c.tables, c.monitor).value.https)
              && (ByID(c.after.value.https) ==> ReadMonitor(c.tables, c.monitor) == Ok(AsStored(c.after.value)))
  {
    if c.after.Some? {
      StoredIsRead(c.tables, c.after.value);
    }
  }

  predicate IsPingOf(t: Tables, p: Id, monitor: Id) {
    p in t.pings && t.pings[p].monitorID == monitor
  }

  predicate IsHTTPOf(t: Tables, h: Id, monitor: Id) {
    h in t.https && t.https[h].monitorID == monitor
  }

  /** Rows of another monitor are in the tables exactly if they were. */
  lemma OthersRows(t: Tables, t': Tables, id: Id, other: Id)
    requires Without(t', id) == Without(t, id) && other != id
    ensures other in t'.monitors <==> other in t.monitors
    ensures other in t.monitors ==> t'.monitors[other] == t.monitors[other]
    ensures forall p :: IsPingOf(t', p, other) <==> IsPingOf(t, p, other)
    ensures forall p | IsPingOf(t, p, other) :: p in t'.pings && t'.pings[p] == t.pings[p]
    ensures forall h :: IsHTTPOf(t', h, other) <==> IsHTTPOf(t, h, other)
    ensures forall h | IsHTTPOf(t, h, other) :: h in t'.https && t'.https[h] == t.https[h]
  {
    var a, b := Without(t, id), Without(t', id);
    assert other in a.monitors <==> other in t.monitors;
    assert other in b.monitors <==> other in t'.monitors;
    forall p
      ensures IsPingOf(t, p, other) <==> IsPingOf(a, p, other)
      ensures IsPingOf(t', p, other) <==> IsPingOf(b, p, other)
    {
    }
    forall h
      ensures IsHTTPOf(t, h, other) <==> IsHTTPOf(a, h, other)
      ensures IsHTTPOf(t', h, other) <==> IsHTTPOf(b, h, other)
    {
    }
  }

  /** What is held of another monitor stays held. */
  lemma OthersHeld(t: Tables, t': Tables, id: Id, m: MonitorRecord)
    requires Without(t', id) == Without(t, id) && m.id != id && Holds(t, m)
    ensures Holds(t', m)
  {
    OthersRows(t, t', id, m.id);
  }

  /** No operation changes what is read of another monitor. */
  lemma OthersReadTheSame(t: Tables, cmd: Command, parsesIP: ParsesIP, other: Id)
    requires StoreShaped(t) && IDsMatch(cmd) && FreshIDs(t, cmd) && Perform(t, cmd, parsesIP).Ok?
    requires other != Perform(t, cmd, parsesIP).value.monitor
    ensures OnePing(Perform(t, cmd, parsesIP).value.tables)
    ensures ReadMonitor(Perform(t, cmd, parsesIP).value.tables, other) == ReadMonitor(t, other)
  {
    PerformIsFaithful(t, cmd, parsesIP);
    var c := Perform(t, cmd, parsesIP).value;
    StoredIsReadable(t, other);
    StoredIsReadable(c.tables, other);
    OthersRows(t, c.tables, c.monitor, other);
    if other in t.monitors {
      OthersHeld(t, c.tables, c.monitor, ReadMonitor(t, other).value);
      HeldIsRead(c.tables, ReadMonitor(t, other).value);
    }
  }

  // ---- jobs --------------------------------------------------------------------------------------

  /** `job` asks for what the monitor's ping config says. */
  predicate IsPingJob(job: CheckJob, m: MonitorRecord) {
    && job.base == JobBase(m.ping.monitorID, m.ping.id, m.ping.interval, m.ping.timeout, m.ping.maxAttempts)
    && job.probe == PingProbe(m.host, m.ping.port)
  }

  /** `job` asks for what this HTTP config of the monitor says. */
  predicate IsHTTPJob(job: CheckJob, m: MonitorRecord, cfg: HTTPConfig) {
    && job.base == JobBase(cfg.monitorID, cfg.id, cfg.interval, cfg.timeout, cfg.maxAttempts)
    && job.probe == HTTPProbe(cfg.scheme, m.host, cfg.path, cfg.verb, cfg.keywords)
  }

  ghost predicate IsJobOf(job: CheckJob, m: MonitorRecord, id: Id) {
    || (id == m.ping.id && m.ping.isEnabled && IsPingJob(job, m))
    || exists i :: EnabledAt(m.https, i, id) && IsHTTPJob(job, m, m.https[i])
  }

  ghost predicate IsEnabled(m: Option<MonitorRecord>, id: Id) {
    && m.Some?
    && ((id == m.value.ping.id && m.value.ping.isEnabled) || exists i :: EnabledAt(m.value.https, i, id))
  }

  /** A monitor's jobs are those of its enabled configs, each as its config and the monitor's host say. */
  lemma JobsTell(m: MonitorRecord, id: Id)
    requires DistinctIDs(m)
    ensures id in ProjectJobs(m) <==> IsEnabled(Some(m), id)
    ensures id in ProjectJobs(m) ==> IsJobOf(ProjectJobs(m)[id], m, id)
  {
    ProjectedJobs(m);
    if i :| EnabledAt(m.https, i, id) {
      assert IsHTTPJob(ProjectJobs(m)[id], m, m.https[i]);
    }
  }

  /** The events of an operation: what is created or updated is the job of a config enabled afterwards, on the host the
    * monitor then has; what is deleted was enabled before and is not any more; what is enabled anew is announced. */
  ghost predicate Announces(before: Option<MonitorRecord>, after: Option<MonitorRecord>, sent: seq<ConfigEvent>) {
    && (forall k | 0 <= k < |sent| && !sent[k].Deleted? ::
          after.Some? && IsJobOf(sent[k].job, after.value, sent[k].Config()))
    && (forall k | 0 <= k < |sent| && sent[k].Deleted? ::
          IsEnabled(before, sent[k].Config()) && !IsEnabled(after, sent[k].Config()))
    && (forall id :: Mentions(sent, id) || (IsEnabled(before, id) <==> IsEnabled(after, id)))
  }

  lemma DiffAnnounces(before: Option<MonitorRecord>, after: Option<MonitorRecord>, sent: seq<ConfigEvent>)
    requires IsDiff(JobsOfRecord(before), JobsOfRecord(after), sent)
    requires (before.Some? ==> DistinctIDs(before.value)) && (after.Some? ==> DistinctIDs(after.value))
    ensures Announces(before, after, sent)
  {
    var b, a := JobsOfRecord(before), JobsOfRecord(after);
    forall id
      ensures id in b <==> IsEnabled(before, id)
      ensures id in a <==> IsEnabled(after, id)
      ensures id in a ==> IsJobOf(a[id], after.value, id)
    {
      if before.Some? {
        JobsTell(before.value, id);
      }
      if after.Some? {
        JobsTell(after.value, id);
      }
    }
    forall id
      ensures Differs(b, a, id) ==> Mentions(sent, id)
    {
      DiffIsMinimal(b, a, sent, id);
    }
    assert forall k | 0 <= k < |sent| :: EventFor(b, a, sent[k]);
  }

  /** The monitor an operation is about. */
  function Subject(cmd: Command): Id {
    match cmd
    case CreateMonitor(ids, _) => ids.monitor
    case UpdateMonitor(id, _) => id
    case DeleteMonitor(id) => id
    case AddHTTPCheck(id, _, _) => id
    case UpdateHTTPCheck(id, _, _) => id
    case RemoveHTTPCheck(id, _) => id
    case UpdatePingCheck(id, _) => id
  }

  // ---- when an operation is accepted -------------------------------------------------------------

  /** No row stands under an identifier the operation draws. */
  ghost predicate UnusedIDs(t: Tables, cmd: Command) {
    match cmd
    case CreateMonitor(ids, _) =>
      ids.monitor !in t.monitors && ids.ping !in t.pings && forall i | 0 <= i < |ids.https| :: ids.https[i] !in t.https
    case AddHTTPCheck(_, configID, _) => configID !in t.https
    case _ => true
  }

  /** The text is a host, and no other monitor has it. */
  ghost predicate HostIsFree(t: Tables, id: Id, raw: string, parsesIP: ParsesIP) {
    && NewHost(raw, parsesIP).Ok?
    && forall other | other in t.monitors && other != id :: t.monitors[other].host != NewHost(raw, parsesIP).value
  }

  /** The monitor has no other HTTP config with the same scheme, path and method. */
  ghost predicate CheckIsFree(t: Tables, cfg: HTTPConfig, monitor: Id) {
    forall h | IsHTTPOf(t, h, monitor) && h != cfg.id ::
      t.https[h].scheme != cfg.scheme || t.https[h].path != cfg.path || t.https[h].verb != cfg.verb
  }

  ghost predicate AllBuilt(ids: seq<Id>, monitor: Id, inputs: seq<CreateHTTPInput>)
    requires |ids| == |inputs|
  {
    forall i | 0 <= i < |inputs| :: Built(ids[i], monitor, inputs[i])
  }

  predicate Built(id: Id, monitor: Id, input: CreateHTTPInput) {
    NewHTTPConfig(id, monitor, input).Ok?
  }

  ghost predicate HTTPsAccepted(ids: NewIDs, inputs: seq<CreateHTTPInput>) {
    |ids.https| == |inputs| && AllBuilt(ids.https, ids.monitor, inputs)
  }

  ghost predicate PingAccepted(t: Tables, id: Id, input: UpdatePingInput) {
    exists p :: IsPingOf(t, p, id) && UpdatePing(ReadPing(p, t.pings[p]), input).Ok?
  }

  ghost predicate CanCreate(t: Tables, ids: NewIDs, input: CreateMonitorInput, parsesIP: ParsesIP) {
    && input.name != "" && HostIsFree(t, ids.monitor, input.host, parsesIP)
    && NewPingConfig(ids.ping, ids.monitor, input.ping.GetOr(DEFAULT_PING)).Ok?
    && HTTPsAccepted(ids, input.https) && DistinctInputs(input.https)
  }

  ghost predicate CanUpdate(t: Tables, id: Id, input: UpdateMonitorInput, parsesIP: ParsesIP) {
    id in t.monitors && (input.host.Some? ==> HostIsFree(t, id, input.host.value, parsesIP))
  }

  ghost predicate CanAdd(t: Tables, id: Id, configID: Id, input: CreateHTTPInput) {
    var cfg := NewHTTPConfig(configID, id, input);
    id in t.monitors && cfg.Ok? && CheckIsFree(t, cfg.value, id)
  }

  ghost predicate CanChange(t: Tables, id: Id, configID: Id, input: UpdateHTTPInput) {
    && id in t.monitors && IsHTTPOf(t, configID, id)
    && var cfg := UpdateHTTP(ReadHTTP(configID, t.https[configID]), input);
       cfg.Ok? && CheckIsFree(t, cfg.value, id)
  }

  /** What an operation must find and be given to be accepted. */
  ghost predicate Accepted(t: Tables, cmd: Command, parsesIP: ParsesIP) {
    match cmd
    case CreateMonitor(ids, input) => CanCreate(t, ids, input, parsesIP)
    case UpdateMonitor(id, input) => CanUpdate(t, id, input, parsesIP)
    case DeleteMonitor(id) => id in t.monitors
    case AddHTTPCheck(id, configID, input) => CanAdd(t, id, configID, input)
    case UpdateHTTPCheck(id, configID, input) => CanChange(t, id, configID, input)
    case RemoveHTTPCheck(id, configID) => id in t.monitors && IsHTTPOf(t, configID, id)
    case UpdatePingCheck(id, input) => id in t.monitors && PingAccepted(t, id, input)
  }

  lemma {:induction false} HTTPsBuilt(ids: seq<Id>, monitor: Id, inputs: seq<CreateHTTPInput>)
    requires |ids| == |inputs|
    ensures HTTPConfigsOf(ids, monitor, inputs).Ok? <==> AllBuilt(ids, monitor, inputs)
  {
    if inputs != [] {
      var n := |inputs| - 1;
      HTTPsBuilt(ids[..n], monitor, inputs[..n]);
      AllBuiltBefore(ids, monitor, inputs);
    }
  }

  lemma AllBuiltBefore(ids: seq<Id>, monitor: Id, inputs: seq<CreateHTTPInput>)
    requires |ids| == |inputs| && inputs != []
    ensures var n := |inputs| - 1;
            AllBuilt(ids, monitor, inputs) <==>
            AllBuilt(ids[..n], monitor, inputs[..n]) && Built(ids[n], monitor, inputs[n])
  {
    var n := |inputs| - 1;
    assert forall i | 0 <= i < n :: ids[..n][i] == ids[i] && inputs[..n][i] == inputs[i];
  }

  lemma KeysDifferAppended(init: seq<HTTPConfig>, last: HTTPConfig)
    ensures DistinctKeys(init + [last]) <==> DistinctKeys(init) && !SomeHasKey(init, last)
  {
    var configs := init + [last];
    assert forall i | 0 <= i < |init| :: configs[i] == init[i];
    if k :| 0 <= k < |init| && init[k].Key() == last.Key() {
      assert configs[k].Key() == configs[|init|].Key();
    }
  }

  /** After some of a new monitor's inserts the next is refused exactly if it is of a check among them. */
  lemma NextInsertTaken(
    https: map<Id, HTTPRow>, before: map<Id, HTTPRow>, monitor: Id, init: seq<HTTPConfig>, last: HTTPConfig)
    requires RowsAdded(https, monitor, init, before)
    requires forall h | h in https :: https[h].monitorID != monitor
    requires last.id !in https && forall i | 0 <= i < |init| :: init[i].id != last.id
    ensures last.id !in before
    ensures KeyTaken(before, last.id, HTTPRowOf(monitor, last)) <==> SomeHasKey(init, last)
  {
    var row := HTTPRowOf(monitor, last);
    assert IndexOf(init, last.id) < 0;
    if KeyTaken(before, last.id, row) {
      var h :| h in before && h != last.id && before[h].Key() == row.Key();
      var i := IndexOf(init, h);
      assert init[i].id == h && init[i].Key() == last.Key();
    }
    if k :| 0 <= k < |init| && init[k].Key() == last.Key() {
      assert before[init[k].id].Key() == row.Key();
    }
  }

  /** The monitor has no rows yet, and the configs have new identifiers. */
  ghost predicate NewRows(https: map<Id, HTTPRow>, monitor: Id, configs: seq<HTTPConfig>) {
    && (forall h | h in https :: https[h].monitorID != monitor)
    && (forall i | 0 <= i < |configs| :: configs[i].id !in https)
    && (forall i, j | 0 <= i < j < |configs| :: configs[i].id != configs[j].id)
  }

  lemma NewRowsBefore(https: map<Id, HTTPRow>, monitor: Id, init: seq<HTTPConfig>, last: HTTPConfig)
    requires NewRows(https, monitor, init + [last])
    ensures NewRows(https, monitor, init)
    ensures last.id !in https && forall i | 0 <= i < |init| :: init[i].id != last.id
  {
    var configs := init + [last];
    assert configs[|init|] == last && forall i | 0 <= i < |init| :: configs[i] == init[i];
  }

  lemma InsertsTakenNext(https: map<Id, HTTPRow>, monitor: Id, init: seq<HTTPConfig>, last: HTTPConfig)
    requires NewRows(https, monitor, init + [last])
    requires HTTPsInserted(https, monitor, init).Ok? <==> DistinctKeys(init)
    ensures HTTPsInserted(https, monitor, init + [last]).Ok? <==> DistinctKeys(init + [last])
  {
    NewRowsBefore(https, monitor, init, last);
    KeysDifferAppended(init, last);
    assert (init + [last])[..|init|] == init;
    if HTTPsInserted(https, monitor, init).Ok? {
      InsertsAddRows(https, monitor, init);
      NextInsertTaken(https, HTTPsInserted(https, monitor, init).value, monitor, init, last);
    }
  }

  /** Such rows are taken exactly if no two are of the same check. */
  lemma {:induction false} InsertsTaken(https: map<Id, HTTPRow>, monitor: Id, configs: seq<HTTPConfig>)
    requires NewRows(https, monitor, configs)
    ensures HTTPsInserted(https, monitor, configs).Ok? <==> DistinctKeys(configs)
  {
    if configs != [] {
      var init, last := configs[..|configs| - 1], configs[|configs| - 1];
      assert configs == init + [last];
      NewRowsBefore(https, monitor, init, last);
      InsertsTaken(https, monitor, init);
      InsertsTakenNext(https, monitor, init, last);
    }
  }

  lemma NewAccepted(ids: NewIDs, input: CreateMonitorInput, parsesIP: ParsesIP)
    requires |ids.https| == |input.https|
    ensures NewMonitor(ids, input, parsesIP).Ok? <==>
              && input.name != "" && NewHost(input.host, parsesIP).Ok?
              && NewPingConfig(ids.ping, ids.monitor, input.ping.GetOr(DEFAULT_PING)).Ok?
              && HTTPsAccepted(ids, input.https)
    ensures NewMonitor(ids, input, parsesIP).Ok? ==>
              Ok(NewMonitor(ids, input, parsesIP).value.host) == NewHost(input.host, parsesIP)
  {
    HTTPsBuilt(ids.https, ids.monitor, input.https);
  }

  lemma InsertAccepted(t: Tables, m: MonitorRecord)
    requires StoreShaped(t) && m.id !in t.monitors && m.ping.id !in t.pings
    requires forall i | 0 <= i < |m.https| :: m.https[i].id !in t.https
    requires forall i, j | 0 <= i < j < |m.https| :: m.https[i].id != m.https[j].id
    ensures MonitorInserted(t, m).Ok? <==>
              (forall other | other in t.monitors && other != m.id :: t.monitors[other].host != m.host) &&
              DistinctKeys(m.https)
  {
    assert forall h | h in t.https :: t.https[h].monitorID in t.monitors;
    InsertsTaken(t.https, m.id, m.https);
  }

  lemma CreateAccepted(t: Tables, ids: NewIDs, input: CreateMonitorInput, parsesIP: ParsesIP)
    requires StoreShaped(t) && |ids.https| == |input.https|
    requires FreshIDs(t, CreateMonitor(ids, input)) && UnusedIDs(t, CreateMonitor(ids, input))
    ensures Create(t, ids, input, parsesIP).Ok? <==> CanCreate(t, ids, input, parsesIP)
  {
    NewAccepted(ids, input, parsesIP);
    if NewMonitor(ids, input, parsesIP).Ok? {
      var m := NewMonitor(ids, input, parsesIP).value;
      NewUsesIDs(ids, input, parsesIP);
      DistinctIffInputsDiffer(ids.https, ids.monitor, input.https, m.https);
      InsertAccepted(t, m);
    }
  }

  lemma UpdateAccepted(t: Tables, id: Id, input: UpdateMonitorInput, parsesIP: ParsesIP)
    requires StoreShaped(t)
    ensures Update(t, id, input, parsesIP).Ok? <==> CanUpdate(t, id, input, parsesIP)
  {
    StoredIsReadable(t, id);
  }

  /** A check is free in the table exactly if it is free in the aggregate. */
  lemma FreeIsUnused(t: Tables, m: MonitorRecord, cfg: HTTPConfig)
    requires Holds(t, m)
    ensures CheckIsFree(t, cfg, m.id) <==> !SomeOtherHasKey(m.https, cfg)
  {
    if !CheckIsFree(t, cfg, m.id) {
      var h :| IsHTTPOf(t, h, m.id) && h != cfg.id &&
               !(t.https[h].scheme != cfg.scheme || t.https[h].path != cfg.path || t.https[h].verb != cfg.verb);
      var k := IndexOf(m.https, h);
      assert m.https[k].id == h && m.https[k].Key() == cfg.Key();
    }
    if k :| 0 <= k < |m.https| && m.https[k].id != cfg.id && m.https[k].Key() == cfg.Key() {
      assert IsHTTPOf(t, m.https[k].id, m.id);
    }
  }

  lemma AddHTTPAccepted(t: Tables, id: Id, configID: Id, input: CreateHTTPInput)
    requires StoreShaped(t) && configID !in t.https
    ensures AddHTTP(t, id, configID, input).Ok? <==> CanAdd(t, id, configID, input)
  {
    StoredIsReadable(t, id);
    if id in t.monitors && NewHTTPConfig(configID, id, input).Ok? {
      var m, cfg := ReadMonitor(t, id).value, NewHTTPConfig(configID, id, input).value;
      NewHTTPExactly(configID, id, input);
      FreeIsUnused(t, m, cfg);
      assert SomeHasKey(m.https, cfg) <==> SomeOtherHasKey(m.https, cfg);
      if HTTPToAdd(m, configID, input).Ok? {
        StoreTakesAddition(t, m, configID, input);
      }
    }
  }

  lemma ChangeHTTPAccepted(t: Tables, id: Id, configID: Id, input: UpdateHTTPInput)
    requires StoreShaped(t)
    ensures ChangeHTTP(t, id, configID, input).Ok? <==> CanChange(t, id, configID, input)
  {
    StoredIsReadable(t, id);
    if id in t.monitors {
      var m := ReadMonitor(t, id).value;
      HeldIsFound(t, m, configID);
      StoreTakesUpdates(t, m, configID, input, UpdatePingInput(None, None, None, None, None));
      var i := IndexOf(m.https, configID);
      if i >= 0 && UpdateHTTP(m.https[i], input).Ok? {
        HTTPUpdateTakes(m.https[i], input);
        FreeIsUnused(t, m, UpdateHTTP(m.https[i], input).value);
      }
    }
  }

  /** An HTTP config of a stored monitor is found in the aggregate, as it is read. */
  lemma HeldIsFound(t: Tables, m: MonitorRecord, id: Id)
    requires Holds(t, m)
    ensures IndexOf(m.https, id) >= 0 <==> IsHTTPOf(t, id, m.id)
    ensures IndexOf(m.https, id) >= 0 ==> m.https[IndexOf(m.https, id)] == ReadHTTP(id, t.https[id])
  {
    var i := IndexOf(m.https, id);
    assert i >= 0 ==> m.https[i].id == id;
  }

  lemma RemoveHTTPAccepted(t: Tables, id: Id, configID: Id)
    requires StoreShaped(t)
    ensures RemoveHTTP(t, id, configID).Ok? <==> id in t.monitors && IsHTTPOf(t, configID, id)
  {
    StoredIsReadable(t, id);
    if id in t.monitors {
      HeldIsFound(t, ReadMonitor(t, id).value, configID);
    }
  }

  lemma ChangePingAccepted(t: Tables, id: Id, input: UpdatePingInput)
    requires StoreShaped(t)
    ensures ChangePing(t, id, input).Ok? <==> id in t.monitors && PingAccepted(t, id, input)
  {
    StoredIsReadable(t, id);
    if id in t.monitors {
      var m := ReadMonitor(t, id).value;
      assert IsPingOf(t, m.ping.id, id);
      assert forall p | IsPingOf(t, p, id) :: SameOwner(t, p, m.ping.id);
      if UpdatePing(m.ping, input).Ok? {
        PingUpdateExactly(m.ping, input);
      }
    }
  }

  /** An operation is accepted exactly if it finds and is given what it needs. */
  lemma {:induction false} AcceptedExactly(t: Tables, cmd: Command, parsesIP: ParsesIP)
    requires StoreShaped(t) && IDsMatch(cmd) && FreshIDs(t, cmd) && UnusedIDs(t, cmd)
    ensures Perform(t, cmd, parsesIP).Ok? <==> Accepted(t, cmd, parsesIP)
  {
    match cmd
    case CreateMonitor(ids, input) => CreateAccepted(t, ids, input, parsesIP);
    case UpdateMonitor(id, input) => UpdateAccepted(t, id, input, parsesIP);
    case DeleteMonitor(id) => StoredIsReadable(t, id);
    case AddHTTPCheck(id, configID, input) => AddHTTPAccepted(t, id, configID, input);
    case UpdateHTTPCheck(id, configID, input) => ChangeHTTPAccepted(t, id, configID, input);
    case RemoveHTTPCheck(id, configID) => RemoveHTTPAccepted(t, id, configID);
    case UpdatePingCheck(id, input) => ChangePingAccepted(t, id, input);
  }

  // ---- how an operation is refused ---------------------------------------------------------------

  /** The first HTTP config refused, and why. */
  ghost predicate FirstRefused(ids: seq<Id>, monitor: Id, inputs: seq<CreateHTTPInput>, i: nat, e: Error)
    requires |ids| == |inputs|
  {
    && i < |inputs| && NewHTTPConfig(ids[i], monitor, inputs[i]) == Err(e)
    && forall k | 0 <= k < i :: Built(ids[k], monitor, inputs[k])
  }

  lemma {:induction false} HTTPsRefused(ids: seq<Id>, monitor: Id, inputs: seq<CreateHTTPInput>) returns (i: nat)
    requires |ids| == |inputs| && HTTPConfigsOf(ids, monitor, inputs).Err?
    ensures FirstRefused(ids, monitor, inputs, i, HTTPConfigsOf(ids, monitor, inputs).error)
  {
    var n := |inputs| - 1;
    if HTTPConfigsOf(ids[..n], monitor, inputs[..n]).Err? {
      i := HTTPsRefused(ids[..n], monitor, inputs[..n]);
      forall k | 0 <= k < i
        ensures Built(ids[k], monitor, inputs[k])
      {
        assert Built(ids[..n][k], monitor, inputs[..n][k]);
      }
    } else {
      i := n;
      HTTPsBuilt(ids[..n], monitor, inputs[..n]);
      forall k | 0 <= k < n
        ensures Built(ids[k], monitor, inputs[k])
      {
        assert Built(ids[..n][k], monitor, inputs[..n][k]);
      }
    }
  }

  ghost predicate CreateRefused(
    t: Tables, ids: NewIDs, input: CreateMonitorInput, parsesIP: ParsesIP, e: Error)
    requires |ids.https| == |input.https|
  {
    var ping := NewPingConfig(ids.ping, ids.monitor, input.ping.GetOr(DEFAULT_PING));
    if input.name == "" then e == EmptyName
    else if NewHost(input.host, parsesIP).Err? then NewHost(input.host, parsesIP) == Err(e)
    else if ping.Err? then ping == Err(e)
    else if !AllBuilt(ids.https, ids.monitor, input.https) then
      exists i: nat :: FirstRefused(ids.https, ids.monitor, input.https, i, e)
    else if !HostIsFree(t, ids.monitor, input.host, parsesIP) then e == MonitorExists
    else !DistinctInputs(input.https) && e == StorageFailure
  }

  ghost predicate ChangeRefused(t: Tables, id: Id, configID: Id, input: UpdateHTTPInput, e: Error) {
    if !IsHTTPOf(t, configID, id) then e == HTTPConfigNotFound
    else
      var cfg := UpdateHTTP(ReadHTTP(configID, t.https[configID]), input);
      if cfg.Err? then cfg == Err(e) else !CheckIsFree(t, cfg.value, id) && e == HTTPConfigExists
  }

  /** The error an operation must be refused with. */
  ghost predicate RefusedWith(t: Tables, cmd: Command, parsesIP: ParsesIP, e: Error)
    requires IDsMatch(cmd)
  {
    if !cmd.CreateMonitor? && Subject(cmd) !in t.monitors then e == MonitorNotFound
    else
      match cmd
      case CreateMonitor(ids, input) => CreateRefused(t, ids, input, parsesIP, e)
      case UpdateMonitor(id, input) =>
        && input.host.Some?
        && if NewHost(input.host.value, parsesIP).Err? then NewHost(input.host.value, parsesIP) == Err(e)
           else !HostIsFree(t, id, input.host.value, parsesIP) && e == MonitorExists
      case DeleteMonitor(_) => false
      case AddHTTPCheck(id, configID, input) =>
        var cfg := NewHTTPConfig(configID, id, input);
        if cfg.Err? then cfg == Err(e) else !CheckIsFree(t, cfg.value, id) && e == HTTPConfigExists
      case UpdateHTTPCheck(id, configID, input) => ChangeRefused(t, id, configID, input, e)
      case RemoveHTTPCheck(id, configID) => !IsHTTPOf(t, configID, id) && e == HTTPConfigNotFound
      case UpdatePingCheck(id, input) =>
        exists p :: IsPingOf(t, p, id) && UpdatePing(ReadPing(p, t.pings[p]), input) == Err(e)
  }

  lemma CreateIsRefused(t: Tables, ids: NewIDs, input: CreateMonitorInput, parsesIP: ParsesIP)
    requires StoreShaped(t) && |ids.https| == |input.https|
    requires FreshIDs(t, CreateMonitor(ids, input)) && UnusedIDs(t, CreateMonitor(ids, input))
    requires Create(t, ids, input, parsesIP).Err?
    ensures CreateRefused(t, ids, input, parsesIP, Create(t, ids, input, parsesIP).error)
  {
    HTTPsBuilt(ids.https, ids.monitor, input.https);
    NewAccepted(ids, input, parsesIP);
    if NewMonitor(ids, input, parsesIP).Ok? {
      CreateAccepted(t, ids, input, parsesIP);
      InsertRefused(t, NewMonitor(ids, input, parsesIP).value);
    } else if HTTPConfigsOf(ids.https, ids.monitor, input.https).Err? {
      var i := HTTPsRefused(ids.https, ids.monitor, input.https);
    }
  }

  lemma {:induction false} InsertsRefused(https: map<Id, HTTPRow>, monitor: Id, configs: seq<HTTPConfig>)
    requires HTTPsInserted(https, monitor, configs).Err?
    ensures HTTPsInserted(https, monitor, configs).error == StorageFailure
  {
    if HTTPsInserted(https, monitor, configs[..|configs| - 1]).Err? {
      InsertsRefused(https, monitor, configs[..|configs| - 1]);
    }
  }

  lemma InsertRefused(t: Tables, m: MonitorRecord)
    requires OnePing(t) && MonitorInserted(t, m).Err? && m.id !in t.monitors
    ensures MonitorInserted(t, m).error ==
            if forall other | other in t.monitors && other != m.id :: t.monitors[other].host != m.host
            then StorageFailure else MonitorExists
  {
    if !HostTaken(t, m.id, m.host) && m.ping.id !in t.pings {
      InsertsRefused(t.https, m.id, m.https);
    }
  }

  lemma UpdateIsRefused(t: Tables, id: Id, input: UpdateMonitorInput, parsesIP: ParsesIP)
    requires StoreShaped(t) && Update(t, id, input, parsesIP).Err?
    ensures RefusedWith(t, UpdateMonitor(id, input), parsesIP, Update(t, id, input, parsesIP).error)
  {
    StoredIsReadable(t, id);
  }

  lemma AddHTTPIsRefused(t: Tables, id: Id, configID: Id, input: CreateHTTPInput, parsesIP: ParsesIP)
    requires StoreShaped(t) && configID !in t.https && AddHTTP(t, id, configID, input).Err?
    ensures RefusedWith(t, AddHTTPCheck(id, configID, input), parsesIP, AddHTTP(t, id, configID, input).error)
  {
    StoredIsReadable(t, id);
    AddHTTPAccepted(t, id, configID, input);
    if id in t.monitors && HTTPToAdd(ReadMonitor(t, id).value, configID, input).Ok? {
      StoreTakesAddition(t, ReadMonitor(t, id).value, configID, input);
    }
  }

  lemma ChangeHTTPIsRefused(t: Tables, id: Id, configID: Id, input: UpdateHTTPInput)
    requires StoreShaped(t) && ChangeHTTP(t, id, configID, input).Err?
    ensures var e := ChangeHTTP(t, id, configID, input).error;
            if id !in t.monitors then e == MonitorNotFound else ChangeRefused(t, id, configID, input, e)
  {
    StoredIsReadable(t, id);
    ChangeHTTPAccepted(t, id, configID, input);
    if id in t.monitors {
      var m := ReadMonitor(t, id).value;
      HeldIsFound(t, m, configID);
      StoreTakesUpdates(t, m, configID, input, UpdatePingInput(None, None, None, None, None));
    }
  }

  lemma RemoveHTTPIsRefused(t: Tables, id: Id, configID: Id, parsesIP: ParsesIP)
    requires StoreShaped(t) && RemoveHTTP(t, id, configID).Err?
    ensures RefusedWith(t, RemoveHTTPCheck(id, configID), parsesIP, RemoveHTTP(t, id, configID).error)
  {
    StoredIsReadable(t, id);
    RemoveHTTPAccepted(t, id, configID);
    if id in t.monitors {
      HeldIsFound(t, ReadMonitor(t, id).value, configID);
    }
  }

  lemma ChangePingIsRefused(t: Tables, id: Id, input: UpdatePingInput, parsesIP: ParsesIP)
    requires StoreShaped(t) && ChangePing(t, id, input).Err?
    ensures RefusedWith(t, UpdatePingCheck(id, input), parsesIP, ChangePing(t, id, input).error)
  {
    StoredIsReadable(t, id);
    if id in t.monitors {
      var m := ReadMonitor(t, id).value;
      assert IsPingOf(t, m.ping.id, id);
      StoreTakesUpdates(t, m, 0, UpdateHTTPInput(None, None, None, None, None, None, None, None), input);
    }
  }

  /** An operation that is refused is refused with the error of the first thing amiss. */
  lemma {:induction false} RefusedExactly(t: Tables, cmd: Command, parsesIP: ParsesIP)
    requires StoreShaped(t) && IDsMatch(cmd) && FreshIDs(t, cmd) && UnusedIDs(t, cmd)
    requires Perform(t, cmd, parsesIP).Err?
    ensures RefusedWith(t, cmd, parsesIP, Perform(t, cmd, parsesIP).error)
  {
    match cmd
    case CreateMonitor(ids, input) => CreateIsRefused(t, ids, input, parsesIP);
    case UpdateMonitor(id, input) => UpdateIsRefused(t, id, input, parsesIP);
    case DeleteMonitor(id) => StoredIsReadable(t, id);
    case AddHTTPCheck(id, configID, input) => AddHTTPIsRefused(t, id, configID, input, parsesIP);
    case UpdateHTTPCheck(id, configID, input) => ChangeHTTPIsRefused(t, id, configID, input);
    case RemoveHTTPCheck(id, configID) => RemoveHTTPIsRefused(t, id, configID, parsesIP);
    case UpdatePingCheck(id, input) => ChangePingIsRefused(t, id, input, parsesIP);
  }

  // ---- what an operation does --------------------------------------------------------------------

  /** The monitor as it was asked for. */
  ghost predicate IsNew(ids: NewIDs, input: CreateMonitorInput, parsesIP: ParsesIP, m: MonitorRecord) {
    && m.id == ids.monitor && m.name == input.name && m.status.Unknown?
    && NewHost(input.host, parsesIP) == Ok(m.host)
    && (match input.ping
        case None => m.ping == PingConfig(ids.ping, ids.monitor, 443, true, 60 * SECOND, 10 * SECOND, 3)
        case Some(ping) => NewPingConfig(ids.ping, ids.monitor, ping) == Ok(m.ping))
    && |m.https| == |ids.https| == |input.https|
    && forall i | 0 <= i < |m.https| :: NewHTTPConfig(ids.https[i], ids.monitor, input.https[i]) == Ok(m.https[i])
  }

  /** The monitor with the name and the host given, each kept if it is not, and nothing else changed. */
  ghost predicate IsUpdated(m: MonitorRecord, input: UpdateMonitorInput, parsesIP: ParsesIP, m': MonitorRecord) {
    && m' == m.(name := m'.name, host := m'.host)
    && (match input.name
        case None => m'.name == m.name
        case Some(name) => m'.name == name)
    && match input.host
       case None => m'.host == m.host
       case Some(raw) => NewHost(raw, parsesIP) == Ok(m'.host)
  }

  ghost predicate IsExtended(m: MonitorRecord, configID: Id, input: CreateHTTPInput, m': MonitorRecord) {
    && m' == m.(https := m'.https)
    && |m'.https| == |m.https| + 1 && m'.https[..|m.https|] == m.https
    && NewHTTPConfig(configID, m.id, input) == Ok(m'.https[|m.https|])
  }

  /** The config with this identifier, and no other, is updated. */
  ghost predicate IsChanged(m: MonitorRecord, configID: Id, input: UpdateHTTPInput, m': MonitorRecord) {
    && m' == m.(https := m'.https) && |m'.https| == |m.https|
    && (exists i :: 0 <= i < |m.https| && m.https[i].id == configID)
    && forall i | 0 <= i < |m.https| ::
         if m.https[i].id == configID then UpdateHTTP(m.https[i], input) == Ok(m'.https[i])
         else m'.https[i] == m.https[i]
  }

  ghost predicate IsShortened(m: MonitorRecord, configID: Id, m': MonitorRecord) {
    && m' == m.(https := m'.https)
    && exists i :: 0 <= i < |m.https| && m.https[i].id == configID && m'.https == m.https[..i] + m.https[i + 1..]
  }

  /** What the operation does to its monitor. */
  ghost predicate Takes(
    cmd: Command, parsesIP: ParsesIP, before: Option<MonitorRecord>, after: Option<MonitorRecord>)
  {
    && (before.None? <==> cmd.CreateMonitor?)
    && (after.None? <==> cmd.DeleteMonitor?)
    && match cmd
       case CreateMonitor(ids, input) => IsNew(ids, input, parsesIP, after.value)
       case UpdateMonitor(_, input) => IsUpdated(before.value, input, parsesIP, after.value)
       case DeleteMonitor(_) => true
       case AddHTTPCheck(_, configID, input) => IsExtended(before.value, configID, input, after.value)
       case UpdateHTTPCheck(_, configID, input) => IsChanged(before.value, configID, input, after.value)
       case RemoveHTTPCheck(_, configID) => IsShortened(before.value, configID, after.value)
       case UpdatePingCheck(_, input) =>
         && after.value == before.value.(ping := after.value.ping)
         && UpdatePing(before.value.ping, input) == Ok(after.value.ping)
  }

  /** The change is of the operation's own monitor, as that is read before, and as the operation's input says. */
  ghost predicate TakesEffect(t: Tables, cmd: Command, parsesIP: ParsesIP, c: Change)
    requires OnePing(t)
  {
    && c.monitor == Subject(cmd)
    && Takes(cmd, parsesIP, c.before, c.after)
    && if c.before.None? then c.monitor !in t.monitors else ReadMonitor(t, c.monitor) == Ok(c.before.value)
  }

  lemma CreateTakes(t: Tables, ids: NewIDs, input: CreateMonitorInput, parsesIP: ParsesIP)
    requires OnePing(t) && |ids.https| == |input.https| && Create(t, ids, input, parsesIP).Ok?
    ensures TakesEffect(t, CreateMonitor(ids, input), parsesIP, Create(t, ids, input, parsesIP).value)
  {
    var m := NewMonitor(ids, input, parsesIP).value;
    PaceExactly(0);
    forall i | 0 <= i < |m.https|
      ensures NewHTTPConfig(ids.https[i], ids.monitor, input.https[i]) == Ok(m.https[i])
    {
      BuiltFrom(ids.https, ids.monitor, input.https, m.https, i);
    }
  }

  lemma UpdateTakes(t: Tables, id: Id, input: UpdateMonitorInput, parsesIP: ParsesIP)
    requires OnePing(t) && Update(t, id, input, parsesIP).Ok?
    ensures TakesEffect(t, UpdateMonitor(id, input), parsesIP, Update(t, id, input, parsesIP).value)
  {
  }

  lemma DeleteTakes(t: Tables, id: Id, parsesIP: ParsesIP)
    requires OnePing(t) && Delete(t, id).Ok?
    ensures TakesEffect(t, DeleteMonitor(id), parsesIP, Delete(t, id).value)
  {
  }

  lemma AddHTTPTakes(t: Tables, id: Id, configID: Id, input: CreateHTTPInput, parsesIP: ParsesIP)
    requires OnePing(t) && AddHTTP(t, id, configID, input).Ok?
    ensures TakesEffect(t, AddHTTPCheck(id, configID, input), parsesIP, AddHTTP(t, id, configID, input).value)
  {
  }

  lemma ReplacedIsChanged(m: MonitorRecord, i: nat, input: UpdateHTTPInput)
    requires DistinctIDs(m) && i < |m.https| && UpdateHTTP(m.https[i], input).Ok?
    ensures IsChanged(m, m.https[i].id, input, m.(https := m.https[i := UpdateHTTP(m.https[i], input).value]))
  {
  }

  lemma ChangeHTTPTakes(t: Tables, id: Id, configID: Id, input: UpdateHTTPInput, parsesIP: ParsesIP)
    requires StoreShaped(t) && ChangeHTTP(t, id, configID, input).Ok?
    ensures TakesEffect(t, UpdateHTTPCheck(id, configID, input), parsesIP, ChangeHTTP(t, id, configID, input).value)
  {
    StoredIsReadable(t, id);
    var m := ReadMonitor(t, id).value;
    var i := IndexOf(m.https, configID);
    assert HTTPUpdated(m, configID, input) == UpdateHTTP(m.https[i], input);
    ReplacedIsChanged(m, i, input);
  }

  lemma RemoveHTTPTakes(t: Tables, id: Id, configID: Id, parsesIP: ParsesIP)
    requires OnePing(t) && RemoveHTTP(t, id, configID).Ok?
    ensures TakesEffect(t, RemoveHTTPCheck(id, configID), parsesIP, RemoveHTTP(t, id, configID).value)
  {
  }

  lemma ChangePingTakes(t: Tables, id: Id, input: UpdatePingInput, parsesIP: ParsesIP)
    requires OnePing(t) && ChangePing(t, id, input).Ok?
    ensures TakesEffect(t, UpdatePingCheck(id, input), parsesIP, ChangePing(t, id, input).value)
  {
  }

  /** Every operation does to its monitor what its input says, and to no other. */
  lemma {:induction false} PerformTakes(t: Tables, cmd: Command, parsesIP: ParsesIP)
    requires StoreShaped(t) && IDsMatch(cmd) && Perform(t, cmd, parsesIP).Ok?
    ensures TakesEffect(t, cmd, parsesIP, Perform(t, cmd, parsesIP).value)
  {
    match cmd
    case CreateMonitor(ids, input) => CreateTakes(t, ids, input, parsesIP);
    case UpdateMonitor(id, input) => UpdateTakes(t, id, input, parsesIP);
    case DeleteMonitor(id) => DeleteTakes(t, id, parsesIP);
    case AddHTTPCheck(id, configID, input) => AddHTTPTakes(t, id, configID, input, parsesIP);
    case UpdateHTTPCheck(id, configID, input) => ChangeHTTPTakes(t, id, configID, input, parsesIP);
    case RemoveHTTPCheck(id, configID) => RemoveHTTPTakes(t, id, configID, parsesIP);
    case UpdatePingCheck(id, input) => ChangePingTakes(t, id, input, parsesIP);
  }

  /** What is read after an operation: nothing of a deleted monitor; of any other what the operation left, as storage
    * keeps it, with its HTTP configs in identifier order; and after a change of name or host or a removal, and after
    * any operation whose second counts fit in a store of sound pace, just what the operation left. */
  lemma {:induction false} PerformIsRead(t: Tables, cmd: Command, parsesIP: ParsesIP)
    requires StoreShaped(t) && IDsMatch(cmd) && FreshIDs(t, cmd) && Perform(t, cmd, parsesIP).Ok?
    ensures var c := Perform(t, cmd, parsesIP).value;
            && StoreShaped(c.tables)
            && (c.after.None? ==> ReadMonitor(c.tables, Subject(cmd)) == Err(MonitorNotFound))
            && (c.after.Some? ==>
                  && ReadMonitor(c.tables, Subject(cmd)).Ok?
                  && SameButOrder(ReadMonitor(c.tables, Subject(cmd)).value, AsStored(c.after.value))
                  && (RowsPaced(t) && CommandFits(cmd) ==> AsStored(c.after.value) == c.after.value))
            && (cmd.UpdateMonitor? || cmd.RemoveHTTPCheck? ==>
                  ReadMonitor(c.tables, Subject(cmd)) == Ok(c.after.value))
  {
    PerformIsFaithful(t, cmd, parsesIP);
    PerformTakes(t, cmd, parsesIP);
    var c := Perform(t, cmd, parsesIP).value;
    AfterIsRead(t, c);
    if cmd.UpdateMonitor? || cmd.RemoveHTTPCheck? {
      StoredIsReadable(t, Subject(cmd));
      KeptAsStored(cmd, parsesIP, c.before.value, c.after.value);
    }
  }

  lemma ShortenedKept(https: seq<HTTPConfig>, i: nat, rest: seq<HTTPConfig>)
    requires i < |https| && rest == https[..i] + https[i + 1..]
    requires ByID(https) && HTTPsWhole(https)
    ensures ByID(rest) && HTTPsWhole(rest)
  {
    assert forall k | 0 <= k < |rest| :: rest[k] == https[Shifted(k, i)];
  }

  /** With its configs kept, or one removed, a monitor stays in order and of whole seconds. */
  lemma KeptAsStored(cmd: Command, parsesIP: ParsesIP, m: MonitorRecord, m': MonitorRecord)
    requires cmd.UpdateMonitor? || cmd.RemoveHTTPCheck?
    requires Takes(cmd, parsesIP, Some(m), Some(m'))
    requires ByID(m.https) && Whole(m)
    ensures ByID(m'.https) && AsStored(m') == m'
  {
    if cmd.RemoveHTTPCheck? {
      var i :| 0 <= i < |m.https| && m.https[i].id == cmd.configID && m'.https == m.https[..i] + m.https[i + 1..];
      ShortenedKept(m.https, i, m'.https);
    }
    StoredAsIsIffWhole(m');
  }

  /** Whatever order it sends them in, an operation's events announce what became of its monitor's jobs. */
  lemma {:induction false} PerformAnnounces(t: Tables, cmd: Command, parsesIP: ParsesIP, sent: seq<ConfigEvent>)
    requires StoreShaped(t) && IDsMatch(cmd) && FreshIDs(t, cmd) && Perform(t, cmd, parsesIP).Ok?
    requires var c := Perform(t, cmd, parsesIP).value; IsDiff(JobsOfRecord(c.before), JobsOfRecord(c.after), sent)
    ensures Announces(Perform(t, cmd, parsesIP).value.before, Perform(t, cmd, parsesIP).value.after, sent)
  {
    PerformIsFaithful(t, cmd, parsesIP);
    PerformTakes(t, cmd, parsesIP);
    StoredIsReadable(t, Subject(cmd));
    var c := Perform(t, cmd, parsesIP).value;
    DiffAnnounces(c.before, c.after, sent);
  }

  /** A new host is announced for every enabled config of the monitor, and without one nothing is. */
  lemma {:induction false} HostIsAnnounced(
    t: Tables, id: Id, input: UpdateMonitorInput, parsesIP: ParsesIP, sent: seq<ConfigEvent>)
    requires StoreShaped(t) && Perform(t, UpdateMonitor(id, input), parsesIP).Ok?
    requires var c := Perform(t, UpdateMonitor(id, input), parsesIP).value;
             IsDiff(JobsOfRecord(c.before), JobsOfRecord(c.after), sent)
    ensures ReadMonitor(t, id).Ok?
    ensures var m := ReadMonitor(t, id).value;
            if input.host.Some? && NewHost(input.host.value, parsesIP) != Ok(m.host)
            then && (forall k | 0 <= k < |sent| ::
                       sent[k].Updated? && Ok(sent[k].job.probe.host) == NewHost(input.host.value, parsesIP))
                 && (forall c :: IsEnabled(Some(m), c) ==> Mentions(sent, c))
            else sent == []
  {
    PerformTakes(t, UpdateMonitor(id, input), parsesIP);
    PerformAnnounces(t, UpdateMonitor(id, input), parsesIP, sent);
    StoredIsReadable(t, id);
    var c := Perform(t, UpdateMonitor(id, input), parsesIP).value;
    HostChange(c.before.value, c.after.value, sent);
  }

  lemma HostChange(m: MonitorRecord, m': MonitorRecord, sent: seq<ConfigEvent>)
    requires DistinctIDs(m) && m' == m.(name := m'.name, host := m'.host)
    requires IsDiff(ProjectJobs(m), ProjectJobs(m'), sent)
    ensures m'.host == m.host ==> sent == []
    ensures m'.host != m.host ==>
              && (forall k | 0 <= k < |sent| :: sent[k].Updated? && sent[k].job.probe.host == m'.host)
              && (forall c :: IsEnabled(Some(m), c) ==> Mentions(sent, c))
  {
    var b, a := ProjectJobs(m), ProjectJobs(m');
    forall id
      ensures id in b <==> IsEnabled(Some(m), id)
      ensures id in a <==> id in b
      ensures id in a ==> a[id].probe.host == m'.host && b[id].probe.host == m.host
    {
      JobsTell(m, id);
      JobsTell(m', id);
      assert forall i :: EnabledAt(m'.https, i, id) <==> EnabledAt(m.https, i, id);
    }
    if m'.host == m.host {
      assert ProjectPing(m') == ProjectPing(m) && a == b;
      forall id | id in a {
        EqualIsEquivalence(a[id], a[id], a[id]);
      }
    }
    forall id
      ensures Mentions(sent, id) <==> Differs(b, a, id)
    {
      DiffIsMinimal(b, a, sent, id);
    }
    forall k | 0 <= k < |sent|
      ensures EventFor(b, a, sent[k]) && Differs(b, a, sent[k].Config())
    {
      assert Mentions(sent, sent[k].Config());
    }
    assert sent != [] ==> Differs(b, a, sent[0].Config());
  }
}
