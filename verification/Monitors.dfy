/** The monitor aggregate (`internal/monitor/monitor.go`): its mutators, the invariants they keep, and its
  * projection to check jobs. */
module Monitors {
  import opened Domain
  import opened Jobs
  import opened ValueObjects
  import opened Configs

  datatype Status = Up | Down | Unknown

  /** The fields of a monitor, as a value. */
  datatype MonitorRecord = MonitorRecord(
    id: Id,
    name: string,
    host: Host,
    status: Status,
    ping: PingConfig,
    https: seq<HTTPConfig>)

  datatype CreateMonitorInput = CreateMonitorInput(
    name: string,
    host: string,
    ping: Option<CreatePingInput>,
    https: seq<CreateHTTPInput>)

  datatype UpdateMonitorInput = UpdateMonitorInput(name: Option<string>, host: Option<string>)

  /** The identifiers `New` draws: the monitor's, its ping config's and one per HTTP config. */
  datatype NewIDs = NewIDs(monitor: Id, ping: Id, https: seq<Id>)

  // ---- construction ------------------------------------------------------------------------------

  function HTTPConfigsOf(ids: seq<Id>, monitorID: Id, inputs: seq<CreateHTTPInput>): (r: Result<seq<HTTPConfig>>)
    requires |ids| == |inputs|
    ensures r.Ok? ==> |r.value| == |inputs|
  {
    if inputs == [] then Ok([])
    else
      var n := |inputs| - 1;
      var init :- HTTPConfigsOf(ids[..n], monitorID, inputs[..n]);
      var last :- NewHTTPConfig(ids[n], monitorID, inputs[n]);
      Ok(init + [last])
  }

  /** `buildHTTPConfigs`: every config, or the error of the first input refused. */
  method BuildHTTPConfigs(ids: seq<Id>, monitorID: Id, inputs: seq<CreateHTTPInput>)
    returns (r: Result<seq<HTTPConfig>>)
    requires |ids| == |inputs|
    ensures r == HTTPConfigsOf(ids, monitorID, inputs)
  {
    var configs := [];
    for i := 0 to |inputs|
      invariant HTTPConfigsOf(ids[..i], monitorID, inputs[..i]) == Ok(configs)
    {
      assert ids[..i + 1][..i] == ids[..i] && inputs[..i + 1][..i] == inputs[..i];
      var c := NewHTTPConfig(ids[i], monitorID, inputs[i]);
      if c.Err? {
        RefusedStaysRefused(ids, monitorID, inputs, i + 1);
        return Err(c.error);
      }
      configs := configs + [c.value];
    }
    assert ids[..|inputs|] == ids && inputs[..|inputs|] == inputs;
    return Ok(configs);
  }

  lemma {:induction false} RefusedStaysRefused(ids: seq<Id>, monitorID: Id, inputs: seq<CreateHTTPInput>, i: nat)
    requires |ids| == |inputs| && i <= |inputs|
    requires HTTPConfigsOf(ids[..i], monitorID, inputs[..i]).Err?
    ensures HTTPConfigsOf(ids, monitorID, inputs) == HTTPConfigsOf(ids[..i], monitorID, inputs[..i])
  {
    var n := |inputs| - 1;
    if i == |inputs| {
      assert ids[..i] == ids && inputs[..i] == inputs;
    } else {
      assert ids[..n][..i] == ids[..i] && inputs[..n][..i] == inputs[..i];
      RefusedStaysRefused(ids[..n], monitorID, inputs[..n], i);
    }
  }

  function NewMonitor(ids: NewIDs, input: CreateMonitorInput, parsesIP: ParsesIP): Result<MonitorRecord>
    requires |ids.https| == |input.https|
  {
    if input.name == "" then Err(EmptyName)
    else
      var host :- NewHost(input.host, parsesIP);
      var ping :- NewPingConfig(ids.ping, ids.monitor, input.ping.GetOr(DEFAULT_PING));
      var https :- HTTPConfigsOf(ids.https, ids.monitor, input.https);
      Ok(MonitorRecord(ids.monitor, input.name, host, Unknown, ping, https))
  }

  /** `monitor.New`. */
  method New(ids: NewIDs, input: CreateMonitorInput, parsesIP: ParsesIP) returns (r: Result<MonitorRecord>)
    requires |ids.https| == |input.https|
    ensures r == NewMonitor(ids, input, parsesIP)
  {
    if input.name == "" {
      return Err(EmptyName);
    }
    var host := NewHost(input.host, parsesIP);
    if host.Err? {
      return Err(host.error);
    }
    var ping := NewPingConfig(ids.ping, ids.monitor, input.ping.GetOr(DEFAULT_PING));
    if ping.Err? {
      return Err(ping.error);
    }
    var configs := BuildHTTPConfigs(ids.https, ids.monitor, input.https);
    if configs.Err? {
      return Err(configs.error);
    }
    return Ok(MonitorRecord(ids.monitor, input.name, host.value, Unknown, ping.value, configs.value));
  }

  // ---- mutators, on values -----------------------------------------------------------------------

  /** The position of the first config with this identifier, or -1. */
  function IndexOf(https: seq<HTTPConfig>, id: Id): (i: int)
    ensures -1 <= i < |https|
    ensures i >= 0 ==> https[i].id == id
    ensures forall k | 0 <= k < (if i < 0 then |https| else i) :: https[k].id != id
  {
    if https == [] then -1
    else if https[0].id == id then 0
    else
      var i := IndexOf(https[1..], id);
      if i < 0 then -1 else i + 1
  }

  predicate SomeOtherHasKey(https: seq<HTTPConfig>, cfg: HTTPConfig) {
    exists k | 0 <= k < |https| :: https[k].id != cfg.id && https[k].Key() == cfg.Key()
  }

  predicate SomeHasKey(https: seq<HTTPConfig>, cfg: HTTPConfig) {
    exists k | 0 <= k < |https| :: https[k].Key() == cfg.Key()
  }

  function WithPingUpdated(m: MonitorRecord, input: UpdatePingInput): Result<MonitorRecord> {
    var ping :- UpdatePing(m.ping, input);
    Ok(m.(ping := ping))
  }

  /** The config as `UpdateHTTPConfig` would leave it. */
  function HTTPUpdated(m: MonitorRecord, id: Id, input: UpdateHTTPInput): (r: Result<HTTPConfig>)
    ensures r.Ok? ==> r.value.id == id && IndexOf(m.https, id) >= 0
  {
    var i := IndexOf(m.https, id);
    if i < 0 then Err(HTTPConfigNotFound)
    else
      var updated :- UpdateHTTP(m.https[i], input);
      if SomeOtherHasKey(m.https, updated) then Err(HTTPConfigExists) else Ok(updated)
  }

  function WithHTTPReplaced(m: MonitorRecord, cfg: HTTPConfig): MonitorRecord
    requires IndexOf(m.https, cfg.id) >= 0
  {
    m.(https := m.https[IndexOf(m.https, cfg.id) := cfg])
  }

  /** The config as `AddHTTPConfig` would append it. */
  function HTTPToAdd(m: MonitorRecord, id: Id, input: CreateHTTPInput): Result<HTTPConfig> {
    var cfg :- NewHTTPConfig(id, m.id, input);
    if SomeHasKey(m.https, cfg) then Err(HTTPConfigExists) else Ok(cfg)
  }

  function WithHTTPAdded(m: MonitorRecord, cfg: HTTPConfig): MonitorRecord {
    m.(https := m.https + [cfg])
  }

  function WithHTTPRemoved(m: MonitorRecord, id: Id): Result<MonitorRecord> {
    var i := IndexOf(m.https, id);
    if i < 0 then Err(HTTPConfigNotFound) else Ok(m.(https := m.https[..i] + m.https[i + 1..]))
  }

  // ---- invariants --------------------------------------------------------------------------------

  ghost predicate DistinctIDs(m: MonitorRecord) {
    && (forall i | 0 <= i < |m.https| :: m.https[i].id != m.ping.id)
    && (forall i, j | 0 <= i < j < |m.https| :: m.https[i].id != m.https[j].id)
  }

  ghost predicate DistinctKeys(https: seq<HTTPConfig>) {
    forall i, j | 0 <= i < j < |https| :: https[i].Key() != https[j].Key()
  }

  ghost predicate Owned(m: MonitorRecord) {
    m.ping.monitorID == m.id && forall i | 0 <= i < |m.https| :: m.https[i].monitorID == m.id
  }

  ghost predicate AllShaped(m: MonitorRecord) {
    ShapedPing(m.ping) && forall i | 0 <= i < |m.https| :: ShapedHTTP(m.https[i])
  }

  /** Every interval and timeout is whole seconds and at least its minimum. */
  ghost predicate Paced(m: MonitorRecord) {
    PacedPing(m.ping) && forall i | 0 <= i < |m.https| :: PacedHTTP(m.https[i])
  }

  /** What a stored monitor keeps: distinct identifiers and keys, and every config well shaped and its own. */
  ghost predicate Shaped(m: MonitorRecord) {
    DistinctIDs(m) && DistinctKeys(m.https) && Owned(m) && AllShaped(m)
  }

  ghost predicate DistinctNewIDs(ids: NewIDs) {
    && ids.ping !in ids.https
    && forall i, j | 0 <= i < j < |ids.https| :: ids.https[i] != ids.https[j]
  }

  ghost predicate MonitorInputFits(input: CreateMonitorInput) {
    && PingInputFits(input.ping.GetOr(DEFAULT_PING))
    && forall i | 0 <= i < |input.https| :: HTTPInputFits(input.https[i])
  }

  /** Each config built comes from its own input and identifier. */
  lemma {:induction false} BuiltFrom(
    ids: seq<Id>, monitorID: Id, inputs: seq<CreateHTTPInput>, configs: seq<HTTPConfig>, i: nat)
    requires |ids| == |inputs| && i < |inputs| && HTTPConfigsOf(ids, monitorID, inputs) == Ok(configs)
    ensures NewHTTPConfig(ids[i], monitorID, inputs[i]) == Ok(configs[i])
  {
    var n := |inputs| - 1;
    if i < n {
      assert configs == configs[..n] + [configs[n]];
      BuiltFrom(ids[..n], monitorID, inputs[..n], configs[..n], i);
    }
  }

  lemma BuiltConfig(ids: seq<Id>, monitorID: Id, inputs: seq<CreateHTTPInput>, i: nat)
    requires |ids| == |inputs| && i < |inputs| && HTTPConfigsOf(ids, monitorID, inputs).Ok?
    ensures var c := HTTPConfigsOf(ids, monitorID, inputs).value[i];
            && ShapedHTTP(c) && c.id == ids[i] && c.monitorID == monitorID
            && (HTTPInputFits(inputs[i]) ==> PacedHTTP(c))
  {
    BuiltFrom(ids, monitorID, inputs, HTTPConfigsOf(ids, monitorID, inputs).value, i);
    NewHTTPIsSound(ids[i], monitorID, inputs[i]);
  }

  lemma {:induction false} BuiltConfigs(ids: seq<Id>, monitorID: Id, inputs: seq<CreateHTTPInput>)
    requires |ids| == |inputs| && HTTPConfigsOf(ids, monitorID, inputs).Ok?
    ensures var configs := HTTPConfigsOf(ids, monitorID, inputs).value;
            forall i | 0 <= i < |configs| ::
              && ShapedHTTP(configs[i]) && configs[i].id == ids[i] && configs[i].monitorID == monitorID
              && (HTTPInputFits(inputs[i]) ==> PacedHTTP(configs[i]))
  {
    forall i | 0 <= i < |inputs| {
      BuiltConfig(ids, monitorID, inputs, i);
    }
  }

  lemma NewIsSoundIffKeysDiffer(ids: NewIDs, input: CreateMonitorInput, parsesIP: ParsesIP)
    requires |ids.https| == |input.https| && DistinctNewIDs(ids)
    requires NewMonitor(ids, input, parsesIP).Ok?
    ensures var m := NewMonitor(ids, input, parsesIP).value;
            && (Shaped(m) <==> DistinctKeys(m.https))
            && (MonitorInputFits(input) ==> Paced(m))
  {
    NewPingIsSound(ids.ping, ids.monitor, input.ping.GetOr(DEFAULT_PING));
    BuiltConfigs(ids.https, ids.monitor, input.https);
    ShapedFromParts(ids, NewMonitor(ids, input, parsesIP).value);
  }

  /** Two inputs that describe the same check, once their fields are brought to normal form. */
  predicate SameInputKey(a: CreateHTTPInput, b: CreateHTTPInput) {
    ParseScheme(a.scheme) == ParseScheme(b.scheme) && NewPath(a.path) == NewPath(b.path) &&
    ParseMethod(a.verb) == ParseMethod(b.verb)
  }

  ghost predicate DistinctInputs(inputs: seq<CreateHTTPInput>) {
    forall i, j | 0 <= i < j < |inputs| :: !SameInputKey(inputs[i], inputs[j])
  }

  lemma KeysLikeInputs(
    ids: seq<Id>, monitorID: Id, inputs: seq<CreateHTTPInput>, configs: seq<HTTPConfig>, i: nat, j: nat)
    requires |ids| == |inputs| == |configs| && HTTPConfigsOf(ids, monitorID, inputs) == Ok(configs)
    requires i < |inputs| && j < |inputs|
    ensures configs[i].Key() == configs[j].Key() <==> SameInputKey(inputs[i], inputs[j])
  {
    BuiltFrom(ids, monitorID, inputs, configs, i);
    BuiltFrom(ids, monitorID, inputs, configs, j);
  }

  lemma DistinctIffInputsDiffer(ids: seq<Id>, monitorID: Id, inputs: seq<CreateHTTPInput>, configs: seq<HTTPConfig>)
    requires |ids| == |inputs| == |configs| && HTTPConfigsOf(ids, monitorID, inputs) == Ok(configs)
    ensures DistinctKeys(configs) <==> DistinctInputs(inputs)
  {
    forall i, j | 0 <= i < j < |inputs|
      ensures configs[i].Key() == configs[j].Key() <==> SameInputKey(inputs[i], inputs[j])
    {
      KeysLikeInputs(ids, monitorID, inputs, configs, i, j);
    }
  }

  /** A new monitor keeps the invariants exactly when no two of the HTTP checks asked for are the same, which `New`
    * leaves to the table's UNIQUE constraint. Second counts that fit give it a sound pace. */
  lemma NewIsSoundIffInputsDiffer(ids: NewIDs, input: CreateMonitorInput, parsesIP: ParsesIP)
    requires |ids.https| == |input.https| && DistinctNewIDs(ids)
    requires NewMonitor(ids, input, parsesIP).Ok?
    ensures Shaped(NewMonitor(ids, input, parsesIP).value) <==> DistinctInputs(input.https)
    ensures MonitorInputFits(input) ==> Paced(NewMonitor(ids, input, parsesIP).value)
  {
    NewIsSoundIffKeysDiffer(ids, input, parsesIP);
    DistinctIffInputsDiffer(ids.https, ids.monitor, input.https, NewMonitor(ids, input, parsesIP).value.https);
  }

  lemma ShapedFromParts(ids: NewIDs, m: MonitorRecord)
    requires DistinctNewIDs(ids) && |m.https| == |ids.https| && m.id == ids.monitor
    requires ShapedPing(m.ping) && m.ping.id == ids.ping && m.ping.monitorID == m.id
    requires forall i | 0 <= i < |m.https| ::
               ShapedHTTP(m.https[i]) && m.https[i].id == ids.https[i] && m.https[i].monitorID == m.id
    ensures Shaped(m) <==> DistinctKeys(m.https)
  {
    assert forall i | 0 <= i < |m.https| :: ids.https[i] in ids.https;
  }

  lemma ConfigsGrow(ids: seq<Id>, monitorID: Id, inputs: seq<CreateHTTPInput>, id: Id, input: CreateHTTPInput)
    requires |ids| == |inputs|
    requires HTTPConfigsOf(ids, monitorID, inputs).Ok? && NewHTTPConfig(id, monitorID, input).Ok?
    ensures HTTPConfigsOf(ids + [id], monitorID, inputs + [input]) ==
            Ok(HTTPConfigsOf(ids, monitorID, inputs).value + [NewHTTPConfig(id, monitorID, input).value])
  {
    assert (ids + [id])[..|ids|] == ids && (inputs + [input])[..|ids|] == inputs;
  }

  /** The same check given twice, and nothing else, passes `New`. */
  lemma NewAcceptsDuplicates(ids: NewIDs, http: CreateHTTPInput, parsesIP: ParsesIP)
    requires |ids.https| == 2 && NewHTTPConfig(ids.https[0], ids.monitor, http).Ok?
    ensures var m := NewMonitor(ids, CreateMonitorInput("n", "h", None, [http, http]), parsesIP);
            m.Ok? && !DistinctKeys(m.value.https)
  {
    NormalHostFixes("h");
    ConfigsGrow([], ids.monitor, [], ids.https[0], http);
    ConfigsGrow([ids.https[0]], ids.monitor, [http], ids.https[1], http);
    assert [] + [ids.https[0]] + [ids.https[1]] == ids.https && [] + [http] + [http] == [http, http];
    var m := NewMonitor(ids, CreateMonitorInput("n", "h", None, [http, http]), parsesIP);
    assert m.Ok?;
    assert m.value.https[0].Key() == m.value.https[1].Key();
  }

  /** Every mutator keeps every invariant of the aggregate, and its pace when the second counts given fit. */
  lemma PingUpdateStaysSound(m: MonitorRecord, input: UpdatePingInput)
    requires Shaped(m) && WithPingUpdated(m, input).Ok?
    ensures Shaped(WithPingUpdated(m, input).value)
    ensures PingUpdateFits(input) && Paced(m) ==> Paced(WithPingUpdated(m, input).value)
  {
    UpdatedPingIsSound(m.ping, input);
  }

  lemma HTTPUpdateStaysSound(m: MonitorRecord, id: Id, input: UpdateHTTPInput)
    requires Shaped(m) && HTTPUpdated(m, id, input).Ok?
    ensures var cfg := HTTPUpdated(m, id, input).value;
            && cfg.id == id && cfg.monitorID == m.id && Shaped(WithHTTPReplaced(m, cfg))
            && (HTTPUpdateFits(input) && Paced(m) ==> Paced(WithHTTPReplaced(m, cfg)))
  {
    UpdatedHTTPIsSound(m.https[IndexOf(m.https, id)], input);
  }

  lemma AdditionStaysSound(m: MonitorRecord, id: Id, http: CreateHTTPInput)
    requires Shaped(m) && HTTPToAdd(m, id, http).Ok?
    requires id != m.ping.id && IndexOf(m.https, id) < 0
    ensures var cfg := HTTPToAdd(m, id, http).value;
            && cfg.id == id && cfg.monitorID == m.id && Shaped(WithHTTPAdded(m, cfg))
            && (HTTPInputFits(http) && Paced(m) ==> Paced(WithHTTPAdded(m, cfg)))
  {
    NewHTTPIsSound(id, m.id, http);
  }

  lemma RemovalStaysSound(m: MonitorRecord, id: Id)
    requires Shaped(m) && WithHTTPRemoved(m, id).Ok?
    ensures Shaped(WithHTTPRemoved(m, id).value)
    ensures Paced(m) ==> Paced(WithHTTPRemoved(m, id).value)
  {
    var i := IndexOf(m.https, id);
    var rest := WithHTTPRemoved(m, id).value.https;
    forall k | 0 <= k < |rest|
      ensures rest[k] == m.https[Shifted(k, i)]
    {
    }
    RemovalKeepsApart(m.https, rest, i);
  }

  /** Where an entry stood before the one at `i` was cut out. */
  function Shifted(k: int, i: int): int {
    if k < i then k else k + 1
  }

  lemma RemovalKeepsApart(https: seq<HTTPConfig>, rest: seq<HTTPConfig>, i: nat)
    requires i < |https| && |rest| == |https| - 1 && forall k | 0 <= k < |rest| :: rest[k] == https[Shifted(k, i)]
    requires DistinctKeys(https) && forall a, b | 0 <= a < b < |https| :: https[a].id != https[b].id
    ensures DistinctKeys(rest) && forall a, b | 0 <= a < b < |rest| :: rest[a].id != rest[b].id
  {
    forall a, b | 0 <= a < b < |rest|
      ensures rest[a].Key() != rest[b].Key() && rest[a].id != rest[b].id
    {
      assert Shifted(a, i) < Shifted(b, i);
    }
  }

  // ---- projection --------------------------------------------------------------------------------

  function ProjectHTTP(from: Registry, https: seq<HTTPConfig>, host: Host): Registry {
    if https == [] then from
    else
      var n := |https| - 1;
      var r := ProjectHTTP(from, https[..n], host);
      if https[n].isEnabled then r[https[n].id := https[n].ToJob(host)] else r
  }

  function ProjectPing(m: MonitorRecord): Registry {
    if m.ping.isEnabled then map[m.ping.id := m.ping.ToJob(m.host)] else map[]
  }

  /** The jobs of a monitor's enabled configs, by config. */
  function ProjectJobs(m: MonitorRecord): Registry {
    ProjectHTTP(ProjectPing(m), m.https, m.host)
  }

  lemma {:induction false} ProjectedFiled(from: Registry, https: seq<HTTPConfig>, host: Host)
    requires Filed(from)
    ensures Filed(ProjectHTTP(from, https, host))
  {
    if https != [] {
      ProjectedFiled(from, https[..|https| - 1], host);
    }
  }

  /** Every job is projected under its own config, even when configs share an identifier. */
  lemma ProjectionFiled(m: MonitorRecord)
    ensures Filed(ProjectJobs(m))
  {
    ProjectedFiled(ProjectPing(m), m.https, m.host);
  }

  /** `id` is the enabled HTTP config at `i`. */
  predicate EnabledAt(https: seq<HTTPConfig>, i: int, id: Id) {
    0 <= i < |https| && https[i].id == id && https[i].isEnabled
  }

  lemma {:induction false} ProjectedHTTP(from: Registry, https: seq<HTTPConfig>, host: Host)
    requires forall i | 0 <= i < |https| :: https[i].id !in from
    requires forall i, j | 0 <= i < j < |https| :: https[i].id != https[j].id
    ensures var r := ProjectHTTP(from, https, host);
            && (forall id :: id in r <==> id in from || exists i :: EnabledAt(https, i, id))
            && (forall id | id in from :: r[id] == from[id])
            && (forall i, id | EnabledAt(https, i, id) :: r[id] == https[i].ToJob(host))
  {
    if https != [] {
      var n := |https| - 1;
      ProjectedHTTP(from, https[..n], host);
      var p, r := ProjectHTTP(from, https[..n], host), ProjectHTTP(from, https, host);
      assert forall i, id | 0 <= i < n :: EnabledAt(https[..n], i, id) <==> EnabledAt(https, i, id);
      forall id
        ensures id in r <==> id in from || exists i :: EnabledAt(https, i, id)
      {
        if id in r && id !in from {
          if id == https[n].id && https[n].isEnabled {
            assert EnabledAt(https, n, id);
          } else {
            var i :| EnabledAt(https[..n], i, id);
            assert EnabledAt(https, i, id);
          }
        }
        if i :| EnabledAt(https, i, id) {
          assert i < n ==> EnabledAt(https[..n], i, id);
        }
      }
      forall i, id | EnabledAt(https, i, id)
        ensures r[id] == https[i].ToJob(host)
      {
        assert i < n ==> EnabledAt(https[..n], i, id);
      }
    }
  }

  /** With distinct identifiers the projection holds exactly the enabled configs, each under its own identifier. */
  lemma ProjectedJobs(m: MonitorRecord)
    requires DistinctIDs(m)
    ensures var r := ProjectJobs(m);
            && (forall id :: id in r <==>
                  (m.ping.isEnabled && id == m.ping.id) || exists i :: EnabledAt(m.https, i, id))
            && (m.ping.isEnabled ==> r[m.ping.id] == m.ping.ToJob(m.host))
            && (forall i, id | EnabledAt(m.https, i, id) :: r[id] == m.https[i].ToJob(m.host))
  {
    ProjectedHTTP(ProjectPing(m), m.https, m.host);
  }

  // ---- the aggregate -----------------------------------------------------------------------------

  class Monitor {
    var id: Id
    var name: string
    var host: Host
    var status: Status
    var ping: PingConfig
    var https: seq<HTTPConfig>

    constructor (m: MonitorRecord)
      ensures Record() == m
    {
      id, name, host, status, ping, https := m.id, m.name, m.host, m.status, m.ping, m.https;
    }

    function Record(): MonitorRecord
      reads this
    {
      MonitorRecord(id, name, host, status, ping, https)
    }

    method ChangeHost(to: Host)
      modifies this`host
      ensures Record() == old(Record()).(host := to)
    {
      host := to;
    }

    method Rename(to: string)
      modifies this`name
      ensures Record() == old(Record()).(name := to)
    {
      name := to;
    }

    method DeriveStatus(hasOpen: bool)
      modifies this`status
      ensures Record() == old(Record()).(status := if hasOpen then Down else Up)
    {
      status := if hasOpen then Down else Up;
    }

    method UpdatePingConfig(input: UpdatePingInput) returns (error: Option<Error>)
      modifies this`ping
      ensures match WithPingUpdated(old(Record()), input)
              case Ok(m) => error == None && Record() == m
              case Err(e) => error == Some(e) && Record() == old(Record())
    {
      var updated := UpdatePing(ping, input);
      if updated.Err? {
        return Some(updated.error);
      }
      ping := updated.value;
      return None;
    }

    method UpdateHTTPConfig(configID: Id, input: UpdateHTTPInput) returns (r: Result<HTTPConfig>)
      modifies this`https
      ensures r == HTTPUpdated(old(Record()), configID, input)
      ensures r.Ok? ==> r.value.id == configID && IndexOf(old(Record()).https, configID) >= 0
      ensures Record() == if r.Ok? then WithHTTPReplaced(old(Record()), r.value) else old(Record())
    {
      var index := IndexOf(https, configID);
      if index == -1 {
        return Err(HTTPConfigNotFound);
      }
      r := UpdateHTTP(https[index], input);
      if r.Err? {
        return;
      }
      if SomeOtherHasKey(https, r.value) {
        return Err(HTTPConfigExists);
      }
      https := https[index := r.value];
    }

    method AddHTTPConfig(configID: Id, input: CreateHTTPInput) returns (r: Result<HTTPConfig>)
      modifies this`https
      ensures r == HTTPToAdd(old(Record()), configID, input)
      ensures Record() == if r.Ok? then WithHTTPAdded(old(Record()), r.value) else old(Record())
    {
      r := NewHTTPConfig(configID, id, input);
      if r.Err? {
        return;
      }
      if SomeHasKey(https, r.value) {
        return Err(HTTPConfigExists);
      }
      https := https + [r.value];
    }

    method RemoveHTTPConfig(configID: Id) returns (error: Option<Error>)
      modifies this`https
      ensures match WithHTTPRemoved(old(Record()), configID)
              case Ok(m) => error == None && Record() == m
              case Err(e) => error == Some(e) && Record() == old(Record())
    {
      var index := IndexOf(https, configID);
      if index == -1 {
        return Some(HTTPConfigNotFound);
      }
      https := https[..index] + https[index + 1..];
      return None;
    }

    /** `projectJobs`. */
    method JobProjection() returns (jobs: Registry)
      ensures jobs == ProjectJobs(Record())
    {
      jobs := map[];
      if ping.isEnabled {
        jobs := jobs[ping.id := ping.ToJob(host)];
      }
      ghost var first := jobs;
      for i := 0 to |https|
        invariant jobs == ProjectHTTP(first, https[..i], host)
      {
        assert https[..i + 1][..i] == https[..i];
        if https[i].isEnabled {
          jobs := jobs[https[i].id := https[i].ToJob(host)];
        }
      }
      assert https[..|https|] == https;
    }
  }
}
