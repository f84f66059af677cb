/** Disabling a check and enabling it again, end to end: the service sends a deletion and a creation of the same
  * config, which is what the scheduler must not see while the config's job is outstanding. */
module Toggling {
  import opened Domain
  import opened Jobs
  import opened ValueObjects
  import opened Configs
  import opened Monitors
  import opened MonitorTables
  import opened StoredMonitors
  import opened StoredJobs
  import opened SchedulerCore
  import opened ConfigDiff
  import opened Commands
  import opened StoredCounts
  import opened Pipeline
  import opened PipelineSafety
  import opened Recreation
  import opened Reconfiguration

  const DISABLE := UpdatePingInput(None, Some(false), None, None, None)

  const ENABLE := UpdatePingInput(None, Some(true), None, None, None)

  function WithPingEnabled(m: MonitorRecord, enabled: bool): MonitorRecord {
    m.(ping := m.ping.(isEnabled := enabled))
  }

  /** Projections with and without the ping config differ in its job only. */
  lemma TogglingDiffers(m: MonitorRecord, id: Id)
    requires DistinctIDs(m)
    ensures var on, off := ProjectJobs(WithPingEnabled(m, true)), ProjectJobs(WithPingEnabled(m, false));
            && m.ping.id in on && m.ping.id !in off && on[m.ping.id] == m.ping.ToJob(m.host)
            && (id != m.ping.id ==> SameAt(on, off, id))
  {
    ProjectedJobs(WithPingEnabled(m, true));
    ProjectedJobs(WithPingEnabled(m, false));
  }

  lemma IsOnlyEvent(before: Registry, after: Registry, ev: ConfigEvent)
    requires EventFor(before, after, ev) && forall c | c != ev.Config() :: SameAt(before, after, c)
    ensures IsDiff(before, after, [ev])
  {
    forall c | Differs(before, after, c)
      ensures Mentions([ev], c)
    {
      assert SameAt(before, after, c) || [ev][0].Config() == c;
    }
  }

  lemma SecondDiffers(events: seq<ConfigEvent>, id: Id)
    requires DistinctConfigs(events) && |events| >= 1 && events[0].Config() == id
    ensures |events| > 1 ==> events[1].Config() != id
  {
  }

  /** A diff of one config has one event. */
  lemma OneEvent(before: Registry, after: Registry, id: Id, sent: seq<ConfigEvent>)
    requires IsDiff(before, after, sent) && Differs(before, after, id)
    requires forall c | c != id :: SameAt(before, after, c)
    ensures |sent| == 1 && sent[0].Config() == id && EventFor(before, after, sent[0])
  {
    DiffIsMinimal(before, after, sent, id);
    forall k | 0 <= k < |sent|
      ensures EventFor(before, after, sent[k]) && sent[k].Config() == id
    {
      assert EventFor(before, after, sent[k]);
      assert SameAt(before, after, sent[k].Config()) || sent[k].Config() == id;
    }
    SecondDiffers(sent, id);
  }

  /** The events `sent` by an operation are this one. */
  ghost predicate Sends(c: Change, sent: seq<ConfigEvent>, ev: ConfigEvent) {
    IsDiff(JobsOfRecord(c.before), JobsOfRecord(c.after), sent) <==> sent == [ev]
  }

  lemma TogglingSends(m: MonitorRecord, sent: seq<ConfigEvent>)
    requires DistinctIDs(m)
    ensures var on, off := ProjectJobs(WithPingEnabled(m, true)), ProjectJobs(WithPingEnabled(m, false));
            && (IsDiff(on, off, sent) <==> sent == [Deleted(m.ping.ToJob(m.host))])
            && (IsDiff(off, on, sent) <==> sent == [Created(m.ping.ToJob(m.host))])
  {
    var on, off := ProjectJobs(WithPingEnabled(m, true)), ProjectJobs(WithPingEnabled(m, false));
    TogglingDiffers(m, m.ping.id);
    forall c | c != m.ping.id
      ensures SameAt(on, off, c) && SameAt(off, on, c)
    {
      TogglingDiffers(m, c);
    }
    IsOnlyEvent(on, off, Deleted(m.ping.ToJob(m.host)));
    IsOnlyEvent(off, on, Created(m.ping.ToJob(m.host)));
    if IsDiff(on, off, sent) {
      OneEvent(on, off, m.ping.id, sent);
    }
    if IsDiff(off, on, sent) {
      OneEvent(off, on, m.ping.id, sent);
    }
  }

  /** Setting the flag of a stored ping config succeeds, and is what is read back. */
  lemma ToggleIsRead(t: Tables, m: MonitorRecord, input: UpdatePingInput, enabled: bool)
    requires StoreShaped(t) && ReadMonitor(t, m.id) == Ok(m)
    requires WithPingUpdated(m, input) == Ok(WithPingEnabled(m, enabled))
    ensures var c := ChangePing(t, m.id, input);
            && c.Ok? && c.value.before == Some(m) && c.value.after == Some(WithPingEnabled(m, enabled))
            && StoreShaped(c.value.tables)
            && ReadMonitor(c.value.tables, m.id) == Ok(WithPingEnabled(m, enabled))
  {
    ReadHolds(t, m.id);
    HeldIsShaped(t, m);
    ChangePingIsFaithful(t, m.id, input);
    var m' := WithPingEnabled(m, enabled);
    StoredAsIsIffWhole(m');
    HeldIsRead(ChangePing(t, m.id, input).value.tables, m');
  }

  lemma TogglingIsRead(t: Tables, m: MonitorRecord)
    requires StoreShaped(t) && ReadMonitor(t, m.id) == Ok(m) && m.ping.isEnabled
    ensures DistinctIDs(m) && Whole(m)
    ensures var off := ChangePing(t, m.id, DISABLE);
            && off.Ok? && off.value.before == Some(m) && off.value.after == Some(WithPingEnabled(m, false))
            && StoreShaped(off.value.tables)
            && var on := ChangePing(off.value.tables, m.id, ENABLE);
               on.Ok? && on.value.before == Some(WithPingEnabled(m, false)) && on.value.after == Some(m)
  {
    ReadHolds(t, m.id);
    HeldIsShaped(t, m);
    ToggleIsRead(t, m, DISABLE, false);
    var off := WithPingEnabled(m, false);
    ToggleIsRead(ChangePing(t, m.id, DISABLE).value.tables, off, ENABLE, true);
    assert WithPingEnabled(off, true) == m;
  }

  /** Disabling the enabled ping check of a stored monitor and enabling it again succeeds, leaves the monitor as it
    * was, and sends exactly a deletion of its job, and then a creation of the same job under the same identifier. */
  lemma TogglingDeletesAndCreates(
    t: Tables, m: MonitorRecord, parsesIP: ParsesIP, first: seq<ConfigEvent>, second: seq<ConfigEvent>)
    requires StoreShaped(t) && ReadMonitor(t, m.id) == Ok(m) && m.ping.isEnabled
    ensures var off := Perform(t, UpdatePingCheck(m.id, DISABLE), parsesIP);
            && off.Ok? && StoreShaped(off.value.tables) && Sends(off.value, first, Deleted(m.ping.ToJob(m.host)))
            && var on := Perform(off.value.tables, UpdatePingCheck(m.id, ENABLE), parsesIP);
               && on.Ok? && on.value.after == Some(m) && Sends(on.value, second, Created(m.ping.ToJob(m.host)))
  {
    TogglingIsRead(t, m);
    assert WithPingEnabled(m, true) == m;
    TogglingSends(m, first);
    TogglingSends(m, second);
  }

  // ---- and the scheduler recreates ---------------------------------------------------------------

  /** `moves` lead from `w` to `v`, undisturbed. */
  ghost predicate Happens(w: World, moves: seq<Move>, v: World, parsesIP: ParsesIP) {
    IsHistory(w, moves, parsesIP) && Undisturbed(w, moves, parsesIP) && Reached(w, moves, parsesIP) == v
  }

  lemma {:induction false} HappensThen(w: World, move: Move, rest: seq<Move>, v: World, parsesIP: ParsesIP)
    requires Allowed(w, move, parsesIP) && Covered(w, move) && NoneDropped(move) && Lands(w, move, parsesIP)
    requires Happens(Step(w, move, parsesIP), rest, v, parsesIP)
    ensures Happens(w, [move] + rest, v, parsesIP)
  {
    assert ([move] + rest)[1..] == rest;
  }

  function Runs(actions: seq<Action>): seq<Move>
    decreases |actions|
  {
    if actions == [] then [] else [Run(actions[0])] + Runs(actions[1..])
  }

  /** The config events a run takes. */
  function Taken(actions: seq<Action>): seq<ConfigEvent>
    decreases |actions|
  {
    if actions == [] then []
    else (if actions[0].TakeConfigEvent? then [actions[0].ev] else []) + Taken(actions[1..])
  }

  /** A run of the pipeline that takes the pending events in order is a history. */
  lemma {:induction false} RunsHappen(w: World, actions: seq<Action>, rest: seq<ConfigEvent>, parsesIP: ParsesIP)
    requires IsRun(w.pipe, actions) && w.pending == Taken(actions) + rest
    ensures Happens(w, Runs(actions), World(w.tables, rest, After(w.pipe, actions)), parsesIP)
    decreases |actions|
  {
    if actions == [] {
      assert [] + rest == rest;
    } else {
      var a := actions[0];
      assert a.TakeConfigEvent? ==> w.pending[0] == a.ev && w.pending[1..] == Taken(actions[1..]) + rest;
      RunsHappen(Step(w, Run(a), parsesIP), actions[1..], rest, parsesIP);
      HappensThen(w, Run(a), Runs(actions[1..]), World(w.tables, rest, After(w.pipe, actions)), parsesIP);
    }
  }

  lemma {:induction false} TakenJoin(a: seq<Action>, b: seq<Action>)
    ensures Taken(a + b) == Taken(a) + Taken(b)
    decreases |a|
  {
    if a == [] {
      assert a + b == b;
    } else {
      var joined := a + b;
      assert joined[0] == a[0] && joined[1..] == a[1..] + b;
      TakenJoin(a[1..], b);
    }
  }

  lemma TakenOne(a: Action)
    ensures Taken([a]) == if a.TakeConfigEvent? then [a.ev] else []
  {
    assert [a][1..] == [];
  }

  lemma DeletingTakes(job: CheckJob)
    ensures Taken(DeletingRun(job)) == [Deleted(job)]
  {
    var id := job.base.configID;
    TakenOne(PopDue(id));
    TakenOne(HandOff(0));
    TakenOne(DispatchDone);
    TakenOne(TakeConfigEvent(Deleted(job)));
    TakenJoin([PopDue(id)], [HandOff(0)]);
    TakenJoin([PopDue(id)] + [HandOff(0)], [DispatchDone]);
    TakenJoin(SendTo(id, 0), [TakeConfigEvent(Deleted(job))]);
    TakenJoin(SendTo(id, 0) + [TakeConfigEvent(Deleted(job))], [DispatchDone]);
  }

  /** An operation that sends one event. */
  lemma Serves(w: World, cmd: Command, ev: ConfigEvent, parsesIP: ParsesIP)
    requires OnePing(w.tables) && IDsMatch(cmd) && FreshIDs(w.tables, cmd)
    requires Perform(w.tables, cmd, parsesIP).Ok?
    requires Sends(Perform(w.tables, cmd, parsesIP).value, [ev], ev) && CommandLands(w.tables, cmd)
    ensures var move := Serve(cmd, [ev], {});
            && Allowed(w, move, parsesIP) && Covered(w, move) && NoneDropped(move) && Lands(w, move, parsesIP)
            && Step(w, move, parsesIP) ==
               w.(tables := Perform(w.tables, cmd, parsesIP).value.tables, pending := w.pending + [ev])
  {
    NothingDropped([ev], {}, 1);
    assert [ev][..1] == [ev];
  }

  /** The two operations, their events pending. */
  lemma {:induction false} TogglingHappens(w: World, m: MonitorRecord, rest: seq<Move>, v: World, parsesIP: ParsesIP)
    requires StoreShaped(w.tables) && ReadMonitor(w.tables, m.id) == Ok(m) && m.ping.isEnabled
    requires Happens(AfterToggling(w, m, parsesIP), rest, v, parsesIP)
    ensures Happens(w, [TurnOff(m)] + ([TurnOn(m)] + rest), v, parsesIP)
  {
    var job := m.ping.ToJob(m.host);
    TogglingIsRead(w.tables, m);
    TogglingDeletesAndCreates(w.tables, m, parsesIP, [Deleted(job)], [Created(job)]);
    Serves(w, TurnOff(m).cmd, Deleted(job), parsesIP);
    var w1 := Step(w, TurnOff(m), parsesIP);
    Serves(w1, TurnOn(m).cmd, Created(job), parsesIP);
    HappensThen(w1, TurnOn(m), rest, v, parsesIP);
    HappensThen(w, TurnOff(m), [TurnOn(m)] + rest, v, parsesIP);
  }

  function TurnOff(m: MonitorRecord): Move {
    Serve(UpdatePingCheck(m.id, DISABLE), [Deleted(m.ping.ToJob(m.host))], {})
  }

  function TurnOn(m: MonitorRecord): Move {
    Serve(UpdatePingCheck(m.id, ENABLE), [Created(m.ping.ToJob(m.host))], {})
  }

  ghost function AfterToggling(w: World, m: MonitorRecord, parsesIP: ParsesIP): World
    requires StoreShaped(w.tables) && ReadMonitor(w.tables, m.id) == Ok(m) && m.ping.isEnabled
  {
    TogglingIsRead(w.tables, m);
    var job := m.ping.ToJob(m.host);
    var off := ChangePing(w.tables, m.id, DISABLE).value.tables;
    w.(tables := ChangePing(off, m.id, ENABLE).value.tables, pending := w.pending + [Deleted(job)] + [Created(job)])
  }

  /** Nothing but usual operations, with no event lost, leads the scheduler to recreate a config while its job is
    * outstanding: a stored monitor's ping check is disabled and enabled again, and the scheduler takes the first event
    * while the check runs. The next event pending is the one that recreates it. */
  lemma {:induction false} TogglingRecreates(w: World, m: MonitorRecord, parsesIP: ParsesIP)
    returns (moves: seq<Move>, v: World)
    requires StoreShaped(w.tables) && ReadMonitor(w.tables, m.id) == Ok(m) && m.ping.isEnabled
    requires w.pending == [] && OneDue(w.pipe, m.ping.ToJob(m.host))
    ensures Happens(w, moves, v, parsesIP)
    ensures v.pending == [Created(m.ping.ToJob(m.host))]
    ensures Allowed(v, Run(TakeConfigEvent(v.pending[0])), parsesIP)
    ensures Recreates(v.pipe, TakeConfigEvent(v.pending[0]))
  {
    var job := m.ping.ToJob(m.host);
    var w' := AfterToggling(w, m, parsesIP);
    var t := DeletionLeavesJob(w.pipe, job);
    DeletingTakes(job);
    RunsHappen(w', DeletingRun(job), [Created(job)], parsesIP);
    v := World(w'.tables, [Created(job)], t);
    moves := [TurnOff(m)] + ([TurnOn(m)] + Runs(DeletingRun(job)));
    TogglingHappens(w, m, Runs(DeletingRun(job)), v, parsesIP);
  }
}
