/** Live reconfiguration end to end: service operations, the events on their way and the running scheduler. The
  * scheduler's table is a cache of the stored monitors, up to date once the pending events are applied. */
module Reconfiguration {
  import opened Domain
  import opened Jobs
  import opened ValueObjects
  import opened Configs
  import opened Monitors
  import opened MonitorTables
  import opened StoredMonitors
  import opened StoredJobs
  import opened MonitorStores
  import opened SchedulerCore
  import opened ConfigDiff
  import opened Commands
  import opened StoredCounts
  import opened Pipeline
  import Schedulers

  /** The store, the events sent and not yet received, and the scheduler with its pipeline. */
  datatype World = World(tables: Tables, pending: seq<ConfigEvent>, pipe: Pipe)

  /** A service operation, complete with the diff it sends, or a step of the scheduler. The scheduler receives
    * events in the order sent. */
  datatype Move = Serve(cmd: Command, sent: seq<ConfigEvent>, dropped: set<nat>) | Run(action: Action)

  /** What an operation does to the store. */
  ghost function Served(t: Tables, cmd: Command, parsesIP: ParsesIP): Result<Change> {
    if OnePing(t) && IDsMatch(cmd) then Perform(t, cmd, parsesIP) else Err(StorageFailure)
  }

  ghost predicate Allowed(w: World, move: Move, parsesIP: ParsesIP) {
    match move
    case Serve(cmd, sent, _) =>
      && OnePing(w.tables) && IDsMatch(cmd)
      && (match Served(w.tables, cmd, parsesIP)
          case Ok(c) => IsDiff(JobsOfRecord(c.before), JobsOfRecord(c.after), sent)
          case Err(_) => sent == [])
    case Run(a) =>
      && Pipeline.Enabled(w.pipe, a)
      && (a.TakeConfigEvent? ==> w.pending != [] && a.ev == w.pending[0])
  }

  /** What a move leads to; one that is not allowed leads nowhere. */
  ghost function Step(w: World, move: Move, parsesIP: ParsesIP): World {
    match move
    case Serve(cmd, sent, dropped) =>
      (match Served(w.tables, cmd, parsesIP)
       case Ok(c) => w.(tables := c.tables, pending := w.pending + Delivered(sent, dropped))
       case Err(_) => w)
    case Run(a) =>
      if !Pipeline.Enabled(w.pipe, a) || (a.TakeConfigEvent? && w.pending == []) then w
      else w.(pipe := Next(w.pipe, a), pending := if a.TakeConfigEvent? then w.pending[1..] else w.pending)
  }

  /** The scheduler's jobs, once the pending events are applied, are those of the stored monitors. */
  ghost predicate InStep(w: World) {
    Agree(ApplyAll(JobsOf(w.pipe.table), w.pending), ProjectAll(w.tables))
  }

  ghost predicate Coherent(w: World) {
    StoreShaped(w.tables) && InStep(w)
  }

  /** An operation's new identifiers are fresh. */
  ghost predicate Covered(w: World, move: Move) {
    move.Serve? ==> FreshIDs(w.tables, move.cmd)
  }

  ghost predicate NoneDropped(move: Move) {
    move.Serve? ==> forall k | 0 <= k < |move.sent| :: k !in move.dropped
  }

  /** An operation is refused, or gives enabled configs only counts that make whole seconds, which storage keeps. */
  ghost predicate Lands(w: World, move: Move, parsesIP: ParsesIP) {
    move.Serve? && Served(w.tables, move.cmd, parsesIP).Ok? ==> CommandLands(w.tables, move.cmd)
  }

  // ---- start -------------------------------------------------------------------------------------

  function ListedJobs(listed: seq<Listed>): (jobs: seq<CheckJob>)
    ensures |jobs| == |listed| && forall i | 0 <= i < |listed| :: jobs[i] == listed[i].job
  {
    if listed == [] then [] else [listed[0].job] + ListedJobs(listed[1..])
  }

  /** `Start` files the jobs the store lists: the table it builds agrees with the stored monitors. */
  lemma {:induction false} StartAgrees(t: Tables, listed: seq<Listed>)
    requires Lists(t, t.pings.Keys + t.https.Keys, ListedJobs(listed))
    ensures Agree(JobsOf(StartTable(listed)), ProjectAll(t))
  {
    var jobs, table := ListedJobs(listed), StartTable(listed);
    StartTableFilesListed(listed);
    forall id
      ensures SameJobAt(JobsOf(table), ProjectAll(t), id)
    {
      if id in table {
        assert ListedAs(listed, id, table[id]);
        var i :| 0 <= i < |listed| && listed[i].job.base.configID == id &&
                 table[id] == Entry(listed[i].job, listed[i].at + listed[i].draw, false);
        assert jobs[i].base.configID == id;
        ListedJobEqual(t, id);
      } else if id in ProjectAll(t) {
        var k :| 0 <= k < |jobs| && jobs[k].base.configID == id;
        assert listed[k] in listed;
      }
    }
    AgreeEverywhere(JobsOf(table), ProjectAll(t));
  }

  /** On a sound store every listed job has a positive jitter window, so every draw is possible. */
  lemma WindowIsPositive(t: Tables, id: Id)
    requires StoreSound(t) && StoredJobs.Enabled(t, id)
    ensures Schedulers.JitterWindow(ListedJob(t, id)) >= MIN_INTERVAL * SECOND
  {
    ListedJobEqual(t, id);
    if EnabledPing(t, id) {
      assert PacedPing(ReadPing(id, t.pings[id]));
    } else {
      assert PacedHTTP(ReadHTTP(id, t.https[id]));
    }
  }

  lemma {:induction false} WindowsArePositive(t: Tables, listed: seq<Listed>)
    requires StoreSound(t) && Lists(t, t.pings.Keys + t.https.Keys, ListedJobs(listed))
    ensures forall i | 0 <= i < |listed| :: Schedulers.JitterWindow(listed[i].job) >= MIN_INTERVAL * SECOND
  {
    var jobs := ListedJobs(listed);
    forall i | 0 <= i < |listed|
      ensures Schedulers.JitterWindow(listed[i].job) >= MIN_INTERVAL * SECOND
    {
      WindowIsPositive(t, jobs[i].base.configID);
    }
  }

  /** The interval stored of an enabled config, in seconds. */
  function StoredInterval(t: Tables, id: Id): int
    requires StoredJobs.Enabled(t, id)
  {
    if EnabledPing(t, id) then t.pings[id].interval else t.https[id].interval
  }

  /** In general a window is positive exactly when the count stored is. */
  lemma WindowIffPositive(t: Tables, id: Id)
    requires RowsCounted(t) && StoredJobs.Enabled(t, id)
    ensures Schedulers.JitterWindow(ListedJob(t, id)) > 0 <==> StoredInterval(t, id) > 0
  {
    CountKeepsSign(0, StoredInterval(t, id));
    assert ListedJob(t, id).base.interval == FromSeconds(StoredInterval(t, id));
  }

  /** A start finds a window for every listed job exactly when every enabled config is stored with a positive
    * interval. */
  lemma {:induction false} WindowsIffPositive(t: Tables, listed: seq<Listed>)
    requires RowsCounted(t) && Lists(t, t.pings.Keys + t.https.Keys, ListedJobs(listed))
    ensures (forall i | 0 <= i < |listed| :: Schedulers.JitterWindow(listed[i].job) > 0) <==>
            forall id | StoredJobs.Enabled(t, id) :: StoredInterval(t, id) > 0
  {
    var jobs := ListedJobs(listed);
    forall i | 0 <= i < |listed|
      ensures StoredJobs.Enabled(t, jobs[i].base.configID)
      ensures Schedulers.JitterWindow(listed[i].job) > 0 <==> StoredInterval(t, jobs[i].base.configID) > 0
    {
      WindowIffPositive(t, jobs[i].base.configID);
    }
    forall id | StoredJobs.Enabled(t, id)
      ensures exists i :: 0 <= i < |listed| && jobs[i].base.configID == id
    {
    }
  }

  /** A window admits every draw below the interval and below thirty seconds, and no other. */
  lemma WindowExactly(job: CheckJob, draw: int)
    ensures 0 <= draw < Schedulers.JitterWindow(job) <==> 0 <= draw < job.base.interval && draw < 30 * SECOND
  {
  }

  /** Each config is first due within its interval of its listing, or within thirty seconds if that is shorter. */
  lemma {:induction false} FirstDueInWindow(listed: seq<Listed>, id: Id)
    requires forall i | 0 <= i < |listed| :: 0 <= listed[i].draw < Schedulers.JitterWindow(listed[i].job)
    requires id in StartTable(listed)
    ensures DueInWindow(listed, StartTable(listed)[id])
  {
    StartTableFilesListed(listed);
    assert ListedAs(listed, id, StartTable(listed)[id]);
  }

  ghost predicate DueInWindow(listed: seq<Listed>, e: Entry) {
    exists i :: 0 <= i < |listed| && listed[i].job == e.job && listed[i].at <= e.nextDue &&
                e.nextDue < listed[i].at + e.job.base.interval && e.nextDue < listed[i].at + 30 * SECOND
  }

  /** One second above the bound, `Create` succeeds, but the config is stored with another interval than the one the
    * scheduler is told of. */
  lemma OverflowIsStored(ids: NewIDs, parsesIP: ParsesIP)
    requires ids.https == []
    ensures Perform(EMPTY, OverflowCommand(ids), parsesIP).Ok?
    ensures var c := Perform(EMPTY, OverflowCommand(ids), parsesIP).value;
            && c.before == None && c.after.Some?
            && c.after.value.ping.id == ids.ping && c.after.value.ping.isEnabled && c.after.value.https == []
            && c.after.value.ping.interval == FromSeconds(MAX_SECONDS + 1)
            && EnabledPing(c.tables, ids.ping)
            && c.tables.pings[ids.ping].interval == -MAX_SECONDS
  {
    NormalHostFixes("h");
    FirstOverflow();
  }

  /** So the scheduler falls out of step, and on the next start the stored interval has no jitter window. */
  lemma {:induction false} OverflowFallsOutOfStep(w: World, ids: NewIDs, sent: seq<ConfigEvent>, parsesIP: ParsesIP)
    requires w.tables == EMPTY && w.pending == [] && w.pipe.table == map[] && ids.https == []
    requires Allowed(w, Serve(OverflowCommand(ids), sent, {}), parsesIP)
    ensures var w' := Step(w, Serve(OverflowCommand(ids), sent, {}), parsesIP);
            && !InStep(w')
            && ids.ping in ProjectAll(w'.tables)
            && Schedulers.JitterWindow(ProjectAll(w'.tables)[ids.ping]) < 0
  {
    OverflowIsStored(ids, parsesIP);
    FirstOverflow();
    CreatedOutOfStep(w, Perform(EMPTY, OverflowCommand(ids), parsesIP).value, sent);
  }

  /** An enabled ping config that is stored with another interval than it was created with. */
  lemma {:induction false} CreatedOutOfStep(w: World, c: Change, sent: seq<ConfigEvent>)
    requires w.pending == [] && w.pipe.table == map[] && c.after.Some?
    requires var m := c.after.value;
             && m.ping.isEnabled && m.https == [] && IsDiff(map[], ProjectJobs(m), sent)
             && EnabledPing(c.tables, m.ping.id)
             && FromSeconds(c.tables.pings[m.ping.id].interval) != m.ping.interval
    ensures !InStep(World(c.tables, w.pending + Delivered(sent, {}), w.pipe))
  {
    NothingDropped(sent, {}, |sent|);
    assert sent[..|sent|] == sent && [] + sent == sent;
    assert JobsOf(w.pipe.table) == map[];
    DiffersFromStored(c.after.value, c.tables, sent);
  }

  lemma {:induction false} DiffersFromStored(m: MonitorRecord, t: Tables, sent: seq<ConfigEvent>)
    requires m.ping.isEnabled && m.https == [] && IsDiff(map[], ProjectJobs(m), sent)
    requires EnabledPing(t, m.ping.id) && FromSeconds(t.pings[m.ping.id].interval) != m.ping.interval
    ensures !Agree(ApplyAll(map[], sent), ProjectAll(t))
  {
    var id := m.ping.id;
    DiffAt(map[], ProjectJobs(m), sent, map[], id);
    AgreeEverywhere(ApplyAll(map[], sent), ProjectAll(t));
    assert id in ProjectJobs(m) && ProjectJobs(m)[id].base.interval == m.ping.interval;
    assert !SameJobAt(ApplyAll(map[], sent), ProjectAll(t), id);
  }

  function OverflowCommand(ids: NewIDs): Command {
    CreateMonitor(ids, CreateMonitorInput("n", "h", Some(CreatePingInput(0, None, MAX_SECONDS + 1, 0, 0)), []))
  }

  // ---- service operations ------------------------------------------------------------------------

  /** Agreement is transitive either way round. */
  lemma AgreeTriangle(a: Registry, b: Registry, c: Registry)
    ensures Agree(b, c) ==> (Agree(a, b) <==> Agree(a, c))
    ensures Agree(a, b) && Agree(a, c) ==> Agree(b, c)
  {
    forall id | id in a && id in b && id in c
      ensures b[id].Equal(c[id]) ==> (a[id].Equal(b[id]) <==> a[id].Equal(c[id]))
      ensures a[id].Equal(b[id]) && a[id].Equal(c[id]) ==> b[id].Equal(c[id])
    {
      EqualIsCanonicalEquality(a[id], b[id]);
      EqualIsCanonicalEquality(a[id], c[id]);
      EqualIsCanonicalEquality(b[id], c[id]);
    }
  }

  lemma AgreeUnion(rest: Registry, a: Registry, b: Registry)
    requires Apart(rest, a) && Apart(rest, b) && a.Keys == b.Keys
    ensures Agree(rest + a, rest + b) <==> Agree(a, b)
  {
    assert (rest + a).Keys == (rest + b).Keys;
    forall id | id in a
      ensures (rest + a)[id] == a[id] && (rest + b)[id] == b[id]
    {
    }
  }

  /** The jobs of a changed monitor in memory and as stored. */
  lemma AfterJobs(c: Change)
    requires AfterShaped(c.after)
    ensures JobsOfRecord(c.after).Keys == JobsOfRecord(AsStoredOption(c.after)).Keys
    ensures Agree(JobsOfRecord(c.after), JobsOfRecord(AsStoredOption(c.after))) <==> AfterWhole(c)
  {
    if c.after.Some? {
      StoredJobsAgree(c.after.value);
      forall id {
        StoredJobAt(c.after.value, id);
      }
    }
  }

  /** An operation's events keep the registry in step exactly when none is dropped and storage keeps its jobs, each
    * given the other. */
  lemma {:induction false} OperationInStep(w: World, c: Change, sent: seq<ConfigEvent>, dropped: set<nat>)
    requires Coherent(w) && Faithful(w.tables, c)
    requires IsDiff(JobsOfRecord(c.before), JobsOfRecord(c.after), sent)
    ensures var inStep := InStep(w.(tables := c.tables, pending := w.pending + Delivered(sent, dropped)));
            var none := forall k | 0 <= k < |sent| :: k !in dropped;
            && (AfterWhole(c) ==> (inStep <==> none))
            && (none ==> (inStep <==> AfterWhole(c)))
  {
    var rest, jobs := ProjectAll(Without(w.tables, c.monitor)), JobsOf(w.pipe.table);
    var after, stored := JobsOfRecord(c.after), JobsOfRecord(AsStoredOption(c.after));
    JobsSplit(w.tables, c.monitor, c.before);
    JobsSplit(c.tables, c.monitor, AsStoredOption(c.after));
    AfterJobs(c);
    AgreeUnion(rest, after, stored);
    ApplyAppended(jobs, w.pending, Delivered(sent, dropped));
    var left := ApplyAll(ApplyAll(jobs, w.pending), Delivered(sent, dropped));
    AgreesIffNothingDropped(rest, JobsOfRecord(c.before), after, sent, dropped, ApplyAll(jobs, w.pending));
    AgreeTriangle(left, rest + after, rest + stored);
  }

  /** A service operation leaves a well-shaped store, and keeps the scheduler in step with it exactly when none of its
    * events is dropped and the counts it gives to enabled configs make whole seconds, each of the two given the
    * other. */
  lemma {:induction false} ServeInStep(w: World, move: Move, parsesIP: ParsesIP)
    requires Coherent(w) && move.Serve? && Allowed(w, move, parsesIP) && Covered(w, move)
    ensures StoreShaped(Step(w, move, parsesIP).tables)
    ensures Lands(w, move, parsesIP) ==> (InStep(Step(w, move, parsesIP)) <==> NoneDropped(move))
    ensures NoneDropped(move) ==> (InStep(Step(w, move, parsesIP)) <==> Lands(w, move, parsesIP))
  {
    var performed := Served(w.tables, move.cmd, parsesIP);
    if performed.Ok? {
      PerformIsFaithful(w.tables, move.cmd, parsesIP);
      WholeIffLands(w.tables, move.cmd, parsesIP);
      OperationInStep(w, performed.value, move.sent, move.dropped);
    }
  }

  /** Second counts that fit land, and keep a sound store sound. */
  lemma {:induction false} FittingStaysSound(w: World, move: Move, parsesIP: ParsesIP)
    requires Allowed(w, move, parsesIP) && (move.Serve? ==> CommandFits(move.cmd))
    ensures Lands(w, move, parsesIP)
    ensures StoreSound(w.tables) && Covered(w, move) ==> StoreSound(Step(w, move, parsesIP).tables)
  {
    if move.Serve? && Served(w.tables, move.cmd, parsesIP).Ok? {
      FittingLands(w.tables, move.cmd, parsesIP);
      if StoreSound(w.tables) && Covered(w, move) {
        PerformIsFaithful(w.tables, move.cmd, parsesIP);
        assert KeepsPace(w.tables, Served(w.tables, move.cmd, parsesIP).value);
      }
    }
  }

  // ---- scheduler steps ---------------------------------------------------------------------------

  lemma RunInStep(w: World, a: Action, parsesIP: ParsesIP)
    requires Allowed(w, Run(a), parsesIP)
    ensures InStep(w) ==> InStep(Step(w, Run(a), parsesIP))
  {
    var before, after := w.pipe.table, NextTable(w.pipe, a);
    match a
    case TakeConfigEvent(ev) => TableAppliesEvent(before, ev, w.pipe.clock);
    case TakeCompletion => assert JobsOf(after) == JobsOf(before);
    case PopDue(_) => assert JobsOf(after) == JobsOf(before);
    case _ =>
  }

  // ---- runs --------------------------------------------------------------------------------------

  ghost predicate IsHistory(w: World, moves: seq<Move>, parsesIP: ParsesIP)
    decreases |moves|
  {
    moves == [] ||
    (Allowed(w, moves[0], parsesIP) && Covered(w, moves[0]) &&
     IsHistory(Step(w, moves[0], parsesIP), moves[1..], parsesIP))
  }

  ghost function Reached(w: World, moves: seq<Move>, parsesIP: ParsesIP): World
    decreases |moves|
  {
    if moves == [] then w else Reached(Step(w, moves[0], parsesIP), moves[1..], parsesIP)
  }

  /** No operation loses an event or gives an enabled config a count that does not make whole seconds. */
  ghost predicate Undisturbed(w: World, moves: seq<Move>, parsesIP: ParsesIP)
    decreases |moves|
  {
    moves == [] ||
    (NoneDropped(moves[0]) && Lands(w, moves[0], parsesIP) &&
     Undisturbed(Step(w, moves[0], parsesIP), moves[1..], parsesIP))
  }

  /** The world when the scheduler has started on the store's monitors. */
  ghost predicate Started(w: World, listed: seq<Listed>) {
    && StoreShaped(w.tables) && w.pending == [] && Initial(w.pipe)
    && Lists(w.tables, w.tables.pings.Keys + w.tables.https.Keys, ListedJobs(listed))
    && w.pipe.table == StartTable(listed)
  }

  lemma {:induction false} CoherentKept(w: World, moves: seq<Move>, parsesIP: ParsesIP)
    requires Coherent(w) && IsHistory(w, moves, parsesIP) && Undisturbed(w, moves, parsesIP)
    ensures Coherent(Reached(w, moves, parsesIP))
    decreases |moves|
  {
    if moves != [] {
      if moves[0].Serve? {
        ServeInStep(w, moves[0], parsesIP);
      } else {
        RunInStep(w, moves[0].action, parsesIP);
      }
      CoherentKept(Step(w, moves[0], parsesIP), moves[1..], parsesIP);
    }
  }

  /** End-to-end agreement: in every state reached from a start, by any interleaving of scheduler steps and of service
    * operations none of which is disturbed, folding the events not yet applied over the scheduler's jobs gives the
    * union of the jobs of all stored monitors. */
  lemma {:induction false} SchedulerAgreesWithStore(w: World, listed: seq<Listed>, moves: seq<Move>, parsesIP: ParsesIP)
    requires Started(w, listed) && IsHistory(w, moves, parsesIP) && Undisturbed(w, moves, parsesIP)
    ensures var r := Reached(w, moves, parsesIP);
            StoreShaped(r.tables) && Agree(ApplyAll(JobsOf(r.pipe.table), r.pending), ProjectAll(r.tables))
  {
    StartAgrees(w.tables, listed);
    CoherentKept(w, moves, parsesIP);
  }

  /** Every operation of the history is on second counts that fit and has all its events delivered. */
  ghost predicate FitsAndDelivers(moves: seq<Move>) {
    forall k | 0 <= k < |moves| :: NoneDropped(moves[k]) && (moves[k].Serve? ==> CommandFits(moves[k].cmd))
  }

  /** A history on second counts that fit, with no event dropped, is undisturbed, and keeps a sound store sound. */
  lemma {:induction false} FittingIsUndisturbed(w: World, moves: seq<Move>, parsesIP: ParsesIP)
    requires IsHistory(w, moves, parsesIP) && FitsAndDelivers(moves)
    ensures Undisturbed(w, moves, parsesIP)
    ensures StoreSound(w.tables) ==> StoreSound(Reached(w, moves, parsesIP).tables)
    decreases |moves|
  {
    if moves != [] {
      assert FitsAndDelivers(moves[1..]);
      FittingStaysSound(w, moves[0], parsesIP);
      FittingIsUndisturbed(Step(w, moves[0], parsesIP), moves[1..], parsesIP);
    }
  }
}
