/** What goes wrong when a config is deleted and created again while its job is outstanding: a run that does it, the
  * two jobs at once and the stale completion it leads to, and the heap that completion breaks. */
module Recreation {
  import opened Domain
  import opened Jobs
  import opened Results
  import opened StateHeaps
  import opened SchedulerCore
  import opened Schedulers
  import opened Pipeline
  import opened PipelineContents
  import opened PipelineSafety
  import opened SchedulerRuns

  // ---- putting runs together ---------------------------------------------------------------------

  /** A step the scheduler's objects can take in one way only, and stay in order. */
  ghost predicate Plain(s: Pipe, a: Action) {
    && (a.PopDue? ==> s.table.Keys == {a.id})
    && (a.TakeCompletion? ==> OffersTimely(s))
  }

  ghost predicate PlainRun(s: Pipe, actions: seq<Action>)
    requires IsRun(s, actions)
    decreases |actions|
  {
    actions == [] || (Plain(s, actions[0]) && PlainRun(Next(s, actions[0]), actions[1..]))
  }

  /** `actions` lead from `s` to `t`, by plain steps. */
  ghost predicate Leads(s: Pipe, actions: seq<Action>, t: Pipe) {
    IsRun(s, actions) && After(s, actions) == t && PlainRun(s, actions)
  }

  lemma {:induction false} LeadsJoin(s: Pipe, a: seq<Action>, t: Pipe, b: seq<Action>, u: Pipe)
    requires Leads(s, a, t) && Leads(t, b, u)
    ensures Leads(s, a + b, u)
    ensures NeverRecreates(s, a) && NeverRecreates(t, b) ==> NeverRecreates(s, a + b)
    decreases |a|
  {
    if a == [] {
      assert a + b == b;
    } else {
      var joined := a + b;
      assert joined[0] == a[0] && joined[1..] == a[1..] + b;
      LeadsJoin(Next(s, a[0]), a[1..], t, b, u);
    }
  }

  lemma LeadsOne(s: Pipe, a: Action)
    requires Enabled(s, a) && Plain(s, a)
    ensures Leads(s, [a], Next(s, a))
    ensures !Recreates(s, a) ==> NeverRecreates(s, [a])
  {
    assert [a][1..] == [];
  }

  lemma LeadsOn(s: Pipe, actions: seq<Action>, t: Pipe, a: Action)
    requires Leads(s, actions, t) && Enabled(t, a) && Plain(t, a)
    ensures Leads(s, actions + [a], Next(t, a))
    ensures NeverRecreates(s, actions) && !Recreates(t, a) ==> NeverRecreates(s, actions + [a])
  {
    LeadsOne(t, a);
    LeadsJoin(s, actions, t, [a], Next(t, a));
  }

  /** `a` is a plain step from `s` to `t`. */
  ghost predicate StepsTo(s: Pipe, a: Action, t: Pipe) {
    Enabled(s, a) && Plain(s, a) && Next(s, a) == t
  }

  lemma LeadsByTwo(s: Pipe, a: Action, s1: Pipe, b: Action, t: Pipe)
    requires StepsTo(s, a, s1) && StepsTo(s1, b, t)
    ensures Leads(s, [a] + [b], t)
    ensures !Recreates(s, a) && !Recreates(s1, b) ==> NeverRecreates(s, [a] + [b])
  {
    LeadsOne(s, a);
    LeadsOn(s, [a], s1, b);
  }

  /** A run, a step, and a run or another step. */
  lemma LeadsPast(s: Pipe, before: seq<Action>, s1: Pipe, a: Action, s2: Pipe, after: seq<Action>, t: Pipe)
    requires Leads(s, before, s1) && StepsTo(s1, a, s2) && Leads(s2, after, t)
    ensures Leads(s, before + [a] + after, t)
    ensures NeverRecreates(s, before) && !Recreates(s1, a) && NeverRecreates(s2, after) ==>
              NeverRecreates(s, before + [a] + after)
  {
    LeadsOn(s, before, s1, a);
    LeadsJoin(s, before + [a], s2, after, t);
  }

  // ---- the parts of the run ----------------------------------------------------------------------

  /** The table has one config, and its job is `job`. */
  ghost predicate Only(t: Table, job: CheckJob) {
    t.Keys == {job.base.configID} && t[job.base.configID].job == job
  }

  /** A dispatch of one due config: its job goes to worker `w`, and the loop waits. */
  function SendTo(id: Id, w: nat): seq<Action> {
    [PopDue(id)] + [HandOff(w)] + [DispatchDone]
  }

  lemma Send(s: Pipe, job: CheckJob, w: nat) returns (t: Pipe)
    requires s.loop.Dispatching? && Only(s.table, job) && job.base.configID in DueConfigs(s.table, s.loop.now)
    requires w < |s.flow.workers| && s.flow.workers[w].Idle?
    ensures Leads(s, SendTo(job.base.configID, w), t) && NeverRecreates(s, SendTo(job.base.configID, w))
    ensures t.loop.Waiting? && t.table == AfterPop(s.table, job.base.configID)
    ensures t.flow == WithWorker(s.flow, w, Checking(|s.flow.received|, job)).(received := s.flow.received + [job])
    ensures t.gates == s.gates && t.clock == s.clock
  {
    var id := job.base.configID;
    var popped := Next(s, PopDue(id));
    var sent := Next(popped, HandOff(w));
    assert DueConfigs(sent.table, sent.loop.now) == {};
    t := Next(sent, DispatchDone);
    LeadsByTwo(s, PopDue(id), popped, HandOff(w), sent);
    LeadsOn(s, [PopDue(id)] + [HandOff(w)], sent, DispatchDone);
  }

  /** A check ends and its result reaches the buffer. */
  function Returning(w: nat): seq<Action> {
    [CheckReturns(w, NoChecker)] + [PushResult(w)]
  }

  lemma Return(s: Pipe, w: nat) returns (t: Pipe)
    requires w < |s.flow.workers| && s.flow.workers[w].Checking? && s.flow.results == []
    ensures Leads(s, Returning(w), t)
    ensures t.loop == s.loop && t.table == s.table && t.gates == s.gates && t.clock == s.clock
    ensures t.flow.workers == s.flow.workers[w := Idle] && t.flow.consumer == s.flow.consumer
    ensures var worker := s.flow.workers[w];
            t.flow.results == [Item(worker.ticket, WorkerResult(worker.job, NoChecker, s.clock))]
  {
    var returned := Next(s, CheckReturns(w, NoChecker));
    t := Next(returned, PushResult(w));
    LeadsByTwo(s, CheckReturns(w, NoChecker), returned, PushResult(w), t);
  }

  /** The consumer takes a result, has it handled and offers its completion. */
  function Offered(): seq<Action> {
    [ConsumerReceives] + [HandlerReturns]
  }

  lemma Offer(s: Pipe, item: Item) returns (t: Pipe)
    requires s.flow.results == [item] && s.flow.consumer == Receiving
    ensures Leads(s, Offered(), t)
    ensures t.loop == s.loop && t.table == s.table && t.gates == s.gates && t.clock == s.clock
    ensures t.flow.workers == s.flow.workers && t.flow.results == [] && t.flow.consumer == Offering(item)
  {
    var received := Next(s, ConsumerReceives);
    t := Next(received, HandlerReturns);
    LeadsByTwo(s, ConsumerReceives, received, HandlerReturns, t);
  }

  /** What brings a job's completion from its worker to the consumer's offer. */
  function Finishing(w: nat): seq<Action> {
    Returning(w) + Offered()
  }

  lemma Finish(s: Pipe, w: nat) returns (t: Pipe)
    requires w < |s.flow.workers| && s.flow.workers[w].Checking?
    requires s.flow.results == [] && s.flow.consumer == Receiving
    ensures Leads(s, Finishing(w), t)
    ensures t.loop == s.loop && t.table == s.table && t.gates == s.gates && t.clock == s.clock
    ensures t.flow.workers == s.flow.workers[w := Idle] && t.flow.results == []
    ensures var worker := s.flow.workers[w];
            t.flow.consumer == Offering(Item(worker.ticket, WorkerResult(worker.job, NoChecker, s.clock)))
  {
    var returned := Return(s, w);
    t := Offer(returned, returned.flow.results[0]);
    LeadsJoin(s, Returning(w), returned, Offered(), t);
  }

  // ---- the run -----------------------------------------------------------------------------------

  /** The job goes out to the first worker, and its config is deleted. */
  function DeletingRun(job: CheckJob): seq<Action> {
    SendTo(job.base.configID, 0) + [TakeConfigEvent(Deleted(job))] + [DispatchDone]
  }

  /** The config is created again and its new state dispatched. */
  function OverlappingRun(job: CheckJob): seq<Action> {
    DeletingRun(job) + [TakeConfigEvent(Created(job))] + SendTo(job.base.configID, 1)
  }

  /** The first job's completion clears the new state's flag; the second job's is offered. */
  function StaleRun(job: CheckJob): seq<Action> {
    OverlappingRun(job) + Finishing(0) + [TakeCompletion] + [DispatchDone] + Finishing(1)
  }

  /** A start with one config, due at once, and at least two workers. */
  ghost predicate OneDue(s: Pipe, job: CheckJob) {
    && Initial(s) && Only(s.table, job) && s.table[job.base.configID].nextDue <= s.clock
    && |s.flow.workers| >= 2
  }

  lemma AtSomeWorker(ws: seq<Worker>, w: nat, t: Token)
    requires w < |ws|
    ensures AtWorkers(ws, t) >= AtWorker(ws[w], t)
  {
    WorkerUpdate(ws, w, Idle, t);
  }

  /** After the deletion, creating the config again recreates it while its job is outstanding. */
  lemma DeletionLeavesJob(s: Pipe, job: CheckJob) returns (t: Pipe)
    requires OneDue(s, job)
    ensures Leads(s, DeletingRun(job), t) && NeverRecreates(s, DeletingRun(job))
    ensures Enabled(t, TakeConfigEvent(Created(job))) && Recreates(t, TakeConfigEvent(Created(job)))
    ensures t.table == map[] && t.gates == s.gates && t.clock == s.clock
    ensures t.flow == Flow(s.flow.workers[0 := Checking(0, job)], [], Receiving, [job], [])
  {
    var sent := Send(s, job, 0);
    var deleted := Next(sent, TakeConfigEvent(Deleted(job)));
    assert deleted.table == map[];
    t := Next(deleted, DispatchDone);
    LeadsOne(deleted, DispatchDone);
    LeadsPast(s, SendTo(job.base.configID, 0), sent, TakeConfigEvent(Deleted(job)), deleted, [DispatchDone], t);
    AtSomeWorker(t.flow.workers, 0, JobToken(0, job));
    assert IsOutstanding(t.flow, JobToken(0, job));
  }

  /** So two jobs of one config are outstanding at once. */
  lemma RecreationOverlaps(s: Pipe, job: CheckJob) returns (t: Pipe)
    requires OneDue(s, job)
    ensures Leads(s, OverlappingRun(job), t) && !AtMostOne(t.flow)
    ensures t.loop.Waiting? && t.gates == s.gates && t.clock == s.clock
    ensures Only(t.table, job) && t.table[job.base.configID].inFlight
    ensures t.flow == Flow(s.flow.workers[0 := Checking(0, job)][1 := Checking(1, job)], [], Receiving, [job, job], [])
  {
    var id := job.base.configID;
    var deleted := DeletionLeavesJob(s, job);
    var created := Next(deleted, TakeConfigEvent(Created(job)));
    t := Send(created, job, 1);
    LeadsPast(s, DeletingRun(job), deleted, TakeConfigEvent(Created(job)), created, SendTo(id, 1), t);
    AtSomeWorker(t.flow.workers, 0, JobToken(0, job));
    AtSomeWorker(t.flow.workers, 1, JobToken(1, job));
    assert IsOutstanding(t.flow, JobToken(0, job)) && IsOutstanding(t.flow, JobToken(1, job));
  }

  /** And the second completion is stale: its config is mapped and waits on the heap. */
  lemma RecreationGoesStale(s: Pipe, job: CheckJob) returns (t: Pipe)
    requires OneDue(s, job) && job.base.interval > 0
    ensures Leads(s, StaleRun(job), t)
    ensures Enabled(t, TakeCompletion) && !OffersTimely(t)
  {
    var sent := RecreationOverlaps(s, job);
    var finished := Finish(sent, 0);
    var taken := Next(finished, TakeCompletion);
    assert DueConfigs(taken.table, taken.loop.now) == {};
    var waiting := Next(taken, DispatchDone);
    t := Finish(waiting, 1);
    LeadsJoin(s, OverlappingRun(job), sent, Finishing(0), finished);
    LeadsOn(s, OverlappingRun(job) + Finishing(0), finished, TakeCompletion);
    LeadsPast(s, OverlappingRun(job) + Finishing(0) + [TakeCompletion], taken, DispatchDone, waiting, Finishing(1), t);
  }

  // ---- on the scheduler's objects ----------------------------------------------------------------

  /** The objects go through a run of plain steps as it is. */
  method Replay(sch: Scheduler, s: Pipe, actions: seq<Action>) returns (t: Pipe)
    requires sch.Valid() && sch.table == s.table && IsRun(s, actions) && PlainRun(s, actions)
    modifies sch, sch.heap, sch.heap.members`index, sch.owner.Keys
    ensures sch.Valid() && t == After(s, actions) && sch.table == t.table
    ensures fresh(sch.owner.Keys - old(sch.owner.Keys))
  {
    t := s;
    for i := 0 to |actions|
      invariant IsRun(t, actions[i..]) && PlainRun(t, actions[i..]) && After(t, actions[i..]) == After(s, actions)
      invariant sch.Valid() && sch.table == t.table
      invariant fresh(sch.owner.Keys - old(sch.owner.Keys))
    {
      assert actions[i..][0] == actions[i] && actions[i..][1..] == actions[i + 1..];
      var a, popped := TakeStep(sch, t, actions[i]);
      t := Next(t, actions[i]);
    }
  }

  lemma OneListed(job: CheckJob, workers: nat, clock: Time)
    requires workers >= 2
    ensures OneDue(StartState([Listed(job, clock, 0)], workers, clock), job)
  {
    var listed := [Listed(job, clock, 0)];
    StartIsInitial(listed, workers, clock);
    assert listed[..0] == [];
    assert StartTable(listed) == map[][job.base.configID := Entry(job, clock, false)];
  }

  /** A stale completion puts a state on the heap a second time. */
  method TakeStale(sch: Scheduler, s: Pipe)
    requires sch.Valid() && sch.table == s.table && Enabled(s, TakeCompletion) && !OffersTimely(s)
    modifies sch, sch.heap, sch.heap.members`index, sch.owner.Keys
    ensures !sch.heap.Linked()
  {
    var r := s.flow.consumer.item.result;
    sch.ApplyEvent(Completion(r.configID, r.checkedAt));
  }

  method GoStale(sch: Scheduler, s: Pipe, job: CheckJob)
    requires sch.Valid() && sch.table == s.table && OneDue(s, job) && job.base.interval > 0
    modifies sch, sch.heap, sch.heap.members`index, sch.owner.Keys
    ensures !sch.heap.Linked()
  {
    ghost var stale := RecreationGoesStale(s, job);
    var t := Replay(sch, s, StaleRun(job));
    TakeStale(sch, t);
  }

  /** A scheduler started on one config, due at once, that is deleted and created again while it is checked, ends
    * with a heap whose back-indices are wrong. */
  method BreakHeap(job: CheckJob, workers: nat, clock: Time) returns (sch: Scheduler)
    requires workers >= 2 && job.base.interval > 0
    ensures !sch.heap.Linked()
  {
    var listed := [Listed(job, clock, 0)];
    OneListed(job, workers, clock);
    sch := new Scheduler();
    sch.Start(listed);
    GoStale(sch, StartState(listed, workers, clock), job);
  }
}
