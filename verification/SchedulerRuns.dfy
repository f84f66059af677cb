/** The scheduling loop on the scheduler's own objects: the heap and the map of `scheduler.go` go through the steps of
  * the pipeline, and stay what the step system says they are. */
module SchedulerRuns {
  import opened Domain
  import opened Jobs
  import opened HeapOrder
  import opened StateHeaps
  import opened SchedulerCore
  import opened Schedulers
  import opened Pipeline
  import opened PipelineContents
  import opened PipelineSafety

  /** The same step, but for which of several equally due states a pop takes. */
  predicate SameStep(a: Action, b: Action) {
    a == b || (a.PopDue? && b.PopDue?)
  }

  /** The guard of `dispatch`'s loop says whether a state is due. */
  lemma GuardDecides(sch: Scheduler, now: Time)
    requires sch.Valid()
    ensures sch.RootDue(now) <==> DueConfigs(sch.table, now) != {}
  {
    if sch.RootDue(now) {
      sch.RootIsNext(now);
    } else {
      sch.NothingDue(now);
    }
  }

  /** A step of the pipeline, taken on the scheduler's objects. The guard of `dispatch` agrees with the step, the job
    * to send is the popped state's, and the objects show the table the step leaves. They are in order afterwards
    * unless the step takes a stale completion. */
  method TakeStep(sch: Scheduler, s: Pipe, a: Action) returns (b: Action, popped: Option<CheckJob>)
    requires sch.Valid() && sch.table == s.table && Enabled(s, a)
    modifies sch, sch.heap, sch.heap.members`index, sch.owner.Keys
    ensures SameStep(a, b) && Enabled(s, b)
    ensures s.loop.Dispatching? && ByLoop(a) ==> (a.PopDue? <==> old(sch.RootDue(s.loop.now)))
    ensures if a.PopDue? then popped.Some? && Next(s, b).loop == Sending(popped.value, s.loop.now) else popped == None
    ensures sch.Mirrored() && sch.table == Next(s, b).table
    ensures sch.Valid() <==> (a.TakeCompletion? ==> OffersTimely(s))
    ensures fresh(sch.owner.Keys - old(sch.owner.Keys))
  {
    b, popped := a, None;
    if s.loop.Dispatching? {
      GuardDecides(sch, s.loop.now);
    }
    match a {
      case PopDue(_) =>
        var state := sch.PopRoot(s.loop.now);
        b, popped := PopDue(state.checkJob.base.configID), Some(state.checkJob);
      case TakeCompletion =>
        var r := s.flow.consumer.item.result;
        sch.ApplyEvent(Completion(r.configID, r.checkedAt));
      case TakeConfigEvent(ev) =>
        sch.ApplyConfigEvent(ev, s.clock);
      case _ =>
    }
  }

  // ---- whole runs --------------------------------------------------------------------------------

  /** Whoever decides, at each turn and from the state so far, which goroutine moves next, what the checkers answer,
    * what the service sends, when time passes and when the scheduler is cancelled. */
  type Environment = (nat, Pipe) -> Action

  /** The run takes the steps the environment picks, but for the choice among equally due states. */
  ghost predicate Follows(environment: Environment, s: Pipe, from: nat, actions: seq<Action>)
    requires IsRun(s, actions)
    decreases |actions|
  {
    actions == [] ||
    (SameStep(environment(from, s), actions[0]) &&
     Follows(environment, Next(s, actions[0]), from + 1, actions[1..]))
  }

  /** On every run it leads to from `first`, it picks what is possible, and never has a config recreated while its job
    * is outstanding. */
  ghost predicate Lawful(environment: Environment, first: Pipe) {
    forall run | IsRun(first, run) && Follows(environment, first, 0, run) ::
      Obeys(After(first, run), environment(|run|, After(first, run)))
  }

  ghost predicate Obeys(s: Pipe, a: Action) {
    Enabled(s, a) && !Recreates(s, a)
  }

  lemma {:induction false} RunGrows(environment: Environment, s: Pipe, from: nat, actions: seq<Action>, a: Action)
    requires IsRun(s, actions) && Follows(environment, s, from, actions) && NeverRecreates(s, actions)
    requires Enabled(After(s, actions), a) && !Recreates(After(s, actions), a)
    requires SameStep(environment(from + |actions|, After(s, actions)), a)
    ensures IsRun(s, actions + [a]) && After(s, actions + [a]) == Next(After(s, actions), a)
    ensures Follows(environment, s, from, actions + [a]) && NeverRecreates(s, actions + [a])
    decreases |actions|
  {
    if actions == [] {
      assert [] + [a] == [a];
    } else {
      var longer := actions + [a];
      assert longer[0] == actions[0] && longer[1..] == actions[1..] + [a];
      RunGrows(environment, Next(s, actions[0]), from + 1, actions[1..], a);
    }
  }

  /** `run` follows the environment from `first` to `s`, and recreates nothing. */
  ghost predicate Driven(environment: Environment, first: Pipe, run: seq<Action>, s: Pipe) {
    && IsRun(first, run) && Follows(environment, first, 0, run) && NeverRecreates(first, run)
    && After(first, run) == s && Steady(s)
  }

  lemma DrivenOn(environment: Environment, first: Pipe, run: seq<Action>, s: Pipe, a: Action)
    requires Driven(environment, first, run, s)
    requires Enabled(s, a) && !Recreates(s, a) && SameStep(environment(|run|, s), a)
    ensures Driven(environment, first, run + [a], Next(s, a))
  {
    SteadyKept(s, a);
    RunGrows(environment, first, 0, run, a);
  }

  /** The pipeline as `Start` leaves it on the configs listed, with `workers` workers. */
  function StartState(listed: seq<Listed>, workers: nat, clock: Time): Pipe {
    Pipe(Dispatching(clock), StartTable(listed), [], Flow(seq(workers, i => Idle), [], Receiving, [], []),
         Gates(false, false, false, false, false), clock)
  }

  lemma {:induction false} StartIsInitial(listed: seq<Listed>, workers: nat, clock: Time)
    requires workers >= 1
    ensures Initial(StartState(listed, workers, clock)) && |StartState(listed, workers, clock).flow.workers| == workers
  {
    StartTableFilesListed(listed);
  }

  /** One more step of a run. */
  method Advance(sch: Scheduler, environment: Environment, s: Pipe, k: nat, ghost first: Pipe, ghost run: seq<Action>)
    returns (s': Pipe, ghost a: Action)
    requires Lawful(environment, first) && Driven(environment, first, run, s) && k == |run|
    requires sch.Valid() && sch.table == s.table
    modifies sch, sch.heap, sch.heap.members`index, sch.owner.Keys
    ensures Driven(environment, first, run + [a], s')
    ensures sch.Valid() && sch.table == s'.table
    ensures fresh(sch.owner.Keys - old(sch.owner.Keys))
  {
    assert Obeys(s, environment(k, s));
    SteadyOffersTimely(s);
    var b, popped := TakeStep(sch, s, environment(k, s));
    a, s' := b, Next(s, b);
    DrivenOn(environment, first, run, s, b);
  }

  /** The structural invariant over all runs. Whatever the environment does, cancellation included, after every number
    * of steps the scheduler has gone through a run of the pipeline that follows the environment, its heap, map and
    * states are in order, and they show the table of that run. */
  method Drive(listed: seq<Listed>, workers: nat, clock: Time, environment: Environment, steps: nat)
    returns (sch: Scheduler, ghost run: seq<Action>)
    requires workers >= 1 && Lawful(environment, StartState(listed, workers, clock))
    requires forall i | 0 <= i < |listed| :: 0 <= listed[i].draw < JitterWindow(listed[i].job)
    ensures |run| == steps && IsRun(StartState(listed, workers, clock), run)
    ensures Follows(environment, StartState(listed, workers, clock), 0, run)
    ensures NeverRecreates(StartState(listed, workers, clock), run)
    ensures sch.Valid() && sch.table == After(StartState(listed, workers, clock), run).table
  {
    var s := StartState(listed, workers, clock);
    ghost var first := s;
    StartIsInitial(listed, workers, clock);
    InitialIsSteady(s);
    sch := new Scheduler();
    run := [];
    sch.Start(listed);
    for k := 0 to steps
      invariant |run| == k && Driven(environment, first, run, s)
      invariant sch.Valid() && sch.table == s.table
      invariant fresh(sch) && fresh(sch.heap) && fresh(sch.owner.Keys)
    {
      ghost var a;
      s, a := Advance(sch, environment, s, k, first, run);
      run := run + [a];
    }
  }

  // ---- a given run -------------------------------------------------------------------------------

  /** The environment that wants the run `wanted`, and lets no time pass where it cannot have it. */
  ghost function Wanting(first: Pipe, wanted: seq<Action>): Environment
    requires IsRun(first, wanted)
  {
    (k: nat, s: Pipe) => if Reaches(first, wanted, k, s) then wanted[k] else Tick(s.clock)
  }

  /** The first `k` steps wanted lead to `s`, and there is one more. */
  ghost predicate Reaches(first: Pipe, wanted: seq<Action>, k: nat, s: Pipe) {
    k < |wanted| && IsRun(first, wanted[..k]) && After(first, wanted[..k]) == s
  }

  lemma {:induction false} RunPrefix(s: Pipe, actions: seq<Action>, k: nat)
    requires IsRun(s, actions) && k < |actions|
    ensures IsRun(s, actions[..k]) && Enabled(After(s, actions[..k]), actions[k])
    ensures NeverRecreates(s, actions) ==> !Recreates(After(s, actions[..k]), actions[k])
    decreases k
  {
    if k > 0 {
      assert actions[..k][1..] == actions[1..][..k - 1];
      RunPrefix(Next(s, actions[0]), actions[1..], k - 1);
    }
  }

  lemma {:induction false} WantingObeys(first: Pipe, wanted: seq<Action>, k: nat, s: Pipe)
    requires IsRun(first, wanted) && NeverRecreates(first, wanted)
    ensures Obeys(s, Wanting(first, wanted)(k, s))
  {
    if Reaches(first, wanted, k, s) {
      RunPrefix(first, wanted, k);
    }
  }

  /** Every run that never recreates is led to by a lawful environment. */
  lemma {:induction false} WantingIsLawful(first: Pipe, wanted: seq<Action>)
    requires IsRun(first, wanted) && NeverRecreates(first, wanted)
    ensures Lawful(Wanting(first, wanted), first)
  {
    forall k, s {
      WantingObeys(first, wanted, k, s);
    }
  }

  /** `run` is `wanted` so far, or up to the first pop that takes another of equally due states. */
  ghost predicate SameUpToTies(run: seq<Action>, wanted: seq<Action>) {
    run <= wanted || exists k: nat :: Parts(run, wanted, k)
  }

  ghost predicate Parts(run: seq<Action>, wanted: seq<Action>, k: nat) {
    k < |run| && k < |wanted| && run[..k] == wanted[..k] && run[k].PopDue? && wanted[k].PopDue? && run[k] != wanted[k]
  }

  lemma {:induction false} FollowsAt(environment: Environment, s: Pipe, from: nat, actions: seq<Action>, k: nat)
    requires IsRun(s, actions) && Follows(environment, s, from, actions) && k < |actions|
    ensures IsRun(s, actions[..k]) && SameStep(environment(from + k, After(s, actions[..k])), actions[k])
    decreases k
  {
    if k > 0 {
      assert actions[..k][1..] == actions[1..][..k - 1];
      FollowsAt(environment, Next(s, actions[0]), from + 1, actions[1..], k - 1);
    }
  }

  lemma {:induction false} NextWanted(first: Pipe, wanted: seq<Action>, run: seq<Action>, k: nat)
    requires IsRun(first, wanted) && IsRun(first, run) && Follows(Wanting(first, wanted), first, 0, run)
    requires k < |run| <= |wanted| && run[..k] == wanted[..k]
    ensures SameStep(wanted[k], run[k])
  {
    FollowsAt(Wanting(first, wanted), first, 0, run, k);
    assert Reaches(first, wanted, k, After(first, wanted[..k]));
  }

  lemma {:induction false} FollowsWanted(first: Pipe, wanted: seq<Action>, run: seq<Action>, k: nat)
    requires IsRun(first, wanted) && IsRun(first, run) && Follows(Wanting(first, wanted), first, 0, run)
    requires k <= |run| <= |wanted|
    ensures run[..k] == wanted[..k] || exists j: nat :: Parts(run, wanted, j)
  {
    if k > 0 {
      FollowsWanted(first, wanted, run, k - 1);
      if run[..k - 1] == wanted[..k - 1] {
        NextWanted(first, wanted, run, k - 1);
        assert run[..k] == run[..k - 1] + [run[k - 1]] && wanted[..k] == wanted[..k - 1] + [wanted[k - 1]];
        assert run[k - 1] != wanted[k - 1] ==> Parts(run, wanted, k - 1);
      }
    }
  }

  /** And what the scheduler goes through under it is the run wanted, until a pop breaks a tie otherwise. */
  lemma {:induction false} WantingIsFollowed(first: Pipe, wanted: seq<Action>, run: seq<Action>)
    requires IsRun(first, wanted) && IsRun(first, run) && Follows(Wanting(first, wanted), first, 0, run)
    requires |run| <= |wanted|
    ensures SameUpToTies(run, wanted)
  {
    FollowsWanted(first, wanted, run, |run|);
    if run[..|run|] == wanted[..|run|] {
      assert run == wanted[..|run|];
    }
  }
}
