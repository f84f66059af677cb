/** When a dispatch can complete: with N workers, o outstanding jobs and K due states on entry, exactly when
  * o + K <= 2N + 1. N jobs fit at the workers, N in the results buffer and one at the consumer, which cannot hand
  * its event over while the loop is dispatching. */
module PipelineCapacity {
  import opened Domain
  import opened Jobs
  import opened Results
  import opened SchedulerCore
  import opened Pipeline
  import opened PipelineContents
  import opened PipelineSafety

  /** What can happen during a dispatch that is not cut short: its own turns, workers, handler calls, time. */
  predicate DuringDispatch(a: Action) {
    || a.PopDue? || a.DispatchDone? || a.HandOff?
    || a.CheckReturns? || a.PushResult? || a.ConsumerReceives? || a.HandlerReturns?
    || a.Tick?
  }

  predicate InDispatch(s: Pipe) {
    s.loop.Dispatching? || s.loop.Sending?
  }

  /** Everyone is at work: no worker has exited and the consumer has not been told to stop. */
  ghost predicate Open(s: Pipe) {
    && Channels(s)
    && !s.loop.Returned? && !s.gates.resultsClosed
  }

  /** The due states the dispatch has still to send. */
  ghost function Remaining(s: Pipe): nat {
    match s.loop
    case Dispatching(now) => |DueConfigs(s.table, now)|
    case Sending(_, now) => |DueConfigs(s.table, now)| + 1
    case _ => 0
  }

  lemma PopShrinksDue(t: Table, now: Time, id: Id)
    requires id in DueConfigs(t, now)
    ensures |DueConfigs(AfterPop(t, id), now)| == |DueConfigs(t, now)| - 1
  {
    assert DueConfigs(AfterPop(t, id), now) == DueConfigs(t, now) - {id};
  }

  lemma LoadBound(f: Flow)
    requires |f.results| <= |f.workers|
    ensures Load(f) <= 2 * |f.workers| + 1
  {
  }

  /** Until the dispatch is done, what it has still to send and what the pipeline holds add up to the same. */
  lemma BacklogStep(s: Pipe, a: Action)
    requires Open(s) && Enabled(s, a) && DuringDispatch(a) && (InDispatch(s) || s.loop.Waiting?)
    ensures var s' := Next(s, a);
            && Open(s') && (InDispatch(s') || s'.loop.Waiting?)
            && |s'.flow.workers| == |s.flow.workers|
            && (s.loop.Waiting? ==> s'.loop.Waiting?)
            && Load(s'.flow) + Remaining(s') == Load(s.flow) + Remaining(s)
  {
    ChannelsKept(s, a);
    var f, f' := s.flow, NextFlow(s, a);
    if a.HandOff? || a.CheckReturns? || a.PushResult? {
      BusyUpdate(f.workers, a.w, f'.workers[a.w]);
    }
    if a.PopDue? {
      PopShrinksDue(s.table, s.loop.now, a.id);
    }
  }

  /** A bound on the steps of a dispatch. */
  ghost function Effort(s: Pipe): nat {
    Work(s.flow) + match s.loop
      case Dispatching(now) => 7 * |DueConfigs(s.table, now)| + 1
      case Sending(_, now) => 7 * |DueConfigs(s.table, now)| + 7
      case _ => 0
  }

  lemma EffortDecreases(s: Pipe, a: Action)
    requires Enabled(s, a) && DuringDispatch(a)
    ensures Effort(Next(s, a)) + One(!a.Tick?) <= Effort(s)
  {
    var f, f' := s.flow, NextFlow(s, a);
    if a.HandOff? || a.CheckReturns? || a.PushResult? {
      WorkUpdate(f.workers, a.w, f'.workers[a.w]);
    }
    if a.PopDue? {
      PopShrinksDue(s.table, s.loop.now, a.id);
    }
  }

  lemma {:induction false} EarliestWaiting(t: Table, waiting: set<Id>) returns (id: Id)
    requires waiting != {} && forall w | w in waiting :: w in t
    ensures id in waiting && forall w | w in waiting :: t[id].nextDue <= t[w].nextDue
  {
    id :| id in waiting;
    if waiting != {id} {
      var other := EarliestWaiting(t, waiting - {id});
      if t[other].nextDue < t[id].nextDue {
        id := other;
      }
    }
  }

  /** A dispatch always finds a state to pop while one is due. */
  lemma SomethingToPop(t: Table, now: Time) returns (id: Id)
    requires DueConfigs(t, now) != {}
    ensures NextToPop(t, now, id)
  {
    var waiting := set w | w in t && !t[w].inFlight;
    var due :| due in DueConfigs(t, now);
    assert due in waiting;
    id := EarliestWaiting(t, waiting);
  }

  /** The one way to get stuck: the loop waits for a worker, every worker for room in the buffer, the buffer is
    * full, and the consumer waits for the loop. */
  ghost predicate Jammed(s: Pipe) {
    && s.loop.Sending?
    && (forall w | 0 <= w < |s.flow.workers| :: s.flow.workers[w].Holding?)
    && |s.flow.results| == |s.flow.workers|
    && s.flow.consumer.Offering?
  }

  /** No step of the dispatch, of a worker or of the handler is possible. */
  ghost predicate Quiet(s: Pipe) {
    forall a | DuringDispatch(a) && !a.Tick? :: !Enabled(s, a)
  }

  lemma QuietDispatchIsJammed(s: Pipe)
    requires Open(s) && InDispatch(s) && Quiet(s)
    ensures Jammed(s)
  {
    var f := s.flow;
    if s.loop.Dispatching? {
      if DueConfigs(s.table, s.loop.now) == {} {
        assert Enabled(s, DispatchDone);
      } else {
        var id := SomethingToPop(s.table, s.loop.now);
        assert Enabled(s, PopDue(id));
      }
    }
    forall w: nat | w < |f.workers|
      ensures f.workers[w].Holding? && |f.results| == |f.workers|
    {
      assert !Enabled(s, HandOff(w)) && !Enabled(s, CheckReturns(w, NoChecker)) && !Enabled(s, PushResult(w));
    }
    assert f.workers[0].Holding?;
    assert !Enabled(s, ConsumerReceives) && !Enabled(s, HandlerReturns);
  }

  lemma JammedIsOverfull(s: Pipe)
    requires Jammed(s)
    ensures Load(s.flow) + Remaining(s) >= 2 * |s.flow.workers| + 2
  {
    AllBusy(s.flow.workers);
  }

  lemma {:induction false} DispatchRun(s: Pipe, actions: seq<Action>)
    requires Open(s) && (InDispatch(s) || s.loop.Waiting?)
    requires IsRun(s, actions) && forall a | a in actions :: DuringDispatch(a)
    ensures var s' := After(s, actions);
            && Open(s') && (InDispatch(s') || s'.loop.Waiting?)
            && |s'.flow.workers| == |s.flow.workers|
            && Load(s'.flow) + Remaining(s') == Load(s.flow) + Remaining(s)
            && Moves(actions) + Effort(s') <= Effort(s)
    decreases |actions|
  {
    if actions != [] {
      BacklogStep(s, actions[0]);
      EffortDecreases(s, actions[0]);
      DispatchRun(Next(s, actions[0]), actions[1..]);
    }
  }

  /** Exact dispatch capacity. Every dispatch that is not cut short takes boundedly many steps. Run until nothing
    * more is possible, it has completed if o + K <= 2N + 1, and otherwise it is jammed. */
  lemma {:induction false} DispatchCompletesIffItFits(s: Pipe, actions: seq<Action>)
    requires Open(s) && s.loop.Dispatching?
    requires IsRun(s, actions) && forall a | a in actions :: DuringDispatch(a)
    ensures Moves(actions) <= Effort(s)
    ensures var fits := Load(s.flow) + |DueConfigs(s.table, s.loop.now)| <= 2 * |s.flow.workers| + 1;
            && (After(s, actions).loop.Waiting? ==> fits)
            && (Quiet(After(s, actions)) ==>
                  if fits then After(s, actions).loop.Waiting? else Jammed(After(s, actions)))
  {
    DispatchRun(s, actions);
    var s' := After(s, actions);
    LoadBound(s'.flow);
    if InDispatch(s') && Quiet(s') {
      QuietDispatchIsJammed(s');
      JammedIsOverfull(s');
    }
  }

  /** Some continuation of every dispatch comes to rest. */
  lemma {:induction false} SomeRunIsQuiet(s: Pipe) returns (actions: seq<Action>)
    requires Open(s) && (InDispatch(s) || s.loop.Waiting?)
    ensures IsRun(s, actions) && (forall a | a in actions :: DuringDispatch(a)) && Quiet(After(s, actions))
    decreases Effort(s)
  {
    if Quiet(s) {
      actions := [];
    } else {
      var a :| DuringDispatch(a) && !a.Tick? && Enabled(s, a);
      BacklogStep(s, a);
      EffortDecreases(s, a);
      var rest := SomeRunIsQuiet(Next(s, a));
      actions := [a] + rest;
      assert actions[1..] == rest;
    }
  }

  /** A jam lasts until the dispatch is cancelled: nothing else is possible but the passing of time. */
  lemma JammedStays(s: Pipe, a: Action)
    requires Open(s) && Jammed(s) && !s.gates.cancelled && Enabled(s, a)
    ensures a.Cancel? || a.Tick?
    ensures Open(Next(s, a)) && Jammed(Next(s, a))
  {
    assert s.flow.workers[0].Holding?;
    ChannelsKept(s, a);
  }

  lemma {:induction false} JammedForGood(s: Pipe, actions: seq<Action>)
    requires Open(s) && Jammed(s) && !s.gates.cancelled && IsRun(s, actions) && Cancel !in actions
    ensures Jammed(After(s, actions))
    decreases |actions|
  {
    if actions != [] {
      assert actions[0] in actions;
      JammedStays(s, actions[0]);
      JammedForGood(Next(s, actions[0]), actions[1..]);
    }
  }

  /** Before `schedule` returns everyone is at work. */
  lemma {:induction false} DispatchesAreOpen(s: Pipe, actions: seq<Action>)
    requires Initial(s) && IsRun(s, actions) && !After(s, actions).loop.Returned?
    ensures Open(After(s, actions))
  {
    InitialIsSound(s);
    RunIsSound(s, actions);
    assert var s' := After(s, actions); s'.flow.workers[0].Exited? ==> s'.gates.jobsClosed;
  }

  /** So it is of every dispatch in a run from the start that never recreates a config while its job is outstanding,
    * where the heap holds each due state once: it comes to rest, and then it has completed exactly if o + K <= 2N + 1;
    * otherwise it is jammed, and stays so while it is not cancelled. */
  lemma {:induction false} DispatchesInRuns(s: Pipe, before: seq<Action>) returns (during: seq<Action>)
    requires Initial(s) && IsRun(s, before) && NeverRecreates(s, before) && After(s, before).loop.Dispatching?
    ensures var d := After(s, before);
            && Steady(d) && IsRun(d, during) && (forall a | a in during :: DuringDispatch(a))
            && (if Load(d.flow) + |DueConfigs(d.table, d.loop.now)| <= 2 * |d.flow.workers| + 1
                then After(d, during).loop.Waiting?
                else Jammed(After(d, during)))
  {
    InitialIsSteady(s);
    RunIsSteady(s, before);
    DispatchesAreOpen(s, before);
    during := SomeRunIsQuiet(After(s, before));
    DispatchCompletesIffItFits(After(s, before), during);
  }
}
