/** Shutdown: once `schedule` has returned, the pipeline drains and closes `done`. */
module PipelineDrain {
  import opened Domain
  import opened Jobs
  import opened Results
  import opened SchedulerCore
  import opened Pipeline
  import opened PipelineContents
  import opened PipelineSafety
  import opened PipelineCapacity

  /** A bound on the steps of a drain. */
  function DrainWork(s: Pipe): nat {
    Work(s.flow) + One(!s.gates.resultsClosed)
  }

  lemma DrainDecreases(s: Pipe, a: Action)
    requires Channels(s) && s.loop.Returned? && Enabled(s, a)
    ensures Next(s, a).loop.Returned?
    ensures DrainWork(Next(s, a)) + One(!a.Tick?) <= DrainWork(s)
  {
    var f, f' := s.flow, NextFlow(s, a);
    if a.CheckReturns? || a.PushResult? || a.WorkerExits? {
      WorkUpdate(f.workers, a.w, f'.workers[a.w]);
    }
  }

  /** Nothing but time can move. */
  ghost predicate Still(s: Pipe) {
    forall a :: Enabled(s, a) ==> a.Tick?
  }

  /** As long as the pipeline has not finished, some goroutine can go on. */
  lemma DrainNeverSticks(s: Pipe) returns (a: Action)
    requires Channels(s) && s.loop.Returned? && !s.flow.consumer.Finished?
    ensures Enabled(s, a) && !a.Tick?
  {
    var f := s.flow;
    match f.consumer
    case Handling(_) => a := HandlerReturns;
    case Offering(_) => a := OfferCancelled;
    case ClosingEvents => a := CloseEvents;
    case Receiving =>
      if f.results != [] {
        a := ConsumerReceives;
      } else if s.gates.resultsClosed {
        a := CloseDone;
      } else if w :| 0 <= w < |f.workers| && !f.workers[w].Exited? {
        match f.workers[w]
        case Idle => a := WorkerExits(w);
        case Checking(_, _) => a := CheckReturns(w, NoChecker);
        case Holding(_) => a := PushResult(w);
      } else {
        a := CloseResults;
      }
  }

  lemma {:induction false} DrainRun(s: Pipe, actions: seq<Action>)
    requires Channels(s) && s.loop.Returned? && IsRun(s, actions)
    ensures var s' := After(s, actions);
            && Channels(s') && s'.loop.Returned?
            && Moves(actions) + DrainWork(s') <= DrainWork(s)
    decreases |actions|
  {
    if actions != [] {
      ChannelsKept(s, actions[0]);
      DrainDecreases(s, actions[0]);
      DrainRun(Next(s, actions[0]), actions[1..]);
    }
  }

  /** Once `schedule` has returned, every continuation takes boundedly many steps besides the passing of time, and
    * one that cannot go on has closed `done` with every job received handled and nothing left in the pipeline. */
  lemma {:induction false} ShutdownDrains(s: Pipe, before: seq<Action>, after: seq<Action>)
    requires Initial(s) && IsRun(s, before) && After(s, before).loop.Returned?
    requires IsRun(After(s, before), after)
    ensures Moves(after) <= DrainWork(After(s, before))
    ensures Still(After(After(s, before), after)) ==>
              var s' := After(After(s, before), after);
              && s'.gates.doneClosed && s'.gates.eventsClosed
              && HandledAll(s'.flow)
              && forall t :: Outstanding(s'.flow, t) == 0
  {
    InitialIsSound(s);
    RunIsSound(s, before);
    DrainRun(After(s, before), after);
    RunIsSound(After(s, before), after);
    SoundHandlesOnce(After(After(s, before), after));
    if Still(After(After(s, before), after)) && !After(After(s, before), after).flow.consumer.Finished? {
      var a := DrainNeverSticks(After(After(s, before), after));
      assert false;
    }
  }

  /** How far the loop is from returning, once it is cancelled. */
  function LoopRank(s: Pipe): nat {
    One(!s.gates.cancelled) + match s.loop
      case Dispatching(_) => 3
      case Sending(_, _) => 2
      case Waiting => 1
      case Returned => 0
  }

  /** A step on the way out that the scheduling loop can take in every state in which it has not returned. */
  lemma LoopNeverSticks(s: Pipe) returns (a: Action)
    requires Channels(s) && !s.loop.Returned?
    ensures Enabled(s, a) && LoopRank(Next(s, a)) < LoopRank(s)
    ensures a.Cancel? ==> !s.gates.cancelled
  {
    if !s.gates.cancelled {
      a := Cancel;
    } else {
      match s.loop
      case Waiting => a := ScheduleReturns;
      case Sending(_, _) => a := SendCancelled;
      case Dispatching(now) =>
        if DueConfigs(s.table, now) == {} {
          a := DispatchDone;
        } else {
          var id := SomethingToPop(s.table, now);
          a := PopDue(id);
        }
    }
  }

  /** Some continuation takes a sound state to the end of its shutdown. */
  lemma {:induction false} ShutsDown(s: Pipe) returns (actions: seq<Action>)
    requires Channels(s)
    ensures IsRun(s, actions) && After(s, actions).loop.Returned? && After(s, actions).flow.consumer.Finished?
    ensures s.gates.cancelled ==> Cancel !in actions
    decreases LoopRank(s), DrainWork(s)
  {
    if s.loop.Returned? && s.flow.consumer.Finished? {
      actions := [];
    } else {
      var a;
      if s.loop.Returned? {
        a := DrainNeverSticks(s);
        DrainDecreases(s, a);
      } else {
        a := LoopNeverSticks(s);
      }
      ChannelsKept(s, a);
      var rest := ShutsDown(Next(s, a));
      actions := [a] + rest;
      assert actions[1..] == rest;
    }
  }

  /** A shutdown can always be completed: from every state of every run, once it is cancelled, some continuation makes
    * `schedule` return and closes `done` and `events`, with every job received handled and nothing left. */
  lemma {:induction false} ShutdownIsReached(s: Pipe, before: seq<Action>) returns (after: seq<Action>)
    requires Initial(s) && IsRun(s, before)
    ensures IsRun(After(s, before), after)
    ensures After(s, before).gates.cancelled ==> Cancel !in after
    ensures var s' := After(After(s, before), after);
            && s'.loop.Returned? && s'.gates.doneClosed && s'.gates.eventsClosed
            && HandledAll(s'.flow)
            && forall t :: Outstanding(s'.flow, t) == 0
  {
    InitialIsSound(s);
    RunIsSound(s, before);
    after := ShutsDown(After(s, before));
    RunIsSound(After(s, before), after);
    SoundHandlesOnce(After(After(s, before), after));
  }
}
