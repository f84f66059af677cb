/** When checks of one config overlap: a config event leads to two outstanding jobs of a config exactly when it
  * recreates the config while a job of it is outstanding, if the dispatch that follows can complete. */
module Overlaps {
  import opened Domain
  import opened Jobs
  import opened Results
  import opened SchedulerCore
  import opened Pipeline
  import opened PipelineContents
  import opened PipelineSafety
  import opened PipelineCapacity

  /** Another job of the token's config is outstanding as well. */
  ghost predicate HasSecond(f: Flow, t: Token) {
    exists u :: IsOutstanding(f, u) && u.config == t.config && u != t
  }

  /** The token's config has a second job outstanding, or is about to. */
  ghost predicate WillOverlap(s: Pipe, t: Token) {
    && Conserved(s.flow) && TableFiled(s.table) && IsOutstanding(s.flow, t)
    && (|| HasSecond(s.flow, t)
        || BeingSent(s, t.config)
        || (InDispatch(s) && t.config in DueConfigs(s.table, s.loop.now)))
  }

  /** The dispatch takes no completion, so what is outstanding stays so. */
  lemma OutstandingStays(s: Pipe, a: Action, t: Token)
    requires Conserved(s.flow) && Enabled(s, a) && DuringDispatch(a) && IsOutstanding(s.flow, t)
    ensures IsOutstanding(NextFlow(s, a), t)
  {
    StepsOutstanding(s, a);
    assert Leaves(s.flow, a, t) == 0;
  }

  /** A job handed over is another one than any outstanding before. */
  lemma HandedOverIsSecond(s: Pipe, w: nat, t: Token)
    requires Conserved(s.flow) && Enabled(s, HandOff(w)) && IsOutstanding(s.flow, t) && BeingSent(s, t.config)
    ensures HasSecond(NextFlow(s, HandOff(w)), t)
  {
    var u := JobToken(|s.flow.received|, s.loop.job);
    OutstandingOnce(s.flow, t);
    StepsOutstanding(s, HandOff(w));
    assert Arrives(s, HandOff(w), u) == 1;
  }

  lemma WillOverlapKept(s: Pipe, a: Action, t: Token)
    requires WillOverlap(s, t) && Enabled(s, a) && DuringDispatch(a)
    ensures WillOverlap(Next(s, a), t)
  {
    ConservedKept(s, a);
    FiledKept(s, a);
    OutstandingStays(s, a, t);
    if HasSecond(s.flow, t) {
      var u :| IsOutstanding(s.flow, u) && u.config == t.config && u != t;
      OutstandingStays(s, a, u);
    } else if a.HandOff? && BeingSent(s, t.config) {
      HandedOverIsSecond(s, a.w, t);
    }
  }

  lemma {:induction false} DispatchWillOverlap(s: Pipe, actions: seq<Action>, t: Token)
    requires WillOverlap(s, t) && IsRun(s, actions) && forall a | a in actions :: DuringDispatch(a)
    ensures WillOverlap(After(s, actions), t)
    decreases |actions|
  {
    if actions != [] {
      WillOverlapKept(s, actions[0], t);
      DispatchWillOverlap(Next(s, actions[0]), actions[1..], t);
    }
  }

  /** Whenever a config is recreated while a job of it is outstanding, a second job of it is outstanding once the
    * dispatch that follows has completed. */
  lemma {:induction false} RecreationAlwaysOverlaps(s: Pipe, r: Action, actions: seq<Action>)
    requires Conserved(s.flow) && TableFiled(s.table) && Enabled(s, r) && Recreates(s, r)
    requires IsRun(Next(s, r), actions) && forall a | a in actions :: DuringDispatch(a)
    requires After(Next(s, r), actions).loop.Waiting?
    ensures !AtMostOne(After(Next(s, r), actions).flow)
  {
    var t :| IsOutstanding(s.flow, t) && t.config == r.ev.Config();
    FiledKept(s, r);
    DispatchWillOverlap(Next(s, r), actions, t);
    var f := After(Next(s, r), actions).flow;
    var u :| IsOutstanding(f, u) && u.config == t.config && u != t;
  }

  lemma {:induction false} DispatchNeverRecreates(s: Pipe, actions: seq<Action>)
    requires IsRun(s, actions) && forall a | a in actions :: DuringDispatch(a)
    ensures NeverRecreates(s, actions)
    decreases |actions|
  {
    if actions != [] {
      assert actions[0] in actions;
      DispatchNeverRecreates(Next(s, actions[0]), actions[1..]);
    }
  }

  /** Otherwise no config has two jobs outstanding, at the end of the dispatch as at any time during it. */
  lemma {:induction false} OthersNeverOverlap(s: Pipe, a: Action, actions: seq<Action>)
    requires Steady(s) && Enabled(s, a) && !Recreates(s, a)
    requires IsRun(Next(s, a), actions) && forall b | b in actions :: DuringDispatch(b)
    ensures AtMostOne(After(Next(s, a), actions).flow)
  {
    SteadyKept(s, a);
    DispatchNeverRecreates(Next(s, a), actions);
    RunIsSteady(Next(s, a), actions);
  }

  /** After any run that never recreated, a config event makes checks of one config overlap exactly when it recreates
    * the config: with the dispatch that follows run until nothing more is possible, and its jobs fitting. */
  lemma {:induction false} OverlapsIffRecreated(s: Pipe, before: seq<Action>, ev: ConfigEvent, during: seq<Action>)
    requires Initial(s) && IsRun(s, before) && NeverRecreates(s, before)
    requires Enabled(After(s, before), TakeConfigEvent(ev))
    requires IsRun(Next(After(s, before), TakeConfigEvent(ev)), during)
    requires (forall a | a in during :: DuringDispatch(a)) &&
             Quiet(After(Next(After(s, before), TakeConfigEvent(ev)), during))
    ensures var d := Next(After(s, before), TakeConfigEvent(ev));
            Load(d.flow) + |DueConfigs(d.table, d.loop.now)| <= 2 * |d.flow.workers| + 1 ==>
              (Recreates(After(s, before), TakeConfigEvent(ev)) <==> !AtMostOne(After(d, during).flow))
  {
    var p, r := After(s, before), TakeConfigEvent(ev);
    InitialIsSteady(s);
    RunIsSteady(s, before);
    DispatchesAreOpen(s, before);
    ChannelsKept(p, r);
    DispatchCompletesIffItFits(Next(p, r), during);
    if Recreates(p, r) {
      if After(Next(p, r), during).loop.Waiting? {
        RecreationAlwaysOverlaps(p, r, during);
      }
    } else {
      OthersNeverOverlap(p, r, during);
    }
  }

  // ---- whole runs --------------------------------------------------------------------------------

  /** In no state of the run has a config two jobs outstanding. */
  ghost predicate AtMostOneThroughout(s: Pipe, actions: seq<Action>)
    requires IsRun(s, actions)
    decreases |actions|
  {
    AtMostOne(s.flow) && (actions != [] ==> AtMostOneThroughout(Next(s, actions[0]), actions[1..]))
  }

  /** Before it is cancelled nothing else happens during a dispatch. */
  lemma DispatchGoesOn(s: Pipe, a: Action)
    requires Channels(s) && InDispatch(s) && !s.gates.cancelled && Enabled(s, a) && a != Cancel
    ensures DuringDispatch(a)
  {
    assert s.flow.workers[0].Exited? ==> s.gates.jobsClosed;
  }

  lemma {:induction false} RecreationShows(s: Pipe, actions: seq<Action>, t: Token)
    requires Channels(s) && !s.gates.cancelled && (InDispatch(s) || s.loop.Waiting?) && WillOverlap(s, t)
    requires IsRun(s, actions) && Cancel !in actions && After(s, actions).loop.Waiting?
    ensures !AtMostOneThroughout(s, actions)
    decreases |actions|
  {
    if HasSecond(s.flow, t) {
      var u :| IsOutstanding(s.flow, u) && u.config == t.config && u != t;
    } else {
      var a := actions[0];
      assert a in actions;
      DispatchGoesOn(s, a);
      ChannelsKept(s, a);
      WillOverlapKept(s, a, t);
      RecreationShows(Next(s, a), actions[1..], t);
    }
  }

  lemma {:induction false} OverlapFreeFrom(s: Pipe, actions: seq<Action>)
    requires Steady(s) && !s.gates.cancelled
    requires IsRun(s, actions) && Cancel !in actions && After(s, actions).loop.Waiting?
    ensures AtMostOneThroughout(s, actions) <==> NeverRecreates(s, actions)
    decreases |actions|
  {
    if actions != [] {
      var a := actions[0];
      assert a in actions;
      if Recreates(s, a) {
        var t :| IsOutstanding(s.flow, t) && t.config == a.ev.Config();
        ChannelsKept(s, a);
        FiledKept(s, a);
        RecreationShows(Next(s, a), actions[1..], t);
      } else {
        SteadyKept(s, a);
        OverlapFreeFrom(Next(s, a), actions[1..]);
      }
    }
  }

  /** In a run from the start, not cancelled, in which every dispatch has completed, no config ever has two jobs
    * outstanding exactly when no config event recreates a config while its job is outstanding. */
  lemma {:induction false} OverlapFreeIffNeverRecreates(s: Pipe, actions: seq<Action>)
    requires Initial(s) && IsRun(s, actions) && Cancel !in actions && After(s, actions).loop.Waiting?
    ensures AtMostOneThroughout(s, actions) <==> NeverRecreates(s, actions)
  {
    InitialIsSteady(s);
    OverlapFreeFrom(s, actions);
  }
}
