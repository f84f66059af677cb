/** Safety of the pipeline over whole runs: closes and sends in order, no job lost or handled twice, and no
  * two outstanding jobs of one config. */
module PipelineSafety {
  import opened Domain
  import opened Jobs
  import opened Results
  import opened SchedulerCore
  import opened Pipeline
  import opened PipelineContents

  // ---- channels ----------------------------------------------------------------------------------

  /** The order in which the goroutines end and close their channels. */
  ghost predicate Channels(s: Pipe) {
    var f, g := s.flow, s.gates;
    && 1 <= |f.workers| && |f.results| <= |f.workers|
    && (g.jobsClosed <==> s.loop.Returned?)
    && (s.loop.Returned? ==> g.cancelled)
    && (forall w | 0 <= w < |f.workers| && f.workers[w].Exited? :: g.jobsClosed)
    && (g.resultsClosed ==> forall w | 0 <= w < |f.workers| :: f.workers[w].Exited?)
    && (g.doneClosed <==> f.consumer.ClosingEvents? || f.consumer.Finished?)
    && (g.doneClosed ==> g.resultsClosed && f.results == [])
    && (g.eventsClosed <==> f.consumer.Finished?)
  }

  lemma ChannelsKept(s: Pipe, a: Action)
    requires Channels(s) && Enabled(s, a)
    ensures Channels(Next(s, a))
  {
  }

  /** Whether taking `a` sends on, or closes, a channel that is already closed. */
  predicate TouchesClosed(g: Gates, a: Action) {
    match a
    case HandOff(_) => g.jobsClosed
    case ScheduleReturns => g.jobsClosed
    case PushResult(_) => g.resultsClosed
    case CloseResults => g.resultsClosed
    case TakeCompletion => g.eventsClosed
    case CloseEvents => g.eventsClosed
    case CloseDone => g.doneClosed
    case _ => false
  }

  // ---- conservation ------------------------------------------------------------------------------

  /** Every job received is at a worker, in the buffer, or was passed to the handler, exactly once. */
  ghost predicate Conserved(f: Flow) {
    && (forall t :: Unhandled(f, t) + InItems(f.handled, t) == One(Issued(f.received, t)))
    && (f.consumer.Handling? || f.consumer.Offering? ==>
          f.handled != [] && f.consumer.item == f.handled[|f.handled| - 1])
  }

  /** Whether a step makes token `t` outstanding, ends it being so, or passes it to the handler. */
  function Arrives(s: Pipe, a: Action, t: Token): nat {
    if a.HandOff? && s.loop.Sending? then One(JobToken(|s.flow.received|, s.loop.job) == t) else 0
  }

  function Leaves(f: Flow, a: Action, t: Token): nat {
    if a.TakeCompletion? || a.OfferCancelled? then AtConsumer(f.consumer, t) else 0
  }

  function Delivered(f: Flow, a: Action, t: Token): nat {
    if a.ConsumerReceives? && f.results != [] then One(ItemToken(f.results[0]) == t) else 0
  }

  lemma UnhandledAfter(s: Pipe, a: Action, t: Token)
    requires Enabled(s, a)
    ensures Unhandled(NextFlow(s, a), t) + Delivered(s.flow, a, t) == Unhandled(s.flow, t) + Arrives(s, a, t)
  {
    var f, f' := s.flow, NextFlow(s, a);
    if a.HandOff? || a.CheckReturns? || a.PushResult? || a.WorkerExits? {
      WorkerUpdate(f.workers, a.w, f'.workers[a.w], t);
    }
    if a.PushResult? {
      ItemsAppend(f.results, f.workers[a.w].item, t);
    } else if a.ConsumerReceives? {
      ItemsDropFirst(f.results, t);
    }
  }

  lemma OutstandingAfter(s: Pipe, a: Action, t: Token)
    requires Enabled(s, a)
    ensures Outstanding(NextFlow(s, a), t) + Leaves(s.flow, a, t) == Outstanding(s.flow, t) + Arrives(s, a, t)
  {
    UnhandledAfter(s, a, t);
  }

  lemma ConservedKept(s: Pipe, a: Action)
    requires Conserved(s.flow) && Enabled(s, a)
    ensures Conserved(NextFlow(s, a))
  {
    var f, f' := s.flow, NextFlow(s, a);
    forall t
      ensures Unhandled(f', t) + InItems(f'.handled, t) == One(Issued(f'.received, t))
    {
      UnhandledAfter(s, a, t);
      if a.ConsumerReceives? {
        ItemsAppend(f.handled, f.results[0], t);
      }
    }
  }

  lemma InitialIsSound(s: Pipe)
    requires Initial(s)
    ensures Channels(s) && Conserved(s.flow) && forall t :: Outstanding(s.flow, t) == 0
  {
    forall t
      ensures Outstanding(s.flow, t) == 0
      ensures Unhandled(s.flow, t) + InItems(s.flow.handled, t) == One(Issued(s.flow.received, t))
    {
      NoneAtWorkers(s.flow.workers, t);
    }
  }

  lemma {:induction false} RunIsSound(s: Pipe, actions: seq<Action>)
    requires Channels(s) && Conserved(s.flow) && IsRun(s, actions)
    ensures Channels(After(s, actions)) && Conserved(After(s, actions).flow)
    decreases |actions|
  {
    if actions != [] {
      ChannelsKept(s, actions[0]);
      ConservedKept(s, actions[0]);
      RunIsSound(Next(s, actions[0]), actions[1..]);
    }
  }

  /** In every run no channel is sent on after its close or closed twice, and the scheduling loop never sees the
    * events channel closed. */
  lemma {:induction false} NeverTouchesClosed(s: Pipe, actions: seq<Action>, a: Action)
    requires Initial(s) && IsRun(s, actions) && Enabled(After(s, actions), a)
    ensures !TouchesClosed(After(s, actions).gates, a) && a != SeeEventsClosed
  {
    InitialIsSound(s);
    RunIsSound(s, actions);
    assert var f := After(s, actions).flow; f.workers[0].Exited? ==> After(s, actions).loop.Returned?;
  }

  /** Tickets number the jobs received, so an outstanding token occurs once. */
  lemma OutstandingOnce(f: Flow, t: Token)
    requires Conserved(f)
    ensures Outstanding(f, t) <= 1 && (Outstanding(f, t) == 1 ==> Issued(f.received, t))
  {
    if f.consumer.Handling? || f.consumer.Offering? {
      var last := |f.handled| - 1;
      ItemOccurs(f.handled, last, last);
      assert AtConsumer(f.consumer, t) == 1 ==> InItems(f.handled, t) >= 1;
    }
    assert Unhandled(f, t) + InItems(f.handled, t) == One(Issued(f.received, t));
  }

  /** What the handler was given: for each ticket at most one result, and that with the job's own identity. */
  ghost predicate HandledOwn(f: Flow) {
    && (forall i | 0 <= i < |f.handled| :: Issued(f.received, ItemToken(f.handled[i])))
    && (forall i, j | 0 <= i < j < |f.handled| :: f.handled[i].ticket != f.handled[j].ticket)
  }

  /** The job with this token was handled. */
  ghost predicate WasHandled(f: Flow, t: Token) {
    exists i :: 0 <= i < |f.handled| && ItemToken(f.handled[i]) == t
  }

  /** Every job received was handled. */
  ghost predicate HandledAll(f: Flow) {
    forall ticket: nat | ticket < |f.received| :: WasHandled(f, JobToken(ticket, f.received[ticket]))
  }

  lemma ConservedHandlesOwn(f: Flow)
    requires Conserved(f)
    ensures HandledOwn(f)
  {
    forall i | 0 <= i < |f.handled|
      ensures Issued(f.received, ItemToken(f.handled[i]))
    {
      ItemOccurs(f.handled, i, i);
      assert Unhandled(f, ItemToken(f.handled[i])) >= 0;
    }
    forall i, j | 0 <= i < j < |f.handled|
      ensures f.handled[i].ticket != f.handled[j].ticket
    {
      ItemOccurs(f.handled, i, j);
      assert Unhandled(f, ItemToken(f.handled[j])) >= 0;
    }
  }

  /** The handler was given each job at most once, and once `done` is closed each exactly once. */
  lemma SoundHandlesOnce(s: Pipe)
    requires Channels(s) && Conserved(s.flow)
    ensures HandledOwn(s.flow)
    ensures s.gates.doneClosed ==> HandledAll(s.flow) && forall t :: Outstanding(s.flow, t) == 0
  {
    var f := s.flow;
    ConservedHandlesOwn(f);
    if s.gates.doneClosed {
      forall t
        ensures Outstanding(f, t) == 0
      {
        NoneAtWorkers(f.workers, t);
      }
      forall ticket: nat | ticket < |f.received|
        ensures WasHandled(f, JobToken(ticket, f.received[ticket]))
      {
        var t := JobToken(ticket, f.received[ticket]);
        assert Outstanding(f, t) == 0;
        assert Issued(f.received, t);
        var i := ItemFound(f.handled, t);
      }
    }
  }

  /** In every run each result handled belongs to a job some worker received, no job is handled twice, and once
    * `done` is closed every job received was handled and nothing is left in the pipeline. */
  lemma {:induction false} HandledExactlyOnce(s: Pipe, actions: seq<Action>)
    requires Initial(s) && IsRun(s, actions)
    ensures HandledOwn(After(s, actions).flow)
    ensures After(s, actions).gates.doneClosed ==>
              && HandledAll(After(s, actions).flow)
              && forall t :: Outstanding(After(s, actions).flow, t) == 0
  {
    InitialIsSound(s);
    RunIsSound(s, actions);
    SoundHandlesOnce(After(s, actions));
  }

  // ---- no overlapping checks ---------------------------------------------------------------------

  ghost predicate IsOutstanding(f: Flow, t: Token) {
    Outstanding(f, t) > 0
  }

  ghost predicate ConfigOutstanding(f: Flow, config: Id) {
    exists t :: IsOutstanding(f, t) && t.config == config
  }

  predicate BeingSent(s: Pipe, config: Id) {
    s.loop.Sending? && s.loop.job.base.configID == config
  }

  ghost predicate AtMostOne(f: Flow) {
    forall t, u | IsOutstanding(f, t) && IsOutstanding(f, u) && t.config == u.config :: t == u
  }

  /** A config with an outstanding job is not being sent again and, if mapped, its state is in flight. */
  ghost predicate OutstandingInFlight(s: Pipe) {
    forall t | IsOutstanding(s.flow, t) ::
      !BeingSent(s, t.config) && (t.config in s.table ==> s.table[t.config].inFlight)
  }

  ghost predicate SendingInFlight(s: Pipe) {
    s.loop.Sending? ==>
      var c := s.loop.job.base.configID;
      c in s.table && s.table[c].inFlight && s.table[c].job == s.loop.job
  }

  ghost predicate InFlightOutstanding(s: Pipe) {
    forall c | c in s.table && s.table[c].inFlight :: BeingSent(s, c) || ConfigOutstanding(s.flow, c)
  }

  /** Each config has at most one job in the pipeline or being sent, and a mapped state whose job is there is in
    * flight; before cancellation only such states are in flight. */
  ghost predicate NoOverlap(s: Pipe) {
    && AtMostOne(s.flow)
    && OutstandingInFlight(s)
    && SendingInFlight(s)
    && (!s.gates.cancelled ==> InFlightOutstanding(s))
  }

  /** A config event that (re)creates the state of a config while a job of that config is still outstanding. */
  ghost predicate Recreates(s: Pipe, a: Action) {
    && a.TakeConfigEvent? && !a.ev.Deleted?
    && a.ev.Config() !in s.table
    && ConfigOutstanding(s.flow, a.ev.Config())
  }

  lemma FiledKept(s: Pipe, a: Action)
    requires TableFiled(s.table) && Enabled(s, a)
    ensures TableFiled(NextTable(s, a))
  {
  }

  lemma StepsOutstanding(s: Pipe, a: Action)
    requires Conserved(s.flow) && Enabled(s, a)
    ensures forall t | IsOutstanding(NextFlow(s, a), t) ::
              (IsOutstanding(s.flow, t) && Leaves(s.flow, a, t) == 0) || Arrives(s, a, t) == 1
    ensures forall t | IsOutstanding(s.flow, t) :: IsOutstanding(NextFlow(s, a), t) || Leaves(s.flow, a, t) == 1
    ensures forall t | Arrives(s, a, t) == 1 :: IsOutstanding(NextFlow(s, a), t)
  {
    forall t
      ensures IsOutstanding(NextFlow(s, a), t) ==>
                (IsOutstanding(s.flow, t) && Leaves(s.flow, a, t) == 0) || Arrives(s, a, t) == 1
      ensures IsOutstanding(s.flow, t) ==> IsOutstanding(NextFlow(s, a), t) || Leaves(s.flow, a, t) == 1
      ensures Arrives(s, a, t) == 1 ==> IsOutstanding(NextFlow(s, a), t)
    {
      OutstandingAfter(s, a, t);
      OutstandingOnce(s.flow, t);
    }
  }

  lemma UniqueKept(s: Pipe, a: Action)
    requires Conserved(s.flow) && NoOverlap(s) && Enabled(s, a)
    ensures AtMostOne(NextFlow(s, a))
  {
    StepsOutstanding(s, a);
  }

  /** The actions of the scheduling loop; the others leave its state and its table alone. */
  predicate ByLoop(a: Action) {
    || a.PopDue? || a.DispatchDone? || a.HandOff? || a.SendCancelled? || a.TimerFires?
    || a.TakeCompletion? || a.SeeEventsClosed? || a.TakeConfigEvent? || a.ScheduleReturns?
  }

  lemma OthersLeaveLoop(s: Pipe, a: Action)
    requires Enabled(s, a) && !ByLoop(a)
    ensures Next(s, a).loop == s.loop && Next(s, a).table == s.table && Next(s, a).log == s.log
    ensures forall t :: Arrives(s, a, t) == 0
  {
  }

  lemma FlagsKeptByOthers(s: Pipe, a: Action)
    requires Conserved(s.flow) && NoOverlap(s) && Enabled(s, a) && !ByLoop(a)
    ensures OutstandingInFlight(Next(s, a)) && SendingInFlight(Next(s, a))
  {
    StepsOutstanding(s, a);
    OthersLeaveLoop(s, a);
  }

  lemma FlagsKeptByLoop(s: Pipe, a: Action)
    requires Conserved(s.flow) && TableFiled(s.table) && NoOverlap(s) && Enabled(s, a) && !Recreates(s, a)
    requires ByLoop(a) && !a.TakeCompletion?
    ensures OutstandingInFlight(Next(s, a)) && SendingInFlight(Next(s, a))
  {
    StepsOutstanding(s, a);
  }

  lemma FlagsKeptByCompletion(s: Pipe)
    requires Conserved(s.flow) && NoOverlap(s) && Enabled(s, TakeCompletion)
    ensures OutstandingInFlight(Next(s, TakeCompletion)) && SendingInFlight(Next(s, TakeCompletion))
  {
    StepsOutstanding(s, TakeCompletion);
    var done := ItemToken(s.flow.consumer.item);
    assert Leaves(s.flow, TakeCompletion, done) == 1;
    OutstandingOnce(s.flow, done);
    assert IsOutstanding(s.flow, done);
  }

  lemma FlagsKept(s: Pipe, a: Action)
    requires Conserved(s.flow) && TableFiled(s.table) && NoOverlap(s) && Enabled(s, a) && !Recreates(s, a)
    ensures OutstandingInFlight(Next(s, a)) && SendingInFlight(Next(s, a))
  {
    if !ByLoop(a) {
      FlagsKeptByOthers(s, a);
    } else if a.TakeCompletion? {
      FlagsKeptByCompletion(s);
    } else {
      FlagsKeptByLoop(s, a);
    }
  }

  lemma InFlightKept(s: Pipe, a: Action)
    requires Conserved(s.flow) && TableFiled(s.table) && NoOverlap(s) && Enabled(s, a)
    ensures !NextGates(s.gates, a).cancelled ==> InFlightOutstanding(Next(s, a))
  {
    StepsOutstanding(s, a);
    var s' := Next(s, a);
    if !s'.gates.cancelled {
      forall c | c in s'.table && s'.table[c].inFlight
        ensures BeingSent(s', c) || ConfigOutstanding(s'.flow, c)
      {
        if a.HandOff? && BeingSent(s, c) {
          assert Arrives(s, a, JobToken(|s.flow.received|, s.loop.job)) == 1;
        } else if c in s.table && s.table[c].inFlight && !BeingSent(s, c) {
          var t :| IsOutstanding(s.flow, t) && t.config == c;
          assert Leaves(s.flow, a, t) == 0;
        }
      }
    }
  }

  lemma {:induction false} NoOverlapKept(s: Pipe, a: Action)
    requires Conserved(s.flow) && TableFiled(s.table) && NoOverlap(s)
    requires Enabled(s, a) && !Recreates(s, a)
    ensures NoOverlap(Next(s, a))
  {
    UniqueKept(s, a);
    FlagsKept(s, a);
    InFlightKept(s, a);
  }

  /** A recreated config waits on the heap while its old job is outstanding. */
  lemma NoOverlapBroken(s: Pipe, a: Action)
    requires Conserved(s.flow) && Enabled(s, a) && Recreates(s, a)
    ensures !NoOverlap(Next(s, a))
  {
    StepsOutstanding(s, a);
    var t :| IsOutstanding(s.flow, t) && t.config == a.ev.Config();
    assert IsOutstanding(NextFlow(s, a), t);
  }

  /** What every run that never recreates keeps. */
  ghost predicate Steady(s: Pipe) {
    Channels(s) && Conserved(s.flow) && TableFiled(s.table) && NoOverlap(s)
  }

  lemma InitialIsSteady(s: Pipe)
    requires Initial(s)
    ensures Steady(s)
  {
    InitialIsSound(s);
  }

  lemma SteadyKept(s: Pipe, a: Action)
    requires Steady(s) && Enabled(s, a) && !Recreates(s, a)
    ensures Steady(Next(s, a))
  {
    ChannelsKept(s, a);
    ConservedKept(s, a);
    FiledKept(s, a);
    NoOverlapKept(s, a);
  }

  ghost predicate NoOverlapThroughout(s: Pipe, actions: seq<Action>)
    requires IsRun(s, actions)
    decreases |actions|
  {
    NoOverlap(s) && (actions != [] ==> NoOverlapThroughout(Next(s, actions[0]), actions[1..]))
  }

  ghost predicate NeverRecreates(s: Pipe, actions: seq<Action>)
    requires IsRun(s, actions)
    decreases |actions|
  {
    actions == [] || (!Recreates(s, actions[0]) && NeverRecreates(Next(s, actions[0]), actions[1..]))
  }

  lemma {:induction false} NoOverlapIffFrom(s: Pipe, actions: seq<Action>)
    requires IsRun(s, actions) && Steady(s)
    ensures NoOverlapThroughout(s, actions) <==> NeverRecreates(s, actions)
    decreases |actions|
  {
    if actions != [] {
      var a := actions[0];
      if Recreates(s, a) {
        NoOverlapBroken(s, a);
      } else {
        SteadyKept(s, a);
        NoOverlapIffFrom(Next(s, a), actions[1..]);
      }
    }
  }

  /** A run from the start keeps, in every state, at most one job of each config outstanding and every flag truthful,
    * exactly when no config event recreates a config while its job is outstanding. The step that does so breaks the
    * flags only; that a second job follows is shown in `Overlaps`. */
  lemma {:induction false} NoOverlapIffNeverRecreates(s: Pipe, actions: seq<Action>)
    requires Initial(s) && IsRun(s, actions)
    ensures NoOverlapThroughout(s, actions) <==> NeverRecreates(s, actions)
  {
    InitialIsSteady(s);
    NoOverlapIffFrom(s, actions);
  }

  lemma {:induction false} RunIsSteady(s: Pipe, actions: seq<Action>)
    requires Steady(s) && IsRun(s, actions) && NeverRecreates(s, actions)
    ensures Steady(After(s, actions))
    decreases |actions|
  {
    if actions != [] {
      SteadyKept(s, actions[0]);
      RunIsSteady(Next(s, actions[0]), actions[1..]);
    }
  }

  /** The completion the consumer offers is of an unmapped config, or of a mapped one whose state is in flight and so
    * not on the heap. */
  predicate OffersTimely(s: Pipe) {
    s.flow.consumer.Offering? ==>
      var config := s.flow.consumer.item.result.configID;
      config in s.table ==> s.table[config].inFlight
  }

  lemma SteadyOffersTimely(s: Pipe)
    requires Steady(s)
    ensures OffersTimely(s)
  {
    if s.flow.consumer.Offering? {
      assert IsOutstanding(s.flow, ItemToken(s.flow.consumer.item));
    }
  }

  /** In such a run no completion is stale. */
  lemma {:induction false} CompletionsAreNeverStale(s: Pipe, actions: seq<Action>)
    requires Initial(s) && IsRun(s, actions) && NeverRecreates(s, actions)
    ensures OffersTimely(After(s, actions))
  {
    InitialIsSteady(s);
    RunIsSteady(s, actions);
    SteadyOffersTimely(After(s, actions));
  }
}
