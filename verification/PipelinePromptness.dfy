/** When a dispatch that is not cut short sends a config: exactly if it was due, with the job it has then. So an update
  * is sent at once, a repeated creation keeps its time, and no completed config waits beyond its interval. */
module PipelinePromptness {
  import opened Domain
  import opened Jobs
  import opened Results
  import opened SchedulerCore
  import opened Pipeline
  import opened PipelineContents
  import opened PipelineSafety
  import opened PipelineTiming
  import opened PipelineCapacity

  /** Since `before`, some worker received `job` from the dispatch that began at `now`, and the log says so. */
  ghost predicate SentSince(before: Pipe, after: Pipe, job: CheckJob, now: Time) {
    exists ticket: nat :: SentUnder(before, after, job, now, ticket)
  }

  ghost predicate SentUnder(before: Pipe, after: Pipe, job: CheckJob, now: Time, ticket: nat) {
    && |before.flow.received| <= ticket < |after.flow.received|
    && after.flow.received[ticket] == job
    && before.log <= after.log
    && Sent(job.base.configID, ticket, job.base.interval, now) in after.log[|before.log|..]
  }

  /** Since `before`, no worker received a job of `config`. */
  ghost predicate UnsentSince(before: Pipe, after: Pipe, config: Id) {
    && before.flow.received <= after.flow.received
    && forall ticket | |before.flow.received| <= ticket < |after.flow.received| ::
         after.flow.received[ticket].base.configID != config
  }

  /** The dispatch of `now` is still to send `job`, is at it, or has done so. */
  ghost predicate WillSend(before: Pipe, s: Pipe, job: CheckJob, now: Time) {
    var c := job.base.configID;
    && before.flow.received <= s.flow.received && before.log <= s.log
    && (InDispatch(s) ==> s.loop.now == now)
    && (|| (InDispatch(s) && c in DueConfigs(s.table, now) && s.table[c].job == job)
        || s.loop == Sending(job, now)
        || SentSince(before, s, job, now))
  }

  lemma SentStays(before: Pipe, s: Pipe, a: Action, job: CheckJob, now: Time)
    requires Enabled(s, a) && SentSince(before, s, job, now)
    ensures SentSince(before, Next(s, a), job, now)
  {
    var ticket: nat :| SentUnder(before, s, job, now, ticket);
    var s' := Next(s, a);
    assert s'.flow.received[ticket] == job;
    assert s'.log[|before.log|..] == s.log[|before.log|..] + Logged(s, a);
    assert SentUnder(before, s', job, now, ticket);
  }

  lemma HandOffSends(before: Pipe, s: Pipe, w: nat, job: CheckJob, now: Time)
    requires Enabled(s, HandOff(w)) && s.loop == Sending(job, now)
    requires before.flow.received <= s.flow.received && before.log <= s.log
    ensures SentSince(before, Next(s, HandOff(w)), job, now)
  {
    var s' := Next(s, HandOff(w));
    assert s'.log[|s.log|] == Sent(job.base.configID, |s.flow.received|, job.base.interval, now);
    assert s'.log[|before.log|..][|s.log| - |before.log|] == s'.log[|s.log|];
    assert SentUnder(before, s', job, now, |s.flow.received|);
  }

  lemma WillSendKept(before: Pipe, s: Pipe, a: Action, job: CheckJob, now: Time)
    requires WillSend(before, s, job, now) && Enabled(s, a) && DuringDispatch(a)
    ensures WillSend(before, Next(s, a), job, now)
  {
    if SentSince(before, s, job, now) {
      SentStays(before, s, a, job, now);
    } else if a.HandOff? && s.loop == Sending(job, now) {
      HandOffSends(before, s, a.w, job, now);
    }
  }

  lemma {:induction false} RunWillSend(before: Pipe, s: Pipe, actions: seq<Action>, job: CheckJob, now: Time)
    requires WillSend(before, s, job, now) && IsRun(s, actions) && forall a | a in actions :: DuringDispatch(a)
    ensures WillSend(before, After(s, actions), job, now)
    decreases |actions|
  {
    if actions != [] {
      WillSendKept(before, s, actions[0], job, now);
      RunWillSend(before, Next(s, actions[0]), actions[1..], job, now);
    }
  }

  /** The dispatch of `now` has not sent the config and is not about to. */
  ghost predicate WillNotSend(before: Pipe, s: Pipe, config: Id, now: Time) {
    && UnsentSince(before, s, config)
    && (InDispatch(s) ==> s.loop.now == now && config !in DueConfigs(s.table, now))
    && !BeingSent(s, config)
    && TableFiled(s.table)
  }

  lemma UnsentStays(before: Pipe, s: Pipe, a: Action, config: Id, now: Time)
    requires WillNotSend(before, s, config, now) && Enabled(s, a)
    ensures UnsentSince(before, Next(s, a), config)
  {
    var received, received' := s.flow.received, NextFlow(s, a).received;
    forall ticket | |before.flow.received| <= ticket < |received'|
      ensures received'[ticket].base.configID != config
    {
      assert ticket < |received| ==> received'[ticket] == received[ticket];
    }
  }

  lemma WillNotSendKept(before: Pipe, s: Pipe, a: Action, config: Id, now: Time)
    requires WillNotSend(before, s, config, now) && Enabled(s, a) && DuringDispatch(a)
    ensures WillNotSend(before, Next(s, a), config, now)
  {
    UnsentStays(before, s, a, config, now);
    FiledKept(s, a);
  }

  lemma {:induction false} RunWillNotSend(before: Pipe, s: Pipe, actions: seq<Action>, config: Id, now: Time)
    requires WillNotSend(before, s, config, now) && IsRun(s, actions) && forall a | a in actions :: DuringDispatch(a)
    ensures WillNotSend(before, After(s, actions), config, now)
    decreases |actions|
  {
    if actions != [] {
      WillNotSendKept(before, s, actions[0], config, now);
      RunWillNotSend(before, Next(s, actions[0]), actions[1..], config, now);
    }
  }

  /** `during` takes the dispatch `d` is at the start of to its end. */
  ghost predicate Dispatches(d: Pipe, during: seq<Action>) {
    && d.loop.Dispatching? && IsRun(d, during) && (forall a | a in during :: DuringDispatch(a))
    && After(d, during).loop.Waiting?
  }

  /** A dispatch that is not cut short sends a config exactly if it is due, and then with the job it has. */
  lemma {:induction false} SendsExactlyDue(d: Pipe, during: seq<Action>, config: Id)
    requires TableFiled(d.table) && Dispatches(d, during)
    ensures config in DueConfigs(d.table, d.loop.now) ==>
              SentSince(d, After(d, during), d.table[config].job, d.loop.now)
    ensures config !in DueConfigs(d.table, d.loop.now) ==> UnsentSince(d, After(d, during), config)
  {
    if config in DueConfigs(d.table, d.loop.now) {
      RunWillSend(d, d, during, d.table[config].job, d.loop.now);
    } else {
      RunWillNotSend(d, d, during, config, d.loop.now);
    }
  }

  /** Before cancellation a config none of whose jobs is outstanding is not in flight while the loop waits. */
  lemma IdleConfigWaits(s: Pipe, config: Id)
    requires Steady(s) && (s.loop.Waiting? || s.loop.Dispatching?) && !s.gates.cancelled
    requires !ConfigOutstanding(s.flow, config) && config in s.table
    ensures !s.table[config].inFlight
  {
  }

  /** An update is prompt: after any run that never recreates a config while its job is outstanding, if no job of the
    * config is outstanding when the update arrives, the dispatch that follows sends the new job, at the time of the
    * update. So it is of the creation of a config that was not there. */
  lemma {:induction false} UpdatesArePrompt(s: Pipe, before: seq<Action>, ev: ConfigEvent, during: seq<Action>)
    requires Initial(s) && IsRun(s, before) && NeverRecreates(s, before)
    requires var p := After(s, before);
             && Enabled(p, TakeConfigEvent(ev)) && !p.gates.cancelled
             && (ev.Updated? || (ev.Created? && ev.Config() !in p.table))
             && !ConfigOutstanding(p.flow, ev.Config())
             && Dispatches(Next(p, TakeConfigEvent(ev)), during)
    ensures var p := After(s, before);
            var d := Next(p, TakeConfigEvent(ev));
            SentSince(d, After(d, during), ev.job, p.clock)
  {
    InitialIsSteady(s);
    RunIsSteady(s, before);
    var p := After(s, before);
    if ev.Config() in p.table {
      IdleConfigWaits(p, ev.Config());
    }
    FiledKept(p, TakeConfigEvent(ev));
    SendsExactlyDue(Next(p, TakeConfigEvent(ev)), during, ev.Config());
  }

  /** An update of a config whose job is outstanding sends nothing, and the config stays in flight with the new job. */
  lemma {:induction false} UpdatesInFlightWait(s: Pipe, before: seq<Action>, ev: ConfigEvent, during: seq<Action>)
    requires Initial(s) && IsRun(s, before) && NeverRecreates(s, before)
    requires var p := After(s, before);
             && Enabled(p, TakeConfigEvent(ev)) && !ev.Deleted?
             && ev.Config() in p.table && ConfigOutstanding(p.flow, ev.Config())
             && Dispatches(Next(p, TakeConfigEvent(ev)), during)
    ensures var d := Next(After(s, before), TakeConfigEvent(ev));
            && ev.Config() in d.table && d.table[ev.Config()].inFlight && d.table[ev.Config()].job == ev.job
            && UnsentSince(d, After(d, during), ev.Config())
  {
    InitialIsSteady(s);
    RunIsSteady(s, before);
    var p := After(s, before);
    FiledKept(p, TakeConfigEvent(ev));
    SendsExactlyDue(Next(p, TakeConfigEvent(ev)), during, ev.Config());
  }

  /** A repeated creation keeps the config's time: the dispatch that follows sends the new job exactly if the config
    * waited and was due already. */
  lemma {:induction false} CreationsKeepTime(s: Pipe, before: seq<Action>, ev: ConfigEvent, during: seq<Action>)
    requires Initial(s) && IsRun(s, before) && NeverRecreates(s, before)
    requires var p := After(s, before);
             && Enabled(p, TakeConfigEvent(ev)) && ev.Created? && ev.Config() in p.table
             && Dispatches(Next(p, TakeConfigEvent(ev)), during)
    ensures var p := After(s, before);
            var d, e := Next(p, TakeConfigEvent(ev)), p.table[ev.Config()];
            && ev.Config() in d.table && d.table[ev.Config()] == Entry(ev.job, e.nextDue, e.inFlight)
            && if !e.inFlight && e.nextDue <= p.clock then SentSince(d, After(d, during), ev.job, p.clock)
               else UnsentSince(d, After(d, during), ev.Config())
  {
    InitialIsSteady(s);
    RunIsSteady(s, before);
    var p := After(s, before);
    FiledKept(p, TakeConfigEvent(ev));
    SendsExactlyDue(Next(p, TakeConfigEvent(ev)), during, ev.Config());
  }

  lemma {:induction false} RunStaysTimed(s: Pipe, actions: seq<Action>, c: Id)
    requires Steady(s) && TimedAt(s, c) && IsRun(s, actions) && NeverRecreates(s, actions)
    ensures TimedAt(After(s, actions), c)
    decreases |actions|
  {
    if actions != [] {
      SteadyKept(s, actions[0]);
      TimedKept(s, actions[0], c);
      RunStaysTimed(Next(s, actions[0]), actions[1..], c);
    }
  }

  /** Never too late, the partner of `NeverTooEarly`: if the last thing the loop did with a config was to apply its
    * completion, then a dispatch that is not cut short sends it exactly if the interval since then has passed. */
  lemma {:induction false} NeverTooLate(s: Pipe, before: seq<Action>, config: Id, during: seq<Action>)
    requires Initial(s) && IsRun(s, before) && NeverRecreates(s, before)
    requires var d := After(s, before);
             && LastAt(d.log, config) >= 0 && d.log[LastAt(d.log, config)].Settled?
             && !d.gates.cancelled && Dispatches(d, during)
    ensures var d := After(s, before);
            var last := d.log[LastAt(d.log, config)];
            if last.completedAt + last.interval <= d.loop.now
            then config in d.table && d.table[config].job.base.interval == last.interval
                 && SentSince(d, After(d, during), d.table[config].job, d.loop.now)
            else UnsentSince(d, After(d, during), config)
  {
    InitialIsSteady(s);
    RunIsSteady(s, before);
    RunStaysTimed(s, before, config);
    var d := After(s, before);
    IdleConfigWaits(d, config);
    SendsExactlyDue(d, during, config);
  }

  /** A waiting loop is never stuck with a due config: when the timer fires after the interval has passed, and the
    * pipeline has room for what is due, some continuation sends the config at that time. */
  lemma {:induction false} DueIsSent(s: Pipe, before: seq<Action>, config: Id) returns (during: seq<Action>)
    requires Initial(s) && IsRun(s, before) && NeverRecreates(s, before)
    requires var p := After(s, before);
             && p.loop.Waiting? && !p.gates.cancelled
             && LastAt(p.log, config) >= 0 && p.log[LastAt(p.log, config)].Settled?
             && p.log[LastAt(p.log, config)].completedAt + p.log[LastAt(p.log, config)].interval <= p.clock
             && Load(p.flow) + |DueConfigs(p.table, p.clock)| <= 2 * |p.flow.workers| + 1
    ensures var p := After(s, before);
            && config in p.table && Enabled(p, TimerFires)
            && Dispatches(Next(p, TimerFires), during)
            && SentSince(p, After(Next(p, TimerFires), during), p.table[config].job, p.clock)
  {
    InitialIsSteady(s);
    RunIsSteady(s, before);
    RunStaysTimed(s, before, config);
    DispatchesAreOpen(s, before);
    var p := After(s, before);
    IdleConfigWaits(p, config);
    var d := Next(p, TimerFires);
    ChannelsKept(p, TimerFires);
    during := SomeRunIsQuiet(d);
    DispatchCompletesIffItFits(d, during);
    SendsExactlyDue(d, during, config);
    assert d.flow.received == p.flow.received && d.log == p.log;
    var ticket: nat :| SentUnder(d, After(d, during), d.table[config].job, p.clock, ticket);
    assert SentUnder(p, After(d, during), p.table[config].job, p.clock, ticket);
  }
}
