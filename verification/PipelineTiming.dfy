/** Timing over whole runs: without a config event in between, a config is never sent again earlier than its
  * last completion plus its interval. */
module PipelineTiming {
  import opened Domain
  import opened Jobs
  import opened Results
  import opened SchedulerCore
  import opened Pipeline
  import opened PipelineContents
  import opened PipelineSafety
  import opened PipelineOrigins

  /** Where the log last mentions `c`; -1 if nowhere. */
  function LastAt(log: seq<LogItem>, c: Id): (last: int)
    ensures -1 <= last < |log|
    ensures last >= 0 ==> log[last].config == c
    ensures forall k | last < k < |log| :: log[k].config != c
  {
    var n := |log| - 1;
    if n < 0 then -1
    else if log[n].config == c then n
    else LastAt(log[..n], c)
  }

  /** The interval a log item leaves its config with; `None` if it leaves the config unmapped. */
  function IntervalLeft(item: LogItem): Option<Duration> {
    if item.Reconfigured? then item.left else Some(item.interval)
  }

  /** Whether `item` may be the next thing the loop does to its config after `prev`. A send follows neither another
    * send nor, too early, a completion; a completion belongs to the job last sent; both use the interval in force. */
  predicate MayFollow(prev: LogItem, item: LogItem) {
    match item
    case Reconfigured(_, _) => true
    case Sent(_, _, interval, at) =>
      && !prev.Sent?
      && IntervalLeft(prev) == Some(interval)
      && (prev.Settled? ==> prev.completedAt + interval <= at)
    case Settled(_, ticket, interval, _) =>
      && !prev.Settled?
      && IntervalLeft(prev) == Some(interval)
      && (prev.Sent? ==> prev.ticket == ticket)
  }

  predicate SoundAt(log: seq<LogItem>, j: nat)
    requires j < |log|
  {
    var p := LastAt(log[..j], log[j].config);
    if p < 0 then !log[j].Settled? else MayFollow(log[p], log[j])
  }

  ghost predicate LogSound(log: seq<LogItem>) {
    forall j: nat | j < |log| :: SoundAt(log, j)
  }

  /** What the log says of `c` matches the state: its interval, and how far its last check has come. */
  ghost predicate TimedAt(s: Pipe, c: Id) {
    var p := LastAt(s.log, c);
    if p < 0 then !ConfigOutstanding(s.flow, c)
    else
      var last := s.log[p];
      && (c in s.table <==> IntervalLeft(last).Some?)
      && (c in s.table ==> IntervalLeft(last) == Some(s.table[c].job.base.interval))
      && (last.Sent? ==>
            && s.table[c].inFlight && !BeingSent(s, c)
            && forall t | IsOutstanding(s.flow, t) && t.config == c :: t.ticket == last.ticket)
      && (last.Settled? ==>
            && !ConfigOutstanding(s.flow, c)
            && (!s.table[c].inFlight ==> s.table[c].nextDue == last.completedAt + last.interval)
            && (BeingSent(s, c) ==> last.completedAt + last.interval <= s.loop.now))
  }

  ghost predicate Timed(s: Pipe) {
    forall c :: TimedAt(s, c)
  }

  /** What the loop logs of the flow is so: sent jobs were received, completions were handled. */
  ghost predicate LogTrue(log: seq<LogItem>, f: Flow) {
    && (forall j | 0 <= j < |log| && log[j].Sent? ::
          && log[j].ticket < |f.received|
          && f.received[log[j].ticket].base.configID == log[j].config)
    && (forall j | 0 <= j < |log| && log[j].Settled? :: CompletionHandled(f.handled, log[j]))
  }

  ghost predicate CompletionHandled(handled: seq<Item>, item: LogItem)
    requires item.Settled?
  {
    exists i :: 0 <= i < |handled| && handled[i].ticket == item.ticket &&
                handled[i].result.configID == item.config && handled[i].result.checkedAt == item.completedAt
  }

  lemma LastAtGrows(log: seq<LogItem>, more: seq<LogItem>, c: Id)
    requires |more| <= 1
    ensures LastAt(log + more, c) == if more != [] && more[0].config == c then |log| else LastAt(log, c)
  {
    var p, q := LastAt(log, c), LastAt(log + more, c);
    assert p >= 0 ==> (log + more)[p].config == c;
    assert 0 <= q < |log| ==> log[q].config == c;
  }

  lemma TimedKeptByOthers(s: Pipe, a: Action, c: Id)
    requires Steady(s) && TimedAt(s, c) && Enabled(s, a) && !ByLoop(a)
    ensures TimedAt(Next(s, a), c)
  {
    StepsOutstanding(s, a);
    OthersLeaveLoop(s, a);
  }

  /** A step of the loop that never logs anything. */
  lemma TimedKeptUnlogged(s: Pipe, a: Action, c: Id)
    requires Steady(s) && TimedAt(s, c) && Enabled(s, a) && ByLoop(a)
    requires !a.HandOff? && !a.TakeCompletion? && !a.TakeConfigEvent?
    ensures TimedAt(Next(s, a), c)
  {
    LastAtGrows(s.log, [], c);
    StepsOutstanding(s, a);
  }

  /** The steps of the loop that log something, of this config or another. */
  lemma TimedKeptBySend(s: Pipe, w: nat, c: Id)
    requires Steady(s) && TimedAt(s, c) && Enabled(s, HandOff(w))
    ensures TimedAt(Next(s, HandOff(w)), c)
  {
    LastAtGrows(s.log, Logged(s, HandOff(w)), c);
    StepsOutstanding(s, HandOff(w));
  }

  lemma TimedKeptByOwnCompletion(s: Pipe, c: Id)
    requires Steady(s) && TimedAt(s, c) && Enabled(s, TakeCompletion) && s.flow.consumer.item.result.configID == c
    ensures TimedAt(Next(s, TakeCompletion), c)
  {
    LastAtGrows(s.log, Logged(s, TakeCompletion), c);
    StepsOutstanding(s, TakeCompletion);
    ConsumerOutstanding(s.flow);
    assert Leaves(s.flow, TakeCompletion, ItemToken(s.flow.consumer.item)) == 1;
  }

  lemma TimedKeptByCompletion(s: Pipe, c: Id)
    requires Steady(s) && TimedAt(s, c) && Enabled(s, TakeCompletion)
    ensures TimedAt(Next(s, TakeCompletion), c)
  {
    if s.flow.consumer.item.result.configID == c {
      TimedKeptByOwnCompletion(s, c);
    } else {
      LastAtGrows(s.log, Logged(s, TakeCompletion), c);
      StepsOutstanding(s, TakeCompletion);
    }
  }

  lemma TimedKeptByConfigEvent(s: Pipe, ev: ConfigEvent, c: Id)
    requires Steady(s) && TimedAt(s, c) && Enabled(s, TakeConfigEvent(ev)) && !Recreates(s, TakeConfigEvent(ev))
    ensures TimedAt(Next(s, TakeConfigEvent(ev)), c)
  {
    LastAtGrows(s.log, Logged(s, TakeConfigEvent(ev)), c);
    StepsOutstanding(s, TakeConfigEvent(ev));
  }

  lemma TimedKept(s: Pipe, a: Action, c: Id)
    requires Steady(s) && TimedAt(s, c) && Enabled(s, a) && !Recreates(s, a)
    ensures TimedAt(Next(s, a), c)
  {
    if a.HandOff? {
      TimedKeptBySend(s, a.w, c);
    } else if a.TakeCompletion? {
      TimedKeptByCompletion(s, c);
    } else if a.TakeConfigEvent? {
      TimedKeptByConfigEvent(s, a.ev, c);
    } else if ByLoop(a) {
      TimedKeptUnlogged(s, a, c);
    } else {
      TimedKeptByOthers(s, a, c);
    }
  }

  lemma ConsumerOutstanding(f: Flow)
    requires Conserved(f) && (f.consumer.Handling? || f.consumer.Offering?)
    ensures IsOutstanding(f, ItemToken(f.consumer.item))
  {
  }

  lemma LogSoundKept(s: Pipe, a: Action)
    requires Steady(s) && Timed(s) && LogSound(s.log) && Enabled(s, a)
    ensures LogSound(Next(s, a).log)
  {
    var log' := Next(s, a).log;
    forall j: nat | j < |log'|
      ensures SoundAt(log', j)
    {
      assert log'[..j] == s.log[..j];
      if j < |s.log| {
        assert SoundAt(s.log, j);
      } else {
        assert log'[..j] == s.log;
        assert TimedAt(s, log'[j].config);
        if a.TakeCompletion? {
          ConsumerOutstanding(s.flow);
        }
      }
    }
  }

  lemma HandledStays(handled: seq<Item>, handled': seq<Item>, item: LogItem)
    requires item.Settled? && CompletionHandled(handled, item) && handled <= handled'
    ensures CompletionHandled(handled', item)
  {
    var i :| 0 <= i < |handled| && handled[i].ticket == item.ticket &&
             handled[i].result.configID == item.config && handled[i].result.checkedAt == item.completedAt;
    assert handled'[i] == handled[i];
  }

  lemma LogTrueKept(s: Pipe, a: Action)
    requires Conserved(s.flow) && LogTrue(s.log, s.flow) && Enabled(s, a)
    ensures LogTrue(Next(s, a).log, NextFlow(s, a))
  {
    var log', f' := Next(s, a).log, NextFlow(s, a);
    forall j | 0 <= j < |log'| && log'[j].Settled?
      ensures CompletionHandled(f'.handled, log'[j])
    {
      if j < |s.log| {
        assert CompletionHandled(s.flow.handled, s.log[j]);
        HandledStays(s.flow.handled, f'.handled, s.log[j]);
      }
    }
  }

  lemma {:induction false} RunIsTimed(s: Pipe, actions: seq<Action>)
    requires Steady(s) && Timed(s) && LogSound(s.log) && LogTrue(s.log, s.flow)
    requires IsRun(s, actions) && NeverRecreates(s, actions)
    ensures LogSound(After(s, actions).log) && LogTrue(After(s, actions).log, After(s, actions).flow)
    decreases |actions|
  {
    if actions != [] {
      var a := actions[0];
      SteadyKept(s, a);
      forall c
        ensures TimedAt(Next(s, a), c)
      {
        TimedKept(s, a, c);
      }
      LogSoundKept(s, a);
      LogTrueKept(s, a);
      RunIsTimed(Next(s, a), actions[1..]);
    }
  }

  /** `i` and `j` are consecutive sends of one config, with no config event for it in between. */
  ghost predicate ConsecutiveSends(log: seq<LogItem>, i: nat, j: nat) {
    && i < j < |log|
    && log[i].Sent? && log[j].Sent? && log[i].config == log[j].config
    && forall k | i < k < j && log[k].config == log[i].config :: log[k].Settled?
  }

  lemma SettledBetween(log: seq<LogItem>, i: nat, j: nat) returns (k: nat)
    requires LogSound(log) && ConsecutiveSends(log, i, j)
    ensures i < k < j && log[k].Settled? && log[k].config == log[i].config && log[k].ticket == log[i].ticket
    ensures log[j].interval == log[i].interval
    ensures log[k].completedAt + log[i].interval <= log[j].at
  {
    var c := log[i].config;
    assert SoundAt(log, j);
    k := LastAt(log[..j], c);
    assert k >= i by { assert log[..j][i].config == c; }
    assert SoundAt(log, k);
    assert LastAt(log[..k], c) >= i by { assert log[..k][i].config == c; }
  }

  /** Never too early: in every run that never recreates a config while its job is outstanding, between two
    * consecutive sends of a config with no config event for it in between, the check of the first job ended at some
    * step of the run, its result was handled, and the second send began no earlier than that step plus the job's
    * interval. */
  lemma {:induction false} NeverTooEarly(s: Pipe, actions: seq<Action>, i: nat, j: nat) returns (h: nat, k: nat)
    requires Initial(s) && IsRun(s, actions) && NeverRecreates(s, actions)
    requires ConsecutiveSends(After(s, actions).log, i, j)
    ensures var f, log := After(s, actions).flow, After(s, actions).log;
            && h < |f.handled|
            && f.handled[h].ticket == log[i].ticket
            && f.handled[h].result.configID == log[i].config
            && EndedAt(s, actions, k, f.handled[h])
            && After(s, actions[..k]).clock + log[i].interval <= log[j].at
            && log[j].interval == log[i].interval
  {
    InitialIsSound(s);
    RunIsTimed(s, actions);
    var f, log := After(s, actions).flow, After(s, actions).log;
    var settled := SettledBetween(log, i, j);
    assert CompletionHandled(f.handled, log[settled]);
    h :| 0 <= h < |f.handled| && f.handled[h].ticket == log[settled].ticket &&
         f.handled[h].result.configID == log[settled].config &&
         f.handled[h].result.checkedAt == log[settled].completedAt;
    k := HandledAreReports(s, actions, h);
  }

  /** An update takes its interval at the next completion or send, whether its config was in flight or not. */
  lemma {:induction false} IntervalInForce(s: Pipe, actions: seq<Action>, i: nat, j: nat)
    requires Initial(s) && IsRun(s, actions) && NeverRecreates(s, actions)
    requires var log := After(s, actions).log;
             && i < j < |log|
             && log[i].Reconfigured? && !log[j].Reconfigured? && log[j].config == log[i].config
             && forall k | i < k < j && log[k].config == log[i].config :: !log[k].Reconfigured?
    ensures After(s, actions).log[i].left == Some(After(s, actions).log[j].interval)
  {
    InitialIsSound(s);
    RunIsTimed(s, actions);
    IntervalCarries(After(s, actions).log, i, j);
  }

  lemma {:induction false} IntervalCarries(log: seq<LogItem>, i: nat, j: nat)
    requires LogSound(log) && i < j < |log| && log[j].config == log[i].config
    requires forall k | i < k <= j && log[k].config == log[i].config :: !log[k].Reconfigured?
    ensures IntervalLeft(log[i]) == Some(log[j].interval)
    decreases j
  {
    assert SoundAt(log, j);
    var p := LastAt(log[..j], log[i].config);
    assert p >= i by { assert log[..j][i].config == log[i].config; }
    if p > i {
      IntervalCarries(log, i, p);
    }
  }
}
