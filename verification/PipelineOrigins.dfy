/** Where handled results come from: each is what one worker's check, or the lack of a checker, reported, at the time
  * the check ended. */
module PipelineOrigins {
  import opened Domain
  import opened Jobs
  import opened Results
  import opened SchedulerCore
  import opened Pipeline

  /** What a worker must make of the outcome of checking `job` that ended at `now`. */
  predicate Reports(job: CheckJob, outcome: CheckOutcome, now: Time, r: CheckResultInput) {
    && r.monitorID == job.base.monitorID && r.configID == job.base.configID
    && r.checkType == (if job.probe.PingProbe? then CheckPing else CheckHTTP)
    && r.checkedAt == now
    && match outcome
       case Answer(reachable, statusCode, responseTime, err, found) =>
         && r.reachable == reachable && r.statusCode == statusCode && r.responseTime == responseTime
         && r.error == err && r.foundKeywords == found
       case CheckError(message) => !r.reachable && r.error == Some(message) && NothingMeasured(r)
       case NoChecker =>
         && !r.reachable && NothingMeasured(r)
         && r.error == Some("Not available checker for this config: "
                            + if job.probe.PingProbe? then "ping" else "http")
  }

  predicate NothingMeasured(r: CheckResultInput) {
    r.statusCode == 0 && r.responseTime == 0 && r.foundKeywords.Elems() == []
  }

  /** The step at `k` ended the check of the job received under the item's ticket, and the item reports it. */
  ghost predicate EndedAt(s: Pipe, actions: seq<Action>, k: nat, item: Item) {
    && k < |actions| && actions[k].CheckReturns? && IsRun(s, actions[..k])
    && var p := After(s, actions[..k]);
       var w := actions[k].w;
       && w < |p.flow.workers|
       && item.ticket < |p.flow.received|
       && p.flow.workers[w] == Checking(item.ticket, p.flow.received[item.ticket])
       && Reports(p.flow.received[item.ticket], actions[k].outcome, p.clock, item.result)
  }

  ghost predicate Ended(s: Pipe, actions: seq<Action>, item: Item) {
    exists k: nat :: EndedAt(s, actions, k, item)
  }

  /** A worker checks the job it received under its ticket; every result on its way, or handled, came from a step of
    * the run. */
  ghost predicate AllEnded(s: Pipe, actions: seq<Action>, f: Flow) {
    && (forall w | 0 <= w < |f.workers| && f.workers[w].Checking? ::
          f.workers[w].ticket < |f.received| && f.received[f.workers[w].ticket] == f.workers[w].job)
    && (forall w | 0 <= w < |f.workers| && f.workers[w].Holding? :: Ended(s, actions, f.workers[w].item))
    && (forall i | 0 <= i < |f.results| :: Ended(s, actions, f.results[i]))
    && (f.consumer.Handling? || f.consumer.Offering? ==> Ended(s, actions, f.consumer.item))
    && (forall i | 0 <= i < |f.handled| :: Ended(s, actions, f.handled[i]))
  }

  lemma {:induction false} RunPrefix(s: Pipe, actions: seq<Action>, k: nat)
    requires IsRun(s, actions) && k < |actions|
    ensures IsRun(s, actions[..k]) && Enabled(After(s, actions[..k]), actions[k])
    ensures IsRun(s, actions[..k + 1]) && After(s, actions[..k + 1]) == Next(After(s, actions[..k]), actions[k])
    decreases k
  {
    assert actions[..k + 1][1..] == actions[1..][..k];
    if k > 0 {
      assert actions[..k][1..] == actions[1..][..k - 1];
      RunPrefix(Next(s, actions[0]), actions[1..], k - 1);
    }
  }

  /** The step that ends a check is where its item comes from. */
  lemma CheckEnds(s: Pipe, actions: seq<Action>, k: nat, p: Pipe)
    requires k < |actions| && IsRun(s, actions[..k]) && After(s, actions[..k]) == p && Enabled(p, actions[k])
    requires AllEnded(s, actions, p.flow) && actions[k].CheckReturns?
    ensures AllEnded(s, actions, NextFlow(p, actions[k]))
  {
    assert EndedAt(s, actions, k, NextFlow(p, actions[k]).workers[actions[k].w].item);
  }

  /** Every other step moves items along. */
  lemma OthersKeepEnded(s: Pipe, actions: seq<Action>, p: Pipe, a: Action)
    requires Enabled(p, a) && AllEnded(s, actions, p.flow) && !a.CheckReturns?
    ensures AllEnded(s, actions, NextFlow(p, a))
  {
  }

  lemma {:induction false} PrefixEnds(s: Pipe, actions: seq<Action>, k: nat)
    requires Initial(s) && IsRun(s, actions) && k <= |actions|
    ensures IsRun(s, actions[..k]) && AllEnded(s, actions, After(s, actions[..k]).flow)
  {
    if k > 0 {
      RunPrefix(s, actions, k - 1);
      PrefixEnds(s, actions, k - 1);
      var p := After(s, actions[..k - 1]);
      if actions[k - 1].CheckReturns? {
        CheckEnds(s, actions, k - 1, p);
      } else {
        OthersKeepEnded(s, actions, p, actions[k - 1]);
      }
    }
  }

  /** In every run each result handled is the report of one check that ended in that run: the one with its ticket, at
    * the time it says, with the outcome it had. */
  lemma {:induction false} HandledAreReports(s: Pipe, actions: seq<Action>, h: nat) returns (k: nat)
    requires Initial(s) && IsRun(s, actions) && h < |After(s, actions).flow.handled|
    ensures EndedAt(s, actions, k, After(s, actions).flow.handled[h])
  {
    PrefixEnds(s, actions, |actions|);
    assert actions[..|actions|] == actions;
    assert Ended(s, actions, After(s, actions).flow.handled[h]);
    k :| EndedAt(s, actions, k, After(s, actions).flow.handled[h]);
  }
}
