/** What the scheduler's steps do to its `configID -> state` table, on values. */
module SchedulerCore {
  import opened Domain
  import opened Jobs

  /** `monitor.ConfigChangeEvent`; its own MonitorID field is never read. */
  datatype ConfigEvent = Created(job: CheckJob) | Updated(job: CheckJob) | Deleted(job: CheckJob) {
    function Config(): Id {
      job.base.configID
    }
  }

  datatype Entry = Entry(job: CheckJob, nextDue: Time, inFlight: bool)

  type Table = map<Id, Entry>

  function JobsOf(t: Table): (r: Registry)
    ensures r.Keys == t.Keys
  {
    map id | id in t :: t[id].job
  }

  ghost predicate TableFiled(t: Table) {
    forall id | id in t :: t[id].job.base.configID == id
  }

  /** A config as `buildEntries` meets it, with the clock reading and the random draw it makes for it. */
  datatype Listed = Listed(job: CheckJob, at: Time, draw: int)

  /** `buildEntries` on values: a later config replaces an earlier one with the same identifier. */
  function StartTable(listed: seq<Listed>): Table {
    if listed == [] then map[]
    else
      var n := |listed| - 1;
      var c := listed[n];
      StartTable(listed[..n])[c.job.base.configID := Entry(c.job, c.at + c.draw, false)]
  }

  /** Some listed config became the entry `e` filed under `id`. */
  ghost predicate ListedAs(listed: seq<Listed>, id: Id, e: Entry) {
    exists i :: 0 <= i < |listed| && listed[i].job.base.configID == id &&
                e == Entry(listed[i].job, listed[i].at + listed[i].draw, false)
  }

  /** At the start nothing is in flight; every listed config is filed, and every entry comes from one. */
  lemma {:induction false} StartTableFilesListed(listed: seq<Listed>)
    ensures TableFiled(StartTable(listed))
    ensures forall id | id in StartTable(listed) ::
              !StartTable(listed)[id].inFlight && ListedAs(listed, id, StartTable(listed)[id])
    ensures forall c | c in listed :: c.job.base.configID in StartTable(listed)
  {
    if listed != [] {
      var n := |listed| - 1;
      StartTableFilesListed(listed[..n]);
      var t := StartTable(listed);
      forall id | id in t
        ensures ListedAs(listed, id, t[id])
      {
        if id != listed[n].job.base.configID {
          var i :| 0 <= i < n && listed[..n][i].job.base.configID == id &&
                   t[id] == Entry(listed[..n][i].job, listed[..n][i].at + listed[..n][i].draw, false);
          assert listed[i] == listed[..n][i];
        }
      }
      assert listed == listed[..n] + [listed[n]];
    }
  }

  function AfterCompletion(t: Table, config: Id, completedAt: Time): Table {
    if config !in t then t
    else t[config := Entry(t[config].job, completedAt + t[config].job.base.interval, false)]
  }

  function AfterConfigEvent(t: Table, ev: ConfigEvent, now: Time): Table {
    var id := ev.Config();
    match ev
    case Created(job) =>
      if id in t then t[id := t[id].(job := job)] else t[id := Entry(job, now, false)]
    case Updated(job) =>
      if id in t then t[id := Entry(job, now, t[id].inFlight)] else t[id := Entry(job, now, false)]
    case Deleted(_) => t - {id}
  }

  /** The configs waiting on the heap whose time has come. */
  function DueConfigs(t: Table, now: Time): (due: set<Id>)
    ensures forall id :: id in due <==> id in t && !t[id].inFlight && t[id].nextDue <= now
  {
    set id | id in t && !t[id].inFlight && t[id].nextDue <= now
  }

  /** `id` may be the next state `dispatch` pops: due, and no waiting state is due earlier. */
  ghost predicate NextToPop(t: Table, now: Time, id: Id) {
    && id in DueConfigs(t, now)
    && forall other | other in t && !t[other].inFlight :: t[id].nextDue <= t[other].nextDue
  }

  function AfterPop(t: Table, id: Id): Table
    requires id in t
  {
    t[id := t[id].(inFlight := true)]
  }

  /** What a chain of pops leaves: exactly the popped states changed, and only their flag. */
  ghost predicate OnlyFlagged(t: Table, popped: seq<Id>, t': Table) {
    && t'.Keys == t.Keys
    && forall id | id in t :: t'[id] == if id in popped then t[id].(inFlight := true) else t[id]
  }

  /** The popped states were due, each popped once, in non-decreasing due time. */
  ghost predicate SortedDue(t: Table, now: Time, popped: seq<Id>) {
    && (forall k | 0 <= k < |popped| :: popped[k] in DueConfigs(t, now))
    && (forall i, j | 0 <= i < j < |popped| ::
          popped[i] != popped[j] && t[popped[i]].nextDue <= t[popped[j]].nextDue)
  }

  /** `dispatch` has popped `popped`, in this order, and left `t'`: a prefix, by due time, of the due states. */
  ghost predicate PoppedPrefix(t: Table, now: Time, popped: seq<Id>, t': Table) {
    && SortedDue(t, now, popped)
    && OnlyFlagged(t, popped, t')
    && forall k, id | 0 <= k < |popped| && id in t' && !t'[id].inFlight :: t[popped[k]].nextDue <= t'[id].nextDue
  }

  /** One more turn of `dispatch`'s loop prolongs the prefix. */
  lemma PrefixGrows(t: Table, now: Time, popped: seq<Id>, t': Table, id: Id)
    requires PoppedPrefix(t, now, popped, t') && NextToPop(t', now, id)
    ensures PoppedPrefix(t, now, popped + [id], AfterPop(t', id))
    ensures |popped| < |DueConfigs(t, now)|
  {
    var longer, after := popped + [id], AfterPop(t', id);
    assert id in DueConfigs(t, now) && id !in popped && t[id] == t'[id];
    assert SortedDue(t, now, longer);
    assert OnlyFlagged(t, longer, after);
    PrefixCount(t, now, longer);
  }

  /** A dispatch that is not cut short sends each due state exactly once, earliest first, and leaves the others. */
  lemma DispatchIsSortedDuePrefix(t: Table, now: Time, popped: seq<Id>, t': Table)
    requires PoppedPrefix(t, now, popped, t') && DueConfigs(t', now) == {}
    ensures forall id :: id in popped <==> id in DueConfigs(t, now)
    ensures |popped| == |DueConfigs(t, now)|
    ensures SortedDue(t, now, popped) && OnlyFlagged(t, popped, t')
  {
    forall id | id in DueConfigs(t, now)
      ensures id in popped
    {
      assert id !in DueConfigs(t', now);
    }
    DistinctCount(popped, DueConfigs(t, now));
  }

  lemma PrefixCount(t: Table, now: Time, popped: seq<Id>)
    requires SortedDue(t, now, popped)
    ensures |popped| <= |DueConfigs(t, now)|
  {
    var elements := set id | id in popped;
    DistinctCount(popped, elements);
    SubsetCount(elements, DueConfigs(t, now));
  }

  lemma {:induction false} SubsetCount(a: set<Id>, b: set<Id>)
    requires a <= b
    ensures |a| <= |b|
  {
    if a != {} {
      var x :| x in a;
      SubsetCount(a - {x}, b - {x});
    }
  }

  lemma {:induction false} DistinctCount(s: seq<Id>, elements: set<Id>)
    requires forall i, j | 0 <= i < j < |s| :: s[i] != s[j]
    requires forall id :: id in s <==> id in elements
    ensures |s| == |elements|
  {
    if s != [] {
      var n := |s| - 1;
      assert s == s[..n] + [s[n]];
      DistinctCount(s[..n], elements - {s[n]});
    }
  }

  /** `jobs` are the jobs of the configs `ids`, in order. */
  ghost predicate AreJobsOf(t: Table, ids: seq<Id>, jobs: seq<CheckJob>) {
    && |jobs| == |ids|
    && forall k | 0 <= k < |ids| :: ids[k] in t && jobs[k] == t[ids[k]].job
  }

  /** What `dispatch` at `now` did: it popped `popped` and sent `sent`, leaving `t'`. With a budget of sends below
    * the number of due states it stops there, one popped state unsent; otherwise it sends them all. */
  ghost predicate DispatchOutcome(
    t: Table, now: Time, budget: Option<nat>, popped: seq<Id>, sent: seq<CheckJob>, t': Table)
  {
    var cut := budget.Some? && budget.value < |DueConfigs(t, now)|;
    && PoppedPrefix(t, now, popped, t')
    && |sent| <= |popped|
    && AreJobsOf(t, popped[..|sent|], sent)
    && (cut ==> |sent| == budget.value && |popped| == |sent| + 1)
    && (!cut ==> |sent| == |popped| == |DueConfigs(t, now)| && DueConfigs(t', now) == {})
  }

  /** The state of `dispatch`'s loop between two turns. */
  ghost predicate DispatchLoop(
    t: Table, now: Time, budget: Option<nat>, popped: seq<Id>, sent: seq<CheckJob>, t': Table)
  {
    && PoppedPrefix(t, now, popped, t')
    && AreJobsOf(t, popped, sent)
    && (budget.Some? ==> |sent| <= budget.value)
  }

  lemma DispatchTurn(
    t: Table, now: Time, budget: Option<nat>, popped: seq<Id>, sent: seq<CheckJob>, t': Table, id: Id)
    requires DispatchLoop(t, now, budget, popped, sent, t') && NextToPop(t', now, id)
    ensures budget == Some(|sent|) ==> DispatchOutcome(t, now, budget, popped + [id], sent, AfterPop(t', id))
    ensures budget != Some(|sent|) ==>
              DispatchLoop(t, now, budget, popped + [id], sent + [t'[id].job], AfterPop(t', id))
  {
    PrefixGrows(t, now, popped, t', id);
    assert (popped + [id])[..|sent|] == popped;
  }

  lemma DispatchEnds(
    t: Table, now: Time, budget: Option<nat>, popped: seq<Id>, sent: seq<CheckJob>, t': Table)
    requires DispatchLoop(t, now, budget, popped, sent, t') && DueConfigs(t', now) == {}
    ensures DispatchOutcome(t, now, budget, popped, sent, t')
  {
    DispatchIsSortedDuePrefix(t, now, popped, t');
    assert popped[..|sent|] == popped;
  }

  /** The table a dispatch leaves that is not cut short, whatever the order it pops equally due states in. */
  function AfterDispatch(t: Table, now: Time): Table {
    map id | id in t :: if id in DueConfigs(t, now) then t[id].(inFlight := true) else t[id]
  }

  lemma DispatchTable(t: Table, now: Time, popped: seq<Id>, sent: seq<CheckJob>, t': Table)
    requires DispatchOutcome(t, now, None, popped, sent, t')
    ensures t' == AfterDispatch(t, now)
  {
    DispatchIsSortedDuePrefix(t, now, popped, t');
  }
}
