/** The events by which the service tells the scheduler what changed (`internal/monitor/service.go`,
  * `syncScheduler`), and their effect on a registry of jobs. */
module ConfigDiff {
  import opened Domain
  import opened Jobs
  import opened SchedulerCore

  // ---- what an event does to a registry ----------------------------------------------------------

  function Apply(r: Registry, ev: ConfigEvent): Registry {
    if ev.Deleted? then r - {ev.Config()} else r[ev.Config() := ev.job]
  }

  function ApplyAll(r: Registry, events: seq<ConfigEvent>): Registry
    decreases |events|
  {
    if events == [] then r else ApplyAll(Apply(r, events[0]), events[1..])
  }

  /** The scheduler's table takes an event as its registry does, whatever the event's kind and the config's state. */
  lemma TableAppliesEvent(t: Table, ev: ConfigEvent, now: Time)
    ensures JobsOf(AfterConfigEvent(t, ev, now)) == Apply(JobsOf(t), ev)
  {
  }

  lemma {:induction false} ApplyAppended(r: Registry, a: seq<ConfigEvent>, b: seq<ConfigEvent>)
    ensures ApplyAll(r, a + b) == ApplyAll(ApplyAll(r, a), b)
    decreases |a|
  {
    if a == [] {
      assert a + b == b;
    } else {
      ApplyAppended(Apply(r, a[0]), a[1..], b);
      assert (a + b)[1..] == a[1..] + b;
    }
  }

  ghost predicate SameAt(a: Registry, b: Registry, id: Id) {
    (id in a <==> id in b) && (id in a ==> a[id] == b[id])
  }

  ghost predicate DistinctConfigs(events: seq<ConfigEvent>) {
    forall i, j | 0 <= i < j < |events| :: events[i].Config() != events[j].Config()
  }

  ghost predicate Mentions(events: seq<ConfigEvent>, id: Id) {
    exists k :: 0 <= k < |events| && events[k].Config() == id
  }

  lemma {:induction false} Unmentioned(r: Registry, events: seq<ConfigEvent>, id: Id)
    requires !Mentions(events, id)
    ensures SameAt(ApplyAll(r, events), r, id)
    decreases |events|
  {
    if events != [] {
      assert events[0].Config() != id;
      assert forall k | 0 <= k < |events[1..]| :: events[1..][k] == events[k + 1];
      Unmentioned(Apply(r, events[0]), events[1..], id);
    }
  }

  /** Events about different configs do not interfere: each config ends as its own event leaves it. */
  lemma {:induction false} MentionedOnce(r: Registry, events: seq<ConfigEvent>, k: nat)
    requires DistinctConfigs(events) && k < |events|
    ensures SameAt(ApplyAll(r, events), Apply(r, events[k]), events[k].Config())
    decreases |events|
  {
    var rest := events[1..];
    if k == 0 {
      Unmentioned(Apply(r, events[0]), rest, events[0].Config());
    } else {
      assert rest[k - 1] == events[k];
      MentionedOnce(Apply(r, events[0]), rest, k - 1);
    }
  }

  // ---- the diff ----------------------------------------------------------------------------------

  ghost predicate Differs(before: Registry, after: Registry, id: Id) {
    if id in before && id in after then !after[id].Equal(before[id]) else id in before || id in after
  }

  /** `ev` is the event `syncScheduler` sends for its config. */
  ghost predicate EventFor(before: Registry, after: Registry, ev: ConfigEvent) {
    var id := ev.Config();
    match ev
    case Created(job) => id in after && id !in before && job == after[id]
    case Updated(job) => id in after && id in before && !after[id].Equal(before[id]) && job == after[id]
    case Deleted(job) => id in before && id !in after && job == before[id]
  }

  /** Of the configs in `done`, exactly those that differ have an event, one each, and no other config has any. */
  ghost predicate DiffOf(before: Registry, after: Registry, done: set<Id>, events: seq<ConfigEvent>) {
    && (forall k | 0 <= k < |events| :: EventFor(before, after, events[k]) && events[k].Config() in done)
    && DistinctConfigs(events)
    && (forall id {:trigger Differs(before, after, id)} | id in done && Differs(before, after, id) ::
          Mentions(events, id))
  }

  /** A complete diff, its events in any order. */
  ghost predicate IsDiff(before: Registry, after: Registry, events: seq<ConfigEvent>) {
    DiffOf(before, after, before.Keys + after.Keys, events)
  }

  lemma DiffNext(before: Registry, after: Registry, done: set<Id>, events: seq<ConfigEvent>, id: Id, ev: ConfigEvent)
    requires DiffOf(before, after, done, events) && id !in done
    requires ev.Config() == id && EventFor(before, after, ev)
    ensures DiffOf(before, after, done + {id}, events + [ev])
  {
    var longer := events + [ev];
    assert longer[|events|] == ev;
    forall c | c in done + {id} && Differs(before, after, c)
      ensures Mentions(longer, c)
    {
      if c != id {
        var k :| 0 <= k < |events| && events[k].Config() == c;
        assert longer[k].Config() == c;
      }
    }
  }

  lemma DiffAt(before: Registry, after: Registry, events: seq<ConfigEvent>, from: Registry, id: Id)
    requires IsDiff(before, after, events) && SameJobAt(from, before, id)
    ensures SameJobAt(ApplyAll(from, events), after, id)
  {
    if Mentions(events, id) {
      var k :| 0 <= k < |events| && events[k].Config() == id;
      MentionedOnce(from, events, k);
    } else {
      assert !Differs(before, after, id);
      Unmentioned(from, events, id);
    }
  }

  /** The two registries agree on one config. */
  ghost predicate SameJobAt(a: Registry, b: Registry, id: Id) {
    (id in a <==> id in b) && (id in a ==> a[id].Equal(b[id]))
  }

  lemma AgreeEverywhere(a: Registry, b: Registry)
    ensures Agree(a, b) <==> forall id :: SameJobAt(a, b, id)
  {
    if forall id :: SameJobAt(a, b, id) {
      forall id
        ensures id in a.Keys <==> id in b.Keys
      {
        assert SameJobAt(a, b, id);
      }
      assert a.Keys == b.Keys;
      forall id | id in a
        ensures a[id].Equal(b[id])
      {
        assert SameJobAt(a, b, id);
      }
    }
  }

  /** The diff is correct: whatever the order of its events, they turn a registry that agrees with the jobs before
    * into one that agrees with the jobs after. The rest of the registry is carried along. */
  lemma DiffIsCorrect(rest: Registry, before: Registry, after: Registry, events: seq<ConfigEvent>, from: Registry)
    requires IsDiff(before, after, events) && Agree(from, rest + before)
    requires forall id | id in rest :: id !in before && id !in after
    ensures Agree(ApplyAll(from, events), rest + after)
  {
    AgreeEverywhere(from, rest + before);
    forall id
      ensures SameJobAt(ApplyAll(from, events), rest + after, id)
    {
      assert SameJobAt(from, rest + before, id);
      if id in rest {
        assert !Mentions(events, id);
        Unmentioned(from, events, id);
      } else {
        DiffAt(before, after, events, from, id);
      }
    }
    AgreeEverywhere(ApplyAll(from, events), rest + after);
  }

  /** The diff is minimal: one event for each config that differs and none for any other. */
  lemma DiffIsMinimal(before: Registry, after: Registry, events: seq<ConfigEvent>, id: Id)
    requires IsDiff(before, after, events)
    ensures Mentions(events, id) <==> Differs(before, after, id)
    ensures DistinctConfigs(events)
  {
    if Mentions(events, id) {
      var k :| 0 <= k < |events| && events[k].Config() == id;
      assert EventFor(before, after, events[k]);
    }
  }

  // ---- dropped events ----------------------------------------------------------------------------

  /** Of the first `n` events, those that reach the channel. */
  function DeliveredOf(events: seq<ConfigEvent>, dropped: set<nat>, n: nat): seq<ConfigEvent>
    requires n <= |events|
  {
    if n == 0 then []
    else DeliveredOf(events, dropped, n - 1) + if n - 1 in dropped then [] else [events[n - 1]]
  }

  /** What reaches the channel when the sends numbered in `dropped` lose to the end of the request's context. */
  function Delivered(events: seq<ConfigEvent>, dropped: set<nat>): seq<ConfigEvent> {
    DeliveredOf(events, dropped, |events|)
  }

  lemma {:induction false} DeliveredPrefix(events: seq<ConfigEvent>, more: seq<ConfigEvent>, dropped: set<nat>, n: nat)
    requires n <= |events| <= |more| && more[..|events|] == events
    ensures DeliveredOf(more, dropped, n) == DeliveredOf(events, dropped, n)
  {
    if n > 0 {
      DeliveredPrefix(events, more, dropped, n - 1);
      assert more[n - 1] == more[..|events|][n - 1];
    }
  }

  lemma DeliveredNext(events: seq<ConfigEvent>, ev: ConfigEvent, dropped: set<nat>)
    ensures Delivered(events + [ev], dropped) ==
            Delivered(events, dropped) + if |events| in dropped then [] else [ev]
  {
    DeliveredPrefix(events, events + [ev], dropped, |events|);
  }

  /** A config has an event among those not dropped. */
  ghost predicate KeepsMention(events: seq<ConfigEvent>, dropped: set<nat>, id: Id) {
    exists k :: 0 <= k < |events| && k !in dropped && events[k].Config() == id
  }

  lemma {:induction false} DeliveredMentions(events: seq<ConfigEvent>, dropped: set<nat>, n: nat, id: Id)
    requires n <= |events| && Mentions(DeliveredOf(events, dropped, n), id)
    ensures KeepsMention(events, dropped, id)
  {
    var init, all := DeliveredOf(events, dropped, n - 1), DeliveredOf(events, dropped, n);
    var i :| 0 <= i < |all| && all[i].Config() == id;
    if i < |init| {
      assert init[i].Config() == id;
      DeliveredMentions(events, dropped, n - 1, id);
    } else {
      assert events[n - 1].Config() == id;
    }
  }

  lemma {:induction false} NothingDropped(events: seq<ConfigEvent>, dropped: set<nat>, n: nat)
    requires n <= |events| && forall k | 0 <= k < |events| :: k !in dropped
    ensures DeliveredOf(events, dropped, n) == events[..n]
  {
    if n > 0 {
      NothingDropped(events, dropped, n - 1);
      assert events[..n] == events[..n - 1] + [events[n - 1]];
    }
  }

  /** A dropped event leaves its config out of date: the registry ends up agreeing with the jobs after exactly when
    * no event of the diff is dropped. */
  lemma AgreesIffNothingDropped(
    rest: Registry, before: Registry, after: Registry, events: seq<ConfigEvent>, dropped: set<nat>, from: Registry)
    requires IsDiff(before, after, events) && Agree(from, rest + before)
    requires forall id | id in rest :: id !in before && id !in after
    ensures Agree(ApplyAll(from, Delivered(events, dropped)), rest + after) <==>
            forall k | 0 <= k < |events| :: k !in dropped
  {
    if k :| 0 <= k < |events| && k in dropped {
      DropIsMissed(before, after, events, dropped, k);
      var id := events[k].Config();
      Unmentioned(from, Delivered(events, dropped), id);
      AgreeEverywhere(from, rest + before);
      AgreeEverywhere(ApplyAll(from, Delivered(events, dropped)), rest + after);
      assert SameJobAt(from, rest + before, id);
      DiffIsMinimal(before, after, events, id);
      assert EventFor(before, after, events[k]);
      assert !SameJobAt(ApplyAll(from, Delivered(events, dropped)), rest + after, id);
    } else {
      NothingDropped(events, dropped, |events|);
      assert events[..|events|] == events;
      DiffIsCorrect(rest, before, after, events, from);
    }
  }

  lemma DropIsMissed(
    before: Registry, after: Registry, events: seq<ConfigEvent>, dropped: set<nat>, k: nat)
    requires IsDiff(before, after, events) && k < |events| && k in dropped
    ensures !Mentions(Delivered(events, dropped), events[k].Config())
  {
    var id := events[k].Config();
    if Mentions(Delivered(events, dropped), id) {
      DeliveredMentions(events, dropped, |events|, id);
    }
    assert forall j | 0 <= j < |events| && j != k :: events[j].Config() != id;
  }
}
