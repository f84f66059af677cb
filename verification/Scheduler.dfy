/** The scheduler's own state (`internal/services/scheduler/scheduler.go`): a heap and a map that share
  * `State` objects, updated in place by dispatch, completions and config events. */
module Schedulers {
  import opened Domain
  import opened Jobs
  import opened HeapOrder
  import opened StateHeaps
  import opened SchedulerCore

  const HOUR: Duration := 3600 * SECOND

  const JITTER_CAP: Duration := 30 * SECOND

  /** The exclusive bound handed to the random draw of the first due time. */
  function JitterWindow(job: CheckJob): Duration {
    if job.base.interval < JITTER_CAP then job.base.interval else JITTER_CAP
  }

  /** `scheduler.Event`. */
  datatype Completion = Completion(config: Id, completedAt: Time)

  class Scheduler {
    var states: map<Id, State>
    const heap: StateHeap

    /** What the map and its states hold, as a value. */
    ghost var table: Table

    /** The states the map refers to, each with the config that refers to it. */
    ghost var owner: map<State, Id>

    /** Before `Start`: nothing scheduled. */
    constructor ()
      ensures Valid() && table == map[] && fresh(heap)
    {
      states, table, owner := map[], map[], map[];
      heap := new StateHeap();
    }

    /** Each mapped state shows the table's entry of its config. */
    ghost predicate Mirrored()
      reads this, owner.Keys
    {
      && table.Keys == states.Keys
      && TableFiled(table)
      && (forall id | id in states :: states[id] in owner && owner[states[id]] == id)
      && (forall s | s in owner ::
            && owner[s] in states && states[owner[s]] == s
            && s.checkJob == table[owner[s]].job
            && s.nextDue == table[owner[s]].nextDue
            && s.inFlight == table[owner[s]].inFlight)
    }

    /** Of the mapped states at most `state` changed, and it now shows `e`. */
    twostate predicate OnlyChanged(new state: State, e: Entry)
      reads this, owner.Keys
    {
      && states == old(states) && owner == old(owner)
      && state in owner && table == old(table)[owner[state] := e]
      && state.checkJob == e.job && state.nextDue == e.nextDue && state.inFlight == e.inFlight
      && forall s | s in owner && s != state ::
           s.checkJob == old(s.checkJob) && s.nextDue == old(s.nextDue) && s.inFlight == old(s.inFlight)
    }

    twostate lemma MirrorsChange(new state: State, e: Entry)
      requires old(Mirrored()) && OnlyChanged(state, e) && e.job.base.configID == owner[state]
      ensures Mirrored()
    {
    }

    /** The mirror reads neither the heap nor the back-indices. */
    twostate lemma MirrorsStill()
      requires old(Mirrored()) && states == old(states) && owner == old(owner) && table == old(table)
      requires forall s | s in owner ::
                 s.checkJob == old(s.checkJob) && s.nextDue == old(s.nextDue) && s.inFlight == old(s.inFlight)
      ensures Mirrored()
    {
    }

    /** The heap holds exactly the mapped states that are not in flight. */
    ghost predicate HoldsWaiting()
      reads this, heap, owner.Keys
    {
      && heap.members <= owner.Keys
      && (forall s | s in owner :: s in heap.members <==> !s.inFlight)
    }

    /** All that waits is on the heap but for `state`, which is about to join it. */
    ghost predicate HoldsAllBut(state: State)
      reads this, heap, owner.Keys
    {
      && heap.members <= owner.Keys && state in owner
      && (forall s | s in owner :: s in heap.members + {state} <==> !s.inFlight)
    }

    /** No map entry and no flag changed since, but `state` has joined the heap. */
    twostate lemma HoldsJoined(state: State)
      requires old(HoldsAllBut(state)) && owner == old(owner) && heap.members == old(heap.members) + {state}
      requires forall s | s in owner :: s.inFlight == old(s.inFlight)
      ensures HoldsWaiting()
    {
    }

    /** The structural invariant of the scheduler. */
    ghost predicate Valid()
      reads this, heap, owner.Keys, heap.members
    {
      heap.WellFormed() && Mirrored() && HoldsWaiting()
    }

    /** A state new to the map was filed under its config, in place of the one that was there, if any. */
    twostate predicate OnlyFiled(new state: State, e: Entry)
      reads this, owner.Keys
    {
      var id := e.job.base.configID;
      && states == old(states)[id := state] && table == old(table)[id := e]
      && state !in old(owner) && state in owner && owner[state] == id
      && state.checkJob == e.job && state.nextDue == e.nextDue && state.inFlight == e.inFlight
      && (forall s | s in owner && s != state :: s in old(owner) && owner[s] == old(owner)[s] != id)
      && (forall s | s in old(owner) && old(owner)[s] != id :: s in owner)
      && (forall s | s in owner && s != state ::
            s.checkJob == old(s.checkJob) && s.nextDue == old(s.nextDue) && s.inFlight == old(s.inFlight))
    }

    twostate lemma MirrorsFiled(new state: State, e: Entry)
      requires old(Mirrored()) && OnlyFiled(state, e)
      ensures Mirrored()
    {
    }

    /** The map takes a state for its config, in place of the one that was there, if any. */
    method Adopt(state: State)
      requires Mirrored() && state !in owner
      modifies this
      ensures Mirrored()
      ensures var id := state.checkJob.base.configID;
              && table == old(table)[id := Entry(state.checkJob, state.nextDue, state.inFlight)]
              && id in states && states[id] == state
              && owner.Keys <= old(owner.Keys) + {state}
              && (id !in old(states) ==> old(owner.Keys) <= owner.Keys)
    {
      var id := state.checkJob.base.configID;
      if id in states {
        owner := owner - {states[id]};
      }
      states := states[id := state];
      owner := owner[state := id];
      ghost var entry := Entry(state.checkJob, state.nextDue, state.inFlight);
      table := table[id := entry];
      MirrorsFiled(state, entry);
    }

    /** Files a new state for a config. */
    method FileEntry(c: CheckJob, due: Time, i: int)
      requires Mirrored()
      modifies this
      ensures Mirrored() && table == old(table)[c.base.configID := Entry(c, due, false)]
      ensures c.base.configID in states && fresh(states[c.base.configID])
      ensures owner.Keys <= old(owner.Keys) + {states[c.base.configID]}
      ensures c.base.configID !in old(states) ==> old(owner.Keys) <= owner.Keys
    {
      var state := new State(c, due, i);
      Adopt(state);
    }

    /** The entry of one listed config. */
    method BuildEntry(c: Listed, i: int)
      requires Mirrored()
      modifies this
      ensures Mirrored() && table == old(table)[c.job.base.configID := Entry(c.job, c.at + c.draw, false)]
      ensures fresh(owner.Keys - old(owner.Keys))
    {
      FileEntry(c.job, c.at + c.draw, i);
    }

    /** `buildEntries`: one state per listed config. The draw panics on an empty window, so windows are positive. */
    method BuildEntries(listed: seq<Listed>)
      requires forall i | 0 <= i < |listed| :: 0 <= listed[i].draw < JitterWindow(listed[i].job)
      modifies this
      ensures Mirrored() && table == StartTable(listed) && fresh(owner.Keys)
    {
      states, table, owner := map[], map[], map[];
      for i := 0 to |listed|
        invariant Mirrored() && table == StartTable(listed[..i]) && fresh(owner.Keys)
      {
        assert listed[..i + 1][..i] == listed[..i];
        BuildEntry(listed[i], i);
      }
      assert listed[..|listed|] == listed;
    }

    /** The heap under construction: well linked, and holding the states of all configs but those in `rest`. */
    ghost predicate Enlisted(rest: set<Id>)
      reads this, heap, owner.Keys, heap.members
    {
      && Mirrored() && heap.Linked() && heap.Keyed({})
      && heap.members <= owner.Keys
      && forall s | s in owner :: s in heap.members <==> owner[s] !in rest
    }

    /** The body of `Start`'s loop over the entries. */
    method Enlist(id: Id, ghost rest: set<Id>)
      requires Enlisted(rest) && id in rest && id in table
      modifies heap, owner.Keys`index
      ensures Enlisted(rest - {id})
    {
      heap.Push(states[id]);
    }

    /** `Start`'s loop over the entries, in any map order. */
    method EnlistAll()
      requires Enlisted(states.Keys)
      modifies heap, owner.Keys`index
      ensures Enlisted({})
    {
      var rest := states.Keys;
      while rest != {}
        invariant rest <= states.Keys && Enlisted(rest)
        decreases |rest|
      {
        var id :| id in rest;
        Enlist(id, rest);
        rest := rest - {id};
      }
    }

    /** The second half of `Start`: every entry joins an empty heap, which is then ordered. */
    method FillHeap()
      requires Enlisted(states.Keys) && forall s | s in owner :: !s.inFlight
      modifies heap, owner.Keys`index
      ensures Valid()
    {
      EnlistAll();
      label filled:
      heap.Init();
      MirrorsStill@filled();
    }

    /** `Start`, up to the first goroutine. */
    method Start(listed: seq<Listed>)
      requires Valid() && table == map[]
      requires forall i | 0 <= i < |listed| :: 0 <= listed[i].draw < JitterWindow(listed[i].job)
      modifies this, heap
      ensures Valid() && table == StartTable(listed) && fresh(owner.Keys)
    {
      assert heap.members == {};
      BuildEntries(listed);
      StartTableFilesListed(listed);
      FillHeap();
    }

    /** The guard of `dispatch`'s loop: a state waits and the root is not due after `now`. */
    predicate RootDue(now: Time)
      reads this, heap, heap.items
    {
      |heap.items| > 0 && heap.items[0].nextDue <= now
    }

    /** The head of `dispatch`'s loop body: the root leaves the heap and is marked in flight. */
    method PopRoot(now: Time) returns (state: State)
      requires Valid() && RootDue(now)
      modifies this`table, heap, owner.Keys`index, owner.Keys`inFlight
      ensures state == old(heap.items[0]) && |heap.items| == old(|heap.items|) - 1
      ensures var id := state.checkJob.base.configID;
              && NextToPop(old(table), now, id)
              && old(table)[id].job == state.checkJob
              && table == AfterPop(old(table), id)
      ensures Valid()
    {
      RootIsNext(now);
      ghost var root := heap.items[0];
      state := heap.HeapPop();
      state.inFlight := true;
      ghost var entry := table[owner[root]].(inFlight := true);
      table := table[owner[root] := entry];
      MirrorsChange(state, entry);
    }

    /** `dispatch`. `budget` is how many sends succeed before the select takes `ctx.Done`; none means never. */
    method Dispatch(now: Time, budget: Option<nat>) returns (sent: seq<CheckJob>, ghost popped: seq<Id>)
      requires Valid()
      modifies this`table, heap, owner.Keys`index, owner.Keys`inFlight
      ensures Valid() && DispatchOutcome(old(table), now, budget, popped, sent, table)
    {
      sent, popped := [], [];
      ghost var first := table;
      while RootDue(now)
        invariant Valid() && DispatchLoop(first, now, budget, popped, sent, table)
        decreases |heap.items|
      {
        ghost var before := table;
        var state := PopRoot(now);
        ghost var id := state.checkJob.base.configID;
        DispatchTurn(first, now, budget, popped, sent, before, id);
        popped := popped + [id];
        if budget == Some(|sent|) {
          return;
        }
        sent := sent + [state.checkJob];
      }
      NothingDue(now);
      DispatchEnds(first, now, budget, popped, sent, table);
    }

    lemma RootIsNext(now: Time)
      requires Valid() && RootDue(now)
      ensures heap.items[0] in heap.members
      ensures NextToPop(table, now, heap.items[0].checkJob.base.configID)
    {
      forall other | other in states && !states[other].inFlight
        ensures heap.items[0].nextDue <= states[other].nextDue
      {
        heap.RootIsEarliest(states[other]);
      }
    }

    lemma NothingDue(now: Time)
      requires Valid() && !RootDue(now)
      ensures DueConfigs(table, now) == {}
    {
      forall id | id in states && !states[id].inFlight
        ensures now < states[id].nextDue
      {
        heap.RootIsEarliest(states[id]);
      }
    }

    /** A state that is mapped, shown and not in flight joins the heap. */
    method Join(state: State)
      requires heap.Linked() && heap.Keyed({state}) && Ordered(heap.keys) && Mirrored() && HoldsAllBut(state)
      modifies heap, heap.members`index, state`index
      ensures Mirrored() && HoldsWaiting() && heap.members == old(heap.members) + {state}
      ensures state !in old(heap.members) ==> Valid()
      ensures state in old(heap.members) ==> !heap.Linked()
    {
      label apart:
      heap.HeapPush(state);
      MirrorsStill@apart();
      HoldsJoined@apart(state);
    }

    /** The state is due again, and about to join the heap. */
    method Rearm(state: State, due: Time)
      requires Valid() && state in owner
      modifies this`table, state`inFlight, state`nextDue
      ensures table == old(table)[owner[state] := Entry(state.checkJob, due, false)]
      ensures Mirrored() && HoldsAllBut(state)
      ensures heap.Linked() && heap.Keyed({state}) && Ordered(heap.keys)
    {
      state.inFlight := false;
      state.nextDue := due;
      ghost var entry := Entry(state.checkJob, due, false);
      table := table[owner[state] := entry];
      MirrorsChange(state, entry);
    }

    /** The tail of `applyEvent`: the state is due again and joins the heap. */
    method Requeue(state: State, due: Time)
      requires Valid() && state in owner
      modifies this`table, heap, heap.members`index, state
      ensures Mirrored() && table == old(table)[owner[state] := Entry(old(state.checkJob), due, false)]
      ensures old(state.inFlight) ==> Valid()
      ensures !old(state.inFlight) ==> !heap.Linked()
    {
      assert state in heap.members <==> !state.inFlight;
      Rearm(state, due);
      Join(state);
    }

    /** `applyEvent`. The heap survives exactly when the completion is not stale: an unmapped config, or a mapped
      * state whose job is in flight. */
    method ApplyEvent(ev: Completion)
      requires Valid()
      modifies this`table, heap, heap.members`index, owner.Keys
      ensures Mirrored() && table == AfterCompletion(old(table), ev.config, ev.completedAt)
      ensures Valid() <==> (ev.config in old(table) ==> old(table)[ev.config].inFlight)
      ensures ev.config in old(table) && !old(table)[ev.config].inFlight ==> !heap.Linked()
    {
      if ev.config !in states {
        return;
      }
      var state := states[ev.config];
      Requeue(state, ev.completedAt + state.checkJob.base.interval);
    }

    /** A new state, due at once, is mapped and about to join the heap. */
    method FileStranger(job: CheckJob, now: Time) returns (state: State)
      requires Valid() && job.base.configID !in table
      modifies this
      ensures Mirrored() && HoldsAllBut(state) && fresh(state) && state !in heap.members
      ensures heap.Linked() && heap.Keyed({state}) && Ordered(heap.keys)
      ensures table == old(table)[job.base.configID := Entry(job, now, false)]
      ensures owner.Keys <= old(owner.Keys) + {state}
    {
      FileEntry(job, now, 0);
      state := states[job.base.configID];
    }

    /** `applyConfigEvent`, an event for an unmapped config: a new state, due at once, joins the heap. */
    method AddState(job: CheckJob, now: Time)
      requires Valid() && job.base.configID !in table
      modifies this, heap, heap.members`index
      ensures Valid() && table == old(table)[job.base.configID := Entry(job, now, false)]
      ensures fresh(owner.Keys - old(owner.Keys))
    {
      var state := FileStranger(job, now);
      Join(state);
    }

    /** `applyConfigEvent`, an event for a mapped config: new job and due time, and the heap fixed when waiting. */
    method ChangeState(state: State, job: CheckJob, due: Time)
      requires Valid() && state in owner && owner[state] == job.base.configID
      modifies this`table, heap, heap.members`index, state
      ensures Valid() && table == old(table)[job.base.configID := Entry(job, due, old(state.inFlight))]
    {
      state.checkJob := job;
      state.nextDue := due;
      table := table[job.base.configID := Entry(job, due, state.inFlight)];
      assert state in heap.members <==> !state.inFlight;
      assert heap.Linked() && heap.Keyed({state});
      if !state.inFlight {
        heap.Fix(state.index);
      }
      MirrorsChange(state, Entry(job, due, state.inFlight));
    }

    /** The map forgets the state of a config. */
    method Unfile(id: Id) returns (state: State)
      requires Mirrored() && id in table
      modifies this
      ensures Mirrored() && table == old(table) - {id}
      ensures state == old(states)[id] && state in old(owner) && owner == old(owner) - {state}
    {
      state := states[id];
      states := states - {id};
      owner := owner - {state};
      table := table - {id};
    }

    /** `heap.Remove` of a waiting state that the map has forgotten. */
    method TakeOff(state: State)
      requires heap.WellFormed() && Mirrored() && state in heap.members && state !in owner
      requires heap.members - {state} <= owner.Keys && forall s | s in owner :: s in heap.members <==> !s.inFlight
      modifies heap, heap.members`index
      ensures Valid()
    {
      label waiting:
      var removed := heap.Remove(state.index);
      MirrorsStill@waiting();
    }

    /** `applyConfigEvent`, a deletion of a mapped config: the state leaves the map, and the heap when waiting. */
    method DropState(id: Id)
      requires Valid() && id in table
      modifies this, heap, heap.members`index
      ensures Valid() && table == old(table) - {id} && owner.Keys <= old(owner.Keys)
    {
      assert states[id] in owner && (states[id] in heap.members <==> !states[id].inFlight);
      var state := Unfile(id);
      if !state.inFlight {
        TakeOff(state);
      }
    }

    /** `applyConfigEvent`. */
    method ApplyConfigEvent(ev: ConfigEvent, now: Time)
      requires Valid()
      modifies this, heap, heap.members`index, owner.Keys
      ensures Valid() && table == AfterConfigEvent(old(table), ev, now)
      ensures fresh(owner.Keys - old(owner.Keys))
      decreases ev.Updated?
    {
      var id := ev.Config();
      match ev {
        case Created(job) =>
          if id in states {
            ChangeState(states[id], job, states[id].nextDue);
          } else {
            AddState(job, now);
          }
        case Updated(job) =>
          if id in states {
            ChangeState(states[id], job, now);
          } else {
            ApplyConfigEvent(Created(job), now);
          }
        case Deleted(_) =>
          if id in states {
            DropState(id);
          }
      }
    }

    /** `sleepUntilNext`: an hour on an empty heap; otherwise up to the earliest due time, never past it. */
    method SleepUntilNext(now: Time) returns (d: Duration)
      requires Valid()
      ensures (forall id | id in table :: table[id].inFlight) ==> d == HOUR
      ensures forall id | id in table && !table[id].inFlight :: now + d <= MaxTime(now, table[id].nextDue)
      ensures (exists id :: id in table && !table[id].inFlight) ==>
                exists id :: id in table && !table[id].inFlight && now + d == MaxTime(now, table[id].nextDue)
    {
      if |heap.items| == 0 {
        d := HOUR;
        return;
      }
      d := heap.items[0].nextDue - now;
      if d < 0 {
        d := 0;
      }
      EarliestWaiting();
    }

    lemma EarliestWaiting()
      requires Valid() && heap.items != []
      ensures heap.items[0] in heap.members
      ensures var id := owner[heap.items[0]];
              id in table && !table[id].inFlight && table[id].nextDue == heap.items[0].nextDue
      ensures forall id | id in table && !table[id].inFlight :: heap.items[0].nextDue <= table[id].nextDue
    {
      forall id | id in table && !table[id].inFlight
        ensures heap.items[0].nextDue <= table[id].nextDue
      {
        heap.RootIsEarliest(states[id]);
      }
    }
  }

  function MaxTime(a: Time, b: Time): Time {
    if a < b then b else a
  }
}
