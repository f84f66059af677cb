/** From the pipeline to the incident tables: what the tables hold after a run, told by the results the run hands to
  * the handler as they were reported. */
module RunIncidents {
  import opened Domain
  import opened Jobs
  import opened Results
  import opened SchedulerCore
  import opened Pipeline
  import opened PipelineContents
  import opened PipelineSafety
  import opened Incidents
  import opened IncidentStores
  import opened ResultProcessors
  import opened IncidentHistory
  import opened IncidentIndex
  import IncidentTables

  /** What the journal takes of the results handed over, each under its new identifier; `refused` numbers those the
    * database turns away. */
  function Journaled(items: seq<Item>, ids: seq<Id>, refused: set<nat>): (h: History)
    requires |ids| == |items|
  {
    if items == [] then []
    else
      var n := |items| - 1;
      Journaled(items[..n], ids[..n], refused) +
      if n in refused then [] else [BuildCheckResult(ids[n], items[n].result)]
  }

  /** The identifiers that go with them. */
  function TakenIDs(ids: seq<Id>, refused: set<nat>): seq<Id> {
    if ids == [] then []
    else
      var n := |ids| - 1;
      TakenIDs(ids[..n], refused) + if n in refused then [] else [ids[n]]
  }

  /** The handler can make a reason of every result. */
  ghost predicate Checked(items: seq<Item>) {
    forall i | 0 <= i < |items| :: !items[i].result.checkType.CheckHeadless?
  }

  lemma {:induction false} JournaledIsSupported(items: seq<Item>, ids: seq<Id>, refused: set<nat>)
    requires |ids| == |items| && Checked(items)
    ensures Supported(Journaled(items, ids, refused))
    ensures forall k | 0 <= k < |Journaled(items, ids, refused)| :: Journaled(items, ids, refused)[k].id in ids
  {
    if items != [] {
      var n := |items| - 1;
      JournaledIsSupported(items[..n], ids[..n], refused);
      var init := Journaled(items[..n], ids[..n], refused);
      assert forall k | 0 <= k < |init| :: init[k].id in ids[..n] && init[k].id in ids;
    }
  }

  lemma {:induction false} TakenAreFresh(ids: seq<Id>, refused: set<nat>)
    requires FreshEach(ids)
    ensures FreshEach(TakenIDs(ids, refused)) && forall id | id in TakenIDs(ids, refused) :: id in ids
  {
    if ids != [] {
      var n := |ids| - 1;
      TakenAreFresh(ids[..n], refused);
      var init := TakenIDs(ids[..n], refused);
      assert forall k | 0 <= k < |init| :: init[k] in init;
    }
  }

  lemma {:induction false} TakenTogether(items: seq<Item>, ids: seq<Id>, newIDs: seq<Id>, refused: set<nat>)
    requires |ids| == |items| == |newIDs|
    ensures |Journaled(items, ids, refused)| == |TakenIDs(newIDs, refused)|
  {
    if items != [] {
      var n := |items| - 1;
      TakenTogether(items[..n], ids[..n], newIDs[..n], refused);
    }
  }

  // ---- results as they are reported --------------------------------------------------------------

  /** The reported results the journal takes. */
  function Taken(items: seq<Item>, refused: set<nat>): seq<CheckResultInput> {
    if items == [] then []
    else
      var n := |items| - 1;
      Taken(items[..n], refused) + if n in refused then [] else [items[n].result]
  }

  /** The check failed: its target was not reached, or an error was reported. */
  predicate Failed(input: CheckResultInput) {
    !input.reachable || input.error.Some?
  }

  predicate ReportsOn(input: CheckResultInput, m: Id, c: Id) {
    input.monitorID == m && input.configID == c
  }

  /** The last report on a config is that of a failed check. */
  ghost predicate LastFailed(inputs: seq<CheckResultInput>, m: Id, c: Id) {
    exists i :: LastIsFailure(inputs, m, c, i)
  }

  ghost predicate LastIsFailure(inputs: seq<CheckResultInput>, m: Id, c: Id, i: int) {
    && 0 <= i < |inputs| && ReportsOn(inputs[i], m, c) && Failed(inputs[i])
    && forall k | i < k < |inputs| :: !ReportsOn(inputs[k], m, c)
  }

  ghost predicate SomeLastFailed(inputs: seq<CheckResultInput>, m: Id) {
    exists c :: LastFailed(inputs, m, c)
  }

  /** `r` is the journal's entry for `input`. */
  predicate Reflects(r: CheckResult, input: CheckResultInput) {
    && r.monitorID == input.monitorID && r.configID == input.configID && r.checkType == input.checkType
    && r.checkedAt == input.checkedAt && r.responseTime == input.responseTime
    && r.statusCode == input.statusCode && r.foundKeywords == input.foundKeywords
    && (r.status.CheckFailure? <==> Failed(input))
    && r.error == match input.error { case Some(message) => message case None => "" }
  }

  ghost predicate ReflectsAll(h: History, inputs: seq<CheckResultInput>, ids: seq<Id>) {
    && |h| == |inputs| == |ids|
    && forall i | 0 <= i < |h| :: Reflects(h[i], inputs[i]) && h[i].id == ids[i]
  }

  /** The journal is the reports it took, told by its own identifiers. */
  lemma {:induction false} JournaledReflects(items: seq<Item>, ids: seq<Id>, refused: set<nat>)
    requires |ids| == |items|
    ensures ReflectsAll(Journaled(items, ids, refused), Taken(items, refused), TakenIDs(ids, refused))
  {
    if items != [] {
      var n := |items| - 1;
      JournaledReflects(items[..n], ids[..n], refused);
    }
  }

  /** Failing in the journal is having failed in the last report. */
  lemma FailingIsLastFailed(h: History, inputs: seq<CheckResultInput>, ids: seq<Id>, m: Id, c: Id)
    requires ReflectsAll(h, inputs, ids)
    ensures Failing(h, m, c) <==> LastFailed(inputs, m, c)
  {
    LatestIsLast(h, m, c);
    var latest := LatestAt(h, m, c);
    if Failing(h, m, c) {
      assert Reflects(h[latest], inputs[latest]);
      assert LastIsFailure(inputs, m, c, latest);
    }
    if i :| LastIsFailure(inputs, m, c, i) {
      assert Reflects(h[i], inputs[i]);
      assert latest >= i;
      assert Reflects(h[latest], inputs[latest]);
    }
  }

  lemma DownIsLastFailed(h: History, inputs: seq<CheckResultInput>, ids: seq<Id>, m: Id)
    requires ReflectsAll(h, inputs, ids)
    ensures SomeFailing(h, m) <==> SomeLastFailed(inputs, m)
  {
    if c :| Failing(h, m, c) {
      FailingIsLastFailed(h, inputs, ids, m, c);
    }
    if c :| LastFailed(inputs, m, c) {
      FailingIsLastFailed(h, inputs, ids, m, c);
    }
  }

  /** `row` records the outage `s`, by the times of the reports that began and ended it. */
  predicate Tells(inputs: seq<CheckResultInput>, row: IncidentTables.IncidentRow, s: Stretch) {
    && s.from < |inputs| && row.startedAt == inputs[s.from].checkedAt
    && match s.to
       case None => row.resolvedAt.None? && row.resolvedReason.Unresolved?
       case Some(end) =>
         end < |inputs| && row.resolvedAt == Some(inputs[end].checkedAt) && row.resolvedReason.Recovered?
  }

  lemma RecordsTell(
    h: History, inputs: seq<CheckResultInput>, ids: seq<Id>, row: IncidentTables.IncidentRow, s: Stretch)
    requires ReflectsAll(h, inputs, ids) && Records(h, row, s)
    ensures Tells(inputs, row, s)
  {
    assert Reflects(h[s.from], inputs[s.from]);
  }

  lemma PrefixReflects(h: History, inputs: seq<CheckResultInput>, ids: seq<Id>, k: nat)
    requires ReflectsAll(h, inputs, ids) && k <= |h|
    ensures ReflectsAll(h[..k], inputs[..k], ids[..k])
  {
  }

  // ---- the handler -------------------------------------------------------------------------------

  /** The handler's work on a run's results, in the order the consumer hands them over. */
  method HandleEach(
    processor: ResultProcessor, items: seq<Item>, ids: seq<Id>, newIDs: seq<Id>, refused: set<nat>)
    requires |ids| == |items| == |newIDs| && FreshEach(ids) && FreshEach(newIDs) && Checked(items)
    requires processor.journal.results == [] && processor.store.Contents() == IncidentTables.EMPTY
    modifies processor.journal, processor.store
    ensures processor.journal.results == Journaled(items, ids, refused)
    ensures ReflectsAll(processor.journal.results, Taken(items, refused), TakenIDs(ids, refused))
    ensures |Journaled(items, ids, refused)| == |TakenIDs(newIDs, refused)|
    ensures HandleAll(Journaled(items, ids, refused), TakenIDs(newIDs, refused)) == Ok(processor.store.Contents())
  {
    JournaledReflects(items, ids, refused);
    for i := 0 to |items|
      invariant Handled(processor, items[..i], ids[..i], newIDs[..i], refused)
    {
      HandleNext(processor, items, ids, newIDs, i, refused);
    }
    assert items[..|items|] == items && ids[..|items|] == ids && newIDs[..|items|] == newIDs;
  }

  /** The journal and the tables after the results so far. */
  ghost predicate Handled(
    processor: ResultProcessor, items: seq<Item>, ids: seq<Id>, newIDs: seq<Id>, refused: set<nat>)
    reads processor, processor.journal, processor.store
  {
    && |ids| == |items| == |newIDs|
    && processor.journal.results == Journaled(items, ids, refused)
    && |Journaled(items, ids, refused)| == |TakenIDs(newIDs, refused)|
    && HandleAll(Journaled(items, ids, refused), TakenIDs(newIDs, refused)) == Ok(processor.store.Contents())
  }

  /** One more result is journaled and handled. */
  lemma NextHandled(items: seq<Item>, ids: seq<Id>, newIDs: seq<Id>, i: nat, refused: set<nat>)
    requires |ids| == |items| == |newIDs| && i < |items| && FreshEach(newIDs) && Checked(items)
    requires |Journaled(items[..i], ids[..i], refused)| == |TakenIDs(newIDs[..i], refused)|
    ensures var h, taken := Journaled(items[..i], ids[..i], refused), TakenIDs(newIDs[..i], refused);
            var h', taken' := Journaled(items[..i + 1], ids[..i + 1], refused), TakenIDs(newIDs[..i + 1], refused);
            var cr := BuildCheckResult(ids[i], items[i].result);
            && |h'| == |taken'|
            && (i in refused ==> h' == h && taken' == taken)
            && (i !in refused ==>
                  && h' == h + [cr] && HandleAll(h, taken).Ok? && HandleAll(h', taken').Ok?
                  && HandleAll(h', taken') == AfterResult(HandleAll(h, taken).value, cr, newIDs[i]))
  {
    assert items[..i + 1][..i] == items[..i] && ids[..i + 1][..i] == ids[..i] && newIDs[..i + 1][..i] == newIDs[..i];
    if i !in refused {
      var h', taken' := Journaled(items[..i + 1], ids[..i + 1], refused), TakenIDs(newIDs[..i + 1], refused);
      JournaledIsSupported(items[..i + 1], ids[..i + 1], refused);
      TakenAreFresh(newIDs[..i + 1], refused);
      HistoryIsIndexed(h', taken');
      assert h'[..|h'| - 1] == Journaled(items[..i], ids[..i], refused);
      assert taken'[..|h'| - 1] == TakenIDs(newIDs[..i], refused);
    }
  }

  method HandleNext(
    processor: ResultProcessor, items: seq<Item>, ids: seq<Id>, newIDs: seq<Id>, i: nat, refused: set<nat>)
    requires |ids| == |items| == |newIDs| && i < |items| && FreshEach(ids) && FreshEach(newIDs) && Checked(items)
    requires Handled(processor, items[..i], ids[..i], newIDs[..i], refused)
    modifies processor.journal, processor.store
    ensures Handled(processor, items[..i + 1], ids[..i + 1], newIDs[..i + 1], refused)
  {
    NextHandled(items, ids, newIDs, i, refused);
    JournaledIsSupported(items[..i], ids[..i], refused);
    assert ids[i] !in ids[..i];
    var error := processor.HandleCheckResult(items[i].result, ids[i], newIDs[i], i in refused);
  }

  // ---- over whole runs ---------------------------------------------------------------------------

  /** Every result handled in a run is of a ping or an HTTP job. */
  lemma {:induction false} RunIsChecked(s: Pipe, actions: seq<Action>)
    requires Initial(s) && IsRun(s, actions)
    ensures Checked(After(s, actions).flow.handled)
  {
    HandledExactlyOnce(s, actions);
    var f := After(s, actions).flow;
    forall i | 0 <= i < |f.handled|
      ensures !f.handled[i].result.checkType.CheckHeadless?
    {
      assert Issued(f.received, ItemToken(f.handled[i]));
    }
  }

  /** What the handler makes of a run's results: the journal it fills and the incident tables it leaves. */
  ghost predicate HandledRun(
    s: Pipe, actions: seq<Action>, ids: seq<Id>, newIDs: seq<Id>, refused: set<nat>,
    inputs: seq<CheckResultInput>, h: History, t: IncidentTables.Tables)
    requires Initial(s) && IsRun(s, actions)
  {
    var items := After(s, actions).flow.handled;
    && |ids| == |items| == |newIDs| && FreshEach(newIDs)
    && inputs == Taken(items, refused)
    && h == Journaled(items, ids, refused)
    && |h| == |TakenIDs(newIDs, refused)| && HandleAll(h, TakenIDs(newIDs, refused)) == Ok(t)
  }

  lemma {:induction false} RunIsHandled(
    s: Pipe, actions: seq<Action>, ids: seq<Id>, newIDs: seq<Id>, refused: set<nat>)
    returns (inputs: seq<CheckResultInput>, h: History, t: IncidentTables.Tables)
    requires Initial(s) && IsRun(s, actions)
    requires |ids| == |After(s, actions).flow.handled| == |newIDs| && FreshEach(newIDs)
    ensures HandledRun(s, actions, ids, newIDs, refused, inputs, h, t)
    ensures Supported(h) && FreshEach(TakenIDs(newIDs, refused)) && ReflectsAll(h, inputs, TakenIDs(ids, refused))
  {
    RunIsChecked(s, actions);
    var items := After(s, actions).flow.handled;
    inputs, h := Taken(items, refused), Journaled(items, ids, refused);
    JournaledReflects(items, ids, refused);
    JournaledIsSupported(items, ids, refused);
    TakenAreFresh(newIDs, refused);
    TakenTogether(items, ids, newIDs, refused);
    HistoryIsIndexed(h, TakenIDs(newIDs, refused));
    t := HandleAll(h, TakenIDs(newIDs, refused)).value;
  }

  /** In every run of the pipeline: once the results handed over so far are handled, no handling having failed, a
    * monitor has an open incident exactly while the last report on some config of it is that of a failed check. */
  lemma {:induction false} RunIncidents(
    s: Pipe, actions: seq<Action>, ids: seq<Id>, newIDs: seq<Id>, refused: set<nat>, m: Id)
    returns (inputs: seq<CheckResultInput>, h: History, t: IncidentTables.Tables)
    requires Initial(s) && IsRun(s, actions)
    requires |ids| == |After(s, actions).flow.handled| == |newIDs| && FreshEach(newIDs)
    ensures HandledRun(s, actions, ids, newIDs, refused, inputs, h, t)
    ensures IncidentTables.Open(t, m).Some? <==> SomeLastFailed(inputs, m)
    ensures IncidentTables.Open(t, m).Some? ==>
              forall c :: c in IncidentTables.Open(t, m).value.reasons <==> LastFailed(inputs, m, c)
  {
    inputs, h, t := RunIsHandled(s, actions, ids, newIDs, refused);
    IncidentEqualsHistory(h, TakenIDs(newIDs, refused), m);
    DownIsLastFailed(h, inputs, TakenIDs(ids, refused), m);
    forall c
      ensures Failing(h, m, c) <==> LastFailed(inputs, m, c)
    {
      FailingIsLastFailed(h, inputs, TakenIDs(ids, refused), m, c);
    }
  }

  /** Each of its reasons tells the config's unbroken run of failed checks: when the first of them was checked, and the
    * time, the type and the error of the last. */
  lemma {:induction false} RunReasons(
    s: Pipe, actions: seq<Action>, ids: seq<Id>, newIDs: seq<Id>, refused: set<nat>, m: Id, c: Id)
    returns (inputs: seq<CheckResultInput>, h: History, t: IncidentTables.Tables, first: nat, latest: nat)
    requires Initial(s) && IsRun(s, actions)
    requires |ids| == |After(s, actions).flow.handled| == |newIDs| && FreshEach(newIDs)
    requires LastFailed(Taken(After(s, actions).flow.handled, refused), m, c)
    ensures HandledRun(s, actions, ids, newIDs, refused, inputs, h, t)
    ensures first <= latest && LastIsFailure(inputs, m, c, latest) && ReportsOn(inputs[first], m, c)
    ensures forall k | first <= k < |inputs| && ReportsOn(inputs[k], m, c) :: Failed(inputs[k])
    ensures !LastFailed(inputs[..first], m, c)
    ensures |TakenIDs(ids, refused)| == |inputs|
    ensures IncidentTables.Open(t, m).Some? && c in IncidentTables.Open(t, m).value.reasons
    ensures var last := inputs[latest];
            IncidentTables.Open(t, m).value.reasons[c] ==
            Reason(c, if last.checkType.CheckPing? then PingConfigType else HTTPConfigType,
                   match last.error { case Some(message) => message case None => "" },
                   TakenIDs(ids, refused)[latest], inputs[first].checkedAt, last.checkedAt)
  {
    inputs, h, t := RunIsHandled(s, actions, ids, newIDs, refused);
    FailingIsLastFailed(h, inputs, TakenIDs(ids, refused), m, c);
    first, latest := ReasonTellsStreak(h, TakenIDs(newIDs, refused), m, c);
    assert Reflects(h[first], inputs[first]) && Reflects(h[latest], inputs[latest]);
    PrefixReflects(h, inputs, TakenIDs(ids, refused), first);
    FailingIsLastFailed(h[..first], inputs[..first], TakenIDs(ids, refused)[..first], m, c);
    forall k | first <= k < |inputs| && ReportsOn(inputs[k], m, c)
      ensures k <= latest && Failed(inputs[k])
    {
      assert Reflects(h[k], inputs[k]);
    }
  }

  /** Its incident rows are the monitor's outages, one to one and in order: each records a maximal stretch of reports
    * during which the last report on some config was that of a failed check. */
  lemma {:induction false} RunOutages(
    s: Pipe, actions: seq<Action>, ids: seq<Id>, newIDs: seq<Id>, refused: set<nat>, m: Id)
    returns (inputs: seq<CheckResultInput>, h: History, t: IncidentTables.Tables, outages: seq<Stretch>)
    requires Initial(s) && IsRun(s, actions)
    requires |ids| == |After(s, actions).flow.handled| == |newIDs| && FreshEach(newIDs)
    ensures HandledRun(s, actions, ids, newIDs, refused, inputs, h, t)
    ensures InTurn(outages, |inputs|)
    ensures forall k: nat | k < |inputs| :: CoveredBy(outages, k) <==> SomeLastFailed(inputs[..k + 1], m)
    ensures var rows := RowsFor(t.incidents, m);
            |rows| == |outages| && forall i | 0 <= i < |rows| :: Tells(inputs, rows[i], outages[i])
  {
    inputs, h, t := RunIsHandled(s, actions, ids, newIDs, refused);
    outages := Stretches(h, m);
    IncidentsAreOutages(h, TakenIDs(newIDs, refused), m);
    forall k: nat | k < |inputs|
      ensures CoveredBy(outages, k) <==> SomeLastFailed(inputs[..k + 1], m)
    {
      PrefixReflects(h, inputs, TakenIDs(ids, refused), k + 1);
      DownIsLastFailed(h[..k + 1], inputs[..k + 1], TakenIDs(ids, refused)[..k + 1], m);
    }
    var rows := RowsFor(t.incidents, m);
    forall i | 0 <= i < |rows|
      ensures Tells(inputs, rows[i], outages[i])
    {
      RecordsTell(h, inputs, TakenIDs(ids, refused), rows[i], outages[i]);
    }
  }
}
