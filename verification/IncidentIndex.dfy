/** The stored incidents are an index over the history of handled results: in every reachable state a monitor's
  * open incident, its reasons and its past incidents are what the history calls for. */
module IncidentIndex {
  import opened Domain
  import opened Jobs
  import opened Incidents
  import opened IncidentTables
  import opened ResultProcessors
  import opened IncidentHistory

  // ---- a monitor's rows --------------------------------------------------------------------------

  function RowsFor(rows: seq<IncidentRow>, m: Id): seq<IncidentRow> {
    if rows == [] then []
    else
      var n := |rows| - 1;
      RowsFor(rows[..n], m) + if rows[n].monitorID == m then [rows[n]] else []
  }

  lemma RowsForAppended(rows: seq<IncidentRow>, row: IncidentRow, m: Id)
    ensures RowsFor(rows + [row], m) == RowsFor(rows, m) + if row.monitorID == m then [row] else []
  {
    assert (rows + [row])[..|rows|] == rows;
  }

  /** A rewritten row keeps its place among its monitor's rows. */
  lemma {:induction false} RowsForRewritten(rows: seq<IncidentRow>, i: nat, row: IncidentRow, m: Id) returns (at: nat)
    requires i < |rows| && row.monitorID == rows[i].monitorID
    ensures row.monitorID != m ==> RowsFor(rows[i := row], m) == RowsFor(rows, m)
    ensures row.monitorID == m ==>
              && at < |RowsFor(rows, m)| && RowsFor(rows, m)[at] == rows[i]
              && RowsFor(rows[i := row], m) == RowsFor(rows, m)[at := row]
  {
    var n := |rows| - 1;
    at := 0;
    if i < n {
      at := RowsForRewritten(rows[..n], i, row, m);
      assert rows[i := row][..n] == rows[..n][i := row];
    } else {
      assert rows[i := row][..n] == rows[..n];
      at := |RowsFor(rows[..n], m)|;
    }
  }

  /** `row` records the stretch `s`: when it began and, if it did, how and when it ended. */
  predicate Records(h: History, row: IncidentRow, s: Stretch) {
    && s.from < |h| && row.startedAt == h[s.from].checkedAt
    && (if s.to.None? then row.resolvedAt.None? && row.resolvedReason.Unresolved?
        else s.to.value < |h| && row.resolvedAt == Some(h[s.to.value].checkedAt) && row.resolvedReason.Recovered?)
  }

  /** The monitor's rows record its stretches, one to one and in order. */
  ghost predicate RecordsAll(h: History, rows: seq<IncidentRow>, s: seq<Stretch>) {
    |rows| == |s| && forall i | 0 <= i < |rows| :: Records(h, rows[i], s[i])
  }

  ghost predicate IndexedFor(t: Tables, h: History, m: Id) {
    && Tracks(Open(t, m), Reasons(h, m), m)
    && RecordsAll(h, RowsFor(t.incidents, m), Stretches(h, m))
  }

  ghost predicate Indexed(t: Tables, h: History) {
    Schema(t) && forall m :: IndexedFor(t, h, m)
  }

  // ---- one more result ---------------------------------------------------------------------------

  lemma RecordsLonger(h: History, r: CheckResult, rows: seq<IncidentRow>, s: seq<Stretch>)
    requires RecordsAll(h, rows, s)
    ensures RecordsAll(h + [r], rows, s)
  {
    forall i | 0 <= i < |rows|
      ensures Records(h + [r], rows[i], s[i])
    {
      assert Records(h, rows[i], s[i]);
    }
  }

  /** A result of another monitor. */
  lemma IndexedElsewhere(t: Tables, h: History, r: CheckResult, newID: Id, m: Id)
    requires Schema(t) && IndexedFor(t, h, m) && IndexedFor(t, h, r.monitorID) && m != r.monitorID
    requires !r.checkType.CheckHeadless? && RowAt(t.incidents, newID) < 0 && AfterResult(t, r, newID).Ok?
    ensures IndexedFor(AfterResult(t, r, newID).value, h + [r], m)
  {
    ReasonsElsewhere(h, r, m);
    StretchesElsewhere(h, r, m);
    RecordsLonger(h, r, RowsFor(t.incidents, m), Stretches(h, m));
    TransitionTracks(Open(t, r.monitorID), h, r, newID);
    var moved := Transition(Open(t, r.monitorID), r, newID).value;
    if moved.Some? {
      OpenHasOrigin(t, r.monitorID);
      SaveLeavesOthers(t, moved.value, m);
      SaveLeavesRows(t.incidents, moved.value, m);
    }
  }

  lemma StretchesElsewhere(h: History, r: CheckResult, m: Id)
    requires r.monitorID != m
    ensures Stretches(h + [r], m) == Stretches(h, m)
  {
    FailingNext(h, r, m);
    StretchesNext(h, r, m);
  }

  /** The open incident's row is found by its identifier. */
  lemma OpenHasOrigin(t: Tables, m: Id)
    requires Schema(t)
    ensures Open(t, m).Some? ==>
              && RowAt(t.incidents, Open(t, m).value.id) == OpenAt(t.incidents, m)
              && SameOrigin(t, Open(t, m).value)
  {
    if Open(t, m).Some? {
      RowIs(t.incidents, OpenAt(t.incidents, m));
    }
  }

  lemma SaveLeavesRows(rows: seq<IncidentRow>, inc: IncidentRecord, m: Id)
    requires inc.monitorID != m
    requires RowAt(rows, inc.id) >= 0 ==> rows[RowAt(rows, inc.id)].monitorID == inc.monitorID
    ensures RowsFor(Upserted(rows, inc), m) == RowsFor(rows, m)
  {
    var i := RowAt(rows, inc.id);
    if i >= 0 {
      var at := RowsForRewritten(rows, i, Rewritten(rows[i], inc), m);
    } else {
      RowsForAppended(rows, RowOf(inc), m);
    }
  }

  /** No other incident of the monitor is open. */
  lemma OnlyOpen(rows: seq<IncidentRow>, inc: IncidentRecord)
    requires OneOpen(rows)
    requires RowAt(rows, inc.id) >= 0 ==> RowAt(rows, inc.id) == OpenAt(rows, inc.monitorID)
    requires RowAt(rows, inc.id) < 0 ==> OpenAt(rows, inc.monitorID) < 0
    ensures !ClashesOpen(rows, inc)
  {
    forall k | 0 <= k < |rows| && IsOpenFor(rows[k], inc.monitorID)
      ensures k == OpenAt(rows, inc.monitorID)
    {
      OpenIs(rows, inc.monitorID, k);
    }
  }

  /** So the save is accepted, the reasons being keyed. */
  lemma SaveAccepted(
    t: Tables, reasons: map<Id, Reason>, after: map<Id, Reason>, r: CheckResult, newID: Id, inc: IncidentRecord)
    requires Schema(t) && Tracks(Open(t, r.monitorID), reasons, r.monitorID)
    requires RowAt(t.incidents, newID) < 0 && Keyed(inc)
    requires Moves(Open(t, r.monitorID), inc, after, r, newID)
    ensures SameOrigin(t, inc) && Saved(t, inc).Ok? && ByConfig(inc.reasons) == inc.reasons
  {
    KeyedByConfig(inc);
    OpenHasOrigin(t, r.monitorID);
    OnlyOpen(t.incidents, inc);
  }

  /** The monitor's open incident after the save. */
  lemma SavedTracks(
    t: Tables, reasons: map<Id, Reason>, after: map<Id, Reason>, r: CheckResult, newID: Id, inc: IncidentRecord)
    requires Schema(t) && Tracks(Open(t, r.monitorID), reasons, r.monitorID)
    requires RowAt(t.incidents, newID) < 0 && Keyed(inc)
    requires Moves(Open(t, r.monitorID), inc, after, r, newID)
    ensures Saved(t, inc).Ok? && SameOrigin(t, inc)
    ensures Tracks(Open(Saved(t, inc).value, r.monitorID), after, r.monitorID)
  {
    SaveAccepted(t, reasons, after, r, newID, inc);
    if inc.resolvedAt.None? {
      SavedIsOpen(t, inc);
    } else {
      SavedIsResolved(t, inc);
    }
  }

  /** Only the last stretch may still go on, so only the last row may be open. */
  lemma OpenRowIsLast(h: History, rows: seq<IncidentRow>, s: seq<Stretch>, at: nat)
    requires RecordsAll(h, rows, s) && InTurn(s, |h|) && at < |rows| && rows[at].resolvedAt.None?
    ensures at == |rows| - 1
  {
    assert Records(h, rows[at], s[at]);
    assert at < |s| - 1 ==> s[at].to.Some? by {
      assert s[|s| - 1].from < |h|;
    }
  }

  /** Rewriting or adding a row records the longer history's stretches. */
  lemma RecordsRewritten(
    h: History, rows: seq<IncidentRow>, s: seq<Stretch>, at: nat, inc: IncidentRecord, r: CheckResult, down: bool)
    requires RecordsAll(h + [r], rows, s) && InTurn(s, |h|) && at == |rows| - 1 && Ongoing(s)
    requires if down then inc.resolvedAt.None? && inc.resolvedReason.Unresolved?
             else inc.resolvedAt == Some(r.checkedAt) && inc.resolvedReason.Recovered?
    ensures RecordsAll(h + [r], rows[at := Rewritten(rows[at], inc)], NextStretches(s, true, down, |h|))
  {
    assert Records(h + [r], rows[at], s[at]);
    assert (h + [r])[|h|] == r;
  }

  lemma RecordsAdded(h: History, rows: seq<IncidentRow>, s: seq<Stretch>, row: IncidentRow, r: CheckResult)
    requires RecordsAll(h + [r], rows, s)
    requires row.resolvedAt.None? && row.resolvedReason.Unresolved? && row.startedAt == r.checkedAt
    ensures RecordsAll(h + [r], rows + [row], NextStretches(s, false, true, |h|))
  {
    assert (h + [r])[|h|] == r;
  }

  /** The monitor's rows after the save. */
  lemma SavedRecords(t: Tables, h: History, r: CheckResult, newID: Id, inc: IncidentRecord)
    requires Schema(t) && IndexedFor(t, h, r.monitorID) && RowAt(t.incidents, newID) < 0
    requires Moves(Open(t, r.monitorID), inc, Reasons(h + [r], r.monitorID), r, newID)
    ensures RecordsAll(h + [r], RowsFor(Upserted(t.incidents, inc), r.monitorID), Stretches(h + [r], r.monitorID))
  {
    var m, rows := r.monitorID, t.incidents;
    StretchesInTurn(h, m);
    StretchesNext(h, r, m);
    DownHasReasons(h, m);
    DownHasReasons(h + [r], m);
    RecordsLonger(h, r, RowsFor(rows, m), Stretches(h, m));
    if Down(h, m) {
      RewrittenRecords(t, h, r, inc);
    } else {
      RowsForAppended(rows, RowOf(inc), m);
      RecordsAdded(h, RowsFor(rows, m), Stretches(h, m), RowOf(inc), r);
    }
  }

  lemma {:induction false} RewrittenRecords(t: Tables, h: History, r: CheckResult, inc: IncidentRecord)
    requires Schema(t) && RecordsAll(h, RowsFor(t.incidents, r.monitorID), Stretches(h, r.monitorID))
    requires Open(t, r.monitorID).Some? && inc.id == Open(t, r.monitorID).value.id && Down(h, r.monitorID)
    requires if Down(h + [r], r.monitorID) then inc.resolvedAt.None? && inc.resolvedReason.Unresolved?
             else inc.resolvedAt == Some(r.checkedAt) && inc.resolvedReason.Recovered?
    ensures RecordsAll(h + [r], RowsFor(Upserted(t.incidents, inc), r.monitorID),
                       NextStretches(Stretches(h, r.monitorID), true, Down(h + [r], r.monitorID), |h|))
  {
    var m, rows := r.monitorID, t.incidents;
    StretchesInTurn(h, m);
    OpenHasOrigin(t, m);
    RecordsLonger(h, r, RowsFor(rows, m), Stretches(h, m));
    var i := RowAt(rows, inc.id);
    var at := RowsForRewritten(rows, i, Rewritten(rows[i], inc), m);
    OpenRowIsLast(h, RowsFor(rows, m), Stretches(h, m), at);
    RecordsRewritten(h, RowsFor(rows, m), Stretches(h, m), at, inc, r, Down(h + [r], m));
  }

  lemma UnsavedRecords(t: Tables, h: History, r: CheckResult)
    requires IndexedFor(t, h, r.monitorID) && Reasons(h + [r], r.monitorID) == Reasons(h, r.monitorID)
    ensures IndexedFor(t, h + [r], r.monitorID)
  {
    DownHasReasons(h, r.monitorID);
    DownHasReasons(h + [r], r.monitorID);
    StretchesNext(h, r, r.monitorID);
    RecordsLonger(h, r, RowsFor(t.incidents, r.monitorID), Stretches(h, r.monitorID));
  }

  lemma ReasonsKeyed(h: History, m: Id, inc: IncidentRecord)
    requires inc.reasons == Reasons(h, m)
    ensures Keyed(inc)
  {
  }

  lemma SavedHere(t: Tables, h: History, r: CheckResult, newID: Id, inc: IncidentRecord)
    requires Schema(t) && IndexedFor(t, h, r.monitorID) && RowAt(t.incidents, newID) < 0
    requires Moves(Open(t, r.monitorID), inc, Reasons(h + [r], r.monitorID), r, newID)
    ensures Saved(t, inc).Ok? && Schema(Saved(t, inc).value)
    ensures IndexedFor(Saved(t, inc).value, h + [r], r.monitorID)
  {
    ReasonsKeyed(h + [r], r.monitorID, inc);
    SavedTracks(t, Reasons(h, r.monitorID), Reasons(h + [r], r.monitorID), r, newID, inc);
    SavedRecords(t, h, r, newID, inc);
    SaveKeepsSchema(t, inc);
  }

  /** The result's own monitor. */
  lemma IndexedHere(t: Tables, h: History, r: CheckResult, newID: Id)
    requires Schema(t) && IndexedFor(t, h, r.monitorID)
    requires !r.checkType.CheckHeadless? && RowAt(t.incidents, newID) < 0
    ensures AfterResult(t, r, newID).Ok?
    ensures Schema(AfterResult(t, r, newID).value)
    ensures IndexedFor(AfterResult(t, r, newID).value, h + [r], r.monitorID)
  {
    TransitionTracks(Open(t, r.monitorID), h, r, newID);
    var moved := Transition(Open(t, r.monitorID), r, newID).value;
    if moved.None? {
      UnsavedRecords(t, h, r);
    } else {
      SavedHere(t, h, r, newID, moved.value);
    }
  }

  /** Handling a result keeps the index: the tables that matched the history match the longer one. */
  lemma {:induction false} ResultKeepsIndex(t: Tables, h: History, r: CheckResult, newID: Id)
    requires Indexed(t, h) && !r.checkType.CheckHeadless? && RowAt(t.incidents, newID) < 0
    ensures AfterResult(t, r, newID).Ok? && Indexed(AfterResult(t, r, newID).value, h + [r])
  {
    assert IndexedFor(t, h, r.monitorID);
    IndexedHere(t, h, r, newID);
    forall m | m != r.monitorID
      ensures IndexedFor(AfterResult(t, r, newID).value, h + [r], m)
    {
      assert IndexedFor(t, h, m);
      IndexedElsewhere(t, h, r, newID, m);
    }
  }

  // ---- whole histories ---------------------------------------------------------------------------

  /** New incident identifiers, one per result in case it opens an incident, all distinct. */
  ghost predicate FreshEach(ids: seq<Id>) {
    forall i, j | 0 <= i < j < |ids| :: ids[i] != ids[j]
  }

  /** The tables after handling `h` from the start. */
  ghost function HandleAll(h: History, ids: seq<Id>): Result<Tables>
    requires |ids| == |h|
  {
    if h == [] then Ok(EMPTY)
    else
      var n := |h| - 1;
      var t :- HandleAll(h[..n], ids[..n]);
      AfterResult(t, h[n], ids[n])
  }

  /** Results the journal can take. */
  predicate Supported(h: History) {
    forall i | 0 <= i < |h| :: !h[i].checkType.CheckHeadless?
  }

  lemma AfterResultUsesID(t: Tables, r: CheckResult, newID: Id, id: Id)
    requires AfterResult(t, r, newID).Ok? && RowAt(t.incidents, id) < 0 && id != newID && Schema(t)
    ensures RowAt(AfterResult(t, r, newID).value.incidents, id) < 0
  {
    OpenHasOrigin(t, r.monitorID);
  }

  lemma {:induction false} HandleAllUsesIDs(h: History, ids: seq<Id>, id: Id)
    requires |ids| == |h| && Supported(h) && FreshEach(ids) && id !in ids
    requires HandleAll(h, ids).Ok?
    ensures Schema(HandleAll(h, ids).value) && RowAt(HandleAll(h, ids).value.incidents, id) < 0
  {
    if h != [] {
      var n := |h| - 1;
      HandleAllUsesIDs(h[..n], ids[..n], id);
      var t := HandleAll(h[..n], ids[..n]).value;
      AfterResultUsesID(t, h[n], ids[n], id);
      var moved := Transition(Open(t, h[n].monitorID), h[n], ids[n]).value;
      if moved.Some? {
        SaveKeepsSchema(t, moved.value);
      }
    }
  }

  lemma NothingIsIndexed()
    ensures Indexed(EMPTY, [])
  {
    forall m
      ensures IndexedFor(EMPTY, [], m)
    {
      assert Reasons([], m) == map[];
    }
  }

  /** After any history of handled results, no handling having failed, the incident tables are the history's index. */
  lemma {:induction false} HistoryIsIndexed(h: History, ids: seq<Id>)
    requires |ids| == |h| && Supported(h) && FreshEach(ids)
    ensures HandleAll(h, ids).Ok? && Indexed(HandleAll(h, ids).value, h)
  {
    if h == [] {
      NothingIsIndexed();
    } else {
      var n := |h| - 1;
      HistoryIsIndexed(h[..n], ids[..n]);
      HandleAllUsesIDs(h[..n], ids[..n], ids[n]);
      HistoryGrows(HandleAll(h[..n], ids[..n]).value, h, ids);
    }
  }

  lemma HistoryGrows(t: Tables, h: History, ids: seq<Id>)
    requires |ids| == |h| && h != [] && !h[|h| - 1].checkType.CheckHeadless?
    requires HandleAll(h[..|h| - 1], ids[..|h| - 1]) == Ok(t) && Indexed(t, h[..|h| - 1])
    requires RowAt(t.incidents, ids[|h| - 1]) < 0
    ensures HandleAll(h, ids).Ok? && Indexed(HandleAll(h, ids).value, h)
  {
    var n := |h| - 1;
    ResultKeepsIndex(t, h[..n], h[n], ids[n]);
    assert h == h[..n] + [h[n]];
  }

  ghost predicate SomeFailing(h: History, m: Id) {
    exists c :: Failing(h, m, c)
  }

  /** An incident is open exactly while some config's latest handled result is a failure, and its reasons are exactly
    * those configs'. */
  lemma {:induction false} IncidentEqualsHistory(h: History, ids: seq<Id>, m: Id)
    requires |ids| == |h| && Supported(h) && FreshEach(ids)
    ensures HandleAll(h, ids).Ok?
    ensures var open := Open(HandleAll(h, ids).value, m);
            && (open.Some? <==> SomeFailing(h, m))
            && (open.Some? ==> forall c :: c in open.value.reasons <==> Failing(h, m, c))
  {
    HistoryIsIndexed(h, ids);
    assert IndexedFor(HandleAll(h, ids).value, h, m);
    DownHasReasons(h, m);
    DownIsSomeFailing(h, m);
    FailingIsLatest(h, m);
  }

  /** Each reason tells when the config's unbroken streak of failures began, and what its latest failure was. */
  lemma {:induction false} ReasonTellsStreak(h: History, ids: seq<Id>, m: Id, c: Id) returns (first: nat, latest: nat)
    requires |ids| == |h| && Supported(h) && FreshEach(ids) && Failing(h, m, c)
    ensures HandleAll(h, ids).Ok? && Open(HandleAll(h, ids).value, m).Some?
    ensures c in Open(HandleAll(h, ids).value, m).value.reasons
    ensures first <= latest < |h| && IsOf(h[first], m, c) && IsOf(h[latest], m, c)
    ensures forall k | first <= k < |h| && IsOf(h[k], m, c) :: k <= latest && h[k].status.CheckFailure?
    ensures !Failing(h[..first], m, c)
    ensures var reason := Open(HandleAll(h, ids).value, m).value.reasons[c];
            && reason.configID == c
            && reason.configType == (if h[latest].checkType.CheckPing? then PingConfigType else HTTPConfigType)
            && reason.startedAt == h[first].checkedAt
            && reason.lastSeenAt == h[latest].checkedAt
            && reason.lastError == h[latest].error
            && reason.latestResultID == h[latest].id
  {
    IncidentEqualsHistory(h, ids, m);
    HistoryIsIndexed(h, ids);
    assert IndexedFor(HandleAll(h, ids).value, h, m);
    StreakIsUnbroken(h, m, c);
    LatestIsLast(h, m, c);
    FailingIsLatest(h, m);
    first, latest := StreakStart(h, m, c), LatestAt(h, m, c);
    assert c in FailingConfigs(h, m);
  }

  /** A monitor's incident rows are its outages: they record, one to one and in order, the maximal stretches of the
    * history in which some config of it was failing. */
  lemma {:induction false} IncidentsAreOutages(h: History, ids: seq<Id>, m: Id)
    requires |ids| == |h| && Supported(h) && FreshEach(ids)
    ensures HandleAll(h, ids).Ok?
    ensures RecordsAll(h, RowsFor(HandleAll(h, ids).value.incidents, m), Stretches(h, m))
    ensures InTurn(Stretches(h, m), |h|)
    ensures forall k: nat | k < |h| ::
              CoveredBy(Stretches(h, m), k) <==> SomeFailing(h[..k + 1], m)
  {
    HistoryIsIndexed(h, ids);
    assert IndexedFor(HandleAll(h, ids).value, h, m);
    StretchesInTurn(h, m);
    forall k: nat | k < |h|
      ensures CoveredBy(Stretches(h, m), k) <==> SomeFailing(h[..k + 1], m)
    {
      StretchesCoverDown(h, m, k);
      DownIsSomeFailing(h[..k + 1], m);
    }
  }

  lemma DownIsSomeFailing(h: History, m: Id)
    ensures Down(h, m) <==> SomeFailing(h, m)
  {
    FailingIsLatest(h, m);
    if c :| Failing(h, m, c) {
      assert c in FailingConfigs(h, m);
    }
    if Down(h, m) {
      var c :| c in FailingConfigs(h, m);
      assert Failing(h, m, c);
    }
  }

  /** Rows stay in place, and a resolved one, with its reasons, never changes again. */
  ghost predicate KeepsResolved(t: Tables, t': Tables) {
    && |t.incidents| <= |t'.incidents|
    && forall i | 0 <= i < |t.incidents| ::
         && t'.incidents[i].id == t.incidents[i].id
         && t'.incidents[i].monitorID == t.incidents[i].monitorID
         && t'.incidents[i].startedAt == t.incidents[i].startedAt
         && (t.incidents[i].resolvedAt.Some? ==>
               && t'.incidents[i] == t.incidents[i]
               && ReasonsOf(t', t.incidents[i].id) == ReasonsOf(t, t.incidents[i].id))
  }

  /** Saving over an open row, or adding one, leaves the resolved ones. */
  lemma SaveKeepsResolved(t: Tables, inc: IncidentRecord)
    requires Schema(t) && Saved(t, inc).Ok?
    requires RowAt(t.incidents, inc.id) >= 0 ==> t.incidents[RowAt(t.incidents, inc.id)].resolvedAt.None?
    ensures KeepsResolved(t, Saved(t, inc).value)
  {
    var k := RowAt(t.incidents, inc.id);
    forall i | 0 <= i < |t.incidents| && i != k
      ensures t.incidents[i].id != inc.id
    {
      assert k >= 0 ==> !SameID(t.incidents, i, k);
    }
  }

  lemma ResultKeepsResolved(t: Tables, h: History, r: CheckResult, newID: Id)
    requires Indexed(t, h) && !r.checkType.CheckHeadless? && RowAt(t.incidents, newID) < 0
    requires AfterResult(t, r, newID).Ok?
    ensures KeepsResolved(t, AfterResult(t, r, newID).value)
  {
    assert IndexedFor(t, h, r.monitorID);
    TransitionTracks(Open(t, r.monitorID), h, r, newID);
    var moved := Transition(Open(t, r.monitorID), r, newID).value;
    if moved.Some? {
      OpenHasOrigin(t, r.monitorID);
      SaveKeepsResolved(t, moved.value);
    }
  }

  /** In every later state a resolved incident is what it was. */
  lemma {:induction false} ResolvedNeverChanges(h: History, ids: seq<Id>, k: nat)
    requires |ids| == |h| && Supported(h) && FreshEach(ids) && k <= |h|
    ensures HandleAll(h, ids).Ok? && HandleAll(h[..k], ids[..k]).Ok?
    ensures KeepsResolved(HandleAll(h[..k], ids[..k]).value, HandleAll(h, ids).value)
    decreases |h|
  {
    HistoryIsIndexed(h, ids);
    HistoryIsIndexed(h[..k], ids[..k]);
    var n := |h| - 1;
    if k == |h| {
      assert h[..k] == h && ids[..k] == ids;
    } else {
      ResolvedNeverChanges(h[..n], ids[..n], k);
      assert h[..n][..k] == h[..k] && ids[..n][..k] == ids[..k];
      LastKeepsResolved(h, ids);
      KeptTwice(HandleAll(h[..k], ids[..k]).value, HandleAll(h[..n], ids[..n]).value, HandleAll(h, ids).value);
    }
  }

  lemma LastKeepsResolved(h: History, ids: seq<Id>)
    requires |ids| == |h| && Supported(h) && FreshEach(ids) && h != []
    ensures var n := |h| - 1;
            && HandleAll(h, ids).Ok? && HandleAll(h[..n], ids[..n]).Ok?
            && KeepsResolved(HandleAll(h[..n], ids[..n]).value, HandleAll(h, ids).value)
  {
    var n := |h| - 1;
    HistoryIsIndexed(h, ids);
    HistoryIsIndexed(h[..n], ids[..n]);
    HandleAllUsesIDs(h[..n], ids[..n], ids[n]);
    ResultKeepsResolved(HandleAll(h[..n], ids[..n]).value, h[..n], h[n], ids[n]);
  }

  lemma KeptTwice(t: Tables, t': Tables, t'': Tables)
    requires KeepsResolved(t, t') && KeepsResolved(t', t'')
    ensures KeepsResolved(t, t'')
  {
    forall i | 0 <= i < |t.incidents|
      ensures t'.incidents[i].id == t.incidents[i].id && t''.incidents[i].id == t'.incidents[i].id
    {
    }
  }
}
