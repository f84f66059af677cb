/** Incidents as a function of the history of handled results: which monitors are down, since when, and why. */
module IncidentHistory {
  import opened Domain
  import opened Jobs
  import opened Incidents
  import opened IncidentTables
  import opened ResultProcessors

  type History = seq<CheckResult>

  predicate IsOf(r: CheckResult, m: Id, c: Id) {
    r.monitorID == m && r.configID == c
  }

  /** The index of the latest result of a config; -1 if it has none. */
  function LatestAt(h: History, m: Id, c: Id): (i: int)
    ensures -1 <= i < |h|
  {
    var n := |h| - 1;
    if n < 0 then -1 else if IsOf(h[n], m, c) then n else LatestAt(h[..n], m, c)
  }

  lemma {:induction false} LatestIsLast(h: History, m: Id, c: Id)
    ensures LatestAt(h, m, c) >= 0 ==> IsOf(h[LatestAt(h, m, c)], m, c)
    ensures forall k | LatestAt(h, m, c) < k < |h| :: !IsOf(h[k], m, c)
  {
    var n := |h| - 1;
    if n >= 0 && !IsOf(h[n], m, c) {
      LatestIsLast(h[..n], m, c);
      assert forall k | 0 <= k < n :: h[..n][k] == h[k];
    }
  }

  /** The config's latest handled result is a failure. */
  predicate Failing(h: History, m: Id, c: Id) {
    LatestAt(h, m, c) >= 0 && h[LatestAt(h, m, c)].status.CheckFailure?
  }

  /** The failing configs of a monitor. */
  function FailingConfigs(h: History, m: Id): set<Id> {
    if h == [] then {}
    else
      var n := |h| - 1;
      var before := FailingConfigs(h[..n], m);
      if h[n].monitorID != m then before
      else if h[n].status.CheckFailure? then before + {h[n].configID}
      else before - {h[n].configID}
  }

  /** They are the configs whose latest handled result is a failure. */
  lemma {:induction false} FailingIsLatest(h: History, m: Id)
    ensures forall c :: c in FailingConfigs(h, m) <==> Failing(h, m, c)
  {
    if h != [] {
      FailingIsLatest(h[..|h| - 1], m);
    }
  }

  predicate Down(h: History, m: Id) {
    FailingConfigs(h, m) != {}
  }

  /** The first failure of the config's current unbroken streak. */
  function StreakStart(h: History, m: Id, c: Id): (s: nat)
    requires Failing(h, m, c)
    ensures s <= LatestAt(h, m, c)
    decreases |h|
  {
    var i := LatestAt(h, m, c);
    if Failing(h[..i], m, c) then StreakStart(h[..i], m, c) else i
  }

  /** The streak starts with a failure of the config after which it never recovered and before which it was not
    * failing. */
  lemma {:induction false} StreakIsUnbroken(h: History, m: Id, c: Id)
    requires Failing(h, m, c)
    ensures var s := StreakStart(h, m, c);
            && IsOf(h[s], m, c)
            && (forall k | s <= k < |h| && IsOf(h[k], m, c) :: h[k].status.CheckFailure?)
            && !Failing(h[..s], m, c)
    decreases |h|
  {
    var i := LatestAt(h, m, c);
    LatestIsLast(h, m, c);
    if Failing(h[..i], m, c) {
      StreakIsUnbroken(h[..i], m, c);
      var s := StreakStart(h[..i], m, c);
      assert h[..i][..s] == h[..s];
      assert forall k | s <= k < i :: h[..i][k] == h[k];
    }
  }

  function TypeOf(t: CheckType): ConfigType {
    if t.CheckPing? then PingConfigType else HTTPConfigType
  }

  /** The reason a failing config contributes: since the start of its streak, as last seen. */
  function ReasonFor(h: History, m: Id, c: Id): Reason
    requires Failing(h, m, c)
  {
    var latest, first := h[LatestAt(h, m, c)], h[StreakStart(h, m, c)];
    Reason(c, TypeOf(latest.checkType), latest.error, latest.id, first.checkedAt, latest.checkedAt)
  }

  function Reasons(h: History, m: Id): (reasons: map<Id, Reason>)
    ensures forall c :: c in reasons <==> c in FailingConfigs(h, m)
  {
    FailingIsLatest(h, m);
    map c | c in FailingConfigs(h, m) :: ReasonFor(h, m, c)
  }

  // ---- one more result ---------------------------------------------------------------------------

  lemma LatestNext(h: History, r: CheckResult, m: Id, c: Id)
    ensures LatestAt(h + [r], m, c) == if IsOf(r, m, c) then |h| else LatestAt(h, m, c)
  {
    assert (h + [r])[..|h|] == h;
  }

  lemma FailingNext(h: History, r: CheckResult, m: Id)
    ensures FailingConfigs(h + [r], m) ==
            if r.monitorID != m then FailingConfigs(h, m)
            else if r.status.CheckFailure? then FailingConfigs(h, m) + {r.configID}
            else FailingConfigs(h, m) - {r.configID}
  {
    assert (h + [r])[..|h|] == h;
  }

  lemma ReasonStays(h: History, r: CheckResult, m: Id, c: Id)
    requires Failing(h, m, c) && !IsOf(r, m, c)
    ensures Failing(h + [r], m, c) && ReasonFor(h + [r], m, c) == ReasonFor(h, m, c)
  {
    LatestNext(h, r, m, c);
    var i := LatestAt(h, m, c);
    assert (h + [r])[..i] == h[..i];
  }

  lemma ReasonMoves(h: History, r: CheckResult, m: Id, c: Id)
    requires IsOf(r, m, c) && r.status.CheckFailure?
    ensures Failing(h + [r], m, c)
    ensures ReasonFor(h + [r], m, c) ==
            Reason(c, TypeOf(r.checkType), r.error, r.id,
                   if Failing(h, m, c) then h[StreakStart(h, m, c)].checkedAt else r.checkedAt, r.checkedAt)
  {
    LatestNext(h, r, m, c);
    assert (h + [r])[..|h|] == h;
  }

  lemma ReasonsElsewhere(h: History, r: CheckResult, m: Id)
    requires r.monitorID != m
    ensures Reasons(h + [r], m) == Reasons(h, m)
  {
    FailingIsLatest(h, m);
    FailingIsLatest(h + [r], m);
    FailingNext(h, r, m);
    forall c | c in FailingConfigs(h, m)
      ensures ReasonFor(h + [r], m, c) == ReasonFor(h, m, c)
    {
      ReasonStays(h, r, m, c);
    }
  }

  lemma ReasonsAfterSuccess(h: History, r: CheckResult)
    requires r.status.CheckSuccess?
    ensures Reasons(h + [r], r.monitorID) == Reasons(h, r.monitorID) - {r.configID}
  {
    var m := r.monitorID;
    FailingIsLatest(h, m);
    FailingIsLatest(h + [r], m);
    FailingNext(h, r, m);
    forall c | c in FailingConfigs(h, m) && c != r.configID
      ensures ReasonFor(h + [r], m, c) == ReasonFor(h, m, c)
    {
      ReasonStays(h, r, m, c);
    }
  }

  lemma OwnReasonAfterFailure(h: History, r: CheckResult, reason: Reason)
    requires r.status.CheckFailure? && BuildReason(r) == Ok(reason)
    ensures var before, after, c := Reasons(h, r.monitorID), Reasons(h + [r], r.monitorID), reason.configID;
            c in after && after[c] == if c in before then reason.(startedAt := before[c].startedAt) else reason
  {
    FailingIsLatest(h, r.monitorID);
    FailingIsLatest(h + [r], r.monitorID);
    FailingNext(h, r, r.monitorID);
    ReasonMoves(h, r, r.monitorID, r.configID);
  }

  lemma OtherReasonStays(h: History, r: CheckResult, c: Id)
    requires r.status.CheckFailure? && c != r.configID
    ensures var before, after := Reasons(h, r.monitorID), Reasons(h + [r], r.monitorID);
            (c in after <==> c in before) && (c in after ==> after[c] == before[c])
  {
    FailingIsLatest(h, r.monitorID);
    FailingIsLatest(h + [r], r.monitorID);
    FailingNext(h, r, r.monitorID);
    if Failing(h, r.monitorID, c) {
      ReasonStays(h, r, r.monitorID, c);
    }
  }

  lemma IsWithReason(before: map<Id, Reason>, after: map<Id, Reason>, reason: Reason)
    requires forall c {:trigger c in after} ::
               && (c in after <==> c in before || c == reason.configID)
               && (c in after && c != reason.configID ==> after[c] == before[c])
               && (c == reason.configID ==>
                     after[c] == if c in before then reason.(startedAt := before[c].startedAt) else reason)
    ensures after == WithReason(before, reason)
  {
  }

  lemma ReasonsAfterFailure(h: History, r: CheckResult, reason: Reason)
    requires r.status.CheckFailure? && BuildReason(r) == Ok(reason)
    ensures Reasons(h + [r], r.monitorID) == WithReason(Reasons(h, r.monitorID), reason)
  {
    OwnReasonAfterFailure(h, r, reason);
    forall c | c != r.configID {
      OtherReasonStays(h, r, c);
    }
    IsWithReason(Reasons(h, r.monitorID), Reasons(h + [r], r.monitorID), reason);
  }

  lemma DownHasReasons(h: History, m: Id)
    ensures Down(h, m) <==> Reasons(h, m) != map[]
  {
    if Down(h, m) {
      var c :| c in FailingConfigs(h, m);
      assert c in Reasons(h, m);
    }
  }

  // ---- what the transition does to the reasons ---------------------------------------------------

  /** `open` is the open incident of a monitor with these reasons: none if there are none. */
  ghost predicate Tracks(open: Option<IncidentRecord>, reasons: map<Id, Reason>, m: Id) {
    if reasons == map[] then open.None?
    else
      && open.Some? && open.value.monitorID == m && open.value.reasons == reasons
      && open.value.resolvedAt.None? && open.value.resolvedReason.Unresolved?
  }

  /** `inc` carries `open` on, or is new, and now has the reasons `after`: closed by `r` if there are none. */
  ghost predicate Moves(
    open: Option<IncidentRecord>, inc: IncidentRecord, after: map<Id, Reason>, r: CheckResult, newID: Id)
  {
    && inc.monitorID == r.monitorID && inc.reasons == after
    && (if open.Some? then inc.id == open.value.id && inc.startedAt == open.value.startedAt
        else inc.id == newID && inc.startedAt == r.checkedAt && after != map[])
    && (if after != map[] then inc.resolvedAt.None? && inc.resolvedReason.Unresolved?
        else inc.resolvedAt == Some(r.checkedAt) && inc.resolvedReason.Recovered?)
  }

  lemma SuccessMoves(open: Option<IncidentRecord>, before: map<Id, Reason>, r: CheckResult, newID: Id)
    requires Tracks(open, before, r.monitorID) && r.status.CheckSuccess?
    ensures var moved, after := Transition(open, r, newID), before - {r.configID};
            && moved.Ok?
            && (moved.value.None? ==> after == before)
            && (moved.value.Some? ==> open.Some? && Moves(open, moved.value.value, after, r, newID))
  {
  }

  lemma FailureMoves(open: Option<IncidentRecord>, before: map<Id, Reason>, r: CheckResult, newID: Id)
    requires Tracks(open, before, r.monitorID) && r.status.CheckFailure? && !r.checkType.CheckHeadless?
    ensures var moved, after := Transition(open, r, newID), WithReason(before, BuildReason(r).value);
            moved.Ok? && moved.value.Some? && Moves(open, moved.value.value, after, r, newID)
  {
    assert r.configID in WithReason(before, BuildReason(r).value);
  }

  /** What is saved for a result, if anything, has the reasons the longer history calls for. */
  lemma TransitionTracks(open: Option<IncidentRecord>, h: History, r: CheckResult, newID: Id)
    requires Tracks(open, Reasons(h, r.monitorID), r.monitorID) && !r.checkType.CheckHeadless?
    ensures var moved, after := Transition(open, r, newID), Reasons(h + [r], r.monitorID);
            && moved.Ok?
            && (moved.value.None? ==> after == Reasons(h, r.monitorID))
            && (moved.value.Some? ==> Moves(open, moved.value.value, after, r, newID))
  {
    if r.status.CheckSuccess? {
      ReasonsAfterSuccess(h, r);
      SuccessMoves(open, Reasons(h, r.monitorID), r, newID);
    } else {
      ReasonsAfterFailure(h, r, BuildReason(r).value);
      FailureMoves(open, Reasons(h, r.monitorID), r, newID);
    }
  }

  // ---- stretches ---------------------------------------------------------------------------------

  /** A time a monitor was down: from the result that brought it down to the one that ended it, if any yet. */
  datatype Stretch = Stretch(from: nat, to: Option<nat>) {
    /** The monitor is down after result `k`. */
    predicate Covers(k: nat) {
      from <= k && (to.Some? ==> k < to.value)
    }
  }

  /** The stretches after one more result, which finds the monitor down or not, as it was or not. */
  function NextStretches(s: seq<Stretch>, was: bool, down: bool, n: nat): seq<Stretch> {
    if down == was then s
    else if down then s + [Stretch(n, None)]
    else if s == [] then []
    else s[|s| - 1 := s[|s| - 1].(to := Some(n))]
  }

  function Stretches(h: History, m: Id): seq<Stretch> {
    if h == [] then []
    else
      var n := |h| - 1;
      NextStretches(Stretches(h[..n], m), Down(h[..n], m), Down(h, m), n)
  }

  predicate CoveredBy(s: seq<Stretch>, k: nat) {
    exists i :: 0 <= i < |s| && s[i].Covers(k)
  }

  /** The stretches are disjoint and in order, with gaps between them, and only the last may still go on. */
  ghost predicate InTurn(s: seq<Stretch>, length: nat) {
    && (forall i | 0 <= i < |s| ::
          s[i].from < length && (s[i].to.Some? ==> s[i].from < s[i].to.value < length))
    && (forall i, j | 0 <= i < j < |s| :: s[i].to.Some? && s[i].to.value < s[j].from)
  }

  predicate Ongoing(s: seq<Stretch>) {
    s != [] && s[|s| - 1].to.None?
  }

  lemma NextInTurn(s: seq<Stretch>, down: bool, n: nat)
    requires InTurn(s, n)
    ensures InTurn(NextStretches(s, Ongoing(s), down, n), n + 1)
    ensures Ongoing(NextStretches(s, Ongoing(s), down, n)) <==> down
  {
  }

  lemma NextCovers(s: seq<Stretch>, down: bool, n: nat, k: nat)
    requires InTurn(s, n) && k <= n
    ensures var next := NextStretches(s, Ongoing(s), down, n);
            CoveredBy(next, k) <==> if k < n then CoveredBy(s, k) else down
  {
    var next := NextStretches(s, Ongoing(s), down, n);
    assert forall i | 0 <= i < |s| && k < n :: s[i].Covers(k) <==> next[i].Covers(k);
    if k < n && CoveredBy(s, k) {
      var i :| 0 <= i < |s| && s[i].Covers(k);
      assert next[i].Covers(k);
    }
    assert down ==> next[|next| - 1].Covers(n);
  }

  lemma StretchesNext(h: History, r: CheckResult, m: Id)
    ensures Stretches(h + [r], m) == NextStretches(Stretches(h, m), Down(h, m), Down(h + [r], m), |h|)
  {
    assert (h + [r])[..|h|] == h;
  }

  lemma {:induction false} StretchesInTurn(h: History, m: Id)
    ensures InTurn(Stretches(h, m), |h|)
    ensures Down(h, m) <==> Ongoing(Stretches(h, m))
  {
    if h != [] {
      var n := |h| - 1;
      StretchesInTurn(h[..n], m);
      NextInTurn(Stretches(h[..n], m), Down(h, m), n);
    }
  }

  /** The stretches are the maximal ones: a monitor is down after a result exactly when a stretch covers it. */
  lemma {:induction false} StretchesCoverDown(h: History, m: Id, k: nat)
    requires k < |h|
    ensures Down(h[..k + 1], m) <==> CoveredBy(Stretches(h, m), k)
  {
    var n := |h| - 1;
    StretchesInTurn(h[..n], m);
    NextCovers(Stretches(h[..n], m), Down(h, m), n, k);
    if k < n {
      StretchesCoverDown(h[..n], m, k);
      assert h[..n][..k + 1] == h[..k + 1];
    } else {
      assert h[..k + 1] == h;
    }
  }
}
