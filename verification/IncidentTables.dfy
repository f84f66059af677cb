/** The incident tables (`internal/storage/sqlite/migrations.go`) and what `Save` and `GetOpenByMonitor`
  * (`internal/storage/sqlite/incident.go`) do with them, on values. */
module IncidentTables {
  import opened Domain
  import opened Incidents

  datatype IncidentRow = IncidentRow(
    id: Id,
    monitorID: Id,
    resolvedReason: ResolvedReason,
    startedAt: Time,
    resolvedAt: Option<Time>)

  /** Incident rows in the order of their insertion, and reason rows by their primary key, incident and config. */
  datatype Tables = Tables(incidents: seq<IncidentRow>, reasons: map<Id, map<Id, Reason>>)

  const EMPTY := Tables([], map[])

  function RowOf(inc: IncidentRecord): IncidentRow {
    IncidentRow(inc.id, inc.monitorID, inc.resolvedReason, inc.startedAt, inc.resolvedAt)
  }

  /** The position of the row with this primary key, or -1. */
  function RowAt(rows: seq<IncidentRow>, id: Id): (i: int)
    ensures -1 <= i < |rows|
    ensures i >= 0 ==> rows[i].id == id
    ensures i < 0 ==> forall k | 0 <= k < |rows| :: rows[k].id != id
  {
    if rows == [] then -1
    else
      var n := |rows| - 1;
      if rows[n].id == id then n else RowAt(rows[..n], id)
  }

  predicate IsOpenFor(row: IncidentRow, monitor: Id) {
    row.monitorID == monitor && row.resolvedAt.None?
  }

  /** The position of a monitor's open row, or -1. */
  function OpenAt(rows: seq<IncidentRow>, monitor: Id): (i: int)
    ensures -1 <= i < |rows|
    ensures i >= 0 ==> IsOpenFor(rows[i], monitor)
    ensures i < 0 ==> forall k | 0 <= k < |rows| :: !IsOpenFor(rows[k], monitor)
  {
    if rows == [] then -1
    else
      var n := |rows| - 1;
      if IsOpenFor(rows[n], monitor) then n else OpenAt(rows[..n], monitor)
  }

  predicate SameID(rows: seq<IncidentRow>, i: int, j: int) {
    0 <= i < |rows| && 0 <= j < |rows| && rows[i].id == rows[j].id
  }

  predicate BothOpen(rows: seq<IncidentRow>, i: int, j: int) {
    0 <= i < |rows| && 0 <= j < |rows| && IsOpenFor(rows[i], rows[j].monitorID) && IsOpenFor(rows[j], rows[j].monitorID)
  }

  /** The primary key. */
  ghost predicate UniqueIDs(rows: seq<IncidentRow>) {
    forall i, j | SameID(rows, i, j) :: i == j
  }

  /** `idx_incidents_one_open`: at most one open incident per monitor. */
  ghost predicate OneOpen(rows: seq<IncidentRow>) {
    forall i, j | BothOpen(rows, i, j) :: i == j
  }

  lemma OpenIs(rows: seq<IncidentRow>, monitor: Id, i: nat)
    requires OneOpen(rows) && i < |rows| && IsOpenFor(rows[i], monitor)
    ensures OpenAt(rows, monitor) == i
  {
    assert BothOpen(rows, i, OpenAt(rows, monitor));
  }

  lemma RowIs(rows: seq<IncidentRow>, i: nat)
    requires UniqueIDs(rows) && i < |rows|
    ensures RowAt(rows, rows[i].id) == i
  {
    assert SameID(rows, i, RowAt(rows, rows[i].id));
  }

  /** Constraints, and the foreign key of the reasons. */
  ghost predicate Schema(t: Tables) {
    && UniqueIDs(t.incidents) && OneOpen(t.incidents)
    && forall id | id in t.reasons :: RowAt(t.incidents, id) >= 0
  }

  function ReasonsOf(t: Tables, id: Id): map<Id, Reason> {
    if id in t.reasons then t.reasons[id] else map[]
  }

  /** The row written over an incident's: everything but its monitor and its start. */
  function Rewritten(row: IncidentRow, inc: IncidentRecord): IncidentRow {
    row.(resolvedReason := inc.resolvedReason, resolvedAt := inc.resolvedAt)
  }

  /** The upsert's rows. */
  function Upserted(rows: seq<IncidentRow>, inc: IncidentRecord): seq<IncidentRow> {
    var i := RowAt(rows, inc.id);
    if i >= 0 then rows[i := Rewritten(rows[i], inc)] else rows + [RowOf(inc)]
  }

  /** The upsert would leave the monitor of its row with two open incidents. */
  predicate ClashesOpen(rows: seq<IncidentRow>, inc: IncidentRecord) {
    var i := RowAt(rows, inc.id);
    var monitor := if i >= 0 then rows[i].monitorID else inc.monitorID;
    inc.resolvedAt.None? && exists k | 0 <= k < |rows| :: rows[k].id != inc.id && IsOpenFor(rows[k], monitor)
  }

  predicate SameConfig(reasons: map<Id, Reason>, a: Id, b: Id) {
    a in reasons && b in reasons && reasons[a].configID == reasons[b].configID
  }

  /** The reason rows of an incident do not repeat a config. */
  ghost predicate ReasonsApart(reasons: map<Id, Reason>) {
    forall a, b | SameConfig(reasons, a, b) :: a == b
  }

  /** The rows of reasons that are filed under other configs than their own. */
  ghost function Refiled(reasons: map<Id, Reason>): map<Id, Reason>
    requires ReasonsApart(reasons)
  {
    assert forall a, b | a in reasons && b in reasons && reasons[a].configID == reasons[b].configID ::
        SameConfig(reasons, a, b);
    map c | c in reasons :: reasons[c].configID := reasons[c]
  }

  /** The reason rows: the reasons by their own configs, whatever they are filed under. */
  ghost function ByConfig(reasons: map<Id, Reason>): map<Id, Reason>
    requires ReasonsApart(reasons)
  {
    if KeyedOwn(reasons) then reasons else Refiled(reasons)
  }

  /** `Save`: the upsert of the incident, its old reasons deleted, its reasons inserted. */
  ghost function Saved(t: Tables, inc: IncidentRecord): Result<Tables> {
    if ClashesOpen(t.incidents, inc) || !ReasonsApart(inc.reasons) then Err(StorageFailure)
    else Ok(Tables(Upserted(t.incidents, inc), t.reasons[inc.id := ByConfig(inc.reasons)]))
  }

  /** `GetOpenByMonitor`. */
  function Open(t: Tables, monitor: Id): Option<IncidentRecord> {
    var i := OpenAt(t.incidents, monitor);
    if i < 0 then None
    else
      var row := t.incidents[i];
      Some(IncidentRecord(row.id, row.monitorID, ReasonsOf(t, row.id), row.resolvedReason, row.startedAt,
                          row.resolvedAt))
  }

  lemma {:induction false} UpsertKeepsIDs(rows: seq<IncidentRow>, inc: IncidentRecord)
    requires UniqueIDs(rows)
    ensures UniqueIDs(Upserted(rows, inc))
    ensures RowAt(Upserted(rows, inc), inc.id) == if RowAt(rows, inc.id) >= 0 then RowAt(rows, inc.id) else |rows|
    ensures forall id | RowAt(rows, id) >= 0 :: RowAt(Upserted(rows, inc), id) >= 0
  {
    var rows' := Upserted(rows, inc);
    forall i, j | SameID(rows', i, j)
      ensures i == j
    {
      assert SameID(rows, i, j) || i == |rows| || j == |rows|;
    }
    RowIs(rows', if RowAt(rows, inc.id) >= 0 then RowAt(rows, inc.id) else |rows|);
    forall id | RowAt(rows, id) >= 0
      ensures RowAt(rows', id) >= 0
    {
      assert rows'[RowAt(rows, id)].id == id;
    }
  }

  lemma UpsertKeepsOneOpen(rows: seq<IncidentRow>, inc: IncidentRecord)
    requires OneOpen(rows) && UniqueIDs(rows) && !ClashesOpen(rows, inc)
    ensures OneOpen(Upserted(rows, inc))
  {
    var rows', k := Upserted(rows, inc), RowAt(rows, inc.id);
    forall m | 0 <= m < |rows| && m != k
      ensures rows[m].id != inc.id
    {
      assert k >= 0 ==> !SameID(rows, m, k);
    }
    forall i, j | BothOpen(rows', i, j)
      ensures i == j
    {
      var at := if k >= 0 then k else |rows|;
      if i != at && j != at {
        assert BothOpen(rows, i, j);
      }
    }
  }

  lemma SaveKeepsSchema(t: Tables, inc: IncidentRecord)
    requires Schema(t) && Saved(t, inc).Ok?
    ensures Schema(Saved(t, inc).value)
  {
    UpsertKeepsIDs(t.incidents, inc);
    UpsertKeepsOneOpen(t.incidents, inc);
  }

  /** The incident is stored, if at all, as one of the same monitor and start: it is new, or was read from here. */
  ghost predicate SameOrigin(t: Tables, inc: IncidentRecord) {
    var i := RowAt(t.incidents, inc.id);
    i >= 0 ==> t.incidents[i].monitorID == inc.monitorID && t.incidents[i].startedAt == inc.startedAt
  }

  lemma KeyedByConfig(inc: IncidentRecord)
    ensures Keyed(inc) ==> ReasonsApart(inc.reasons)
    ensures ReasonsApart(inc.reasons) ==> (ByConfig(inc.reasons) == inc.reasons <==> Keyed(inc))
  {
    if ReasonsApart(inc.reasons) && !Keyed(inc) {
      var c :| c in inc.reasons && inc.reasons[c].configID != c;
      var w := inc.reasons[c].configID;
      assert w in Refiled(inc.reasons);
      var a :| a in inc.reasons && inc.reasons[a].configID == w && Refiled(inc.reasons)[w] == inc.reasons[a];
      assert SameConfig(inc.reasons, a, c);
      assert w in inc.reasons ==> !SameConfig(inc.reasons, w, c);
    }
  }

  /** Saving an open incident and reading the monitor's open incident gives it back, exactly when its reasons are
    * keyed by their own configs and its monitor has no other open incident. */
  lemma SaveThenGet(t: Tables, inc: IncidentRecord)
    requires Schema(t) && SameOrigin(t, inc) && inc.resolvedAt.None?
    ensures Saved(t, inc).Ok? && Open(Saved(t, inc).value, inc.monitorID) == Some(inc) <==>
            Keyed(inc) && !ClashesOpen(t.incidents, inc)
  {
    KeyedByConfig(inc);
    if Saved(t, inc).Ok? {
      SavedIsOpen(t, inc);
    }
  }

  lemma SavedIsOpen(t: Tables, inc: IncidentRecord)
    requires Schema(t) && SameOrigin(t, inc) && inc.resolvedAt.None? && Saved(t, inc).Ok?
    ensures Open(Saved(t, inc).value, inc.monitorID) == Some(inc.(reasons := ByConfig(inc.reasons)))
  {
    var rows, rows' := t.incidents, Saved(t, inc).value.incidents;
    SaveKeepsSchema(t, inc);
    OpenIs(rows', inc.monitorID, if RowAt(rows, inc.id) >= 0 then RowAt(rows, inc.id) else |rows|);
  }

  /** A resolved incident is no longer its monitor's open one. */
  lemma SavedIsResolved(t: Tables, inc: IncidentRecord)
    requires Schema(t) && Open(t, inc.monitorID).Some? && Open(t, inc.monitorID).value.id == inc.id
    requires inc.resolvedAt.Some? && Saved(t, inc).Ok?
    ensures Open(Saved(t, inc).value, inc.monitorID).None?
  {
    var rows, rows' := t.incidents, Saved(t, inc).value.incidents;
    var i := OpenAt(rows, inc.monitorID);
    RowIs(rows, i);
    var k := OpenAt(rows', inc.monitorID);
    if k >= 0 {
      assert k != i;
      OpenIs(rows, inc.monitorID, k);
      assert false;
    }
  }

  /** Saving an incident leaves other monitors' open incidents, and other incidents' reasons, as they were. */
  lemma SaveLeavesOthers(t: Tables, inc: IncidentRecord, monitor: Id)
    requires Schema(t) && SameOrigin(t, inc) && Saved(t, inc).Ok? && monitor != inc.monitorID
    ensures Open(Saved(t, inc).value, monitor) == Open(t, monitor)
    ensures forall id | id != inc.id :: ReasonsOf(Saved(t, inc).value, id) == ReasonsOf(t, id)
  {
    var t' := Saved(t, inc).value;
    SaveKeepsSchema(t, inc);
    UpsertLeavesOthers(t.incidents, inc, monitor);
    var i := OpenAt(t.incidents, monitor);
    if i >= 0 {
      assert t.incidents[i].id != inc.id by {
        if t.incidents[i].id == inc.id {
          RowIs(t.incidents, i);
        }
      }
    }
  }

  lemma UpsertLeavesOthers(rows: seq<IncidentRow>, inc: IncidentRecord, monitor: Id)
    requires OneOpen(rows) && OneOpen(Upserted(rows, inc)) && monitor != inc.monitorID
    requires RowAt(rows, inc.id) >= 0 ==> rows[RowAt(rows, inc.id)].monitorID == inc.monitorID
    ensures var i := OpenAt(rows, monitor);
            OpenAt(Upserted(rows, inc), monitor) == i && (i >= 0 ==> Upserted(rows, inc)[i] == rows[i])
  {
    var rows' := Upserted(rows, inc);
    var i, i' := OpenAt(rows, monitor), OpenAt(rows', monitor);
    forall m | 0 <= m < |rows|
      ensures IsOpenFor(rows'[m], monitor) <==> IsOpenFor(rows[m], monitor)
    {
      assert rows'[m] != rows[m] ==> m == RowAt(rows, inc.id);
    }
    if i >= 0 {
      OpenIs(rows', monitor, i);
    }
  }
}
