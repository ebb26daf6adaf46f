/** The versioned table catalog (tables_service.go): what each locked operation does to the
    stored records. */
module Catalog {
  import opened Options
  import opened Cells
  import opened Text
  import opened Signature
  import opened Partitioning
  import opened Purge
  import Reconcile
  import Decimal

  type Tables = map<TableRef, Table>

  /** What the catalog calls but does not decide: the calendar and the REQUIRED-field check. */
  datatype World = World(cal: Calendar, storable: (seq<Field>, seq<Row>) -> bool)

  function Lookup(c: Tables, r: TableRef): Option<Table> {
    if r in c then Some(c[r]) else None
  }

  // ---- Expiry --------------------------------------------------------------------------

  predicate TableExpired(t: Table, now: Time) {
    t.expiration.Some? && t.expiration.value <= now
  }

  /** purgeExpiredLocked on one dataset; every read does this first. */
  function PurgeDataset(w: World, c: Tables, dataset: string, now: Time): Tables {
    map r | r in c && !(r.datasetID == dataset && TableExpired(c[r], now))
          :: if r.datasetID == dataset then PurgeTable(w.cal, c[r], now) else c[r]
  }

  // ---- Direct operations ------------------------------------------------------------------

  datatype NewTable = NewTable(
    schema: seq<Field>, rows: seq<Row>, view: Option<View>, external: bool,
    timePart: Option<TimePart>, rangePart: Option<RangePart>, details: Details, expiration: Option<Time>)

  /** Some(x) sets a field to x, None leaves it. */
  datatype Patch = Patch(
    friendlyName: Option<string>, description: Option<string>, labels: Option<map<string, string>>,
    expiration: Option<Option<Time>>, schema: Option<seq<Field>>,
    timePart: Option<Option<TimePart>>, rangePart: Option<Option<RangePart>>,
    clustering: Option<seq<string>>, requireFilter: Option<bool>)

  /** update replaces all of these. */
  datatype Update = Update(
    details: Details, expiration: Option<Time>, timePart: Option<TimePart>, rangePart: Option<RangePart>)

  datatype WriteMode = WriteEmpty | WriteTruncate | WriteAppend

  predicate Blank(r: TableRef) {
    r.datasetID == "" || r.tableID == ""
  }

  function InferSchema(rows: seq<Row>): seq<Field> {
    if rows == [] then [] else seq(|rows[0]|, i requires 0 <= i => Field("col_" + Decimal.Itoa(i + 1), "STRING", ""))
  }

  function OrInferred(schema: seq<Field>, rows: seq<Row>): seq<Field> {
    if schema == [] && rows != [] then InferSchema(rows) else schema
  }

  function Created(w: World, n: NewTable, now: Time): Table {
    Table(OrInferred(n.schema, n.rows), n.rows, NewPartitions(w.cal, n.timePart, |n.rows|, now),
          n.view, n.external, n.timePart, n.rangePart, n.details, now, now, 1, n.expiration)
  }

  predicate MayInsert(w: World, c: Tables, r: TableRef, n: NewTable) {
    !Blank(r) && r !in c && RowsFit(w.cal, OrInferred(n.schema, n.rows), n.rows, n.timePart, n.rangePart)
  }

  function InsertTable(w: World, c: Tables, r: TableRef, n: NewTable, now: Time): Tables {
    if MayInsert(w, c, r, n) then c[r := Created(w, n, now)] else c
  }

  function DeleteTable(c: Tables, r: TableRef): Tables {
    c - {r}
  }

  function Or<T>(o: Option<T>, t: T): T {
    match o
    case Some(x) => x
    case None => t
  }

  function PatchedDetails(d: Details, p: Patch): Details {
    Details(Or(p.friendlyName, d.friendlyName), Or(p.description, d.description), Or(p.labels, d.labels),
            Or(p.clustering, d.clustering), Or(p.requireFilter, d.requireFilter))
  }

  function Patched(t: Table, p: Patch, now: Time): Table {
    t.(details := PatchedDetails(t.details, p),
       expiration := Or(p.expiration, t.expiration), schema := Or(p.schema, t.schema),
       timePart := Or(p.timePart, t.timePart), rangePart := Or(p.rangePart, t.rangePart),
       updatedAt := now, version := t.version + 1)
  }

  function PatchTable(c: Tables, r: TableRef, p: Patch, now: Time): Tables {
    if Blank(r) || r !in c then c else c[r := Patched(c[r], p, now)]
  }

  function Updated(t: Table, u: Update, now: Time): Table {
    t.(details := u.details, expiration := u.expiration, timePart := u.timePart, rangePart := u.rangePart,
       updatedAt := now, version := t.version + 1)
  }

  function UpdateTable(c: Tables, r: TableRef, u: Update, now: Time): Tables {
    if Blank(r) || r !in c then c else c[r := Updated(c[r], u, now)]
  }

  function NoDetails(): Details {
    Details("", "", map[], [], false)
  }

  /** The record an upsert starts from when its destination is missing. */
  function EmptyTable(now: Time): Table {
    Table([], [], [], None, false, None, None, NoDetails(), now, now, 1, None)
  }

  predicate SameSchema(a: seq<Field>, b: seq<Field>) {
    |a| == |b| && forall i :: 0 <= i < |a| ==> a[i].name == b[i].name && a[i].kind == b[i].kind
  }

  /** The record after an upsert's rows are in. */
  function Filled(w: World, t: Table, schema: seq<Field>, rows: seq<Row>, write: WriteMode, now: Time): Table {
    var added := NewPartitions(w.cal, t.timePart, |rows|, now);
    var newRows := if write.WriteAppend? then t.rows + rows else rows;
    var newSchema := if write.WriteAppend? && t.schema != [] then t.schema else schema;
    t.(schema := OrInferred(newSchema, newRows), rows := newRows,
       partitions := if write.WriteAppend? then t.partitions + added else added,
       updatedAt := now, version := t.version + 1)
  }

  predicate MayUpsert(w: World, c: Tables, r: TableRef, schema: seq<Field>, rows: seq<Row>, createNever: bool,
                      write: WriteMode, now: Time)
  {
    && !Blank(r)
    && (r !in c ==> !createNever)
    && (r in c && write.WriteEmpty? ==> c[r].rows == [])
    && var t := if r in c then c[r] else EmptyTable(now);
       && (write.WriteAppend? && t.schema != [] && schema != [] ==> SameSchema(t.schema, schema))
       && var f := Filled(w, t, schema, rows, write, now);
          w.storable(f.schema, f.rows) && RowsFit(w.cal, f.schema, f.rows, t.timePart, t.rangePart)
  }

  function UpsertTable(w: World, c: Tables, r: TableRef, schema: seq<Field>, rows: seq<Row>, createNever: bool,
                       write: WriteMode, now: Time): Tables
  {
    if MayUpsert(w, c, r, schema, rows, createNever, write, now) then
      c[r := Filled(w, if r in c then c[r] else EmptyTable(now), schema, rows, write, now)]
    else c
  }

  datatype Op =
    | Touch(dataset: string)
    | Insert(ref: TableRef, input: NewTable)
    | Delete(ref: TableRef)
    | PatchOp(ref: TableRef, patch: Patch)
    | UpdateOp(ref: TableRef, update: Update)
    | Upsert(ref: TableRef, schema: seq<Field>, rows: seq<Row>, createNever: bool, write: WriteMode)

  function ApplyOp(w: World, c: Tables, op: Op, now: Time): Tables {
    match op
    case Touch(d) => PurgeDataset(w, c, d, now)
    case Insert(r, n) => InsertTable(w, c, r, n, now)
    case Delete(r) => DeleteTable(c, r)
    case PatchOp(r, p) => PatchTable(c, r, p, now)
    case UpdateOp(r, u) => UpdateTable(c, r, u, now)
    case Upsert(r, s, rows, never, write) => UpsertTable(w, c, r, s, rows, never, write, now)
  }

  // ---- Versioned commits ---------------------------------------------------------------------

  datatype Change =
    | ReplaceRows(rows: seq<Row>, ids: seq<string>)
    | ReplaceTable(schema: seq<Field>, rows: seq<Row>)
    | ReplaceView(schema: seq<Field>, view: View)
    | AddColumns(fields: seq<Field>)
    | DropColumns(names: seq<string>)
    | RenameColumns(names: seq<string>)
    | RenameTable(newID: string)
    | DropTable

  /** replaceRowsIfVersion: the partitions of the new rows. */
  function ReplacedPartitions(w: World, t: Table, rows: seq<Row>, ids: seq<string>, now: Time): seq<string> {
    var current := IngestionId(w.cal, t.timePart, now);
    if current != "" && |ids| == |rows| then
      seq(|ids|, i requires 0 <= i < |ids| => if ids[i] == "" then current else ids[i])
    else Reconcile.Reconciled(t.rows, rows, t.partitions, current)
  }

  function Nulls(n: nat): Row {
    seq(n, _ => NULL_CELL)
  }

  function Padded(rows: seq<Row>, n: nat): seq<Row> {
    seq(|rows|, i requires 0 <= i < |rows| => rows[i] + Nulls(n))
  }

  /** dropColumnIndexSet: each name drops its first match. */
  predicate Dropped(schema: seq<Field>, names: seq<string>, i: nat) {
    exists k :: 0 <= k < |names| && FindField(schema, names[k]) == i
  }

  function KeptCells<T>(s: seq<T>, schema: seq<Field>, names: seq<string>): seq<T> {
    if s == [] then []
    else
      var n := |s| - 1;
      KeptCells(s[..n], schema, names) + (if n < |schema| && Dropped(schema, names, n) then [] else [s[n]])
  }

  function KeptInEach(rows: seq<Row>, schema: seq<Field>, names: seq<string>): seq<Row> {
    seq(|rows|, i requires 0 <= i < |rows| => KeptCells(rows[i], schema, names))
  }

  /** The new name of a column; any of the entries that match it may be the one that is used. */
  predicate MayBecome(f: Field, renames: map<string, string>, name: string) {
    if exists n :: n in renames && EqualFold(f.name, n) then
      exists n :: n in renames && EqualFold(f.name, n) && renames[n] == name
    else name == f.name
  }

  predicate Renames(schema: seq<Field>, renames: map<string, string>, names: seq<string>) {
    |names| == |schema| && forall i :: 0 <= i < |schema| ==> MayBecome(schema[i], renames, names[i])
  }

  function Renamed(schema: seq<Field>, names: seq<string>): seq<Field> {
    seq(|schema|, i requires 0 <= i < |schema| => if i < |names| then schema[i].(name := names[i]) else schema[i])
  }

  predicate MayChange(w: World, c: Tables, r: TableRef, change: Change)
    requires r in c
  {
    var t := c[r];
    match change
    case ReplaceRows(rows, _) =>
      && t.view.None? && !t.external && w.storable(t.schema, rows)
      && RowsFit(w.cal, t.schema, rows, t.timePart, t.rangePart)
    case ReplaceTable(schema, rows) => w.storable(schema, rows)
    case RenameTable(newID) => TableRef(r.datasetID, newID) !in c
    case _ => true
  }

  function Bumped(t: Table, now: Time): Table {
    t.(updatedAt := now, version := t.version + 1)
  }

  /** A definition replaced as a whole. */
  function Redefined(t: Table, schema: seq<Field>, rows: seq<Row>, view: Option<View>): Table {
    t.(schema := schema, rows := rows, view := view, external := false, timePart := None, rangePart := None,
       details := t.details.(clustering := [], requireFilter := false), partitions := [])
  }

  function Changed(w: World, t: Table, change: Change, now: Time): Table {
    Bumped(
      match change
      case ReplaceRows(rows, ids) => t.(rows := rows, partitions := ReplacedPartitions(w, t, rows, ids, now))
      case ReplaceTable(schema, rows) => Redefined(t, schema, rows, None)
      case ReplaceView(schema, view) => Redefined(t, schema, [], Some(view))
      case AddColumns(fields) => t.(schema := t.schema + fields, rows := Padded(t.rows, |fields|))
      case DropColumns(names) =>
        t.(schema := KeptCells(t.schema, t.schema, names),
           rows := KeptInEach(t.rows, t.schema, names))
      case RenameColumns(names) => t.(schema := Renamed(t.schema, names))
      case RenameTable(_) => t
      case DropTable => t,
      now)
  }

  predicate MayCommit(w: World, c: Tables, r: TableRef, version: nat, change: Change) {
    r in c && c[r].version == version && MayChange(w, c, r, change)
  }

  function Commit(w: World, c: Tables, r: TableRef, change: Change, now: Time): Tables
    requires r in c
  {
    match change
    case DropTable => c - {r}
    case RenameTable(newID) => (c - {r})[TableRef(r.datasetID, newID) := Changed(w, c[r], change, now)]
    case _ => c[r := Changed(w, c[r], change, now)]
  }

  /** What a write-through append relies on: it adds exactly its rows at the end, or nothing. */
  lemma {:induction false} AppendExtendsTable(w: World, c: Tables, r: TableRef, schema: seq<Field>, rows: seq<Row>,
                                              now: Time)
    ensures var d := UpsertTable(w, c, r, schema, rows, true, WriteAppend, now);
            if MayUpsert(w, c, r, schema, rows, true, WriteAppend, now) then
              && r in c && d == c[r := d[r]] && d[r].version == c[r].version + 1
              && d[r].rows == c[r].rows + rows
              && d[r].partitions == c[r].partitions + NewPartitions(w.cal, c[r].timePart, |rows|, now)
            else d == c
  {
  }

  /** In an ingestion-time table, an append leaves every (row, partition) pair where it was and puts
      each new row, in order, into the current partition. */
  lemma {:induction false} AppendKeepsPairs(w: World, c: Tables, r: TableRef, schema: seq<Field>, rows: seq<Row>,
                                            now: Time)
    requires Lawful(w.cal) && MayUpsert(w, c, r, schema, rows, true, WriteAppend, now)
    requires r in c && IsIngestion(c[r].timePart) && Aligned(c[r])
    ensures var d := UpsertTable(w, c, r, schema, rows, true, WriteAppend, now);
            && r in d && Aligned(d[r])
            && Reconcile.Pairs(d[r].rows, d[r].partitions)
            == Reconcile.Pairs(c[r].rows, c[r].partitions)
                + seq(|rows|, i requires 0 <= i < |rows| => (rows[i], IngestionId(w.cal, c[r].timePart, now)))
  {
    AppendExtendsTable(w, c, r, schema, rows, now);
    var d := UpsertTable(w, c, r, schema, rows, true, WriteAppend, now);
    assert d[r].timePart == c[r].timePart;
    var added := NewPartitions(w.cal, c[r].timePart, |rows|, now);
    assert forall i :: 0 <= i < |rows| ==> added[i] == IngestionId(w.cal, c[r].timePart, now);
  }

  // ---- Renaming --------------------------------------------------------------------------------

  /** Some outcome of the renaming. */
  ghost function Picked(f: Field, renames: map<string, string>): (name: string)
    ensures MayBecome(f, renames, name)
  {
    if exists n :: n in renames && EqualFold(f.name, n) then
      var n :| n in renames && EqualFold(f.name, n);
      renames[n]
    else f.name
  }

  /** Two entries send one column to different names. */
  predicate Clash(f: Field, renames: map<string, string>, m: string, n: string) {
    m in renames && n in renames && EqualFold(f.name, m) && EqualFold(f.name, n) && renames[m] != renames[n]
  }

  /** A map is ranged over in any order; the renaming does not depend on it exactly when no two
      entries that differ in case alone send a column of the table to different names. */
  lemma {:induction false} RenamingIsUniqueIff(schema: seq<Field>, renames: map<string, string>)
    ensures (forall a, b :: Renames(schema, renames, a) && Renames(schema, renames, b) ==> a == b)
       <==> (forall i, m, n :: 0 <= i < |schema| ==> !Clash(schema[i], renames, m, n))
  {
    var base := seq(|schema|, i requires 0 <= i < |schema| => Picked(schema[i], renames));
    if i, m, n :| 0 <= i < |schema| && Clash(schema[i], renames, m, n) {
      var a, b := base[i := renames[m]], base[i := renames[n]];
      assert Renames(schema, renames, a) && Renames(schema, renames, b) && a[i] != b[i];
    } else {
      forall a, b | Renames(schema, renames, a) && Renames(schema, renames, b) ensures a == b {
        forall i | 0 <= i < |schema| ensures a[i] == b[i] { SameName(schema[i], renames, a[i], b[i]); }
      }
    }
  }

  lemma {:induction false} SameName(f: Field, renames: map<string, string>, a: string, b: string)
    requires MayBecome(f, renames, a) && MayBecome(f, renames, b) && forall m, n :: !Clash(f, renames, m, n)
    ensures a == b
  {
    if exists n :: n in renames && EqualFold(f.name, n) {
      var m :| m in renames && EqualFold(f.name, m) && renames[m] == a;
      var n :| n in renames && EqualFold(f.name, n) && renames[n] == b;
      assert !Clash(f, renames, m, n);
    }
  }

  // ---- Versions only grow ---------------------------------------------------------------------

  /** A record that an operation leaves in place is untouched or has a higher version. */
  ghost predicate VersionsGrow(c: Tables, d: Tables) {
    forall r :: r in c && r in d ==> d[r] == c[r] || d[r].version > c[r].version
  }

  /** The IDs an operation brings into existence. */
  ghost predicate Creates(c: Tables, d: Tables, r: TableRef) {
    r in d && r !in c
  }

  lemma {:induction false} OpsGrowVersions(w: World, c: Tables, op: Op, now: Time)
    ensures VersionsGrow(c, ApplyOp(w, c, op, now))
  {
    if op.Touch? {
      forall r | r in c ensures var p := PurgeTable(w.cal, c[r], now); p == c[r] || p.version > c[r].version {
        PurgeBumpsVersionIff(w.cal, c[r], now);
      }
    }
  }

  lemma {:induction false} CommitsGrowVersions(w: World, c: Tables, r: TableRef, version: nat, change: Change,
                                               now: Time)
    requires MayCommit(w, c, r, version, change)
    ensures VersionsGrow(c, Commit(w, c, r, change, now))
  {
  }

  // ---- One partition per row ----------------------------------------------------------------

  predicate Aligned(t: Table) {
    IsIngestion(t.timePart) ==> |t.partitions| == |t.rows| && "" !in t.partitions
  }

  ghost predicate AllAligned(c: Tables) {
    forall r :: r in c ==> Aligned(c[r])
  }

  /** A patch or an update that neither makes a table ingestion-partitioned nor stops it being so. */
  predicate KeepsKind(c: Tables, op: Op) {
    match op
    case PatchOp(r, p) => r in c && p.timePart.Some? ==> IsIngestion(p.timePart.value) == IsIngestion(c[r].timePart)
    case UpdateOp(r, u) => r in c ==> IsIngestion(u.timePart) == IsIngestion(c[r].timePart)
    case _ => true
  }

  lemma {:induction false} PurgeKeepsAligned(w: World, t: Table, now: Time)
    requires Lawful(w.cal) && Aligned(t)
    ensures Aligned(PurgeTable(w.cal, t, now))
  {
    if MayPurge(t) && t.timePart.value.field == "" {
      forall i | 0 <= i < |t.rows| ensures RowId(w.cal, t, i) != "" { NonEmptyId(w.cal, t, i); }
    }
  }

  lemma {:induction false} OpKeepsAligned(w: World, c: Tables, op: Op, now: Time)
    requires Lawful(w.cal) && AllAligned(c) && KeepsKind(c, op)
    ensures AllAligned(ApplyOp(w, c, op, now))
  {
    if op.Touch? {
      forall r | r in c ensures Aligned(PurgeTable(w.cal, c[r], now)) { PurgeKeepsAligned(w, c[r], now); }
    }
  }

  lemma {:induction false} ChangeKeepsAligned(w: World, t: Table, change: Change, now: Time)
    requires Lawful(w.cal) && Aligned(t)
    ensures Aligned(Changed(w, t, change, now))
  {
    if change.ReplaceRows? && IsIngestion(t.timePart) {
      Reconcile.ReconciledIsComplete(t.rows, change.rows, t.partitions, IngestionId(w.cal, t.timePart, now));
    }
  }

  lemma {:induction false} CommitKeepsAligned(w: World, c: Tables, r: TableRef, version: nat, change: Change, now: Time)
    requires Lawful(w.cal) && AllAligned(c) && MayCommit(w, c, r, version, change)
    ensures AllAligned(Commit(w, c, r, change, now))
  {
    ChangeKeepsAligned(w, c[r], change, now);
  }

  /** For a table whose list was in step, patching in ingestion-time partitioning leaves rows
      without a partition exactly when there are rows and the table was not so partitioned. */
  lemma {:induction false} PatchAlignedIff(t: Table, p: Patch, now: Time)
    requires Aligned(t) && (!IsIngestion(t.timePart) ==> t.partitions == [])
    ensures Aligned(Patched(t, p, now))
       <==> !(t.rows != [] && !IsIngestion(t.timePart) && IsIngestion(Or(p.timePart, t.timePart)))
  {
  }
}
