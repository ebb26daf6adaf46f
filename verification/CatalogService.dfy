/** The imperative table service: each locked method against its specification. */
module CatalogService {
  import opened Options
  import opened Cells
  import opened Text
  import opened Signature
  import opened Partitioning
  import opened Purge
  import opened Catalog
  import Reconcile

  class TableService {
    var tables: Tables
    const w: World

    constructor (w: World)
      ensures tables == map[] && this.w == w
    {
      this.w := w;
      tables := map[];
    }

    /** purgeExpiredLocked; the records are visited in any order. */
    method PurgeExpired(dataset: string, now: Time)
      modifies this
      ensures tables == PurgeDataset(w, old(tables), dataset, now)
    {
      var pending := set r | r in tables && r.datasetID == dataset;
      ghost var goal := PurgeDataset(w, tables, dataset, now);
      while pending != {}
        invariant forall r :: r in pending ==> r in old(tables) && r.datasetID == dataset
        invariant forall r :: Lookup(tables, r) == if r in pending then Lookup(old(tables), r) else Lookup(goal, r)
        decreases |pending|
      {
        var r :| r in pending;
        pending := pending - {r};
        if tables[r].expiration.Some? && tables[r].expiration.value <= now {
          tables := tables - {r};
        } else {
          var t, removed := PurgeExpiredPartitions(w.cal, tables[r], now);
          tables := tables[r := t];
        }
      }
      SameLookups(tables, goal);
    }

    method Get(ref: TableRef, now: Time) returns (t: Option<Table>)
      modifies this
      ensures tables == PurgeDataset(w, old(tables), ref.datasetID, now)
      ensures t == Lookup(tables, ref)
    {
      PurgeExpired(ref.datasetID, now);
      return if ref in tables then Some(tables[ref]) else None;
    }

    method InsertNew(ref: TableRef, n: NewTable, now: Time) returns (ok: bool)
      modifies this
      ensures ok == MayInsert(w, old(tables), ref, n)
      ensures tables == InsertTable(w, old(tables), ref, n, now)
    {
      if Blank(ref) || ref in tables {
        return false;
      }
      var schema := n.schema;
      if schema == [] && n.rows != [] {
        schema := InferSchema(n.rows);
      }
      if !RowsFit(w.cal, schema, n.rows, n.timePart, n.rangePart) {
        return false;
      }
      var ids := NewPartitions(w.cal, n.timePart, |n.rows|, now);
      tables := tables[ref := Table(schema, n.rows, ids, n.view, n.external, n.timePart, n.rangePart,
                                    n.details, now, now, 1, n.expiration)];
      return true;
    }

    method Remove(ref: TableRef) returns (ok: bool)
      modifies this
      ensures ok == (ref in old(tables)) && tables == DeleteTable(old(tables), ref)
    {
      ok := ref in tables;
      if ok {
        tables := tables - {ref};
      }
    }

    method PatchRecord(ref: TableRef, p: Patch, now: Time) returns (ok: bool)
      modifies this
      ensures ok == (!Blank(ref) && ref in old(tables)) && tables == PatchTable(old(tables), ref, p, now)
    {
      if Blank(ref) || ref !in tables {
        return false;
      }
      var t := tables[ref];
      var details := PatchDetails(t.details, p);
      var expiration, schema, timePart, rangePart := t.expiration, t.schema, t.timePart, t.rangePart;
      if p.expiration.Some? { expiration := p.expiration.value; }
      if p.schema.Some? { schema := p.schema.value; }
      if p.timePart.Some? { timePart := p.timePart.value; }
      if p.rangePart.Some? { rangePart := p.rangePart.value; }
      t := t.(details := details, expiration := expiration, schema := schema, timePart := timePart,
          rangePart := rangePart);
      tables := tables[ref := Bumped(t, now)];
      return true;
    }

    method UpdateRecord(ref: TableRef, u: Update, now: Time) returns (ok: bool)
      modifies this
      ensures ok == (!Blank(ref) && ref in old(tables)) && tables == UpdateTable(old(tables), ref, u, now)
    {
      if Blank(ref) || ref !in tables {
        return false;
      }
      var t := tables[ref];
      t := t.(details := u.details, expiration := u.expiration, timePart := u.timePart, rangePart := u.rangePart);
      tables := tables[ref := Bumped(t, now)];
      return true;
    }

    method Upsert(ref: TableRef, schema: seq<Field>, rows: seq<Row>, createNever: bool, write: WriteMode, now: Time)
      returns (ok: bool)
      modifies this
      ensures ok == MayUpsert(w, old(tables), ref, schema, rows, createNever, write, now)
      ensures tables == UpsertTable(w, old(tables), ref, schema, rows, createNever, write, now)
    {
      if Blank(ref) {
        return false;
      }
      var existing;
      if ref !in tables {
        if createNever {
          return false;
        }
        existing := EmptyTable(now);
      } else {
        existing := tables[ref];
        if write.WriteEmpty? && existing.rows != [] {
          return false;
        }
      }
      if write.WriteAppend? && existing.schema != [] && schema != [] && !SameSchema(existing.schema, schema) {
        return false;
      }
      var newSchema, newRows := schema, rows;
      var newIds := NewPartitions(w.cal, existing.timePart, |rows|, now);
      if write.WriteAppend? {
        newRows := existing.rows + newRows;
        if existing.schema != [] {
          newSchema := existing.schema;
        }
        newIds := existing.partitions + newIds;
      }
      if newSchema == [] && newRows != [] {
        newSchema := InferSchema(newRows);
      }
      if !w.storable(newSchema, newRows) || !RowsFit(w.cal, newSchema, newRows, existing.timePart, existing.rangePart) {
        return false;
      }
      existing := existing.(schema := newSchema, rows := newRows, partitions := newIds);
      tables := tables[ref := Bumped(existing, now)];
      return true;
    }

    /** The record, when it is there at the version a statement saw. */
    method Check(ref: TableRef, version: nat) returns (t: Option<Table>)
      ensures t == if ref in tables && tables[ref].version == version then Some(tables[ref]) else None
    {
      if ref !in tables || tables[ref].version != version {
        return None;
      }
      return Some(tables[ref]);
    }

    method ReplaceRowsIfVersion(ref: TableRef, version: nat, rows: seq<Row>, ids: seq<string>, now: Time)
      returns (ok: bool)
      modifies this
      ensures ok == MayCommit(w, old(tables), ref, version, ReplaceRows(rows, ids))
      ensures tables == if ok then Commit(w, old(tables), ref, ReplaceRows(rows, ids), now) else old(tables)
    {
      var found := Check(ref, version);
      if found.None? {
        return false;
      }
      var t := found.value;
      if t.view.Some? || t.external || !w.storable(t.schema, rows)
         || !RowsFit(w.cal, t.schema, rows, t.timePart, t.rangePart) {
        return false;
      }
      var partitions := NewRowPartitions(t, rows, ids, now);
      tables := tables[ref := Bumped(t.(rows := rows, partitions := partitions), now)];
      return true;
    }

    /** The IDs the engine carried through, blanks filled in, or a reconciliation. */
    method NewRowPartitions(t: Table, rows: seq<Row>, ids: seq<string>, now: Time) returns (partitions: seq<string>)
      ensures partitions == ReplacedPartitions(w, t, rows, ids, now)
    {
      var current := IngestionId(w.cal, t.timePart, now);
      if current != "" && |ids| == |rows| {
        partitions := ids;
        for i := 0 to |ids|
          invariant |partitions| == |ids|
          invariant forall j :: 0 <= j < |ids| ==> partitions[j] == if j < i && ids[j] == "" then current else ids[j]
        {
          if partitions[i] == "" {
            partitions := partitions[i := current];
          }
        }
      } else {
        partitions := Reconcile.ReconcileIngestionPartitions(t.rows, rows, t.partitions, current);
      }
    }

    method AddColumnsIfVersion(ref: TableRef, version: nat, fields: seq<Field>, now: Time) returns (ok: bool)
      modifies this
      ensures ok == MayCommit(w, old(tables), ref, version, AddColumns(fields))
      ensures tables == if ok then Commit(w, old(tables), ref, AddColumns(fields), now) else old(tables)
    {
      var found := Check(ref, version);
      if found.None? {
        return false;
      }
      var t := found.value;
      var rows := t.rows;
      for i := 0 to |rows|
        invariant |rows| == |t.rows|
        invariant forall k :: 0 <= k < |rows| ==> rows[k] == if k < i then Padded(t.rows, |fields|)[k] else t.rows[k]
      {
        var row := rows[i];
        for n := 0 to |fields|
          invariant row == t.rows[i] + Nulls(n)
        {
          row := row + [NULL_CELL];
        }
        rows := rows[i := row];
      }
      assert rows == Padded(t.rows, |fields|);
      tables := tables[ref := Bumped(t.(schema := t.schema + fields, rows := rows), now)];
      return true;
    }

    /** names is what the columns come to be called. */
    method RenameColumnsIfVersion(ref: TableRef, version: nat, renames: map<string, string>, now: Time)
      returns (ok: bool, names: seq<string>)
      modifies this
      ensures ok == MayCommit(w, old(tables), ref, version, RenameColumns(names))
      ensures ok ==> Renames(old(tables)[ref].schema, renames, names)
      ensures tables == if ok then Commit(w, old(tables), ref, RenameColumns(names), now) else old(tables)
    {
      var found := Check(ref, version);
      if found.None? {
        return false, [];
      }
      var t := found.value;
      names := [];
      for i := 0 to |t.schema|
        invariant tables == old(tables) && |names| == i
        invariant forall k :: 0 <= k < i ==> MayBecome(t.schema[k], renames, names[k])
      {
        var name := RenameField(t.schema[i], renames);
        names := names + [name];
      }
      tables := tables[ref := Bumped(t.(schema := Renamed(t.schema, names)), now)];
      return true, names;
    }

    method RenameTableIfVersion(ref: TableRef, newID: string, version: nat, now: Time) returns (ok: bool)
      modifies this
      ensures ok == MayCommit(w, old(tables), ref, version, RenameTable(newID))
      ensures tables == if ok then Commit(w, old(tables), ref, RenameTable(newID), now) else old(tables)
    {
      var found := Check(ref, version);
      if found.None? || TableRef(ref.datasetID, newID) in tables {
        return false;
      }
      tables := tables - {ref};
      tables := tables[TableRef(ref.datasetID, newID) := Bumped(found.value, now)];
      return true;
    }

    method DeleteIfVersion(ref: TableRef, version: nat, now: Time) returns (ok: bool)
      modifies this
      ensures ok == MayCommit(w, old(tables), ref, version, DropTable)
      ensures tables == if ok then Commit(w, old(tables), ref, DropTable, now) else old(tables)
    {
      var found := Check(ref, version);
      if found.None? {
        return false;
      }
      tables := tables - {ref};
      return true;
    }

    method ReplaceTableIfVersion(ref: TableRef, version: nat, schema: seq<Field>, rows: seq<Row>, now: Time)
      returns (ok: bool)
      modifies this
      ensures ok == MayCommit(w, old(tables), ref, version, ReplaceTable(schema, rows))
      ensures tables == if ok then Commit(w, old(tables), ref, ReplaceTable(schema, rows), now) else old(tables)
    {
      var found := Check(ref, version);
      if found.None? || !w.storable(schema, rows) {
        return false;
      }
      tables := tables[ref := Bumped(Redefined(found.value, schema, rows, None), now)];
      return true;
    }

    method ReplaceViewIfVersion(ref: TableRef, version: nat, schema: seq<Field>, view: View, now: Time)
      returns (ok: bool)
      modifies this
      ensures ok == MayCommit(w, old(tables), ref, version, ReplaceView(schema, view))
      ensures tables == if ok then Commit(w, old(tables), ref, ReplaceView(schema, view), now) else old(tables)
    {
      var found := Check(ref, version);
      if found.None? {
        return false;
      }
      tables := tables[ref := Bumped(Redefined(found.value, schema, [], Some(view)), now)];
      return true;
    }

    method DropColumnsIfVersion(ref: TableRef, version: nat, names: seq<string>, now: Time) returns (ok: bool)
      modifies this
      ensures ok == MayCommit(w, old(tables), ref, version, DropColumns(names))
      ensures tables == if ok then Commit(w, old(tables), ref, DropColumns(names), now) else old(tables)
    {
      var found := Check(ref, version);
      if found.None? {
        return false;
      }
      var t := found.value;
      var drop := DropIndexes(t.schema, names);
      var schema := FilterCells(t.schema, t.schema, names, drop);
      var rows: seq<Row> := [];
      for i := 0 to |t.rows|
        invariant tables == old(tables)
        invariant |rows| == i
        invariant forall k :: 0 <= k < i ==> rows[k] == KeptCells(t.rows[k], t.schema, names)
      {
        var row := FilterCells(t.rows[i], t.schema, names, drop);
        rows := rows + [row];
      }
      assert rows == KeptInEach(t.rows, t.schema, names);
      tables := tables[ref := Bumped(t.(schema := schema, rows := rows), now)];
      return true;
    }
  }

  lemma {:induction false} SameLookups(a: Tables, b: Tables)
    requires forall r :: Lookup(a, r) == Lookup(b, r)
    ensures a == b
  {
    forall r ensures r in a <==> r in b { assert Lookup(a, r) == Lookup(b, r); }
    forall r | r in a ensures a[r] == b[r] { assert Lookup(a, r) == Lookup(b, r); }
  }

  /** The first rename whose old name matches in any case. */
  method RenameField(f: Field, renames: map<string, string>) returns (name: string)
    ensures MayBecome(f, renames, name)
  {
    var pending := renames.Keys;
    while pending != {}
      invariant pending <= renames.Keys
      invariant forall n :: n in renames && n !in pending ==> !EqualFold(f.name, n)
      decreases |pending|
    {
      var n :| n in pending;
      if EqualFold(f.name, n) {
        return renames[n];
      }
      pending := pending - {n};
    }
    return f.name;
  }

  method PatchDetails(d: Details, p: Patch) returns (r: Details)
    ensures r == PatchedDetails(d, p)
  {
    r := d;
    if p.friendlyName.Some? { r := r.(friendlyName := p.friendlyName.value); }
    if p.description.Some? { r := r.(description := p.description.value); }
    if p.labels.Some? { r := r.(labels := p.labels.value); }
    if p.clustering.Some? { r := r.(clustering := p.clustering.value); }
    if p.requireFilter.Some? { r := r.(requireFilter := p.requireFilter.value); }
  }

  method DropIndexes(schema: seq<Field>, names: seq<string>) returns (drop: set<nat>)
    ensures forall i :: 0 <= i < |schema| ==> (i in drop <==> Dropped(schema, names, i))
    ensures forall i :: i in drop ==> i < |schema|
  {
    drop := {};
    for k := 0 to |names|
      invariant forall i :: 0 <= i < |schema| ==> (i in drop <==> Dropped(schema, names[..k], i))
      invariant forall i :: i in drop ==> i < |schema|
    {
      var i := FindField(schema, names[k]);
      forall j: nat ensures Dropped(schema, names[..k + 1], j) <==> Dropped(schema, names[..k], j) || i == j {
        assert names[..k + 1][k] == names[k];
        assert forall m :: 0 <= m < k ==> names[..k + 1][m] == names[..k][m];
      }
      if i < |schema| {
        drop := drop + {i};
      }
    }
    assert names[..|names|] == names;
  }

  method FilterCells<T>(s: seq<T>, schema: seq<Field>, names: seq<string>, drop: set<nat>) returns (kept: seq<T>)
    requires forall i :: 0 <= i < |schema| ==> (i in drop <==> Dropped(schema, names, i))
    requires forall i :: i in drop ==> i < |schema|
    ensures kept == KeptCells(s, schema, names)
  {
    kept := [];
    for i := 0 to |s|
      invariant kept == KeptCells(s[..i], schema, names)
    {
      assert s[..i + 1][..i] == s[..i];
      if i !in drop {
        kept := kept + [s[i]];
      }
    }
    assert s[..|s|] == s;
  }
}
