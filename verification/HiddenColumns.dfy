/** The two engine-only columns that carry an ingestion partition through DML
    (materializeIngestionPseudocolumns, partitionIDsFromEngineRows). */
module HiddenColumns {
  import opened Options
  import opened Cells
  import opened Text
  import opened Partitioning

  const TIME_COLUMN := "__locaql_partition_time"
  const DATE_COLUMN := "__locaql_partition_date"

  // ---- Adding ----------------------------------------------------------------------------

  function EffectiveId(cal: Calendar, part: TimePart, createdAt: Time, ids: seq<string>, i: nat): string {
    if i < |ids| && ids[i] != "" then ids[i] else IngestionId(cal, Some(part), createdAt)
  }

  function HiddenCells(cal: Calendar, id: string, unit: string): seq<Cell> {
    match PartitionStart(cal, id, unit)
    case None => [NULL_CELL, NULL_CELL]
    case Some(t) => [StoreCell(cal.showTimestamp(t)), StoreCell(cal.showDate(t))]
  }

  function AddedSchema(schema: seq<Field>): seq<Field> {
    schema + [Field(TIME_COLUMN, "TIMESTAMP", ""), Field(DATE_COLUMN, "DATE", "")]
  }

  function AddedRows(cal: Calendar, part: TimePart, createdAt: Time, ids: seq<string>, rows: seq<Row>): seq<Row> {
    seq(|rows|, i requires 0 <= i < |rows| =>
          rows[i] + HiddenCells(cal, EffectiveId(cal, part, createdAt, ids, i), part.unit))
  }

  method MaterializePseudocolumns(cal: Calendar, part: Option<TimePart>, managed: bool, createdAt: Time,
                                  ids: seq<string>, schema: seq<Field>, rows: seq<Row>)
    returns (outSchema: seq<Field>, outRows: seq<Row>)
    ensures !(IsIngestion(part) && managed) ==> outSchema == schema && outRows == rows
    ensures IsIngestion(part) && managed ==>
              outSchema == AddedSchema(schema) && outRows == AddedRows(cal, part.value, createdAt, ids, rows)
  {
    if part.None? || part.value.field != "" || !managed {
      return schema, rows;
    }
    outSchema := schema + [Field(TIME_COLUMN, "TIMESTAMP", ""), Field(DATE_COLUMN, "DATE", "")];
    outRows := [];
    var fallback := IngestionId(cal, part, createdAt);
    for i := 0 to |rows|
      invariant outRows == AddedRows(cal, part.value, createdAt, ids, rows)[..i]
    {
      var id := fallback;
      if i < |ids| && ids[i] != "" {
        id := ids[i];
      }
      var time, date := NULL_CELL, NULL_CELL;
      var start := PartitionStart(cal, id, part.value.unit);
      if start.Some? {
        time, date := StoreCell(cal.showTimestamp(start.value)), StoreCell(cal.showDate(start.value));
      }
      outRows := outRows + [rows[i] + [time, date]];
    }
  }

  // ---- Stripping ---------------------------------------------------------------------------

  /** The last column of that (lower-case) name, or -1. */
  function LastNamed(schema: seq<Field>, name: string): (i: int)
    ensures -1 <= i < |schema|
  {
    if schema == [] then -1
    else if ToLower(schema[|schema| - 1].name) == name then |schema| - 1
    else LastNamed(schema[..|schema| - 1], name)
  }

  function Without<T>(s: seq<T>, t: int, d: int): seq<T> {
    if s == [] then []
    else
      var n := |s| - 1;
      Without(s[..n], t, d) + (if n == t || n == d then [] else [s[n]])
  }

  function WithoutEach(rows: seq<Row>, t: int, d: int): seq<Row> {
    seq(|rows|, i requires 0 <= i < |rows| => Without(rows[i], t, d))
  }

  /** The text in a hidden cell; None when the column is absent, the row too short, or NULL. */
  function HiddenText(row: Row, i: int): Option<string> {
    if 0 <= i < |row| then LoadCell(row[i]) else None
  }

  function ReadText(read: string -> Option<Time>, text: Option<string>): Option<Time> {
    if text.None? then None else read(Unquote(text.value))
  }

  /** The partition carried by a row: by its time cell, else by its date cell, else current. */
  function CarriedId(cal: Calendar, unit: string, row: Row, t: int, d: int, current: string): string {
    var byTime := ReadText(cal.readTimestamp, HiddenText(row, t));
    var byDate := ReadText(cal.readDate, HiddenText(row, d));
    if byTime.Some? then cal.formatId(byTime.value, unit)
    else if byDate.Some? then cal.formatId(byDate.value, unit)
    else current
  }

  function CarriedIds(cal: Calendar, unit: string, rows: seq<Row>, t: int, d: int, current: string): seq<string> {
    seq(|rows|, i requires 0 <= i < |rows| => CarriedId(cal, unit, rows[i], t, d, current))
  }

  method FindHidden(schema: seq<Field>) returns (t: int, d: int)
    ensures t == LastNamed(schema, TIME_COLUMN) && d == LastNamed(schema, DATE_COLUMN)
  {
    t, d := -1, -1;
    for i := 0 to |schema|
      invariant t == LastNamed(schema[..i], TIME_COLUMN) && d == LastNamed(schema[..i], DATE_COLUMN)
    {
      assert schema[..i + 1][..i] == schema[..i];
      var name := ToLower(schema[i].name);
      if name == TIME_COLUMN {
        t := i;
      } else if name == DATE_COLUMN {
        d := i;
      }
    }
    assert schema[..|schema|] == schema;
  }

  method DropTwo<T>(s: seq<T>, t: int, d: int) returns (kept: seq<T>)
    ensures kept == Without(s, t, d)
  {
    kept := [];
    for i := 0 to |s|
      invariant kept == Without(s[..i], t, d)
    {
      assert s[..i + 1][..i] == s[..i];
      if i != t && i != d {
        kept := kept + [s[i]];
      }
    }
    assert s[..|s|] == s;
  }

  method StripPseudocolumns(cal: Calendar, part: TimePart, now: Time, schema: seq<Field>, rows: seq<Row>)
    returns (keptSchema: seq<Field>, keptRows: seq<Row>, ids: seq<string>)
    ensures var t, d := LastNamed(schema, TIME_COLUMN), LastNamed(schema, DATE_COLUMN);
            if t < 0 && d < 0 then keptSchema == schema && keptRows == rows && ids == []
            else
              && keptSchema == Without(schema, t, d)
              && keptRows == WithoutEach(rows, t, d)
              && ids == CarriedIds(cal, part.unit, rows, t, d, IngestionId(cal, Some(part), now))
  {
    var t, d := FindHidden(schema);
    if t < 0 && d < 0 {
      return schema, rows, [];
    }
    keptSchema := DropTwo(schema, t, d);
    var current := IngestionId(cal, Some(part), now);
    keptRows, ids := [], [];
    for r := 0 to |rows|
      invariant keptRows == WithoutEach(rows, t, d)[..r]
      invariant ids == CarriedIds(cal, part.unit, rows, t, d, current)[..r]
    {
      var kept := DropTwo(rows[r], t, d);
      var id := CarriedPartition(cal, part.unit, rows[r], t, d, current);
      keptRows, ids := keptRows + [kept], ids + [id];
    }
  }

  /** The loop body of the strip: two attempts at the carried partition. */
  method CarriedPartition(cal: Calendar, unit: string, row: Row, t: int, d: int, current: string) returns (id: string)
    ensures id == CarriedId(cal, unit, row, t, d, current)
  {
    id := current;
    var parsedPartition := false;
    if 0 <= t < |row| {
      var text := LoadCell(row[t]);
      if text.Some? {
        var parsed := cal.readTimestamp(Unquote(text.value));
        if parsed.Some? {
          id, parsedPartition := cal.formatId(parsed.value, unit), true;
        }
      }
    }
    if !parsedPartition && 0 <= d < |row| {
      var text := LoadCell(row[d]);
      if text.Some? {
        var parsed := cal.readDate(Unquote(text.value));
        if parsed.Some? {
          id := cal.formatId(parsed.value, unit);
        }
      }
    }
  }

  // ---- The round trip -------------------------------------------------------------------------

  lemma {:induction false} AddedColumnsAreFound(schema: seq<Field>)
    ensures LastNamed(AddedSchema(schema), TIME_COLUMN) == |schema|
    ensures LastNamed(AddedSchema(schema), DATE_COLUMN) == |schema| + 1
  {
    var a := AddedSchema(schema);
    LowerHiddenNames();
    assert a[..|schema| + 1][|schema|].name == TIME_COLUMN;
  }

  lemma {:induction false} LowerHiddenNames()
    ensures ToLower(TIME_COLUMN) == TIME_COLUMN && ToLower(DATE_COLUMN) == DATE_COLUMN
    ensures TIME_COLUMN != DATE_COLUMN
  {
    assert TIME_COLUMN[|TIME_COLUMN| - 1] == 'e' && TIME_COLUMN[|TIME_COLUMN| - 2] == 'm';
    assert DATE_COLUMN[|DATE_COLUMN| - 2] == 't';
  }

  /** Dropping two positions that lie past the end drops nothing. */
  lemma {:induction false} WithoutPastEnd<T>(s: seq<T>, n: nat)
    requires |s| <= n
    ensures Without(s, n, n + 1) == s
  {
    if s != [] {
      WithoutPastEnd(s[..|s| - 1], n);
    }
  }

  lemma {:induction false} WithoutAppended<T>(s: seq<T>, x: T, y: T)
    ensures Without(s + [x, y], |s|, |s| + 1) == s
  {
    var a := s + [x, y];
    assert a[..|s| + 1][..|s|] == s;
    WithoutPastEnd(s, |s|);
  }

  /** A row shorter than the schema does not come back: a hidden cell stays in it. */
  lemma {:induction false} ShortRowKeepsHiddenCell(row: Row, time: Cell, date: Cell, n: nat)
    requires |row| < n
    ensures Without(row + [time, date], n, n + 1) != row
  {
    var a := row + [time, date];
    if |a| <= n {
      WithoutPastEnd(a, n);
    } else {
      assert a[..|row| + 1] == row + [time];
      WithoutPastEnd(row + [time], n);
    }
  }

  /** The rows come back exactly when each is as wide as the schema. */
  lemma {:induction false} RowsComeBackIff(cal: Calendar, part: TimePart, createdAt: Time, ids: seq<string>,
                                           schema: seq<Field>, rows: seq<Row>)
    requires forall i :: 0 <= i < |rows| ==> |rows[i]| <= |schema|
    ensures WithoutEach(AddedRows(cal, part, createdAt, ids, rows), |schema|, |schema| + 1) == rows
       <==> forall i :: 0 <= i < |rows| ==> |rows[i]| == |schema|
  {
    var n := |schema|;
    var added := AddedRows(cal, part, createdAt, ids, rows);
    forall i | 0 <= i < |rows| ensures (Without(added[i], n, n + 1) == rows[i]) <==> |rows[i]| == n {
      var h := HiddenCells(cal, EffectiveId(cal, part, createdAt, ids, i), part.unit);
      assert h == [h[0], h[1]];
      if |rows[i]| == n {
        WithoutAppended(rows[i], h[0], h[1]);
      } else {
        ShortRowKeepsHiddenCell(rows[i], h[0], h[1], n);
      }
    }
    var back := WithoutEach(added, n, n + 1);
    assert forall i :: 0 <= i < |rows| ==> back[i] == Without(added[i], n, n + 1);
  }

  /** A full-width row carries its partition ID through when the ID is valid, else it gets current. */
  lemma {:induction false} CarriedIsAdded(cal: Calendar, unit: string, row: Row, id: string, current: string)
    requires Lawful(cal)
    ensures CarriedId(cal, unit, row + HiddenCells(cal, id, unit), |row|, |row| + 1, current)
         == if PartitionStart(cal, id, unit).Some? then id else current
  {
    var start := PartitionStart(cal, id, unit);
    if start.Some? {
      LoadUndoesStore(cal.showTimestamp(start.value));
    }
  }

  /** Stripping after adding gives back the schema, the rows and the valid partition IDs. */
  lemma {:induction false} StripUndoesAdd(cal: Calendar, part: TimePart, createdAt: Time, now: Time, ids: seq<string>,
                                          schema: seq<Field>, rows: seq<Row>)
    requires Lawful(cal) && part.field == "" && |ids| == |rows|
    requires forall i :: 0 <= i < |rows| ==> |rows[i]| == |schema| && PartitionStart(cal, ids[i], part.unit).Some?
    ensures var s, r := AddedSchema(schema), AddedRows(cal, part, createdAt, ids, rows);
            var t, d := LastNamed(s, TIME_COLUMN), LastNamed(s, DATE_COLUMN);
            && t >= 0
            && Without(s, t, d) == schema
            && WithoutEach(r, t, d) == rows
            && CarriedIds(cal, part.unit, r, t, d, IngestionId(cal, Some(part), now)) == ids
  {
    var r := AddedRows(cal, part, createdAt, ids, rows);
    AddedColumnsAreFound(schema);
    WithoutAppended(schema, AddedSchema(schema)[|schema|], AddedSchema(schema)[|schema| + 1]);
    RowsComeBackIff(cal, part, createdAt, ids, schema, rows);
    var current := IngestionId(cal, Some(part), now);
    forall i | 0 <= i < |rows|
      ensures CarriedId(cal, part.unit, r[i], |schema|, |schema| + 1, current) == ids[i]
    {
      CarriedIsAdded(cal, part.unit, rows[i], ids[i], current);
    }
  }

  /** A row an INSERT left without hidden values lands in the current partition, whatever its width. */
  lemma {:induction false} NullHiddenCellsGetCurrent(cal: Calendar, unit: string, row: Row, t: nat, d: nat,
                                                     current: string)
    requires CellAt(row, t) == NULL_CELL && CellAt(row, d) == NULL_CELL
    ensures CarriedId(cal, unit, row, t, d, current) == current
  {
  }
}
