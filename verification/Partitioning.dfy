/** Partitioning definitions and partition IDs (table_partitioning.go). The calendar is a
    parameter: which instants an ID or a text names is not decided here. */
module Partitioning {
  import opened Options
  import opened Cells
  import opened Text
  import opened Decimal

  type Row = seq<Cell>
  type Time = int

  datatype Field = Field(name: string, kind: string, mode: string)

  /** field is "" for a table partitioned by ingestion time; unit is DAY, HOUR, MONTH or YEAR. */
  datatype TimePart = TimePart(unit: string, field: string, expirationMs: int)

  datatype RangePart = RangePart(field: string, start: int, end: int, interval: int)

  datatype Calendar = Calendar(
    formatId: (Time, string) -> string,
    readId: (string, string) -> Option<Time>,
    showTimestamp: Time -> string,
    readTimestamp: string -> Option<Time>,
    showDate: Time -> string,
    readDate: string -> Option<Time>)

  /** The pseudocolumns of an ingestion-time table. */
  const PARTITION_TIME := "_PARTITIONTIME"
  const PARTITION_DATE := "_PARTITIONDATE"

  predicate IsIngestion(part: Option<TimePart>) {
    part.Some? && part.value.field == ""
  }

  /** ingestionPartitionID: "" when the table is not partitioned by ingestion time. */
  function IngestionId(cal: Calendar, part: Option<TimePart>, at: Time): string {
    if IsIngestion(part) then cal.formatId(at, part.value.unit) else ""
  }

  /** parseTimePartitionID. */
  function PartitionStart(cal: Calendar, id: string, unit: string): Option<Time> {
    if id == "" || "__" <= id then None else cal.readId(id, unit)
  }

  /** What is asked of the calendar: IDs are never empty, and reading an ID or the timestamp
      shown for its instant leads back to it. */
  ghost predicate Lawful(cal: Calendar) {
    && (forall t, u :: cal.formatId(t, u) != "")
    && (forall id, u :: cal.readId(id, u).Some? ==>
         var t := cal.readId(id, u).value;
         && cal.formatId(t, u) == id
         && Unquote(cal.showTimestamp(t)) == cal.showTimestamp(t)
         && cal.readTimestamp(cal.showTimestamp(t)) == Some(t))
  }

  /** The text without the double quotes at its ends. */
  function Unquote(s: string): string {
    UnquoteEnd(UnquoteStart(s))
  }

  function UnquoteStart(s: string): string {
    if s != "" && s[0] == '"' then UnquoteStart(s[1..]) else s
  }

  function UnquoteEnd(s: string): string {
    if s != "" && s[|s| - 1] == '"' then UnquoteEnd(s[..|s| - 1]) else s
  }

  /** findTopLevelField: the first field of that name in any case, or |schema|. */
  function FindField(schema: seq<Field>, name: string): (i: nat)
    ensures i <= |schema|
    ensures i < |schema| ==> EqualFold(schema[i].name, name)
    ensures forall k :: 0 <= k < i ==> !EqualFold(schema[k].name, name)
  {
    if schema == [] then 0
    else if EqualFold(schema[0].name, name) then 0
    else
      assert forall k :: 0 < k < |schema| ==> schema[k] == schema[1..][k - 1];
      1 + FindField(schema[1..], name)
  }

  function CellAt(row: Row, i: nat): Cell {
    if i < |row| then row[i] else NULL_CELL
  }

  /** timePartitionIDFromCell. */
  function CellId(cal: Calendar, kind: string, cell: Cell, unit: string): Option<string> {
    match LoadCell(cell)
    case None => None
    case Some(text) =>
      match (if EqualFold(kind, "DATE") then cal.readDate(text) else cal.readTimestamp(text))
      case None => None
      case Some(t) => Some(cal.formatId(t, unit))
  }

  /** newIngestionPartitions. */
  function NewPartitions(cal: Calendar, part: Option<TimePart>, count: nat, at: Time): (ids: seq<string>)
    ensures Lawful(cal) && IsIngestion(part) ==> |ids| == count && "" !in ids
    ensures !IsIngestion(part) ==> ids == []
  {
    var id := IngestionId(cal, part, at);
    if id == "" || count == 0 then [] else seq(count, _ => id)
  }

  // ---- Rows a partitioned table accepts ----------------------------------------------------

  predicate FitsTime(cal: Calendar, schema: seq<Field>, part: TimePart, row: Row) {
    part.field == "" ||
    var f := FindField(schema, part.field);
    var cell := CellAt(row, f);
    var kind := if f < |schema| then schema[f].kind else "";
    LoadCell(cell).None? || CellId(cal, kind, cell, part.unit).Some?
  }

  predicate FitsRange(schema: seq<Field>, part: RangePart, row: Row) {
    var text := LoadCell(CellAt(row, FindField(schema, part.field)));
    text.None? || ParseInt64(text.value).Some?
  }

  /** validateRowsForPartitioning. */
  predicate RowsFit(cal: Calendar, schema: seq<Field>, rows: seq<Row>, time: Option<TimePart>,
                    range: Option<RangePart>) {
    && (time.Some? ==> forall i :: 0 <= i < |rows| ==> FitsTime(cal, schema, time.value, rows[i]))
    && (range.Some? ==> forall i :: 0 <= i < |rows| ==> FitsRange(schema, range.value, rows[i]))
  }
}
