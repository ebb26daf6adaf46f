/** Partition pruning (partition_pruning.go) and the meaning of the filters it reads. */
module Pruning {
  import opened Options
  import opened Decimal
  import opened Cells
  import opened Text
  import opened Partitioning
  import opened Purge
  import HiddenColumns

  // ---- Filters -----------------------------------------------------------------------------

  /** column is the top-level column that name resolution binds a path to; None for anything
      else, such as a struct field or a column of another table. */
  datatype Operand =
    | Path(parts: seq<string>, column: Option<string>)
    | IntLiteral(image: string)
    | TimeLiteral(kind: string, text: string)
    | OtherOperand(text: string)

  datatype Expr =
    | And(terms: Exprs)
    | Or(terms: Exprs)
    | Equal(lhs: Operand, rhs: Operand)
    | Opaque(text: string)

  datatype Exprs = Nil | Cons(head: Expr, tail: Exprs)

  /** A row with the ingestion partition it is in, "" when the table has none. */
  datatype Item = Item(row: Row, id: string)

  /** The rows as the engine gets to see them. They are read after the record t and paired with
      the partitions t had by position. */
  function ItemsOf(cal: Calendar, t: Table, rows: seq<Row>): seq<Item> {
    seq(|rows|, i requires 0 <= i < |rows| =>
          Item(rows[i],
               if IsIngestion(t.timePart) then
                 HiddenColumns.EffectiveId(cal, t.timePart.value, t.createdAt, t.partitions, i)
               else ""))
  }

  // ---- Their meaning, under three-valued logic ---------------------------------------------

  datatype Truth = True | False | Unknown

  datatype Value = NullValue | IntValue(n: int) | DateValue(t: Time) | TimeValue(t: Time) | OtherValue(text: string)

  /** What is left to the engine: the day of an instant, the value of an operand that is neither
      a partition column nor a literal known here, and the truth of a term that is not an equality. */
  datatype Meaning = Meaning(day: Time -> Time, operand: (Operand, Item) -> Value, term: (string, Item) -> Truth)

  function Compare(a: Value, b: Value): Truth {
    if a.NullValue? || b.NullValue? then Unknown else if a == b then True else False
  }

  function TextValue(cal: Calendar, kind: string, text: string): Value {
    if EqualFold(kind, "DATE") then
      (match cal.readDate(text) case Some(t) => DateValue(t) case None => OtherValue(text))
    else
      (match cal.readTimestamp(text) case Some(t) => TimeValue(t) case None => OtherValue(text))
  }

  function CellValue(cal: Calendar, kind: string, cell: Cell): Value {
    match LoadCell(cell)
    case None => NullValue
    case Some(text) => TextValue(cal, kind, text)
  }

  function IntCellValue(cell: Cell): Value {
    match LoadCell(cell)
    case None => NullValue
    case Some(text) => match ParseInt64(text) case Some(n) => IntValue(n) case None => OtherValue(text)
  }

  function PseudoValue(cal: Calendar, m: Meaning, unit: string, item: Item, date: bool): Value {
    match PartitionStart(cal, item.id, unit)
    case None => NullValue
    case Some(t) => if date then DateValue(m.day(t)) else TimeValue(t)
  }

  /** The value of a path bound to the partition column, a time column or a pseudocolumn. */
  function ColumnValue(cal: Calendar, m: Meaning, t: Table, p: Operand, item: Item): Value
    requires p.Path?
  {
    if p.column.None? then m.operand(p, item)
    else
      var c := p.column.value;
      if IsIngestion(t.timePart) && EqualFold(c, PARTITION_DATE) then
        PseudoValue(cal, m, t.timePart.value.unit, item, true)
      else if IsIngestion(t.timePart) && EqualFold(c, PARTITION_TIME) then
        PseudoValue(cal, m, t.timePart.value.unit, item, false)
      else if t.timePart.Some? && t.timePart.value.field != "" && EqualFold(c, t.timePart.value.field) then
        (var f := FindField(t.schema, t.timePart.value.field);
         if f < |t.schema| then CellValue(cal, t.schema[f].kind, CellAt(item.row, f)) else m.operand(p, item))
      else if t.rangePart.Some? && EqualFold(c, t.rangePart.value.field) then
        (var f := FindField(t.schema, t.rangePart.value.field);
         if f < |t.schema| then IntCellValue(CellAt(item.row, f)) else m.operand(p, item))
      else m.operand(p, item)
  }

  function OperandValue(cal: Calendar, m: Meaning, t: Table, o: Operand, item: Item): Value {
    match o
    case Path(_, _) => ColumnValue(cal, m, t, o, item)
    case IntLiteral(image) => (match ParseInt64(image) case Some(n) => IntValue(n) case None => m.operand(o, item))
    case TimeLiteral(kind, text) => TextValue(cal, kind, text)
    case OtherOperand(_) => m.operand(o, item)
  }

  function Both(a: Truth, b: Truth): Truth {
    if a.False? || b.False? then False else if a.True? && b.True? then True else Unknown
  }

  function Either(a: Truth, b: Truth): Truth {
    if a.True? || b.True? then True else if a.False? && b.False? then False else Unknown
  }

  function Eval(cal: Calendar, m: Meaning, t: Table, e: Expr, item: Item): Truth {
    match e
    case And(terms) => EvalAnd(cal, m, t, terms, item)
    case Or(terms) => EvalOr(cal, m, t, terms, item)
    case Equal(lhs, rhs) => Compare(OperandValue(cal, m, t, lhs, item), OperandValue(cal, m, t, rhs, item))
    case Opaque(text) => m.term(text, item)
  }

  function EvalAnd(cal: Calendar, m: Meaning, t: Table, es: Exprs, item: Item): Truth {
    match es
    case Nil => True
    case Cons(e, rest) => Both(Eval(cal, m, t, e, item), EvalAnd(cal, m, t, rest, item))
  }

  function EvalOr(cal: Calendar, m: Meaning, t: Table, es: Exprs, item: Item): Truth {
    match es
    case Nil => False
    case Cons(e, rest) => Either(Eval(cal, m, t, e, item), EvalOr(cal, m, t, rest, item))
  }

  // ---- Which partition -----------------------------------------------------------------------

  const NULL_PARTITION := "__NULL__"
  const UNPARTITIONED := "__UNPARTITIONED__"

  /** Go's division truncates toward zero. */
  function Quotient(a: int, b: int): int
    requires b > 0
  {
    if a >= 0 then a / b else -((-a) / b)
  }

  function Bucket(part: RangePart, n: int): string
    requires part.interval > 0
  {
    if n < part.start || n >= part.end then UNPARTITIONED
    else FormatInt(Wrap64(part.start + Wrap64(Quotient(Wrap64(n - part.start), part.interval) * part.interval)))
  }

  /** Two numbers of the range are in one bucket exactly when one interval holds both. */
  lemma {:induction false} SameBucketIff(part: RangePart, m: int, n: int)
    requires part.interval > 0 && MIN_INT64 <= part.start && part.end <= MAX_INT64
    requires part.start <= m < part.end && part.start <= n < part.end
    requires m - part.start <= MAX_INT64 && n - part.start <= MAX_INT64
    ensures Bucket(part, m) == Bucket(part, n) <==> (m - part.start) / part.interval == (n - part.start) / part.interval
  {
    BucketName(part, m);
    BucketName(part, n);
    var a, b := (m - part.start) / part.interval, (n - part.start) / part.interval;
    if Bucket(part, m) == Bucket(part, n) {
      FormatIntInjective(part.start + a * part.interval, part.start + b * part.interval);
      TimesInjective(a, b, part.interval);
    }
  }

  /** Within 64 bits, a bucket is named by the start of its interval. */
  lemma {:induction false} BucketName(part: RangePart, n: int)
    requires part.interval > 0 && MIN_INT64 <= part.start <= n < part.end <= MAX_INT64 && n - part.start <= MAX_INT64
    ensures Bucket(part, n) == FormatInt(part.start + (n - part.start) / part.interval * part.interval)
  {
    var d := n - part.start;
    var low := d / part.interval * part.interval;
    FloorIsBelow(d, part.interval);
    WrapInRange(d);
    WrapInRange(low);
    WrapInRange(part.start + low);
  }

  lemma {:induction false} FloorIsBelow(d: nat, width: nat)
    requires width > 0
    ensures 0 <= d / width * width <= d < d / width * width + width
  {
    assert d == d / width * width + d % width;
  }

  lemma {:induction false} TimesInjective(a: int, b: int, c: int)
    requires c > 0 && a * c == b * c
    ensures a == b
  {
    assert (a - b) * c == 0;
  }

  lemma {:induction false} WrapInRange(n: int)
    requires MIN_INT64 <= n <= MAX_INT64
    ensures Wrap64(n) == n
  {
  }

  /** An accepted definition: one kind of partitioning, and ranges of positive width. */
  predicate WellDefined(t: Table) {
    && !(t.timePart.Some? && t.rangePart.Some?)
    && (t.rangePart.Some? ==> t.rangePart.value.interval > 0)
  }

  /** rowPartitionID. */
  function PartitionOf(cal: Calendar, t: Table, item: Item): Option<string>
    requires WellDefined(t)
  {
    if IsIngestion(t.timePart) then (if item.id != "" then Some(item.id) else None)
    else if t.timePart.Some? then
      (var f := FindField(t.schema, t.timePart.value.field);
       if f == |t.schema| then None
       else
         var cell := CellAt(item.row, f);
         if LoadCell(cell).None? then Some(NULL_PARTITION)
         else
           match CellId(cal, t.schema[f].kind, cell, t.timePart.value.unit)
           case Some(id) => Some(id)
           case None => Some(UNPARTITIONED))
    else if t.rangePart.Some? then
      (var f := FindField(t.schema, t.rangePart.value.field);
       if f == |t.schema| then None
       else
         match LoadCell(CellAt(item.row, f))
         case None => Some(NULL_PARTITION)
         case Some(text) =>
           match ParseInt64(text)
           case None => Some(UNPARTITIONED)
           case Some(n) => Some(Bucket(t.rangePart.value, n)))
    else None
  }

  // ---- What a filter demands ---------------------------------------------------------------

  function LastPart(p: Operand): string {
    if p.Path? && p.parts != [] then p.parts[|p.parts| - 1] else ""
  }

  /** The type under which a literal compared with this name is read; None when the name is
      not the time partition column. */
  function TimeKind(t: Table, name: string): Option<string>
    requires t.timePart.Some?
  {
    var part := t.timePart.value;
    if part.field == "" && EqualFold(name, PARTITION_DATE) then Some("DATE")
    else if part.field == "" && EqualFold(name, PARTITION_TIME) then Some("TIMESTAMP")
    else if part.field != "" && EqualFold(name, part.field) then
      (var f := FindField(t.schema, part.field);
       if f == |t.schema| then None else Some(t.schema[f].kind))
    else None
  }

  /** partitionTargetFromComparison: the partition that column = literal asks for. */
  function Target(cal: Calendar, t: Table, column: Operand, literal: Operand): Option<string>
    requires WellDefined(t)
  {
    if !column.Path? || column.parts == [] then None
    else
      var name := LastPart(column);
      if t.rangePart.Some? && EqualFold(name, t.rangePart.value.field) then
        (if !literal.IntLiteral? then None
         else
           match ParseInt64(literal.image)
           case None => None
           case Some(n) => Some(Bucket(t.rangePart.value, n)))
      else if t.timePart.None? then None
      else
        match TimeKind(t, name)
        case None => None
        case Some(kind) =>
          if !literal.TimeLiteral? then None else CellId(cal, kind, StoreCell(literal.text), t.timePart.value.unit)
  }

  function Intersect(a: Option<set<string>>, b: Option<set<string>>): Option<set<string>> {
    if a.None? then b else if b.None? then a else Some(a.value * b.value)
  }

  lemma {:induction false} IntersectIsAssociative(a: Option<set<string>>, b: Option<set<string>>,
                                                  c: Option<set<string>>)
    ensures Intersect(Intersect(a, b), c) == Intersect(a, Intersect(b, c))
  {
    if a.Some? && b.Some? && c.Some? {
      assert (a.value * b.value) * c.value == a.value * (b.value * c.value);
    }
  }

  /** partitionEqualityTargets; None when nothing is demanded. */
  function Targets(cal: Calendar, t: Table, e: Expr): Option<set<string>>
    requires WellDefined(t)
  {
    match e
    case Or(_) => None
    case Opaque(_) => None
    case And(terms) => AndTargets(cal, t, terms)
    case Equal(lhs, rhs) =>
      var a := Target(cal, t, lhs, rhs);
      var b := Target(cal, t, rhs, lhs);
      if a.Some? then Some({a.value}) else if b.Some? then Some({b.value}) else None
  }

  function AndTargets(cal: Calendar, t: Table, es: Exprs): Option<set<string>>
    requires WellDefined(t)
  {
    match es
    case Nil => None
    case Cons(e, rest) => Intersect(Targets(cal, t, e), AndTargets(cal, t, rest))
  }

  /** The demands of all WHERE clauses of a statement together. */
  function WhereTargets(cal: Calendar, t: Table, wheres: seq<Expr>): Option<set<string>>
    requires WellDefined(t)
  {
    if wheres == [] then None
    else
      var n := |wheres| - 1;
      Intersect(WhereTargets(cal, t, wheres[..n]), Targets(cal, t, wheres[n]))
  }

  predicate Wanted(cal: Calendar, t: Table, ids: set<string>, item: Item)
    requires WellDefined(t)
  {
    var p := PartitionOf(cal, t, item);
    p.Some? && p.value in ids
  }

  function Keep(cal: Calendar, t: Table, ids: set<string>, items: seq<Item>): seq<Item>
    requires WellDefined(t)
  {
    if items == [] then []
    else
      var n := |items| - 1;
      Keep(cal, t, ids, items[..n]) + (if Wanted(cal, t, ids, items[n]) then [items[n]] else [])
  }

  predicate MayPrune(t: Table, occurrences: nat) {
    t.view.None? && !t.external && (t.timePart.Some? || t.rangePart.Some?) && occurrences == 1
  }

  /** What the engine is given of the table. */
  function PrunedItems(cal: Calendar, t: Table, rows: seq<Row>, occurrences: nat, wheres: seq<Expr>): seq<Item>
    requires WellDefined(t)
  {
    var ids := WhereTargets(cal, t, wheres);
    if !MayPrune(t, occurrences) || ids.None? then ItemsOf(cal, t, rows)
        else Keep(cal, t, ids.value, ItemsOf(cal, t, rows))
  }

  // ---- The loops --------------------------------------------------------------------------------

  /** The deleting loop of an intersection. */
  method Retain(ids: set<string>, other: set<string>) returns (r: set<string>)
    ensures r == ids * other
  {
    r := ids;
    var pending := ids;
    while pending != {}
      invariant pending <= ids
      invariant r == pending + (ids * other)
      decreases |pending|
    {
      var id :| id in pending;
      pending := pending - {id};
      if id !in other {
        r := r - {id};
      }
    }
  }

  method EqualityTargets(cal: Calendar, t: Table, e: Expr) returns (found: bool, ids: set<string>)
    requires WellDefined(t)
    ensures Targets(cal, t, e) == if found then Some(ids) else None
    decreases e
  {
    found, ids := false, {};
    match e {
      case Or(_) =>
      case Opaque(_) =>
      case And(terms) =>
        var rest := terms;
        while rest.Cons?
          invariant rest == terms || rest < terms
          invariant AndTargets(cal, t, terms) == Intersect(if found then Some(ids) else None, AndTargets(cal, t, rest))
          decreases rest
        {
          var childFound, childIds := EqualityTargets(cal, t, rest.head);
          IntersectIsAssociative(if found then Some(ids) else None, if childFound then Some(childIds) else None,
                                 AndTargets(cal, t, rest.tail));
          if childFound {
            if found {
              ids := Retain(ids, childIds);
            } else {
              found, ids := true, childIds;
            }
          }
          rest := rest.tail;
        }
      case Equal(lhs, rhs) =>
        var id := Target(cal, t, lhs, rhs);
        if id.None? {
          id := Target(cal, t, rhs, lhs);
        }
        if id.Some? {
          found, ids := true, {id.value};
        }
    }
  }

  function RowsOf(items: seq<Item>): seq<Row> {
    seq(|items|, i requires 0 <= i < |items| => items[i].row)
  }

  function IdsOf(items: seq<Item>): seq<string> {
    seq(|items|, i requires 0 <= i < |items| => items[i].id)
  }

  method Constraint(cal: Calendar, t: Table, wheres: seq<Expr>) returns (found: bool, ids: set<string>)
    requires WellDefined(t)
    ensures WhereTargets(cal, t, wheres) == if found then Some(ids) else None
  {
    found, ids := false, {};
    for i := 0 to |wheres|
      invariant WhereTargets(cal, t, wheres[..i]) == if found then Some(ids) else None
    {
      assert wheres[..i + 1][..i] == wheres[..i];
      var f, more := EqualityTargets(cal, t, wheres[i]);
      if f {
        if found {
          ids := Retain(ids, more);
        } else {
          found, ids := true, more;
        }
      }
    }
    assert wheres[..|wheres|] == wheres;
  }

  /** prunePartitionedRows: the rows kept, and their partitions for an ingestion-time table. */
  method PrunePartitionedRows(cal: Calendar, t: Table, rows: seq<Row>, occurrences: nat, wheres: seq<Expr>)
    returns (kept: seq<Row>, ids: seq<string>, pruned: bool)
    requires WellDefined(t)
    ensures pruned == (MayPrune(t, occurrences) && WhereTargets(cal, t, wheres).Some?)
    ensures kept == RowsOf(PrunedItems(cal, t, rows, occurrences, wheres))
    ensures pruned ==>
              ids == if IsIngestion(t.timePart) then IdsOf(PrunedItems(cal, t, rows, occurrences, wheres)) else []
  {
    assert rows == RowsOf(ItemsOf(cal, t, rows));
    if t.view.Some? || t.external || (t.timePart.None? && t.rangePart.None?) || occurrences != 1 {
      return rows, [], false;
    }
    var found, targets := Constraint(cal, t, wheres);
    if !found {
      return rows, [], false;
    }
    kept, ids := KeepWanted(cal, t, rows, targets);
    return kept, ids, true;
  }

  lemma {:induction false} KeepOneMore(cal: Calendar, t: Table, targets: set<string>, items: seq<Item>, i: nat)
    requires WellDefined(t) && i < |items|
    ensures var k := Keep(cal, t, targets, items[..i]);
            var more := Keep(cal, t, targets, items[..i + 1]);
            if Wanted(cal, t, targets, items[i]) then
              RowsOf(more) == RowsOf(k) + [items[i].row] && IdsOf(more) == IdsOf(k) + [items[i].id]
            else more == k
  {
    assert items[..i + 1][..i] == items[..i];
  }

  method KeepWanted(cal: Calendar, t: Table, rows: seq<Row>, targets: set<string>)
    returns (kept: seq<Row>, ids: seq<string>)
    requires WellDefined(t)
    ensures kept == RowsOf(Keep(cal, t, targets, ItemsOf(cal, t, rows)))
    ensures ids == if IsIngestion(t.timePart) then IdsOf(Keep(cal, t, targets, ItemsOf(cal, t, rows))) else []
  {
    var items := ItemsOf(cal, t, rows);
    kept, ids := [], [];
    for i := 0 to |items|
      invariant kept == RowsOf(Keep(cal, t, targets, items[..i]))
      invariant ids == if IsIngestion(t.timePart) then IdsOf(Keep(cal, t, targets, items[..i])) else []
    {
      KeepOneMore(cal, t, targets, items, i);
      var p := PartitionOf(cal, t, items[i]);
      if p.Some? && p.value in targets {
        kept := kept + [items[i].row];
        if t.timePart.Some? && t.timePart.value.field == "" {
          ids := ids + [p.value];
        }
      }
    }
    assert items[..|items|] == items;
  }
}
