/** Pruning preserves the meaning of a query; where its conditions fail, it does not. */
module PruningTheorems {
  import opened Options
  import opened Decimal
  import opened Cells
  import opened Text
  import opened Partitioning
  import opened Purge
  import opened Pruning

  // ---- Conditions ----------------------------------------------------------------------------

  /** Partitions of a day or longer start at the beginning of a day. */
  ghost predicate DaysAreStarts(cal: Calendar, m: Meaning) {
    forall id, u :: !EqualFold(u, "HOUR") && cal.readId(id, u).Some? ==>
        m.day(cal.readId(id, u).value) == cal.readId(id, u).value
  }

  predicate NamesPartition(t: Table, name: string) {
    || (t.rangePart.Some? && EqualFold(name, t.rangePart.value.field))
    || (t.timePart.Some? && t.timePart.value.field != "" && EqualFold(name, t.timePart.value.field))
    || (IsIngestion(t.timePart) && (EqualFold(name, PARTITION_DATE) || EqualFold(name, PARTITION_TIME)))
  }

  predicate AsksDateOfHour(t: Table, name: string) {
    IsIngestion(t.timePart) && EqualFold(t.timePart.value.unit, "HOUR") && EqualFold(name, PARTITION_DATE)
  }

  /** A path whose last part is the name of the partition column is that column, the column is
      in the schema, and it is not the date of an hourly partition. */
  predicate OperandOk(t: Table, o: Operand) {
    o.Path? && NamesPartition(t, LastPart(o)) ==>
      && o.column.Some? && EqualFold(o.column.value, LastPart(o))
      && (t.rangePart.Some? ==> FindField(t.schema, t.rangePart.value.field) < |t.schema|)
      && !AsksDateOfHour(t, LastPart(o))
  }

  /** The same for every equality that pruning looks at. */
  predicate FilterOk(t: Table, e: Expr) {
    match e
    case And(terms) => FiltersOk(t, terms)
    case Equal(lhs, rhs) => OperandOk(t, lhs) && OperandOk(t, rhs)
    case _ => true
  }

  predicate FiltersOk(t: Table, es: Exprs) {
    es.Cons? ==> FilterOk(t, es.head) && FiltersOk(t, es.tail)
  }

  // ---- Soundness ---------------------------------------------------------------------------------

  lemma {:induction false} TimestampIsNotDate()
    ensures EqualFold("DATE", "DATE") && !EqualFold("TIMESTAMP", "DATE")
  {
    assert |ToLower("TIMESTAMP")| == 9 && |ToLower("DATE")| == 4;
  }

  lemma {:induction false} PseudocolumnsDiffer()
    ensures !EqualFold(PARTITION_DATE, PARTITION_TIME)
  {
    assert ToLower(PARTITION_DATE)[|PARTITION_DATE| - 2] == 't';
    assert ToLower(PARTITION_TIME)[|PARTITION_TIME| - 2] == 'm';
  }

  /** An ingestion-time row equal to the literal is in the partition the literal asks for. */
  lemma {:induction false} IngestionTargetIsRight(cal: Calendar, m: Meaning, t: Table, p: Operand, lit: Operand,
                                                  item: Item)
    requires Lawful(cal) && DaysAreStarts(cal, m) && WellDefined(t) && IsIngestion(t.timePart)
    requires p.Path? && p.parts != [] && OperandOk(t, p) && Target(cal, t, p, lit).Some?
    requires Compare(OperandValue(cal, m, t, p, item), OperandValue(cal, m, t, lit, item)) == True
    ensures PartitionOf(cal, t, item) == Target(cal, t, p, lit)
  {
    TimestampIsNotDate();
    PseudocolumnsDiffer();
    LoadUndoesStore(lit.text);
    var unit := t.timePart.value.unit;
    assert PartitionStart(cal, item.id, unit).Some?;
    var start := PartitionStart(cal, item.id, unit).value;
    assert cal.formatId(start, unit) == item.id;
  }

  /** The same for a table partitioned by a time column. */
  lemma {:induction false} TimeTargetIsRight(cal: Calendar, m: Meaning, t: Table, p: Operand, lit: Operand, item: Item)
    requires WellDefined(t) && t.timePart.Some? && t.timePart.value.field != ""
    requires p.Path? && p.parts != [] && OperandOk(t, p) && Target(cal, t, p, lit).Some?
    requires Compare(OperandValue(cal, m, t, p, item), OperandValue(cal, m, t, lit, item)) == True
    ensures PartitionOf(cal, t, item) == Target(cal, t, p, lit)
  {
    LoadUndoesStore(lit.text);
    var f := FindField(t.schema, t.timePart.value.field);
    assert OperandValue(cal, m, t, p, item) == CellValue(cal, t.schema[f].kind, CellAt(item.row, f));
    assert OperandValue(cal, m, t, lit, item) == TextValue(cal, lit.kind, lit.text);
  }

  /** The same for a table partitioned by integer ranges. */
  lemma {:induction false} RangeTargetIsRight(cal: Calendar, m: Meaning, t: Table, p: Operand, lit: Operand, item: Item)
    requires WellDefined(t) && t.rangePart.Some?
    requires p.Path? && p.parts != [] && OperandOk(t, p) && Target(cal, t, p, lit).Some?
    requires Compare(OperandValue(cal, m, t, p, item), OperandValue(cal, m, t, lit, item)) == True
    ensures PartitionOf(cal, t, item) == Target(cal, t, p, lit)
  {
    var f := FindField(t.schema, t.rangePart.value.field);
    assert OperandValue(cal, m, t, p, item) == IntCellValue(CellAt(item.row, f));
  }

  lemma {:induction false} TargetIsRight(cal: Calendar, m: Meaning, t: Table, p: Operand, lit: Operand, item: Item)
    requires Lawful(cal) && DaysAreStarts(cal, m) && WellDefined(t)
    requires OperandOk(t, p) && Target(cal, t, p, lit).Some?
    requires Compare(OperandValue(cal, m, t, p, item), OperandValue(cal, m, t, lit, item)) == True
    ensures PartitionOf(cal, t, item) == Target(cal, t, p, lit)
  {
    if t.rangePart.Some? {
      RangeTargetIsRight(cal, m, t, p, lit, item);
    } else if IsIngestion(t.timePart) {
      IngestionTargetIsRight(cal, m, t, p, lit, item);
    } else {
      TimeTargetIsRight(cal, m, t, p, lit, item);
    }
  }

  /** A row that satisfies a filter is in a partition the filter demands. */
  lemma {:induction false} TargetsAreRight(cal: Calendar, m: Meaning, t: Table, e: Expr, item: Item)
    requires Lawful(cal) && DaysAreStarts(cal, m) && WellDefined(t) && FilterOk(t, e)
    requires Eval(cal, m, t, e, item) == True && Targets(cal, t, e).Some?
    ensures Wanted(cal, t, Targets(cal, t, e).value, item)
    decreases e
  {
    match e {
      case And(terms) => AndTargetsAreRight(cal, m, t, terms, item);
      case Equal(lhs, rhs) =>
        if Target(cal, t, lhs, rhs).Some? {
          TargetIsRight(cal, m, t, lhs, rhs, item);
        } else {
          TargetIsRight(cal, m, t, rhs, lhs, item);
        }
      case _ =>
    }
  }

  lemma {:induction false} AndTargetsAreRight(cal: Calendar, m: Meaning, t: Table, es: Exprs, item: Item)
    requires Lawful(cal) && DaysAreStarts(cal, m) && WellDefined(t) && FiltersOk(t, es)
    requires EvalAnd(cal, m, t, es, item) == True && AndTargets(cal, t, es).Some?
    ensures Wanted(cal, t, AndTargets(cal, t, es).value, item)
    decreases es
  {
    if Targets(cal, t, es.head).Some? {
      TargetsAreRight(cal, m, t, es.head, item);
    }
    if AndTargets(cal, t, es.tail).Some? {
      AndTargetsAreRight(cal, m, t, es.tail, item);
    }
  }

  // ---- Meaning is preserved ---------------------------------------------------------------------

  /** The rows a SELECT block with this WHERE goes on with. */
  function Select(cal: Calendar, m: Meaning, t: Table, w: Expr, items: seq<Item>): seq<Item> {
    if items == [] then []
    else
      var n := |items| - 1;
      Select(cal, m, t, w, items[..n]) + (if Eval(cal, m, t, w, items[n]) == True then [items[n]] else [])
  }

  lemma {:induction false} SelectAppend(cal: Calendar, m: Meaning, t: Table, w: Expr, items: seq<Item>, x: Item)
    ensures Select(cal, m, t, w, items + [x])
         == Select(cal, m, t, w, items) + (if Eval(cal, m, t, w, x) == True then [x] else [])
  {
    assert (items + [x])[..|items|] == items;
  }

  /** What all WHERE clauses demand together: what each that demands anything does. */
  lemma {:induction false} WhereTargetsAreCommon(cal: Calendar, t: Table, wheres: seq<Expr>)
    requires WellDefined(t)
    ensures WhereTargets(cal, t, wheres).None? <==> forall j :: 0 <= j < |wheres| ==> Targets(cal, t, wheres[j]).None?
    ensures WhereTargets(cal, t, wheres).Some? ==>
              forall id :: id in WhereTargets(cal, t, wheres).value <==>
                forall j :: 0 <= j < |wheres| && Targets(cal, t, wheres[j]).Some? ==>
                    id in Targets(cal, t, wheres[j]).value
  {
    if wheres != [] {
      var n := |wheres| - 1;
      WhereTargetsAreCommon(cal, t, wheres[..n]);
      assert forall j :: 0 <= j < n ==> wheres[..n][j] == wheres[j];
    }
  }

  /** A row is admitted when each WHERE that demands partitions demands its. */
  predicate Admitted(cal: Calendar, t: Table, wheres: seq<Expr>, item: Item)
    requires WellDefined(t)
  {
    forall j :: 0 <= j < |wheres| && Targets(cal, t, wheres[j]).Some? ==>
        Wanted(cal, t, Targets(cal, t, wheres[j]).value, item)
  }

  lemma {:induction false} WantedIffAdmitted(cal: Calendar, t: Table, wheres: seq<Expr>, item: Item)
    requires WellDefined(t) && WhereTargets(cal, t, wheres).Some?
    ensures Wanted(cal, t, WhereTargets(cal, t, wheres).value, item) <==> Admitted(cal, t, wheres, item)
  {
    WhereTargetsAreCommon(cal, t, wheres);
    var j :| 0 <= j < |wheres| && Targets(cal, t, wheres[j]).Some?;
    if Admitted(cal, t, wheres, item) {
      assert Wanted(cal, t, Targets(cal, t, wheres[j]).value, item);
    }
  }

  /** The rows of a block that pruning for the whole statement does not lose. */
  function SelectAdmitted(cal: Calendar, m: Meaning, t: Table, wheres: seq<Expr>, w: Expr, items: seq<Item>): seq<Item>
    requires WellDefined(t)
  {
    if items == [] then []
    else
      var n := |items| - 1;
      SelectAdmitted(cal, m, t, wheres, w, items[..n])
      + (if Eval(cal, m, t, w, items[n]) == True && Admitted(cal, t, wheres, items[n]) then [items[n]] else [])
  }

  lemma {:induction false} SelectOfKept(cal: Calendar, m: Meaning, t: Table, wheres: seq<Expr>, w: Expr,
                                        items: seq<Item>)
    requires WellDefined(t) && WhereTargets(cal, t, wheres).Some?
    ensures Select(cal, m, t, w, Keep(cal, t, WhereTargets(cal, t, wheres).value, items))
              == SelectAdmitted(cal, m, t, wheres, w, items)
  {
    if items != [] {
      var n := |items| - 1;
      var ids := WhereTargets(cal, t, wheres).value;
      SelectOfKept(cal, m, t, wheres, w, items[..n]);
      WantedIffAdmitted(cal, t, wheres, items[n]);
      SelectAppend(cal, m, t, w, Keep(cal, t, ids, items[..n]), items[n]);
      assert !Wanted(cal, t, ids, items[n]) ==> Keep(cal, t, ids, items) == Keep(cal, t, ids, items[..n]);
    }
  }

  lemma {:induction false} NothingDemanded(cal: Calendar, m: Meaning, t: Table, wheres: seq<Expr>, w: Expr,
                                           items: seq<Item>)
    requires WellDefined(t) && WhereTargets(cal, t, wheres).None?
    ensures SelectAdmitted(cal, m, t, wheres, w, items) == Select(cal, m, t, w, items)
  {
    WhereTargetsAreCommon(cal, t, wheres);
    if items != [] { NothingDemanded(cal, m, t, wheres, w, items[..|items| - 1]); }
  }

  /** For a statement with any number of WHERE clauses: the block whose WHERE is w gets exactly
      those of its rows that every clause of the statement admits, in order. */
  lemma {:induction false} PrunedBlockGetsAdmittedRows(cal: Calendar, m: Meaning, t: Table, rows: seq<Row>,
                                                       wheres: seq<Expr>, w: Expr)
    requires WellDefined(t) && MayPrune(t, 1)
    ensures Select(cal, m, t, w, PrunedItems(cal, t, rows, 1, wheres))
              == SelectAdmitted(cal, m, t, wheres, w, ItemsOf(cal, t, rows))
  {
    if WhereTargets(cal, t, wheres).None? {
      NothingDemanded(cal, m, t, wheres, w, ItemsOf(cal, t, rows));
    } else {
      SelectOfKept(cal, m, t, wheres, w, ItemsOf(cal, t, rows));
    }
  }

  lemma {:induction false} AdmittedIsAll(cal: Calendar, m: Meaning, t: Table, wheres: seq<Expr>, w: Expr,
                                         items: seq<Item>)
    requires WellDefined(t)
    ensures |SelectAdmitted(cal, m, t, wheres, w, items)| <= |Select(cal, m, t, w, items)|
    ensures SelectAdmitted(cal, m, t, wheres, w, items) == Select(cal, m, t, w, items)
       <==> forall i :: 0 <= i < |items| && Eval(cal, m, t, w, items[i]) == True ==> Admitted(cal, t, wheres, items[i])
  {
    if items != [] {
      var n := |items| - 1;
      AdmittedIsAll(cal, m, t, wheres, w, items[..n]);
      assert forall i :: 0 <= i < n ==> items[..n][i] == items[i];
      var a, b := SelectAdmitted(cal, m, t, wheres, w, items[..n]), Select(cal, m, t, w, items[..n]);
      assert a + [] == a && b + [] == b;
      if Eval(cal, m, t, w, items[n]) == True && Admitted(cal, t, wheres, items[n]) {
        assert (a + [items[n]])[..|a|] == a && (b + [items[n]])[..|b|] == b;
        assert a + [items[n]] == b + [items[n]] <==> a == b;
      } else if Eval(cal, m, t, w, items[n]) == True {
        assert |SelectAdmitted(cal, m, t, wheres, w, items)| < |Select(cal, m, t, w, items)|;
      }
    }
  }

  /** Pruning keeps the meaning of a block exactly when every WHERE of the statement admits every
      row that satisfies the block's own: a satisfying row in a partition that another WHERE
      excludes is lost, and nothing else is. */
  lemma {:induction false} BlockKeepsMeaningIff(cal: Calendar, m: Meaning, t: Table, rows: seq<Row>, wheres: seq<Expr>,
                                                w: Expr)
    requires WellDefined(t) && MayPrune(t, 1)
    ensures Select(cal, m, t, w, PrunedItems(cal, t, rows, 1, wheres)) == Select(cal, m, t, w, ItemsOf(cal, t, rows))
       <==> forall i :: 0 <= i < |rows| && Eval(cal, m, t, w, ItemsOf(cal, t, rows)[i]) == True ==>
           Admitted(cal, t, wheres, ItemsOf(cal, t, rows)[i])
  {
    PrunedBlockGetsAdmittedRows(cal, m, t, rows, wheres, w);
    AdmittedIsAll(cal, m, t, wheres, w, ItemsOf(cal, t, rows));
  }

  /** a demands nothing, or everything that b does. */
  predicate Covers(a: Option<set<string>>, b: Option<set<string>>) {
    a.None? || (b.Some? && b.value <= a.value)
  }

  /** Filtering what pruning keeps gives the rows that filtering the whole table gives, in order,
      for every block whose demands the other WHERE clauses of the statement cover; so for every
      statement with one WHERE. */
  lemma {:induction false} PruningKeepsMeaning(cal: Calendar, m: Meaning, t: Table, rows: seq<Row>, occurrences: nat,
                                               wheres: seq<Expr>, k: nat)
    requires Lawful(cal) && DaysAreStarts(cal, m) && WellDefined(t) && k < |wheres| && FilterOk(t, wheres[k])
    requires forall j :: 0 <= j < |wheres| && j != k ==> Covers(Targets(cal, t, wheres[j]), Targets(cal, t, wheres[k]))
    ensures Select(cal, m, t, wheres[k], PrunedItems(cal, t, rows, occurrences, wheres))
              == Select(cal, m, t, wheres[k], ItemsOf(cal, t, rows))
  {
    if MayPrune(t, occurrences) {
      forall x | Eval(cal, m, t, wheres[k], x) == True ensures Admitted(cal, t, wheres, x) {
        if Targets(cal, t, wheres[k]).Some? { TargetsAreRight(cal, m, t, wheres[k], x); }
      }
      BlockKeepsMeaningIff(cal, m, t, rows, wheres, wheres[k]);
    }
  }

  /** The table handed to the engine, built from the kept rows and their partitions, holds
      exactly the kept rows, each still in its partition. */
  lemma {:induction false} PrunedTableHoldsPrunedItems(cal: Calendar, t: Table, rows: seq<Row>, ids: set<string>)
    requires Lawful(cal) && WellDefined(t)
    ensures var kept := Keep(cal, t, ids, ItemsOf(cal, t, rows));
            ItemsOf(cal, t.(partitions := if IsIngestion(t.timePart) then IdsOf(kept) else []), RowsOf(kept)) == kept
  {
    var items := ItemsOf(cal, t, rows);
    var kept := Keep(cal, t, ids, items);
    KeptAreItems(cal, t, ids, items);
    forall i | 0 <= i < |kept| ensures IsIngestion(t.timePart) ==> kept[i].id != "" {
      assert kept[i] in items;
    }
    forall i | 0 <= i < |kept| ensures !IsIngestion(t.timePart) ==> kept[i].id == "" {
      assert kept[i] in items;
    }
  }

  lemma {:induction false} KeptAreItems(cal: Calendar, t: Table, ids: set<string>, items: seq<Item>)
    requires WellDefined(t)
    ensures forall x :: x in Keep(cal, t, ids, items) ==> x in items
  {
    if items != [] { KeptAreItems(cal, t, ids, items[..|items| - 1]); }
  }

  // ---- Where the conditions fail ---------------------------------------------------------------

  function DateFilter(text: string): Expr {
    Equal(Path([PARTITION_DATE], Some(PARTITION_DATE)), TimeLiteral("DATE", text))
  }

  /** _PARTITIONDATE on hourly ingestion partitions: each row of the day satisfies the filter, and
      pruning keeps it exactly when its partition is the one that starts the day. */
  lemma {:induction false} DateOfHourKeepsOnlyFirstHour(cal: Calendar, m: Meaning, t: Table, text: string, item: Item)
    requires Lawful(cal) && WellDefined(t) && IsIngestion(t.timePart)
    requires PartitionStart(cal, item.id, t.timePart.value.unit).Some?
    requires cal.readDate(text) == Some(m.day(PartitionStart(cal, item.id, t.timePart.value.unit).value))
    ensures Eval(cal, m, t, DateFilter(text), item) == True
    ensures Targets(cal, t, DateFilter(text)).Some?
    ensures Wanted(cal, t, Targets(cal, t, DateFilter(text)).value, item)
       <==> cal.formatId(cal.readDate(text).value, t.timePart.value.unit) == item.id
  {
    TimestampIsNotDate();
    LoadUndoesStore(text);
  }

  /** A struct field that shares the partition column's name: every row whose own partition is
      another one is lost, whether or not it satisfies the filter. */
  lemma {:induction false} NestedFieldIsTakenForPartitionColumn(cal: Calendar, m: Meaning, t: Table, parent: string,
                                                                n: int,
                                                                image: string, item: Item)
    requires WellDefined(t) && t.rangePart.Some? && ParseInt64(image) == Some(n)
    requires m.operand(Path([parent, t.rangePart.value.field], None), item) == IntValue(n)
    ensures var e := Equal(Path([parent, t.rangePart.value.field], None), IntLiteral(image));
            && Eval(cal, m, t, e, item) == True
            && Targets(cal, t, e) == Some({Bucket(t.rangePart.value, n)})
            && (Wanted(cal, t, Targets(cal, t, e).value, item)
                <==> PartitionOf(cal, t, item) == Some(Bucket(t.rangePart.value, n)))
  {
  }

  /** Two blocks that ask for different partitions: each loses every row that satisfies it. */
  lemma {:induction false} BlocksOfDifferentPartitionsGetNothing(cal: Calendar, m: Meaning, t: Table, rows: seq<Row>,
                                                                 a: Expr, b: Expr, x: string, y: string)
    requires Lawful(cal) && DaysAreStarts(cal, m) && WellDefined(t) && MayPrune(t, 1) && FilterOk(t, a) && x != y
    requires Targets(cal, t, a) == Some({x}) && Targets(cal, t, b) == Some({y})
    ensures Select(cal, m, t, a, PrunedItems(cal, t, rows, 1, [a, b])) == []
  {
    PrunedBlockGetsAdmittedRows(cal, m, t, rows, [a, b], a);
    forall item | Eval(cal, m, t, a, item) == True ensures !Admitted(cal, t, [a, b], item) {
      TargetsAreRight(cal, m, t, a, item);
      assert Targets(cal, t, [a, b][1]) == Some({y});
      assert !Wanted(cal, t, {y}, item);
    }
    NobodyAdmitted(cal, m, t, [a, b], a, ItemsOf(cal, t, rows));
  }

  lemma {:induction false} NobodyAdmitted(cal: Calendar, m: Meaning, t: Table, wheres: seq<Expr>, w: Expr,
                                          items: seq<Item>)
    requires WellDefined(t) && forall item :: Eval(cal, m, t, w, item) == True ==> !Admitted(cal, t, wheres, item)
    ensures SelectAdmitted(cal, m, t, wheres, w, items) == []
  {
    if items != [] { NobodyAdmitted(cal, m, t, wheres, w, items[..|items| - 1]); }
  }
}
