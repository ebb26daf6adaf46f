/** How many rows a statement removed and added (storedRowMultisetDelta, effectiveDMLAffectedRows). */
module RowDelta {
  import opened Partitioning

  datatype StatementType = InsertRows | DeleteRows | Merge | OtherStatement

  /** How often row stands in before, less how often it stands in after. */
  function Balance(before: seq<Row>, after: seq<Row>, row: Row): int {
    Times(before, row) - Times(after, row)
  }

  function Times(rows: seq<Row>, row: Row): int {
    multiset(rows)[row]
  }

  function CountOf(counts: map<Row, int>, row: Row): int {
    if row in counts then counts[row] else 0
  }

  lemma {:induction false} OneMore(rows: seq<Row>, i: nat, row: Row)
    requires i < |rows|
    ensures Times(rows[..i + 1], row) == Times(rows[..i], row) + (if rows[i] == row then 1 else 0)
  {
    assert rows[..i + 1] == rows[..i] + [rows[i]];
  }

  /** The two counting loops. */
  method CountRows(before: seq<Row>, after: seq<Row>) returns (counts: map<Row, int>)
    ensures forall row :: CountOf(counts, row) == Balance(before, after, row)
  {
    counts := map[];
    for i := 0 to |before|
      invariant forall row :: CountOf(counts, row) == Times(before[..i], row)
    {
      var next := counts[before[i] := CountOf(counts, before[i]) + 1];
      forall row ensures CountOf(next, row) == Times(before[..i + 1], row) {
        assert CountOf(counts, row) == Times(before[..i], row);
        OneMore(before, i, row);
      }
      counts := next;
    }
    assert before[..|before|] == before;
    for i := 0 to |after|
      invariant forall row :: CountOf(counts, row) == Times(before, row) - Times(after[..i], row)
    {
      var next := counts[after[i] := CountOf(counts, after[i]) - 1];
      forall row ensures CountOf(next, row) == Times(before, row) - Times(after[..i + 1], row) {
        assert CountOf(counts, row) == Times(before, row) - Times(after[..i], row);
        OneMore(after, i, row);
      }
      counts := next;
    }
    assert after[..|after|] == after;
  }

  /** Sums the positive and the negative counts; the keys come in any order. */
  method StoredRowMultisetDelta(before: seq<Row>, after: seq<Row>) returns (removed: nat, added: nat)
    ensures removed == |multiset(before) - multiset(after)|
    ensures added == |multiset(after) - multiset(before)|
  {
    var counts := CountRows(before, after);
    removed, added := 0, 0;
    var pending := counts.Keys;
    ghost var gone, come := multiset(before) - multiset(after), multiset(after) - multiset(before);
    forall row
      ensures gone[row] == if row in pending && counts[row] > 0 then counts[row] else 0
      ensures come[row] == if row in pending && counts[row] < 0 then -counts[row] else 0
    {
      assert CountOf(counts, row) == Balance(before, after, row);
    }
    while pending != {}
      invariant pending <= counts.Keys
      invariant forall row :: gone[row] == if row in pending && counts[row] > 0 then counts[row] else 0
      invariant forall row :: come[row] == if row in pending && counts[row] < 0 then -counts[row] else 0
      invariant removed + |gone| == |multiset(before) - multiset(after)|
      invariant added + |come| == |multiset(after) - multiset(before)|
      decreases |pending|
    {
      var row :| row in pending;
      pending := pending - {row};
      if counts[row] > 0 {
        removed := removed + counts[row];
      } else if counts[row] < 0 {
        added := added - counts[row];
      }
      gone, come := gone[row := 0], come[row := 0];
    }
    assert gone == multiset{} && come == multiset{};
  }

  /** The driver's own count where it reports one. */
  method EffectiveAffectedRows(kind: StatementType, driverRows: int, before: seq<Row>, after: seq<Row>) returns (n: int)
    ensures driverRows > 0 ==> n == driverRows
    ensures driverRows <= 0 && kind.InsertRows? && |after| > |before| ==> n == |after| - |before|
    ensures driverRows <= 0 && kind.DeleteRows? && |before| > |after| ==> n == |before| - |after|
    ensures driverRows <= 0 && kind.Merge? ==>
              && n >= |multiset(before) - multiset(after)| && n >= |multiset(after) - multiset(before)|
              && (n == |multiset(before) - multiset(after)| || n == |multiset(after) - multiset(before)|)
  {
    if driverRows > 0 {
      return driverRows;
    }
    match kind {
      case InsertRows => if |after| > |before| { return |after| - |before|; }
      case DeleteRows => if |before| > |after| { return |before| - |after|; }
      case Merge =>
        var removed, added := StoredRowMultisetDelta(before, after);
        return if removed > added then removed else added;
      case OtherStatement =>
    }
    return driverRows;
  }

  /** The delta balances the row counts, and vanishes exactly when no row was changed. */
  lemma {:induction false} DeltaBalances(before: seq<Row>, after: seq<Row>)
    ensures |multiset(before) - multiset(after)| - |multiset(after) - multiset(before)| == |before| - |after|
    ensures |multiset(before) - multiset(after)| == 0 && |multiset(after) - multiset(before)| == 0
       <==> multiset(before) == multiset(after)
  {
    var b, a := multiset(before), multiset(after);
    assert b == (b - a) + (b * a);
    assert a == (a - b) + (b * a);
    assert |b| == |before| && |a| == |after|;
    assert |b - a| == 0 ==> b - a == multiset{};
    assert |a - b| == 0 ==> a - b == multiset{};
  }
}
