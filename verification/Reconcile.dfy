/** Which old row a changed row inherits its ingestion partition from
    (reconcileIngestionPartitions). */
module Reconcile {
  import opened Options
  import opened Partitioning

  // ---- What is assigned --------------------------------------------------------------

  function Occurrences(rows: seq<Row>, row: Row): nat {
    if rows == [] then 0 else Occurrences(rows[..|rows| - 1], row) + (if rows[|rows| - 1] == row then 1 else 0)
  }

  /** i is the occurrence of row in rows that k others precede. */
  predicate IsOccurrence(rows: seq<Row>, row: Row, k: nat, i: nat) {
    i < |rows| && rows[i] == row && Occurrences(rows[..i], row) == k
  }

  /** The k-th occurrence of row, or |rows| when there are not that many. */
  function FindOccurrence(rows: seq<Row>, row: Row, k: nat): (i: nat)
    ensures i <= |rows|
    ensures i < |rows| ==> IsOccurrence(rows, row, k, i)
    ensures i == |rows| ==> Occurrences(rows, row) <= k
  {
    if rows == [] then 0
    else
      var n := |rows| - 1;
      var i := FindOccurrence(rows[..n], row, k);
      if i < n then
        assert rows[..n][..i] == rows[..i];
        i
      else if rows[n] == row && Occurrences(rows[..n], row) == k then n
      else n + 1
  }

  /** The old row that new row i is an exact copy of, or |olds|: equal rows are paired in order. */
  function Copied(olds: seq<Row>, news: seq<Row>, i: nat): nat
    requires i < |news|
  {
    FindOccurrence(olds, news[i], Occurrences(news[..i], news[i]))
  }

  predicate IsCopied(olds: seq<Row>, news: seq<Row>, upTo: nat, o: nat)
    requires upTo <= |news|
  {
    exists j :: 0 <= j < upTo && Copied(olds, news, j) == o
  }

  /** The old row whose partition new row i takes: the one it copies, else the one at its own
      index when nothing else copies that; None for a row that counts as new. */
  function Source(olds: seq<Row>, news: seq<Row>, i: nat): Option<nat>
    requires i < |news|
  {
    var o := Copied(olds, news, i);
    if o < |olds| then Some(o)
    else if i < |olds| && !IsCopied(olds, news, |news|, i) then Some(i)
    else None
  }

  function OldPartition(parts: seq<string>, current: string, o: nat): string {
    if o < |parts| && parts[o] != "" then parts[o] else current
  }

  function Assigned(olds: seq<Row>, news: seq<Row>, parts: seq<string>, current: string, i: nat): string
    requires i < |news|
  {
    match Source(olds, news, i)
    case Some(o) => OldPartition(parts, current, o)
    case None => current
  }

  function Reconciled(olds: seq<Row>, news: seq<Row>, parts: seq<string>, current: string): seq<string> {
    if current == "" then [] else seq(|news|, i requires 0 <= i < |news| => Assigned(olds, news, parts, current, i))
  }

  // ---- Properties ------------------------------------------------------------------------

  lemma {:induction false} OccurrencesGrow(rows: seq<Row>, row: Row, i: nat, j: nat)
    requires i <= j <= |rows|
    ensures Occurrences(rows[..i], row) <= Occurrences(rows[..j], row)
    decreases j
  {
    if i < j {
      OccurrencesGrow(rows, row, i, j - 1);
      assert rows[..j][..j - 1] == rows[..j - 1];
    }
  }

  lemma {:induction false} OccurrencesStep(rows: seq<Row>, row: Row, i: nat)
    requires i < |rows|
    ensures Occurrences(rows[..i + 1], row) == Occurrences(rows[..i], row) + (if rows[i] == row then 1 else 0)
  {
    assert rows[..i + 1][..i] == rows[..i];
  }

  /** Two occurrences of the same row have different numbers. */
  lemma {:induction false} OccurrenceIsUnique(rows: seq<Row>, row: Row, i: nat, j: nat)
    requires i < j < |rows| && rows[i] == row
    ensures Occurrences(rows[..i], row) < Occurrences(rows[..j], row)
  {
    OccurrencesStep(rows, row, i);
    OccurrencesGrow(rows, row, i + 1, j);
  }

  lemma {:induction false} FindsOccurrence(rows: seq<Row>, row: Row, i: nat)
    requires i < |rows| && rows[i] == row
    ensures FindOccurrence(rows, row, Occurrences(rows[..i], row)) == i
  {
    var k := Occurrences(rows[..i], row);
    var f := FindOccurrence(rows, row, k);
    OccurrencesStep(rows, row, i);
    OccurrencesGrow(rows, row, i + 1, |rows|);
    assert rows[..|rows|] == rows;
    if f < i { OccurrenceIsUnique(rows, row, f, i); }
    if i < f { OccurrenceIsUnique(rows, row, i, f); }
  }

  lemma {:induction false} CopiesAreDistinct(olds: seq<Row>, news: seq<Row>, i: nat, j: nat)
    requires i < j < |news| && Copied(olds, news, i) < |olds|
    ensures Copied(olds, news, i) != Copied(olds, news, j)
  {
    if news[i] == news[j] { OccurrenceIsUnique(news, news[i], i, j); }
  }

  /** Each old row gives its partition to at most one new row. */
  lemma {:induction false} SourcesAreDistinct(olds: seq<Row>, news: seq<Row>, i: nat, j: nat)
    requires i < j < |news| && Source(olds, news, i).Some?
    ensures Source(olds, news, i) != Source(olds, news, j)
  {
    if Copied(olds, news, i) < |olds| {
      CopiesAreDistinct(olds, news, i, j);
    }
  }

  lemma {:induction false} ReconciledIsComplete(olds: seq<Row>, news: seq<Row>, parts: seq<string>, current: string)
    requires current != ""
    ensures |Reconciled(olds, news, parts, current)| == |news|
    ensures "" !in Reconciled(olds, news, parts, current)
  {
  }

  /** Rows that did not change keep their partitions. */
  lemma {:induction false} UnchangedRowsKeepPartitions(rows: seq<Row>, parts: seq<string>, current: string)
    requires current != "" && |parts| == |rows| && "" !in parts
    ensures Reconciled(rows, rows, parts, current) == parts
  {
    forall i | 0 <= i < |rows| ensures Assigned(rows, rows, parts, current, i) == parts[i] {
      FindsOccurrence(rows, rows[i], i);
    }
  }

  function Pairs(rows: seq<Row>, parts: seq<string>): seq<(Row, string)>
    requires |rows| == |parts|
  {
    seq(|rows|, i requires 0 <= i < |rows| => (rows[i], parts[i]))
  }

  lemma {:induction false} OccurrencesAreMultiplicity(rows: seq<Row>, row: Row)
    ensures Occurrences(rows, row) == multiset(rows)[row]
  {
    if rows != [] {
      var n := |rows| - 1;
      OccurrencesAreMultiplicity(rows[..n], row);
      assert rows == rows[..n] + [rows[n]];
    }
  }

  /** When rows were only removed, every new row is a copy of an old one. */
  lemma {:induction false} SubsetRowsAreCopied(olds: seq<Row>, news: seq<Row>, i: nat)
    requires multiset(news) <= multiset(olds) && i < |news|
    ensures Copied(olds, news, i) < |olds| && olds[Copied(olds, news, i)] == news[i]
  {
    var row := news[i];
    OccurrencesAreMultiplicity(olds, row);
    OccurrencesAreMultiplicity(news, row);
    OccurrencesStep(news, row, i);
    OccurrencesGrow(news, row, i + 1, |news|);
    assert news[..|news|] == news;
  }

  /** A sequence drawn from distinct positions of another is a sub-multiset of it. */
  lemma {:induction false} DrawnIsSubMultiset<T>(a: seq<T>, b: seq<T>, from: seq<nat>)
    requires |from| == |a|
    requires forall i :: 0 <= i < |a| ==> from[i] < |b| && b[from[i]] == a[i]
    requires forall i, j :: 0 <= i < j < |a| ==> from[i] != from[j]
    ensures multiset(a) <= multiset(b)
  {
    if a != [] {
      var n := |a| - 1;
      var k := from[n];
      var rest := b[..k] + b[k + 1..];
      var shifted := seq(n, i requires 0 <= i < n => if from[i] < k then from[i] else from[i] - 1);
      forall i | 0 <= i < n ensures shifted[i] < |rest| && rest[shifted[i]] == a[i] {
        assert from[i] != from[n];
      }
      forall i, j | 0 <= i < j < n ensures shifted[i] != shifted[j] {
        assert from[i] != from[n] && from[j] != from[n];
      }
      DrawnIsSubMultiset(a[..n], rest, shifted);
      assert a == a[..n] + [a[n]];
      assert b == b[..k] + [b[k]] + b[k + 1..];
      assert multiset(b) == multiset(rest) + multiset{a[n]};
    }
  }

  /** Removing rows keeps the partition of each row that stays. */
  lemma {:induction false} RemovalKeepsPartitions(olds: seq<Row>, news: seq<Row>, parts: seq<string>, current: string)
    requires multiset(news) <= multiset(olds) && current != "" && |parts| == |olds| && "" !in parts
    ensures |Reconciled(olds, news, parts, current)| == |news|
    ensures multiset(Pairs(news, Reconciled(olds, news, parts, current))) <= multiset(Pairs(olds, parts))
  {
    var from := seq(|news|, i requires 0 <= i < |news| => Copied(olds, news, i));
    forall i | 0 <= i < |news| ensures from[i] < |olds| && olds[from[i]] == news[i] {
      SubsetRowsAreCopied(olds, news, i);
    }
    forall i, j | 0 <= i < j < |news| ensures from[i] != from[j] {
      CopiesAreDistinct(olds, news, i, j);
    }
    DrawnIsSubMultiset(Pairs(news, Reconciled(olds, news, parts, current)), Pairs(olds, parts), from);
  }

  // ---- The loops ---------------------------------------------------------------------------

  /** The indices of row in rows, in order. */
  function Positions(rows: seq<Row>, row: Row): (ps: seq<nat>)
    ensures |ps| == Occurrences(rows, row)
  {
    if rows == [] then []
    else
      var n := |rows| - 1;
      Positions(rows[..n], row) + (if rows[n] == row then [n] else [])
  }

  lemma {:induction false} TooFewOccurrences(rows: seq<Row>, row: Row, k: nat)
    requires Occurrences(rows, row) <= k
    ensures FindOccurrence(rows, row, k) == |rows|
  {
    var i := FindOccurrence(rows, row, k);
    if i < |rows| { OccurrenceIsCounted(rows, row, k, i); }
  }

  lemma {:induction false} OccurrenceIsCounted(rows: seq<Row>, row: Row, k: nat, i: nat)
    requires IsOccurrence(rows, row, k, i)
    ensures k < Occurrences(rows, row)
  {
    OccurrencesStep(rows, row, i);
    OccurrencesGrow(rows, row, i + 1, |rows|);
    assert rows[..|rows|] == rows;
  }

  lemma {:induction false} PositionIsOccurrence(rows: seq<Row>, row: Row, k: nat)
    requires k < |Positions(rows, row)|
    ensures Positions(rows, row)[k] == FindOccurrence(rows, row, k) < |rows|
  {
    var n := |rows| - 1;
    if k < |Positions(rows[..n], row)| {
      PositionIsOccurrence(rows[..n], row, k);
    } else {
      TooFewOccurrences(rows[..n], row, k);
    }
  }

  function Listed(available: map<Row, seq<nat>>, row: Row): seq<nat> {
    if row in available then available[row] else []
  }

  function Drop(s: seq<nat>, k: nat): seq<nat> {
    if k < |s| then s[k..] else []
  }

  /** The lists hold the positions in olds that the rows of used have not consumed. */
  ghost predicate Holds(available: map<Row, seq<nat>>, olds: seq<Row>, used: seq<Row>) {
    forall row {:trigger Positions(olds, row)} :: Listed(available, row)
        == Drop(Positions(olds, row), Occurrences(used, row))
  }

  lemma {:induction false} HoldsNothing()
    ensures Holds(map[], [], [])
  {
  }

  lemma {:induction false} HoldsOneMore(available: map<Row, seq<nat>>, olds: seq<Row>, i: nat)
    requires i < |olds| && Holds(available, olds[..i], [])
    ensures Holds(available[olds[i] := Listed(available, olds[i]) + [i]], olds[..i + 1], [])
  {
    var next := available[olds[i] := Listed(available, olds[i]) + [i]];
    forall row ensures Listed(next, row) == Drop(Positions(olds[..i + 1], row), 0) {
      assert olds[..i + 1][..i] == olds[..i];
      assert Listed(available, row) == Drop(Positions(olds[..i], row), 0);
    }
  }

  lemma {:induction false} HoldsOneLess(available: map<Row, seq<nat>>, olds: seq<Row>, news: seq<Row>, i: nat)
    requires i < |news| && Holds(available, olds, news[..i])
    ensures var choices := Listed(available, news[i]);
            if choices == [] then Copied(olds, news, i) == |olds| && Holds(available, olds, news[..i + 1])
            else
              && Copied(olds, news, i) == choices[0] < |olds|
              && Holds(available[news[i] := choices[1..]], olds, news[..i + 1])
  {
    var row := news[i];
    var choices := Listed(available, row);
    var k := Occurrences(news[..i], row);
    assert choices == Drop(Positions(olds, row), k);
    var next := if choices == [] then available else available[row := choices[1..]];
    if choices == [] {
      TooFewOccurrences(olds, row, k);
    } else {
      PositionIsOccurrence(olds, row, k);
    }
    forall other ensures Listed(next, other) == Drop(Positions(olds, other), Occurrences(news[..i + 1], other)) {
      OccurrencesStep(news, other, i);
      assert Listed(available, other) == Drop(Positions(olds, other), Occurrences(news[..i], other));
    }
  }

  /** The first loop: the old rows by content, and their partitions. */
  method IndexOldRows(olds: seq<Row>, parts: seq<string>, current: string)
    returns (available: map<Row, seq<nat>>, oldPartition: seq<string>)
    ensures Holds(available, olds, [])
    ensures |oldPartition| == |olds|
    ensures forall o :: 0 <= o < |olds| ==> oldPartition[o] == OldPartition(parts, current, o)
  {
    available, oldPartition := map[], [];
    HoldsNothing();
    for i := 0 to |olds|
      invariant Holds(available, olds[..i], [])
      invariant |oldPartition| == i
      invariant forall o :: 0 <= o < i ==> oldPartition[o] == OldPartition(parts, current, o)
    {
      var partition := current;
      if i < |parts| && parts[i] != "" {
        partition := parts[i];
      }
      oldPartition := oldPartition + [partition];
      HoldsOneMore(available, olds, i);
      available := available[olds[i] := Listed(available, olds[i]) + [i]];
    }
    assert olds[..|olds|] == olds;
  }

  /** What the matching loop leaves for new row i. */
  function Matched(olds: seq<Row>, news: seq<Row>, parts: seq<string>, current: string, i: nat): string
    requires i < |news|
  {
    var o := Copied(olds, news, i);
    if o < |olds| then OldPartition(parts, current, o) else ""
  }

  /** How far the matching loop has come after i new rows. */
  ghost predicate MatchedUpTo(olds: seq<Row>, news: seq<Row>, parts: seq<string>, current: string, i: nat,
                              result: seq<string>, usedOld: seq<bool>)
    requires i <= |news| == |result| && |olds| == |usedOld|
  {
    && (forall j :: 0 <= j < i ==> result[j] == Matched(olds, news, parts, current, j))
    && (forall j :: i <= j < |news| ==> result[j] == "")
    && (forall o :: 0 <= o < |olds| ==> usedOld[o] == IsCopied(olds, news, i, o))
  }

  lemma {:induction false} MatchOneMore(olds: seq<Row>, news: seq<Row>, parts: seq<string>, current: string, i: nat,
                                        result: seq<string>, usedOld: seq<bool>)
    requires i < |news| == |result| && |olds| == |usedOld|
    requires MatchedUpTo(olds, news, parts, current, i, result, usedOld)
    ensures var o := Copied(olds, news, i);
            if o < |olds| then
              MatchedUpTo(olds, news, parts, current, i + 1,
                          result[i := OldPartition(parts, current, o)], usedOld[o := true])
            else MatchedUpTo(olds, news, parts, current, i + 1, result, usedOld)
  {
    forall o ensures IsCopied(olds, news, i + 1, o) == (IsCopied(olds, news, i, o) || Copied(olds, news, i) == o) {
    }
  }

  /** The second loop: exact copies, each old row used once. */
  method MatchCopies(olds: seq<Row>, news: seq<Row>, parts: seq<string>, current: string)
    returns (result: seq<string>, usedOld: seq<bool>, oldPartition: seq<string>)
    requires current != ""
    ensures |result| == |news| && |usedOld| == |olds| == |oldPartition|
    ensures forall o :: 0 <= o < |olds| ==> oldPartition[o] == OldPartition(parts, current, o)
    ensures MatchedUpTo(olds, news, parts, current, |news|, result, usedOld)
  {
    var available;
    available, oldPartition := IndexOldRows(olds, parts, current);
    result := seq(|news|, _ => "");
    usedOld := seq(|olds|, _ => false);
    for i := 0 to |news|
      invariant |result| == |news| && |usedOld| == |olds|
      invariant Holds(available, olds, news[..i])
      invariant MatchedUpTo(olds, news, parts, current, i, result, usedOld)
    {
      HoldsOneLess(available, olds, news, i);
      MatchOneMore(olds, news, parts, current, i, result, usedOld);
      var choices := Listed(available, news[i]);
      if choices != [] {
        var o := choices[0];
        result := result[i := oldPartition[o]];
        usedOld := usedOld[o := true];
        available := available[news[i] := choices[1..]];
      }
    }
  }

  /** How far the last loop has come after i new rows. */
  ghost predicate FilledUpTo(olds: seq<Row>, news: seq<Row>, parts: seq<string>, current: string, i: nat,
                             result: seq<string>, usedOld: seq<bool>)
    requires i <= |news| == |result| && |olds| == |usedOld|
  {
    && (forall j :: 0 <= j < i ==> result[j] == Assigned(olds, news, parts, current, j))
    && (forall j :: i <= j < |news| ==> result[j] == Matched(olds, news, parts, current, j))
    && (forall o :: i <= o < |olds| ==> usedOld[o] == IsCopied(olds, news, |news|, o))
  }

  lemma {:induction false} FillOneMore(olds: seq<Row>, news: seq<Row>, parts: seq<string>, current: string, i: nat,
                                       result: seq<string>, usedOld: seq<bool>)
    requires current != "" && i < |news| == |result| && |olds| == |usedOld|
    requires FilledUpTo(olds, news, parts, current, i, result, usedOld)
    ensures if result[i] != "" then FilledUpTo(olds, news, parts, current, i + 1, result, usedOld)
            else if i < |olds| && !usedOld[i] then
              FilledUpTo(olds, news, parts, current, i + 1,
                         result[i := OldPartition(parts, current, i)], usedOld[i := true])
            else FilledUpTo(olds, news, parts, current, i + 1, result[i := current], usedOld)
  {
    assert result[i] == Matched(olds, news, parts, current, i);
  }

  method ReconcileIngestionPartitions(olds: seq<Row>, news: seq<Row>, parts: seq<string>, current: string)
    returns (result: seq<string>)
    ensures result == Reconciled(olds, news, parts, current)
  {
    if current == "" || news == [] {
      return [];
    }
    var usedOld, oldPartition;
    result, usedOld, oldPartition := MatchCopies(olds, news, parts, current);
    for i := 0 to |news|
      invariant |result| == |news| && |usedOld| == |olds|
      invariant FilledUpTo(olds, news, parts, current, i, result, usedOld)
    {
      FillOneMore(olds, news, parts, current, i, result, usedOld);
      if result[i] == "" {
        if i < |olds| && !usedOld[i] {
          result := result[i := oldPartition[i]];
          usedOld := usedOld[i := true];
        } else {
          result := result[i := current];
        }
      }
    }
  }
}
