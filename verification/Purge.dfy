/** Table records and the removal of expired partitions (purgeExpiredPartitions). */
module Purge {
  import opened Options
  import opened Partitioning
  import HiddenColumns

  datatype View = View(query: string, materialized: bool)

  datatype Details = Details(friendlyName: string, description: string, labels: map<string, string>,
                             clustering: seq<string>, requireFilter: bool)

  /** partitions holds one ingestion partition ID per row of an ingestion-time table. */
  datatype Table = Table(
    schema: seq<Field>, rows: seq<Row>, partitions: seq<string>,
    view: Option<View>, external: bool,
    timePart: Option<TimePart>, rangePart: Option<RangePart>,
    details: Details, createdAt: Time, updatedAt: Time, version: nat, expiration: Option<Time>)

  const MILLISECOND: int := 1_000_000

  // ---- Which rows go ---------------------------------------------------------------------

  predicate MayPurge(t: Table) {
    && t.timePart.Some? && t.timePart.value.expirationMs > 0
    && t.rows != [] && !t.external && t.view.None?
    && (t.timePart.value.field != "" ==> FindField(t.schema, t.timePart.value.field) < |t.schema|)
  }

  /** The partition the purge puts row i in. */
  function RowId(cal: Calendar, t: Table, i: nat): string
    requires MayPurge(t) && i < |t.rows|
  {
    var part := t.timePart.value;
    if part.field == "" then HiddenColumns.EffectiveId(cal, part, t.createdAt, t.partitions, i)
    else
      var f := FindField(t.schema, part.field);
      match CellId(cal, t.schema[f].kind, CellAt(t.rows[i], f), part.unit)
      case Some(id) => id
      case None => ""
  }

  predicate Expired(cal: Calendar, t: Table, i: nat, now: Time)
    requires MayPurge(t) && i < |t.rows|
  {
    var start := PartitionStart(cal, RowId(cal, t, i), t.timePart.value.unit);
    start.Some? && start.value + t.timePart.value.expirationMs * MILLISECOND <= now
  }

  function Gone(cal: Calendar, t: Table, now: Time): nat -> bool
    requires MayPurge(t)
  {
    (i: nat) => i < |t.rows| && Expired(cal, t, i, now)
  }

  /** The numbers below n that are not gone, in order. */
  function Stay(n: nat, gone: nat -> bool): (kept: seq<nat>)
    ensures forall k :: 0 <= k < |kept| ==> kept[k] < n
  {
    if n == 0 then [] else Stay(n - 1, gone) + (if gone(n - 1) then [] else [n - 1])
  }

  /** The indices of the rows that stay. */
  function Survivors(cal: Calendar, t: Table, now: Time): (kept: seq<nat>)
    requires MayPurge(t)
    ensures forall k :: 0 <= k < |kept| ==> kept[k] < |t.rows|
  {
    Stay(|t.rows|, Gone(cal, t, now))
  }

  function RowsAt(t: Table, kept: seq<nat>): seq<Row>
    requires forall k :: 0 <= k < |kept| ==> kept[k] < |t.rows|
  {
    seq(|kept|, k requires 0 <= k < |kept| => t.rows[kept[k]])
  }

  function IdsAt(cal: Calendar, t: Table, kept: seq<nat>): seq<string>
    requires MayPurge(t) && forall k :: 0 <= k < |kept| ==> kept[k] < |t.rows|
  {
    seq(|kept|, k requires 0 <= k < |kept| => RowId(cal, t, kept[k]))
  }

  function PurgeTable(cal: Calendar, t: Table, now: Time): Table {
    if !MayPurge(t) then t
    else
      var kept := Survivors(cal, t, now);
      if |kept| == |t.rows| then t
      else
        t.(rows := RowsAt(t, kept),
           partitions := if t.timePart.value.field == "" then IdsAt(cal, t, kept) else t.partitions,
           updatedAt := now,
           version := t.version + 1)
  }

  method KeepUnexpired(cal: Calendar, t: Table, now: Time) returns (rows: seq<Row>, ids: seq<string>, removed: bool)
    requires MayPurge(t)
    ensures var kept := Survivors(cal, t, now);
            rows == RowsAt(t, kept) && ids == IdsAt(cal, t, kept) && (removed <==> |kept| != |t.rows|)
  {
    var part := t.timePart.value;
    rows, ids, removed := [], [], false;
    ghost var kept: seq<nat> := [];
    for i := 0 to |t.rows|
      invariant kept == Stay(i, Gone(cal, t, now))
      invariant rows == RowsAt(t, kept) && ids == IdsAt(cal, t, kept)
      invariant |kept| <= i && (removed <==> |kept| < i)
    {
      var id := RowId(cal, t, i);
      var start := PartitionStart(cal, id, part.unit);
      assert Gone(cal, t, now)(i) == Expired(cal, t, i, now);
      if start.Some? && start.value + part.expirationMs * MILLISECOND <= now {
        removed := true;
      } else {
        kept := kept + [i];
        rows, ids := rows + [t.rows[i]], ids + [id];
      }
    }
  }

  method PurgeExpiredPartitions(cal: Calendar, t: Table, now: Time) returns (r: Table, removed: bool)
    ensures r == PurgeTable(cal, t, now)
    ensures removed == (r.version != t.version)
  {
    if t.timePart.None? || t.timePart.value.expirationMs <= 0 || t.rows == [] || t.external || t.view.Some? {
      return t, false;
    }
    var part := t.timePart.value;
    if part.field != "" && FindField(t.schema, part.field) == |t.schema| {
      return t, false;
    }
    var rows, ids;
    rows, ids, removed := KeepUnexpired(cal, t, now);
    if !removed {
      return t, false;
    }
    r := t.(rows := rows, updatedAt := now, version := t.version + 1);
    if part.field == "" {
      r := r.(partitions := ids);
    }
  }

  // ---- What the purge does -----------------------------------------------------------------

  lemma {:induction false} StayIsExact(n: nat, gone: nat -> bool)
    ensures var kept := Stay(n, gone);
            && (forall j, k :: 0 <= j < k < |kept| ==> kept[j] < kept[k])
            && (forall i :: 0 <= i < n ==> (i in kept <==> !gone(i)))
  {
    if n > 0 {
      StayIsExact(n - 1, gone);
      assert n - 1 !in Stay(n - 1, gone);
    }
  }

  lemma {:induction false} StayCounts(n: nat, gone: nat -> bool)
    ensures |Stay(n, gone)| <= n
    ensures |Stay(n, gone)| == n <==> forall i :: 0 <= i < n ==> !gone(i)
  {
    if n > 0 {
      StayCounts(n - 1, gone);
    }
  }

  lemma {:induction false} AllStay(n: nat, gone: nat -> bool)
    requires |Stay(n, gone)| == n
    ensures forall i :: 0 <= i < n ==> Stay(n, gone)[i] == i
  {
    if n > 0 {
      StayCounts(n - 1, gone);
      AllStay(n - 1, gone);
    }
  }

  /** A surviving row keeps its partition, so nothing that stays has expired. */
  lemma {:induction false} SurvivorKeepsId(cal: Calendar, t: Table, now: Time, k: nat)
    requires Lawful(cal) && MayPurge(t) && MayPurge(PurgeTable(cal, t, now)) && k < |PurgeTable(cal, t, now).rows|
    ensures var kept := Survivors(cal, t, now);
            var p := PurgeTable(cal, t, now);
            |p.rows| == |kept| && p.rows[k] == t.rows[kept[k]] && RowId(cal, p, k) == RowId(cal, t, kept[k])
  {
    var kept := Survivors(cal, t, now);
    StayIsExact(|t.rows|, Gone(cal, t, now));
    if |kept| == |t.rows| {
      AllStay(|t.rows|, Gone(cal, t, now));
    } else if t.timePart.value.field == "" {
      NonEmptyId(cal, t, kept[k]);
    }
  }

  lemma {:induction false} NonEmptyId(cal: Calendar, t: Table, i: nat)
    requires Lawful(cal) && MayPurge(t) && t.timePart.value.field == "" && i < |t.rows|
    ensures RowId(cal, t, i) != ""
  {
  }

  lemma {:induction false} NothingExpiredAfterPurge(cal: Calendar, t: Table, now: Time, k: nat)
    requires Lawful(cal) && MayPurge(t) && MayPurge(PurgeTable(cal, t, now)) && k < |PurgeTable(cal, t, now).rows|
    ensures !Expired(cal, PurgeTable(cal, t, now), k, now)
  {
    SurvivorKeepsId(cal, t, now, k);
    StayIsExact(|t.rows|, Gone(cal, t, now));
    var kept := Survivors(cal, t, now);
    assert kept[k] in kept;
  }

  /** Purging twice at one time is purging once. */
  lemma {:induction false} PurgeIsIdempotent(cal: Calendar, t: Table, now: Time)
    requires Lawful(cal)
    ensures PurgeTable(cal, PurgeTable(cal, t, now), now) == PurgeTable(cal, t, now)
  {
    var p := PurgeTable(cal, t, now);
    if MayPurge(t) && MayPurge(p) {
      forall k | 0 <= k < |p.rows| ensures !Expired(cal, p, k, now) {
        NothingExpiredAfterPurge(cal, t, now, k);
      }
      StayCounts(|p.rows|, Gone(cal, p, now));
    }
  }

  /** The version moves exactly when a row expired; otherwise nothing changes at all. */
  lemma {:induction false} PurgeBumpsVersionIff(cal: Calendar, t: Table, now: Time)
    ensures var p := PurgeTable(cal, t, now);
            && (p.version == t.version + 1 <==> MayPurge(t) && exists i :: 0 <= i < |t.rows| && Expired(cal, t, i, now))
            && (p.version != t.version + 1 ==> p == t)
  {
    if MayPurge(t) {
      StayCounts(|t.rows|, Gone(cal, t, now));
      assert forall i :: 0 <= i < |t.rows| ==> Gone(cal, t, now)(i) == Expired(cal, t, i, now);
    }
  }

  /** The rows that stay are exactly the unexpired ones, in their old order. */
  lemma {:induction false} PurgeRemovesExactlyExpired(cal: Calendar, t: Table, now: Time) returns (kept: seq<nat>)
    requires MayPurge(t)
    ensures var p := PurgeTable(cal, t, now);
            && |kept| == |p.rows|
            && (forall j, k :: 0 <= j < k < |kept| ==> kept[j] < kept[k])
            && (forall i: nat :: i in kept <==> i < |t.rows| && !Expired(cal, t, i, now))
            && (forall k :: 0 <= k < |kept| ==> kept[k] < |t.rows|)
            && (forall k :: 0 <= k < |kept| ==> p.rows[k] == t.rows[kept[k]])
            && (t.timePart.value.field == "" && |p.rows| < |t.rows| ==>
                  |p.partitions| == |kept| && forall k :: 0 <= k < |kept| ==> p.partitions[k] == RowId(cal, t, kept[k]))
  {
    kept := Survivors(cal, t, now);
    StayIsExact(|t.rows|, Gone(cal, t, now));
    if |kept| == |t.rows| {
      AllStay(|t.rows|, Gone(cal, t, now));
    }
  }
}
