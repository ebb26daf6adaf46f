/** More over every run of the catalog: partitions stay in step with rows, and what reusing a
    table ID does to versioned commits. */
module CatalogTheorems {
  import opened Options
  import opened Signature
  import opened Partitioning
  import opened Purge
  import opened Catalog
  import opened CatalogRuns

  // ---- One partition per row, over whole runs ---------------------------------------------

  ghost predicate KindsKept(w: World, engine: Engine, s: State, run: seq<Action>)
    requires ValidRun(w, engine, s, run)
    decreases |run|
  {
    run != [] ==>
      && (run[0].Direct? ==> KeepsKind(s.c, run[0].op))
      && KindsKept(w, engine, Apply(w, engine, s, run[0]), run[1..])
  }

  lemma {:induction false} StepKeepsAligned(w: World, engine: Engine, s: State, a: Action)
    requires Lawful(w.cal) && AllAligned(s.c) && Enabled(s, a) && (a.Direct? ==> KeepsKind(s.c, a.op))
    ensures AllAligned(Apply(w, engine, s, a).c)
  {
    match a {
      case Direct(op, now) => OpKeepsAligned(w, s.c, op, now);
      case Start(_) =>
      case Read(i, now) => OpKeepsAligned(w, s.c, Touch(s.clients[i].stmt.ref.datasetID), now);
      case Finish(i, inputs, now) =>
        var cl := s.clients[i];
        var r := cl.stmt.ref;
        var intent := Decide(w, engine, cl.stmt, cl.seen, inputs);
        if Succeeds(w, s.c, r, intent) {
          if intent.CommitAt? {
            CommitKeepsAligned(w, s.c, r, intent.version, intent.change, now);
          } else {
            OpKeepsAligned(w, s.c, Insert(r, intent.input), now);
          }
        }
    }
  }

  /** Every ingestion-partitioned table keeps one non-empty partition ID per row. */
  lemma {:induction false} RunsKeepPartitionsAligned(w: World, engine: Engine, s: State, run: seq<Action>)
    requires Lawful(w.cal) && AllAligned(s.c) && ValidRun(w, engine, s, run) && KindsKept(w, engine, s, run)
    ensures AllAligned(Final(w, engine, s, run).c)
    decreases |run|
  {
    if run != [] {
      StepKeepsAligned(w, engine, s, run[0]);
      RunsKeepPartitionsAligned(w, engine, Apply(w, engine, s, run[0]), run[1..]);
    }
  }

  // ---- A recreated table ----------------------------------------------------------------------

  /** A plain table definition holding the given rows. */
  function Plain(schema: seq<Field>, rows: seq<Row>): NewTable {
    NewTable(schema, rows, None, false, None, None, NoDetails(), None)
  }

  function PlainRecord(schema: seq<Field>, rows: seq<Row>, now: Time): Table {
    Table(schema, rows, [], None, false, None, None, NoDetails(), now, now, 1, None)
  }

  lemma {:induction false} PlainIsInserted(w: World, c: Tables, r: TableRef, schema: seq<Field>, rows: seq<Row>,
                                           now: Time)
    requires !Blank(r) && r !in c && schema != []
    ensures ApplyOp(w, c, Insert(r, Plain(schema, rows)), now) == c[r := PlainRecord(schema, rows, now)]
  {
  }

  lemma {:induction false} PlainIsNotPurged(w: World, r: TableRef, schema: seq<Field>, rows: seq<Row>, at: Time,
                                            now: Time)
    ensures var c := map[r := PlainRecord(schema, rows, at)]; ApplyOp(w, c, Touch(r.datasetID), now) == c
  {
  }

  /** s is reached from i by a run of steps, safe or not. */
  ghost predicate Reaches(w: World, engine: Engine, i: State, s: State) {
    exists run :: ValidRun(w, engine, i, run) && Final(w, engine, i, run) == s
  }

  lemma {:induction false} Then(w: World, engine: Engine, i: State, s: State, a: Action, t: State)
    requires Reaches(w, engine, i, s) && Enabled(s, a) && Apply(w, engine, s, a) == t
    ensures Reaches(w, engine, i, t)
  {
    var run :| ValidRun(w, engine, i, run) && Final(w, engine, i, run) == s;
    RunThen(w, engine, i, run, a);
  }

  lemma {:induction false} RunThen(w: World, engine: Engine, s: State, run: seq<Action>, a: Action)
    requires ValidRun(w, engine, s, run) && Enabled(Final(w, engine, s, run), a)
    ensures ValidRun(w, engine, s, run + [a])
    ensures Final(w, engine, s, run + [a]) == Apply(w, engine, Final(w, engine, s, run), a)
    decreases |run|
  {
    if run == [] {
      assert (run + [a])[1..] == [];
    } else {
      RunThen(w, engine, Apply(w, engine, s, run[0]), run[1..], a);
      assert (run + [a])[1..] == run[1..] + [a];
    }
  }

  /** A DML statement that has read r k times. */
  function Reader(r: TableRef, text: string, t: Table, k: nat): Client {
    Client(Statement(r, Dml, text), Same(k, Some(t)), false)
  }

  /** The statement reads r k times while nothing else happens. */
  lemma {:induction false} ReadTimes(w: World, engine: Engine, r: TableRef, schema: seq<Field>, rows: seq<Row>,
                                     text: string,
                                     now: Time, k: nat) returns (log: seq<Entry>)
    requires k <= 4
    ensures var t := PlainRecord(schema, rows, now);
            Reaches(w, engine, Init(map[r := t]), State(map[r := t], [Reader(r, text, t, k)], log))
  {
    var t := PlainRecord(schema, rows, now);
    var c := map[r := t];
    if k == 0 {
      log := [];
      assert ValidRun(w, engine, Init(c), []);
      assert Reaches(w, engine, Init(c), Init(c));
      Then(w, engine, Init(c), Init(c), Start(Statement(r, Dml, text)), State(c, [Reader(r, text, t, 0)], []));
    } else {
      log := ReadTimes(w, engine, r, schema, rows, text, now, k - 1);
      var s := State(c, [Reader(r, text, t, k - 1)], log);
      PlainIsNotPurged(w, r, schema, rows, now, now);
      log := log + [Did(Touch(r.datasetID), now)];
      assert Same(k, Some(t)) == Same(k - 1, Some(t)) + [Some(t)];
      Then(w, engine, Init(c), s, Read(0, now), State(c, [Reader(r, text, t, k)], log));
    }
  }

  /** The table is deleted and created anew with other rows behind the statement's back. */
  lemma {:induction false} Recreate(w: World, engine: Engine, r: TableRef, schema: seq<Field>, olds: seq<Row>,
                                    news: seq<Row>,
                                    text: string, now: Time) returns (log: seq<Entry>)
    requires !Blank(r) && schema != []
    ensures var t := PlainRecord(schema, olds, now);
            Reaches(w, engine, Init(map[r := t]),
                    State(map[r := PlainRecord(schema, news, now)], [Reader(r, text, t, 4)], log))
  {
    var t := PlainRecord(schema, olds, now);
    var i := Init(map[r := t]);
    log := ReadTimes(w, engine, r, schema, olds, text, now, 4);
    var s := State(map[r := t], [Reader(r, text, t, 4)], log);
    log := log + [Did(Delete(r), now)];
    var gone := State(map[], [Reader(r, text, t, 4)], log);
    assert map[r := t] - {r} == map[];
    Then(w, engine, i, s, Direct(Delete(r), now), gone);
    PlainIsInserted(w, map[], r, schema, news, now);
    var op := Insert(r, Plain(schema, news));
    log := log + [Did(op, now)];
    Then(w, engine, i, gone, Direct(op, now),
        State(map[r := PlainRecord(schema, news, now)], [Reader(r, text, t, 4)], log));
  }

  /** A statement reads a table, the table is deleted and created anew with other rows, and the
      commit still goes through, since both records have version 1. The new rows are replaced by
      what was computed from rows that are gone. */
  lemma {:induction false} RecreatedTableIsOverwritten(w: World, engine: Engine, r: TableRef, schema: seq<Field>,
                                                       olds: seq<Row>, news: seq<Row>, result: Outcome, text: string,
                                                       inputs: string, now: Time) returns (s: State)
    requires !Blank(r) && schema != [] && |result.schema| == |schema| && w.storable(schema, result.rows)
    requires engine(text, Same(4, Some(PlainRecord(schema, olds, now))), inputs) == Some(result)
    ensures Reaches(w, engine, Init(map[r := PlainRecord(schema, olds, now)]), s)
    ensures s.c == map[r := PlainRecord(schema, news, now)]
    ensures Enabled(s, Finish(0, inputs, now))
    ensures var t := Apply(w, engine, s, Finish(0, inputs, now)); r in t.c && t.c[r].rows == result.rows
  {
    var log := Recreate(w, engine, r, schema, olds, news, text, now);
    s := State(map[r := PlainRecord(schema, news, now)], [Reader(r, text, PlainRecord(schema, olds, now), 4)], log);
    var cl := s.clients[0];
    var intent := Decide(w, engine, cl.stmt, cl.seen, inputs);
    assert intent == CommitAt(1, ReplaceRows(result.rows, result.ids));
    assert MayCommit(w, s.c, r, 1, intent.change);
  }

  // ---- The condition decides ----------------------------------------------------------------------

  const NO_PATCH := Patch(None, None, None, None, None, None, None, None, None)

  /** Patches that change nothing bring a record to any later version. */
  lemma {:induction false} PatchTimes(w: World, engine: Engine, s: State, r: TableRef, x: Table, k: nat)
    returns (run: seq<Action>)
    requires !Blank(r) && r in s.c && s.c[r] == x
    ensures ValidRun(w, engine, s, run)
    ensures var t := Final(w, engine, s, run); t.c == s.c[r := x.(version := x.version + k)] && t.clients == s.clients
    decreases k
  {
    if k == 0 {
      run := [];
    } else {
      var a := Direct(PatchOp(r, NO_PATCH), x.updatedAt);
      var t := Apply(w, engine, s, a);
      var y := x.(version := x.version + 1);
      assert t.c == s.c[r := y];
      var rest := PatchTimes(w, engine, t, r, y, k - 1);
      run := [a] + rest;
      assert run[1..] == rest;
      assert y.(version := y.version + (k - 1)) == x.(version := x.version + k);
    }
  }

  /** Whatever the state: once a DML statement has seen a table that is gone, a table created under
      its ID can be brought to the version the statement saw, and the commit then replaces rows it
      was not computed from. So for DML statements that read one table throughout, the condition on
      creations cannot be weakened. */
  lemma {:induction false} TableCreatedBehindReaderIsOverwritten(w: World, engine: Engine, s: State, i: nat, t: Table,
                                                                 schema: seq<Field>, rows: seq<Row>, result: Outcome,
                                                                 inputs: string, now: Time)
    returns (run: seq<Action>)
    requires i < |s.clients| && !s.clients[i].done && s.clients[i].stmt.kind == Dml
    requires s.clients[i].seen == Same(4, Some(t))
    requires var r := s.clients[i].stmt.ref; !Blank(r) && r !in s.c
    requires t.version >= 1 && t.view.None? && !t.external && schema != [] && |result.schema| == |t.schema|
    requires engine(s.clients[i].stmt.text, s.clients[i].seen, inputs) == Some(result)
    requires w.storable(t.schema, result.rows) && w.storable(schema, result.rows)
    ensures ValidRun(w, engine, s, run)
    ensures var u, r := Final(w, engine, s, run), s.clients[i].stmt.ref;
            && r in u.c && u.c[r].rows == rows
            && Enabled(u, Finish(i, inputs, now))
            && r in Apply(w, engine, u, Finish(i, inputs, now)).c
            && Apply(w, engine, u, Finish(i, inputs, now)).c[r].rows == result.rows
  {
    var r := s.clients[i].stmt.ref;
    var a := Direct(Insert(r, Plain(schema, rows)), now);
    var x := PlainRecord(schema, rows, now);
    PlainIsInserted(w, s.c, r, schema, rows, now);
    var m := Apply(w, engine, s, a);
    var rest := PatchTimes(w, engine, m, r, x, t.version - 1);
    run := [a] + rest;
    assert run[1..] == rest;
    var u := Final(w, engine, s, run);
    var intent := Decide(w, engine, u.clients[i].stmt, u.clients[i].seen, inputs);
    assert intent == CommitAt(t.version, ReplaceRows(result.rows, result.ids));
    assert u.c[r] == x.(version := t.version);
    assert MayCommit(w, u.c, r, t.version, intent.change);
  }
}
