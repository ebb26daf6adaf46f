/** SQL statements that read the catalog, execute and commit if the version is unchanged,
    interleaved with each other and with direct writes (sql_statements.go). */
module CatalogRuns {
  import opened Options
  import opened Signature
  import opened Partitioning
  import opened Purge
  import opened Catalog

  /** What the engine leaves in the target table. */
  datatype Outcome = Outcome(schema: seq<Field>, rows: seq<Row>, ids: seq<string>)

  /** Statement execution: a function of the statement, of what was read of the target, and of
      everything else it looked at. None is an error. */
  type Engine = (string, seq<Option<Table>>, string) -> Option<Outcome>

  /** alter: what the clauses of the statement come to for the record read, such as the columns to
      drop; None when there is nothing to do or they do not fit it. */
  datatype Kind =
    | Dml
    | Create(ifNotExists: bool, orReplace: bool)
    | Drop
    | Alter(alter: Table -> Option<Change>)

  datatype Statement = Statement(ref: TableRef, kind: Kind, text: string)

  /** Reads of the target: one for the version, then its record, its kind and its data. */
  function Reads(k: Kind): nat {
    if k.Drop? || k.Alter? then 1 else 4
  }

  datatype Intent = Nothing | CommitAt(version: nat, change: Change) | InsertNew(input: NewTable)

  /** What a statement asks of the catalog at its end. */
  function Decide(w: World, engine: Engine, s: Statement, seen: seq<Option<Table>>, inputs: string): Intent
    requires |seen| > 0
  {
    match s.kind
    case Drop =>
      if seen[0].None? || seen[0].value.view.Some? then Nothing else CommitAt(seen[0].value.version, DropTable)
    case Alter(alter) =>
      if seen[0].None? then Nothing
      else
        (match alter(seen[0].value)
         case None => Nothing
         case Some(change) => CommitAt(seen[0].value.version, change))
    case Dml =>
      if seen[0].None? || seen[0].value.view.Some? || seen[0].value.external then Nothing
      else
        (var t := seen[0].value;
         match engine(s.text, seen, inputs)
         case None => Nothing
         case Some(o) =>
           if w.storable(t.schema, o.rows) && |o.schema| == |t.schema| then
             CommitAt(t.version, ReplaceRows(o.rows, o.ids))
           else Nothing)
    case Create(ifNotExists, orReplace) =>
      if seen[0].Some? && (ifNotExists || !orReplace) then Nothing
      else
        (match engine(s.text, seen, inputs)
         case None => Nothing
         case Some(o) =>
           if seen[0].Some? then CommitAt(seen[0].value.version, ReplaceTable(o.schema, o.rows))
           else if w.storable(o.schema, o.rows) then
             InsertNew(NewTable(o.schema, o.rows, None, false, None, None, NoDetails(), None))
           else Nothing)
  }

  predicate Succeeds(w: World, c: Tables, r: TableRef, intent: Intent) {
    match intent
    case Nothing => false
    case CommitAt(version, change) => MayCommit(w, c, r, version, change)
    case InsertNew(n) => MayInsert(w, c, r, n)
  }

  function Perform(w: World, c: Tables, r: TableRef, intent: Intent, now: Time): Tables
    requires Succeeds(w, c, r, intent)
  {
    match intent
    case CommitAt(_, change) => Commit(w, c, r, change, now)
    case InsertNew(n) => InsertTable(w, c, r, n, now)
  }

  // ---- One after another --------------------------------------------------------------------

  datatype Entry = Did(op: Op, now: Time) | Ran(stmt: Statement, inputs: string, now: Time)

  function Same<T>(n: nat, t: T): seq<T> {
    seq(n, _ => t)
  }

  /** A statement with nothing in between its reads and its commit. */
  function RunAtOnce(w: World, engine: Engine, c: Tables, s: Statement, inputs: string, now: Time): Tables {
    var intent := Decide(w, engine, s, Same(Reads(s.kind), Lookup(c, s.ref)), inputs);
    if Succeeds(w, c, s.ref, intent) then Perform(w, c, s.ref, intent, now) else c
  }

  function ReplayOne(w: World, engine: Engine, c: Tables, e: Entry): Tables {
    match e
    case Did(op, now) => ApplyOp(w, c, op, now)
    case Ran(s, inputs, now) => RunAtOnce(w, engine, c, s, inputs, now)
  }

  function Replay(w: World, engine: Engine, c: Tables, log: seq<Entry>): Tables {
    if log == [] then c else ReplayOne(w, engine, Replay(w, engine, c, log[..|log| - 1]), log[|log| - 1])
  }

  // ---- All interleavings -----------------------------------------------------------------------

  datatype Client = Client(stmt: Statement, seen: seq<Option<Table>>, done: bool)

  /** log holds the operations that took effect, in order. */
  datatype State = State(c: Tables, clients: seq<Client>, log: seq<Entry>)

  datatype Action =
    | Direct(op: Op, now: Time)
    | Start(stmt: Statement)
    | Read(i: nat, now: Time)
    | Finish(i: nat, inputs: string, now: Time)

  predicate Enabled(s: State, a: Action) {
    match a
    case Direct(_, _) => true
    case Start(_) => true
    case Read(i, _) => i < |s.clients| && !s.clients[i].done && |s.clients[i].seen| < Reads(s.clients[i].stmt.kind)
    case Finish(i, _, _) =>
      i < |s.clients| && !s.clients[i].done && |s.clients[i].seen| == Reads(s.clients[i].stmt.kind)
  }

  function Apply(w: World, engine: Engine, s: State, a: Action): State
    requires Enabled(s, a)
  {
    match a
    case Direct(op, now) => State(ApplyOp(w, s.c, op, now), s.clients, s.log + [Did(op, now)])
    case Start(stmt) => s.(clients := s.clients + [Client(stmt, [], false)])
    case Read(i, now) =>
      var client := s.clients[i];
      var op := Touch(client.stmt.ref.datasetID);
      var c := ApplyOp(w, s.c, op, now);
      State(c, s.clients[i := client.(seen := client.seen + [Lookup(c, client.stmt.ref)])], s.log + [Did(op, now)])
    case Finish(i, inputs, now) =>
      var client := s.clients[i];
      var intent := Decide(w, engine, client.stmt, client.seen, inputs);
      var clients := s.clients[i := client.(done := true)];
      if Succeeds(w, s.c, client.stmt.ref, intent) then
        State(Perform(w, s.c, client.stmt.ref, intent, now), clients, s.log + [Ran(client.stmt, inputs, now)])
      else s.(clients := clients)
  }

  /** A statement on r that is under way and has seen a table there. */
  predicate HasSeen(c: Client, r: TableRef) {
    !c.done && c.stmt.ref == r && exists k :: 0 <= k < |c.seen| && c.seen[k].Some?
  }

  /** The hypothesis: a table is not created under an ID while a statement that has seen another
      table there is under way. */
  ghost predicate Safe(w: World, engine: Engine, s: State, a: Action)
    requires Enabled(s, a)
  {
    forall r, i :: Creates(s.c, Apply(w, engine, s, a).c, r) && 0 <= i < |s.clients| ==> !HasSeen(s.clients[i], r)
  }

  ghost predicate ValidRun(w: World, engine: Engine, s: State, run: seq<Action>)
    decreases |run|
  {
    run != [] ==> Enabled(s, run[0]) && ValidRun(w, engine, Apply(w, engine, s, run[0]), run[1..])
  }

  ghost function Final(w: World, engine: Engine, s: State, run: seq<Action>): State
    requires ValidRun(w, engine, s, run)
    decreases |run|
  {
    if run == [] then s else Final(w, engine, Apply(w, engine, s, run[0]), run[1..])
  }

  ghost predicate SafeRun(w: World, engine: Engine, s: State, run: seq<Action>)
    requires ValidRun(w, engine, s, run)
    decreases |run|
  {
    run != [] ==> Safe(w, engine, s, run[0]) && SafeRun(w, engine, Apply(w, engine, s, run[0]), run[1..])
  }

  // ---- The invariant -----------------------------------------------------------------------------

  /** What has been read of a table is what is there, or is older, or the table is gone. */
  predicate Behind(c: Tables, r: TableRef, t: Table) {
    r !in c || c[r] == t || c[r].version > t.version
  }

  ghost predicate ReadsOk(c: Tables, r: TableRef, seen: seq<Option<Table>>) {
    && (forall k :: 0 <= k < |seen| && seen[k].Some? ==> Behind(c, r, seen[k].value))
    && (forall k :: 0 <= k < |seen| && seen[0].Some? && seen[k].None? ==> r !in c)
    && (forall k :: 0 <= k < |seen| && seen[0].Some? && seen[k].Some? ==>
          seen[k] == seen[0] || seen[k].value.version > seen[0].value.version)
  }

  ghost predicate ClientsOk(c: Tables, clients: seq<Client>) {
    forall i :: 0 <= i < |clients| && !clients[i].done ==> ReadsOk(c, clients[i].stmt.ref, clients[i].seen)
  }

  ghost predicate Inv(w: World, engine: Engine, c0: Tables, s: State) {
    && ClientsOk(s.c, s.clients)
    && Replay(w, engine, c0, s.log) == s.c
  }

  /** What was read stays behind when versions grow and no table a statement has seen comes back. */
  lemma {:induction false} ReadsStayOk(c: Tables, d: Tables, r: TableRef, seen: seq<Option<Table>>)
    requires ReadsOk(c, r, seen) && VersionsGrow(c, d)
    requires Creates(c, d, r) ==> forall k :: 0 <= k < |seen| ==> seen[k].None?
    ensures ReadsOk(d, r, seen)
  {
  }

  lemma {:induction false} ClientsStayOk(c: Tables, d: Tables, clients: seq<Client>)
    requires ClientsOk(c, clients) && VersionsGrow(c, d)
    requires forall r, i :: Creates(c, d, r) && 0 <= i < |clients| ==> !HasSeen(clients[i], r)
    ensures ClientsOk(d, clients)
  {
    forall i | 0 <= i < |clients| && !clients[i].done ensures ReadsOk(d, clients[i].stmt.ref, clients[i].seen) {
      assert Creates(c, d, clients[i].stmt.ref) ==> !HasSeen(clients[i], clients[i].stmt.ref);
      ReadsStayOk(c, d, clients[i].stmt.ref, clients[i].seen);
    }
  }

  /** One more read of the table as it is now. */
  lemma {:induction false} ReadOneMore(c: Tables, r: TableRef, seen: seq<Option<Table>>)
    requires ReadsOk(c, r, seen)
    ensures ReadsOk(c, r, seen + [Lookup(c, r)])
  {
    var more := seen + [Lookup(c, r)];
    forall k | 0 <= k < |more| && more[0].Some? && more[k].Some?
      ensures more[k] == more[0] || more[k].value.version > more[0].value.version
    {
      if k == |seen| && k > 0 { assert Behind(c, r, seen[0].value); }
    }
  }

  /** A commit that succeeds finds exactly the records its statement read, all alike. */
  lemma {:induction false} CommitSeesWhatItRead(w: World, engine: Engine, s: State, i: nat, inputs: string, now: Time)
    requires ClientsOk(s.c, s.clients) && Enabled(s, Finish(i, inputs, now))
    requires Safe(w, engine, s, Finish(i, inputs, now))
    requires var cl := s.clients[i]; Succeeds(w, s.c, cl.stmt.ref, Decide(w, engine, cl.stmt, cl.seen, inputs))
    ensures var cl := s.clients[i]; cl.seen == Same(Reads(cl.stmt.kind), Lookup(s.c, cl.stmt.ref))
  {
    var cl := s.clients[i];
    var r := cl.stmt.ref;
    var intent := Decide(w, engine, cl.stmt, cl.seen, inputs);
    assert ReadsOk(s.c, r, cl.seen);
    if intent.InsertNew? {
      assert Creates(s.c, Apply(w, engine, s, Finish(i, inputs, now)).c, r);
      assert !HasSeen(cl, r);
    } else {
      assert cl.seen[0].Some? && cl.seen[0].value.version == intent.version;
      assert Behind(s.c, r, cl.seen[0].value);
    }
    forall k | 0 <= k < |cl.seen| ensures cl.seen[k] == Lookup(s.c, r) {
      if cl.seen[k].Some? && intent.CommitAt? { assert Behind(s.c, r, cl.seen[k].value); }
    }
  }

  lemma {:induction false} ReplayAppend(w: World, engine: Engine, c0: Tables, log: seq<Entry>, e: Entry)
    ensures Replay(w, engine, c0, log + [e]) == ReplayOne(w, engine, Replay(w, engine, c0, log), e)
  {
    assert (log + [e])[..|log|] == log;
  }

  lemma {:induction false} DirectKeepsInv(w: World, engine: Engine, c0: Tables, s: State, a: Action)
    requires Inv(w, engine, c0, s) && a.Direct? && Safe(w, engine, s, a)
    ensures Inv(w, engine, c0, Apply(w, engine, s, a))
  {
    OpsGrowVersions(w, s.c, a.op, a.now);
    assert Apply(w, engine, s, a).c == ApplyOp(w, s.c, a.op, a.now);
    ClientsStayOk(s.c, ApplyOp(w, s.c, a.op, a.now), s.clients);
    ReplayAppend(w, engine, c0, s.log, Did(a.op, a.now));
  }

  lemma {:induction false} ReadKeepsInv(w: World, engine: Engine, c0: Tables, s: State, a: Action)
    requires Inv(w, engine, c0, s) && a.Read? && Enabled(s, a) && Safe(w, engine, s, a)
    ensures Inv(w, engine, c0, Apply(w, engine, s, a))
  {
    var r := s.clients[a.i].stmt.ref;
    var op := Touch(r.datasetID);
    var d := ApplyOp(w, s.c, op, a.now);
    OpsGrowVersions(w, s.c, op, a.now);
    assert Apply(w, engine, s, a).c == d;
    ClientsStayOk(s.c, d, s.clients);
    ReadOneMore(d, r, s.clients[a.i].seen);
    ReplayAppend(w, engine, c0, s.log, Did(op, a.now));
  }

  lemma {:induction false} PerformGrowsVersions(w: World, c: Tables, r: TableRef, intent: Intent, now: Time)
    requires Succeeds(w, c, r, intent)
    ensures VersionsGrow(c, Perform(w, c, r, intent, now))
  {
    if intent.CommitAt? {
      CommitsGrowVersions(w, c, r, intent.version, intent.change, now);
    } else {
      OpsGrowVersions(w, c, Insert(r, intent.input), now);
    }
  }

  /** Running the statement whole at this point gives what its commit gives. */
  lemma {:induction false} CommitIsRunAtOnce(w: World, engine: Engine, s: State, i: nat, inputs: string, now: Time)
    requires ClientsOk(s.c, s.clients) && Enabled(s, Finish(i, inputs, now))
    requires Safe(w, engine, s, Finish(i, inputs, now))
    requires var cl := s.clients[i]; Succeeds(w, s.c, cl.stmt.ref, Decide(w, engine, cl.stmt, cl.seen, inputs))
    ensures RunAtOnce(w, engine, s.c, s.clients[i].stmt, inputs, now)
         == Perform(w, s.c, s.clients[i].stmt.ref, Decide(w, engine, s.clients[i].stmt, s.clients[i].seen, inputs), now)
  {
    CommitSeesWhatItRead(w, engine, s, i, inputs, now);
  }

  lemma {:induction false} FinishKeepsInv(w: World, engine: Engine, c0: Tables, s: State, a: Action)
    requires Inv(w, engine, c0, s) && a.Finish? && Enabled(s, a) && Safe(w, engine, s, a)
    ensures Inv(w, engine, c0, Apply(w, engine, s, a))
  {
    var cl := s.clients[a.i];
    var intent := Decide(w, engine, cl.stmt, cl.seen, a.inputs);
    if Succeeds(w, s.c, cl.stmt.ref, intent) {
      var d := Perform(w, s.c, cl.stmt.ref, intent, a.now);
      var t := Apply(w, engine, s, a);
      assert t == State(d, s.clients[a.i := cl.(done := true)], s.log + [Ran(cl.stmt, a.inputs, a.now)]);
      assert ClientsOk(t.c, t.clients) by {
        PerformGrowsVersions(w, s.c, cl.stmt.ref, intent, a.now);
        ClientsStayOk(s.c, d, s.clients);
      }
      assert Replay(w, engine, c0, t.log) == t.c by {
        CommitIsRunAtOnce(w, engine, s, a.i, a.inputs, a.now);
        ReplayAppend(w, engine, c0, s.log, Ran(cl.stmt, a.inputs, a.now));
      }
    }
  }

  lemma {:induction false} StepKeepsInv(w: World, engine: Engine, c0: Tables, s: State, a: Action)
    requires Inv(w, engine, c0, s) && Enabled(s, a) && Safe(w, engine, s, a)
    ensures Inv(w, engine, c0, Apply(w, engine, s, a))
  {
    match a {
      case Direct(_, _) => DirectKeepsInv(w, engine, c0, s, a);
      case Read(_, _) => ReadKeepsInv(w, engine, c0, s, a);
      case Finish(_, _, _) => FinishKeepsInv(w, engine, c0, s, a);
      case Start(_) =>
    }
  }

  lemma {:induction false} RunKeepsInv(w: World, engine: Engine, c0: Tables, s: State, run: seq<Action>)
    requires Inv(w, engine, c0, s) && ValidRun(w, engine, s, run) && SafeRun(w, engine, s, run)
    ensures Inv(w, engine, c0, Final(w, engine, s, run))
    decreases |run|
  {
    if run != [] {
      StepKeepsInv(w, engine, c0, s, run[0]);
      RunKeepsInv(w, engine, c0, Apply(w, engine, s, run[0]), run[1..]);
    }
  }

  // ---- Theorems ------------------------------------------------------------------------------------

  function Init(c: Tables): State {
    State(c, [], [])
  }

  /** Over every interleaving, the catalog ends as if the operations that took effect had run
      one after another, each statement whole, in the order in which they took effect. */
  lemma {:induction false} RunsAreSerial(w: World, engine: Engine, c0: Tables, run: seq<Action>)
    requires ValidRun(w, engine, Init(c0), run) && SafeRun(w, engine, Init(c0), run)
    ensures var f := Final(w, engine, Init(c0), run); f.c == Replay(w, engine, c0, f.log)
  {
    RunKeepsInv(w, engine, c0, Init(c0), run);
  }

  /** A successful commit replaces the very record its statement read. */
  lemma {:induction false} CommitReplacesWhatItRead(w: World, engine: Engine, c0: Tables, run: seq<Action>, i: nat,
                                                    inputs: string, now: Time)
    requires ValidRun(w, engine, Init(c0), run) && SafeRun(w, engine, Init(c0), run)
    requires var s := Final(w, engine, Init(c0), run);
             && Enabled(s, Finish(i, inputs, now)) && Safe(w, engine, s, Finish(i, inputs, now))
             && var cl := s.clients[i]; Succeeds(w, s.c, cl.stmt.ref, Decide(w, engine, cl.stmt, cl.seen, inputs))
    ensures var s := Final(w, engine, Init(c0), run);
            var cl := s.clients[i];
            forall k :: 0 <= k < |cl.seen| ==> cl.seen[k] == Lookup(s.c, cl.stmt.ref)
  {
    RunKeepsInv(w, engine, c0, Init(c0), run);
    CommitSeesWhatItRead(w, engine, Final(w, engine, Init(c0), run), i, inputs, now);
  }
}
