/** Appends, finalizations and batch commits in every interleaving: each accepted row lands at
    most once, and a commit lands whole. */
module StorageWriteRuns {
  import opened Options
  import opened Signature
  import opened Partitioning
  import opened StorageWrite

  datatype Batch = Batch(offset: nat, rows: seq<Row>)

  /** One call of the catalog: these rows, in this order, at the end of this table. */
  datatype Landing = Landing(ref: TableRef, parts: seq<Part>)

  /** Where a commit call is: between the checks, the collecting, the write and the marking of
      single streams, other calls may run. */
  datatype Phase =
    | Checking(k: nat, bad: bool)
    | Collecting(parts: seq<Part>)
    | Writing(parts: seq<Part>)
    | Marking(k: nat)
    | Over(ok: bool)

  datatype Call = Call(ref: TableRef, names: seq<Name>, phase: Phase)

  /** accepted and log are the history: what each stream took, and what reached the catalog. */
  datatype State = State(counter: nat, streams: Streams, accepted: map<Name, seq<Batch>>, log: seq<Landing>,
                         calls: seq<Call>)

  datatype Action =
    | Create(ref: TableRef, kind: Kind)
    | Append(name: Name, offset: Option<int>, rows: seq<Row>, upsertOk: bool)
    | Finalize(name: Name)
    | Begin(ref: TableRef, names: seq<Name>)
    | Advance(i: nat, upsertOk: bool)

  const INIT := State(0, map[], map[], [], [])

  predicate Enabled(s: State, a: Action) {
    match a
    case Create(_, _) => true
    case Append(n, _, _, _) => n in s.streams && n in s.accepted
    case Finalize(n) => n in s.streams
    case Begin(_, names) => forall i :: 0 <= i < |names| ==> names[i] in s.streams
    case Advance(i, _) =>
      && i < |s.calls| && !s.calls[i].phase.Over?
      && forall k :: 0 <= k < |s.calls[i].names| ==> s.calls[i].names[k] in s.streams
  }

  function ApplyAppend(s: State, n: Name, offset: Option<int>, rows: seq<Row>, upsertOk: bool): State
    requires n in s.streams && n in s.accepted
  {
    var st := s.streams[n];
    if !Answered(st, offset, upsertOk).Accepted? then s
    else
      s.(streams := s.streams[n := Appended(st, rows)],
         accepted := s.accepted[n := s.accepted[n] + [Batch(st.next, rows)]],
         log := if st.kind.Committed? then s.log + [Landing(n.ref, [Part(n, rows)])] else s.log)
  }

  function At(s: State, i: nat, phase: Phase): State
    requires i < |s.calls|
  {
    s.(calls := s.calls[i := s.calls[i].(phase := phase)])
  }

  function ApplyAdvance(s: State, i: nat, upsertOk: bool): State
    requires Enabled(s, Advance(i, upsertOk))
  {
    var c := s.calls[i];
    match c.phase
    case Checking(k, bad) =>
      if k < |c.names| then At(s, i, Checking(k + 1, bad || Refused(c.names[k], s.streams[c.names[k]], c.ref).Some?))
      else At(s, i, if bad then Over(false) else Collecting([]))
    case Collecting(parts) =>
      if |parts| < |c.names| then
        At(s, i, Collecting(parts + [Part(c.names[|parts|], s.streams[c.names[|parts|]].buffered)]))
      else At(s, i, Writing(parts))
    case Writing(parts) =>
      if RowsOf(parts) == [] then At(s, i, Marking(0))
      else if !upsertOk then At(s, i, Over(false))
      else At(s, i, Marking(0)).(log := s.log + [Landing(c.ref, parts)])
    case Marking(k) =>
      if k < |c.names| then At(s, i, Marking(k + 1)).(streams := s.streams[c.names[k] := Marked(s.streams[c.names[k]])])
      else At(s, i, Over(true))
  }

  function Apply(s: State, a: Action): State
    requires Enabled(s, a)
  {
    match a
    case Create(ref, kind) =>
      var n := Name(ref, s.counter + 1);
      s.(counter := s.counter + 1, streams := s.streams[n := NewStream(kind)], accepted := s.accepted[n := []])
    case Append(n, offset, rows, upsertOk) => ApplyAppend(s, n, offset, rows, upsertOk)
    case Finalize(n) => s.(streams := s.streams[n := s.streams[n].(finalized := true)])
    case Begin(ref, names) => s.(calls := s.calls + [Call(ref, names, Checking(0, false))])
    case Advance(i, upsertOk) => ApplyAdvance(s, i, upsertOk)
  }

  ghost predicate ValidRun(s: State, run: seq<Action>)
    decreases |run|
  {
    run != [] ==> Enabled(s, run[0]) && ValidRun(Apply(s, run[0]), run[1..])
  }

  ghost function Final(s: State, run: seq<Action>): State
    requires ValidRun(s, run)
    decreases |run|
  {
    if run == [] then s else Final(Apply(s, run[0]), run[1..])
  }

  // ---- History --------------------------------------------------------------------------------

  function AcceptedRows(acc: seq<Batch>): seq<Row> {
    if acc == [] then [] else AcceptedRows(acc[..|acc| - 1]) + acc[|acc| - 1].rows
  }

  /** Each batch starts where the ones before it end. */
  predicate Tiles(acc: seq<Batch>) {
    forall i :: 0 <= i < |acc| ==> acc[i].offset == |AcceptedRows(acc[..i])|
  }

  function PartRows(parts: seq<Part>, n: Name): seq<Row> {
    if parts == [] then []
    else
      var last := parts[|parts| - 1];
      PartRows(parts[..|parts| - 1], n) + (if last.name == n then last.rows else [])
  }

  /** The rows of a stream that reached the catalog, in the order in which they did. */
  function Landed(log: seq<Landing>, n: Name): seq<Row> {
    if log == [] then [] else Landed(log[..|log| - 1], n) + PartRows(log[|log| - 1].parts, n)
  }

  lemma {:induction false} LandedAppend(log: seq<Landing>, l: Landing, n: Name)
    ensures Landed(log + [l], n) == Landed(log, n) + PartRows(l.parts, n)
  {
    assert (log + [l])[..|log|] == log;
  }

  lemma {:induction false} AcceptAppend(acc: seq<Batch>, b: Batch)
    ensures AcceptedRows(acc + [b]) == AcceptedRows(acc) + b.rows
  {
    assert (acc + [b])[..|acc|] == acc;
  }

  lemma {:induction false} TilesAppend(acc: seq<Batch>, b: Batch)
    requires Tiles(acc) && b.offset == |AcceptedRows(acc)|
    ensures Tiles(acc + [b])
  {
    var more := acc + [b];
    assert more[..|acc|] == acc;
    forall i | 0 <= i < |more| ensures more[i].offset == |AcceptedRows(more[..i])| {
      if i < |acc| { assert more[..i] == acc[..i]; }
    }
  }

  lemma {:induction false} AbsentPart(parts: seq<Part>, n: Name)
    requires forall i :: 0 <= i < |parts| ==> parts[i].name != n
    ensures PartRows(parts, n) == []
  {
    if parts != [] { AbsentPart(parts[..|parts| - 1], n); }
  }

  /** A stream named once contributes its rows once. */
  lemma {:induction false} SinglePart(parts: seq<Part>, i: nat)
    requires i < |parts| && forall j :: 0 <= j < |parts| && j != i ==> parts[j].name != parts[i].name
    ensures PartRows(parts, parts[i].name) == parts[i].rows
  {
    var m := |parts| - 1;
    if i == m {
      AbsentPart(parts[..m], parts[i].name);
    } else {
      SinglePart(parts[..m], i);
      assert parts[m].name != parts[i].name;
    }
  }

  // ---- What holds whatever the commits do -----------------------------------------------------

  /** A stream against what it took in all and what has landed of it. */
  predicate Steady(st: Stream, total: seq<Row>, landed: seq<Row>) {
    && st.next == |total|
    && match st.kind
       case Committed => st.buffered == [] && !st.committed && landed == total
       case Pending => if st.committed then st.finalized && st.buffered == [] else st.buffered == total
  }

  ghost predicate AllSteady(streams: Streams, total: Name -> seq<Row>, landed: Name -> seq<Row>) {
    forall n :: n in streams ==> Steady(streams[n], total(n), landed(n))
  }

  function Total(accepted: map<Name, seq<Batch>>): Name -> seq<Row> {
    n => if n in accepted then AcceptedRows(accepted[n]) else []
  }

  function LandedIn(log: seq<Landing>): Name -> seq<Row> {
    n => Landed(log, n)
  }

  /** A stream that has passed the checks of a commit to ref, save that it may be committed since. */
  predicate Closed(streams: Streams, n: Name, ref: TableRef) {
    n in streams && streams[n].kind.Pending? && streams[n].finalized && n.ref == ref
  }

  predicate AllClosed(streams: Streams, names: seq<Name>, ref: TableRef) {
    forall i :: 0 <= i < |names| ==> Closed(streams, names[i], ref)
  }

  /** The parts collected so far come from the named streams in order, and hold their buffers
      unless those have been committed since. */
  predicate Carried(streams: Streams, names: seq<Name>, parts: seq<Part>) {
    && |parts| <= |names|
    && forall i :: 0 <= i < |parts| ==>
         && parts[i].name == names[i] && names[i] in streams
         && (streams[names[i]].committed || parts[i].rows == streams[names[i]].buffered)
  }

  predicate PhaseOk(streams: Streams, c: Call) {
    match c.phase
    case Checking(k, bad) => k <= |c.names| && (!bad ==> AllClosed(streams, c.names[..k], c.ref))
    case Collecting(parts) => AllClosed(streams, c.names, c.ref) && Carried(streams, c.names, parts)
    case Writing(parts) =>
      AllClosed(streams, c.names, c.ref) && Carried(streams, c.names, parts) && |parts| == |c.names|
    case Marking(k) => k <= |c.names| && AllClosed(streams, c.names, c.ref)
    case Over(_) => true
  }

  predicate CallOk(streams: Streams, c: Call) {
    (forall i :: 0 <= i < |c.names| ==> c.names[i] in streams) && PhaseOk(streams, c)
  }

  ghost predicate CallsOk(streams: Streams, calls: seq<Call>) {
    forall i :: 0 <= i < |calls| ==> CallOk(streams, calls[i])
  }

  ghost predicate HistoryOk(s: State) {
    && s.accepted.Keys == s.streams.Keys
    && (forall n :: n in s.streams ==> n.number <= s.counter)
    && (forall n :: n !in s.streams ==> LandedIn(s.log)(n) == [])
  }

  ghost predicate TilesOk(s: State) {
    forall n :: n in s.accepted ==> Tiles(s.accepted[n])
  }

  ghost predicate StreamsOk(s: State) {
    AllSteady(s.streams, Total(s.accepted), LandedIn(s.log))
  }

  ghost predicate Base(s: State) {
    HistoryOk(s) && StreamsOk(s) && CallsOk(s.streams, s.calls)
  }

  // ---- How streams move -----------------------------------------------------------------------

  /** A stream never reopens, and a closed buffer changes only by being committed. */
  predicate Onward(x: Stream, y: Stream) {
    && y.kind == x.kind && (x.finalized ==> y.finalized) && (x.committed ==> y.committed)
    && (x.finalized ==> y.buffered == x.buffered || y.committed)
  }

  ghost predicate AllOnward(a: Streams, b: Streams) {
    forall n :: n in a ==> n in b && Onward(a[n], b[n])
  }

  lemma {:induction false} StepIsOnward(s: State, a: Action)
    requires Enabled(s, a) && HistoryOk(s)
    ensures AllOnward(s.streams, Apply(s, a).streams)
  {
  }

  lemma {:induction false} CarriedAfter(a: Streams, b: Streams, names: seq<Name>, ref: TableRef, parts: seq<Part>)
    requires AllOnward(a, b) && AllClosed(a, names, ref) && Carried(a, names, parts)
    ensures Carried(b, names, parts)
  {
    forall i | 0 <= i < |parts|
      ensures names[i] in b && (b[names[i]].committed || parts[i].rows == b[names[i]].buffered)
    {
      assert Closed(a, names[i], ref) && Onward(a[names[i]], b[names[i]]);
    }
  }

  lemma {:induction false} ClosedAfter(a: Streams, b: Streams, names: seq<Name>, ref: TableRef)
    requires AllOnward(a, b) && AllClosed(a, names, ref)
    ensures AllClosed(b, names, ref)
  {
    forall i | 0 <= i < |names| ensures Closed(b, names[i], ref) {
      assert Closed(a, names[i], ref) && Onward(a[names[i]], b[names[i]]);
    }
  }

  lemma {:induction false} CallAfter(a: Streams, b: Streams, c: Call)
    requires AllOnward(a, b) && CallOk(a, c)
    ensures CallOk(b, c)
  {
    forall i | 0 <= i < |c.names| ensures c.names[i] in b { assert c.names[i] in a; }
    match c.phase {
      case Checking(k, bad) => if !bad { ClosedAfter(a, b, c.names[..k], c.ref); }
      case Collecting(parts) => ClosedAfter(a, b, c.names, c.ref); CarriedAfter(a, b, c.names, c.ref, parts);
      case Writing(parts) => ClosedAfter(a, b, c.names, c.ref); CarriedAfter(a, b, c.names, c.ref, parts);
      case Marking(k) => ClosedAfter(a, b, c.names, c.ref);
      case Over(_) =>
    }
  }

  lemma {:induction false} CallsAfter(a: Streams, b: Streams, calls: seq<Call>)
    requires AllOnward(a, b) && CallsOk(a, calls)
    ensures CallsOk(b, calls)
  {
    forall i | 0 <= i < |calls| ensures CallOk(b, calls[i]) { CallAfter(a, b, calls[i]); }
  }

  // ---- What each step does to the history --------------------------------------------------------

  predicate IsAccepted(s: State, a: Action)
    requires a.Append? && Enabled(s, a)
  {
    Answered(s.streams[a.name], a.offset, a.upsertOk).Accepted?
  }

  /** What an append lands. */
  lemma {:induction false} AppendLands(s: State, n: Name, rows: seq<Row>, m: Name)
    ensures Landed(s.log + [Landing(n.ref, [Part(n, rows)])], m) == if m == n then Landed(s.log, m) + rows
              else Landed(s.log, m)
  {
    LandedAppend(s.log, Landing(n.ref, [Part(n, rows)]), m);
    assert [Part(n, rows)][..0] == [];
    assert PartRows([Part(n, rows)], m) == if m == n then rows else [];
  }

  /** What the history says after an accepted append. */
  lemma {:induction false} AppendChangesHistory(s: State, a: Action, m: Name)
    requires a.Append? && Enabled(s, a) && IsAccepted(s, a)
    ensures var t := Apply(s, a);
            && Total(t.accepted)(m) == (if m == a.name then Total(s.accepted)(m) + a.rows else Total(s.accepted)(m))
            && LandedIn(t.log)(m) == if m == a.name && s.streams[m].kind.Committed? then LandedIn(s.log)(m) + a.rows
                else LandedIn(s.log)(m)
  {
    AcceptAppend(s.accepted[a.name], Batch(s.streams[a.name].next, a.rows));
    AppendLands(s, a.name, a.rows, m);
  }

  /** The write of a commit lands what it collected. */
  predicate Writes(s: State, a: Action) {
    && a.Advance? && a.i < |s.calls| && s.calls[a.i].phase.Writing?
    && RowsOf(s.calls[a.i].phase.parts) != [] && a.upsertOk
  }

  lemma {:induction false} WriteChangesHistory(s: State, a: Action, m: Name)
    requires Enabled(s, a) && Writes(s, a)
    ensures LandedIn(Apply(s, a).log)(m) == LandedIn(s.log)(m) + PartRows(s.calls[a.i].phase.parts, m)
  {
    LandedAppend(s.log, Landing(s.calls[a.i].ref, s.calls[a.i].phase.parts), m);
  }

  /** Only streams that a commit may name are among its parts. */
  lemma {:induction false} OpenStreamHasNoPart(streams: Streams, c: Call, m: Name)
    requires CallOk(streams, c) && c.phase.Writing? && !Closed(streams, m, c.ref)
    ensures PartRows(c.phase.parts, m) == []
  {
    forall i | 0 <= i < |c.phase.parts| ensures c.phase.parts[i].name != m {
      assert Closed(streams, c.names[i], c.ref);
    }
    AbsentPart(c.phase.parts, m);
  }

  // ---- Preservation ---------------------------------------------------------------------------------

  lemma {:induction false} AppendIsSteady(streams: Streams, n: Name, rows: seq<Row>,
                                          total: Name -> seq<Row>, landed: Name -> seq<Row>,
                                          total': Name -> seq<Row>, landed': Name -> seq<Row>)
    requires AllSteady(streams, total, landed) && n in streams && !streams[n].finalized
    requires forall m :: total'(m) == if m == n then total(m) + rows else total(m)
    requires forall m :: landed'(m) == if m == n && streams[m].kind.Committed? then landed(m) + rows else landed(m)
    ensures AllSteady(streams[n := Appended(streams[n], rows)], total', landed')
  {
    assert Steady(streams[n], total(n), landed(n));
  }

  lemma {:induction false} AppendKeepsStreams(s: State, a: Action)
    requires StreamsOk(s) && a.Append? && Enabled(s, a) && IsAccepted(s, a)
    ensures StreamsOk(Apply(s, a))
  {
    var n, t := a.name, Apply(s, a);
    forall m
      ensures Total(t.accepted)(m) == if m == n then Total(s.accepted)(m) + a.rows else Total(s.accepted)(m)
      ensures LandedIn(t.log)(m) == if m == n && s.streams[m].kind.Committed? then LandedIn(s.log)(m) + a.rows
                else LandedIn(s.log)(m)
    {
      AppendChangesHistory(s, a, m);
    }
    AppendIsSteady(s.streams, n, a.rows, Total(s.accepted), LandedIn(s.log), Total(t.accepted), LandedIn(t.log));
  }

  lemma {:induction false} AppendKeepsHistory(s: State, a: Action)
    requires HistoryOk(s) && a.Append? && Enabled(s, a) && IsAccepted(s, a)
    ensures HistoryOk(Apply(s, a))
  {
    var t := Apply(s, a);
    forall m | m !in t.streams ensures LandedIn(t.log)(m) == [] {
      assert LandedIn(s.log)(m) == [];
      AppendChangesHistory(s, a, m);
    }
  }

  lemma {:induction false} AppendKeepsBase(s: State, a: Action)
    requires Base(s) && a.Append? && Enabled(s, a)
    ensures Base(Apply(s, a))
  {
    if IsAccepted(s, a) {
      AppendKeepsStreams(s, a);
      AppendKeepsHistory(s, a);
      StepIsOnward(s, a);
      CallsAfter(s.streams, Apply(s, a).streams, s.calls);
      assert Apply(s, a).calls == s.calls;
    }
  }

  /** One stream at most is new or changed, and nothing landed. */
  lemma {:induction false} OneStreamChanges(s: State, t: State, n: Name)
    requires HistoryOk(s) && StreamsOk(s) && t.log == s.log && s.counter <= t.counter
    requires n in t.streams && n.number <= t.counter && t.streams == s.streams[n := t.streams[n]]
    requires t.accepted.Keys == t.streams.Keys
    requires forall m :: m in s.accepted && m != n ==> m in t.accepted && t.accepted[m] == s.accepted[m]
    requires Steady(t.streams[n], Total(t.accepted)(n), LandedIn(s.log)(n))
    ensures HistoryOk(t) && StreamsOk(t)
  {
    forall m | m in t.streams ensures Steady(t.streams[m], Total(t.accepted)(m), LandedIn(t.log)(m)) {
      if m != n { assert Steady(s.streams[m], Total(s.accepted)(m), LandedIn(s.log)(m)); }
    }
  }

  lemma {:induction false} CreateKeepsBase(s: State, a: Action)
    requires Base(s) && a.Create?
    ensures Base(Apply(s, a))
  {
    var n, t := Name(a.ref, s.counter + 1), Apply(s, a);
    assert n !in s.streams;
    assert LandedIn(s.log)(n) == [];
    assert Total(t.accepted)(n) == [];
    OneStreamChanges(s, t, n);
    StepIsOnward(s, a);
    CallsAfter(s.streams, t.streams, s.calls);
  }

  lemma {:induction false} FinalizeKeepsBase(s: State, a: Action)
    requires Base(s) && a.Finalize? && Enabled(s, a)
    ensures Base(Apply(s, a))
  {
    var n, t := a.name, Apply(s, a);
    assert Steady(s.streams[n], Total(s.accepted)(n), LandedIn(s.log)(n));
    OneStreamChanges(s, t, n);
    StepIsOnward(s, a);
    CallsAfter(s.streams, t.streams, s.calls);
  }

  lemma {:induction false} CheckingKeepsCall(s: State, i: nat, upsertOk: bool)
    requires Enabled(s, Advance(i, upsertOk)) && CallOk(s.streams, s.calls[i]) && s.calls[i].phase.Checking?
    ensures CallOk(s.streams, ApplyAdvance(s, i, upsertOk).calls[i])
  {
    var c := s.calls[i];
    var k := c.phase.k;
    if k < |c.names| {
      assert c.names[..k + 1] == c.names[..k] + [c.names[k]];
    } else {
      assert c.names[..k] == c.names;
    }
  }

  lemma {:induction false} CollectingKeepsCall(s: State, i: nat, upsertOk: bool)
    requires Enabled(s, Advance(i, upsertOk)) && CallOk(s.streams, s.calls[i]) && s.calls[i].phase.Collecting?
    ensures CallOk(s.streams, ApplyAdvance(s, i, upsertOk).calls[i])
  {
  }

  lemma {:induction false} WritingKeepsCall(s: State, i: nat, upsertOk: bool)
    requires Enabled(s, Advance(i, upsertOk)) && CallOk(s.streams, s.calls[i])
    requires s.calls[i].phase.Writing? || s.calls[i].phase.Marking?
    ensures CallOk(s.streams, ApplyAdvance(s, i, upsertOk).calls[i])
  {
  }

  /** The phase a call goes on to satisfies what it should. */
  lemma {:induction false} AdvanceKeepsCall(s: State, i: nat, upsertOk: bool)
    requires Enabled(s, Advance(i, upsertOk)) && CallOk(s.streams, s.calls[i])
    ensures CallOk(s.streams, ApplyAdvance(s, i, upsertOk).calls[i])
  {
    match s.calls[i].phase {
      case Checking(_, _) => CheckingKeepsCall(s, i, upsertOk);
      case Collecting(_) => CollectingKeepsCall(s, i, upsertOk);
      case _ => WritingKeepsCall(s, i, upsertOk);
    }
  }

  lemma {:induction false} AdvanceKeepsCalls(s: State, a: Action)
    requires a.Advance? && Enabled(s, a) && CallsOk(s.streams, s.calls) && HistoryOk(s)
    ensures CallsOk(Apply(s, a).streams, Apply(s, a).calls)
  {
    var t := Apply(s, a);
    assert CallOk(s.streams, s.calls[a.i]);
    AdvanceKeepsCall(s, a.i, a.upsertOk);
    assert CallsOk(s.streams, t.calls);
    StepIsOnward(s, a);
    CallsAfter(s.streams, t.streams, t.calls);
  }

  lemma {:induction false} WriteIsSteady(streams: Streams, total: Name -> seq<Row>, landed: Name -> seq<Row>,
                                         landed': Name -> seq<Row>)
    requires AllSteady(streams, total, landed)
    requires forall m :: m in streams && streams[m].kind.Committed? ==> landed'(m) == landed(m)
    ensures AllSteady(streams, total, landed')
  {
    forall m | m in streams ensures Steady(streams[m], total(m), landed'(m)) {
      assert Steady(streams[m], total(m), landed(m));
    }
  }

  lemma {:induction false} WriteKeepsStreams(s: State, a: Action)
    requires HistoryOk(s) && StreamsOk(s) && Enabled(s, a) && Writes(s, a) && CallOk(s.streams, s.calls[a.i])
    ensures HistoryOk(Apply(s, a)) && StreamsOk(Apply(s, a))
  {
    var c, t := s.calls[a.i], Apply(s, a);
    forall m | !Closed(s.streams, m, c.ref) ensures LandedIn(t.log)(m) == LandedIn(s.log)(m) {
      WriteChangesHistory(s, a, m);
      OpenStreamHasNoPart(s.streams, c, m);
    }
    WriteIsSteady(s.streams, Total(s.accepted), LandedIn(s.log), LandedIn(t.log));
  }

  lemma {:induction false} MarkKeepsStreams(s: State, a: Action)
    requires HistoryOk(s) && StreamsOk(s) && a.Advance? && Enabled(s, a) && s.calls[a.i].phase.Marking?
    requires CallOk(s.streams, s.calls[a.i])
    ensures HistoryOk(Apply(s, a)) && StreamsOk(Apply(s, a))
  {
    var c, t := s.calls[a.i], Apply(s, a);
    var k := c.phase.k;
    if k < |c.names| {
      assert Closed(s.streams, c.names[k], c.ref);
      assert Steady(s.streams[c.names[k]], Total(s.accepted)(c.names[k]), LandedIn(s.log)(c.names[k]));
      OneStreamChanges(s, t, c.names[k]);
    }
  }

  lemma {:induction false} AdvanceKeepsBase(s: State, a: Action)
    requires Base(s) && a.Advance? && Enabled(s, a)
    ensures Base(Apply(s, a))
  {
    AdvanceKeepsCalls(s, a);
    assert CallOk(s.streams, s.calls[a.i]);
    if Writes(s, a) {
      WriteKeepsStreams(s, a);
    } else if s.calls[a.i].phase.Marking? {
      MarkKeepsStreams(s, a);
    }
  }

  lemma {:induction false} StepKeepsBase(s: State, a: Action)
    requires Base(s) && Enabled(s, a)
    ensures Base(Apply(s, a))
  {
    match a {
      case Create(_, _) => CreateKeepsBase(s, a);
      case Append(_, _, _, _) => AppendKeepsBase(s, a);
      case Finalize(_) => FinalizeKeepsBase(s, a);
      case Begin(_, _) =>
      case Advance(_, _) => AdvanceKeepsBase(s, a);
    }
  }

  // ---- Offsets ---------------------------------------------------------------------------------------

  /** Only an accepted append adds to what a stream took. */
  lemma {:induction false} OthersAcceptNothing(s: State, a: Action, n: Name)
    requires HistoryOk(s) && Enabled(s, a) && n in s.accepted && !(a.Append? && a.name == n)
    ensures n in Apply(s, a).accepted && Apply(s, a).accepted[n] == s.accepted[n]
  {
  }

  lemma {:induction false} NextIsTotal(s: State, n: Name)
    requires StreamsOk(s) && n in s.streams && n in s.accepted
    ensures s.streams[n].next == |AcceptedRows(s.accepted[n])|
  {
    assert Steady(s.streams[n], Total(s.accepted)(n), LandedIn(s.log)(n));
  }

  lemma {:induction false} AppendAccepts(s: State, a: Action)
    requires a.Append? && Enabled(s, a)
    ensures a.name in Apply(s, a).accepted
    ensures Apply(s, a).accepted[a.name]
         == if IsAccepted(s, a) then s.accepted[a.name] + [Batch(s.streams[a.name].next, a.rows)]
             else s.accepted[a.name]
  {
  }

  lemma {:induction false} StepKeepsTilesOf(s: State, a: Action, n: Name)
    requires StreamsOk(s) && HistoryOk(s) && Enabled(s, a) && n in s.accepted && Tiles(s.accepted[n])
    ensures n in Apply(s, a).accepted && Tiles(Apply(s, a).accepted[n])
  {
    if a.Append? && a.name == n {
      AppendAccepts(s, a);
      NextIsTotal(s, n);
      TilesAppend(s.accepted[n], Batch(s.streams[n].next, a.rows));
    } else {
      OthersAcceptNothing(s, a, n);
    }
  }

  lemma {:induction false} NewlyAccepted(s: State, a: Action, n: Name)
    requires Enabled(s, a) && n in Apply(s, a).accepted && n !in s.accepted
    ensures Apply(s, a).accepted[n] == []
  {
  }

  lemma {:induction false} StepKeepsTiles(s: State, a: Action)
    requires StreamsOk(s) && HistoryOk(s) && TilesOk(s) && Enabled(s, a)
    ensures TilesOk(Apply(s, a))
  {
    var accepted := Apply(s, a).accepted;
    forall n | n in accepted ensures Tiles(accepted[n]) {
      if n in s.accepted {
        StepKeepsTilesOf(s, a, n);
      } else {
        NewlyAccepted(s, a, n);
      }
    }
  }

  lemma {:induction false} RunKeepsBase(s: State, run: seq<Action>)
    requires Base(s) && TilesOk(s) && ValidRun(s, run)
    ensures Base(Final(s, run)) && TilesOk(Final(s, run))
    decreases |run|
  {
    if run != [] {
      StepKeepsBase(s, run[0]);
      StepKeepsTiles(s, run[0]);
      RunKeepsBase(Apply(s, run[0]), run[1..]);
    }
  }
}
