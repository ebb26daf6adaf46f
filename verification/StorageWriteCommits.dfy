/** Batch commits in every interleaving, as long as no two of them that are under way share a
    stream: each stream's rows land once. */
module StorageWriteCommits {
  import opened Signature
  import opened Partitioning
  import opened StorageWrite
  import opened StorageWriteRuns

  /** A call that may still write or mark: not over, and no stream refused. */
  predicate Live(c: Call) {
    !c.phase.Over? && !(c.phase.Checking? && c.phase.bad)
  }

  predicate Disjoint(a: seq<Name>, b: seq<Name>) {
    forall i :: 0 <= i < |a| ==> a[i] !in b
  }

  /** The hypothesis: a commit names each stream once, and none that a commit under way names. */
  predicate Safe(s: State, a: Action) {
    a.Begin? ==>
      && NoDuplicates(a.names)
      && forall i :: 0 <= i < |s.calls| && Live(s.calls[i]) ==> Disjoint(s.calls[i].names, a.names)
  }

  ghost predicate SafeRun(s: State, run: seq<Action>)
    requires ValidRun(s, run)
    decreases |run|
  {
    run != [] ==> Safe(s, run[0]) && SafeRun(Apply(s, run[0]), run[1..])
  }

  // ---- Calls that are under way -----------------------------------------------------------------

  predicate Uncommitted(streams: Streams, names: seq<Name>) {
    forall i :: 0 <= i < |names| ==> names[i] in streams && !streams[names[i]].committed
  }

  /** The streams a call has still to write or mark are not committed. */
  predicate Ahead(streams: Streams, c: Call) {
    match c.phase
    case Checking(k, bad) => !bad && k <= |c.names| ==> Uncommitted(streams, c.names[..k])
    case Collecting(_) => Uncommitted(streams, c.names)
    case Writing(_) => Uncommitted(streams, c.names)
    case Marking(k) => k <= |c.names| ==> Uncommitted(streams, c.names[k..])
    case Over(_) => true
  }

  predicate Alone(streams: Streams, c: Call) {
    Live(c) ==> NoDuplicates(c.names) && Ahead(streams, c)
  }

  predicate Apart(c: Call, d: Call) {
    Live(c) && Live(d) ==> Disjoint(c.names, d.names)
  }

  ghost predicate AllApart(streams: Streams, calls: seq<Call>) {
    && (forall i :: 0 <= i < |calls| ==> Alone(streams, calls[i]))
    && (forall i, j :: 0 <= i < j < |calls| ==> Apart(calls[i], calls[j]))
  }

  /** The call is past its write and has not come to mark n. */
  predicate Flies(c: Call, n: Name) {
    c.phase.Marking? && c.phase.k <= |c.names| && n in c.names[c.phase.k..]
  }

  predicate InFlight(calls: seq<Call>, n: Name) {
    exists i :: 0 <= i < |calls| && Flies(calls[i], n)
  }

  function Flying(calls: seq<Call>): Name -> bool {
    n => InFlight(calls, n)
  }

  predicate Once(st: Stream, total: seq<Row>, landed: seq<Row>, flying: bool) {
    st.kind.Pending? ==> landed == if st.committed || flying then total else []
  }

  ghost predicate AllOnce(streams: Streams, total: Name -> seq<Row>, landed: Name -> seq<Row>, flying: Name -> bool) {
    forall n :: n in streams ==> Once(streams[n], total(n), landed(n), flying(n))
  }

  ghost predicate LandsOnce(s: State) {
    AllOnce(s.streams, Total(s.accepted), LandedIn(s.log), Flying(s.calls))
  }

  ghost predicate Inv(s: State) {
    Base(s) && AllApart(s.streams, s.calls) && LandsOnce(s)
  }

  // ---- Flight -------------------------------------------------------------------------------------

  predicate OthersFly(calls: seq<Call>, i: nat, n: Name) {
    exists j :: 0 <= j < |calls| && j != i && Flies(calls[j], n)
  }

  /** One call changes: who flies is what it carries and what the others carry. */
  lemma {:induction false} FlightSplits(calls: seq<Call>, i: nat, c: Call, n: Name)
    requires i < |calls|
    ensures InFlight(calls, n) <==> Flies(calls[i], n) || OthersFly(calls, i, n)
    ensures InFlight(calls[i := c], n) <==> Flies(c, n) || OthersFly(calls, i, n)
  {
    var after := calls[i := c];
    if j :| 0 <= j < |calls| && j != i && Flies(calls[j], n) {
      assert Flies(after[j], n);
    }
    if j :| 0 <= j < |after| && Flies(after[j], n) {
      assert j != i ==> Flies(calls[j], n);
    }
    assert after[i] == c;
  }

  lemma {:induction false} FlyingIsClosed(streams: Streams, calls: seq<Call>, n: Name)
    requires CallsOk(streams, calls) && InFlight(calls, n)
    ensures Closed(streams, n, n.ref)
  {
    var i :| 0 <= i < |calls| && Flies(calls[i], n);
    var c := calls[i];
    var j :| 0 <= j < |c.names[c.phase.k..]| && c.names[c.phase.k..][j] == n;
    assert CallOk(streams, c);
    assert Closed(streams, c.names[c.phase.k + j], c.ref);
  }

  // ---- Calls stay apart --------------------------------------------------------------------------

  /** A change to streams that leaves the marks on the streams of a call alone. */
  lemma {:induction false} AloneAfter(a: Streams, b: Streams, c: Call)
    requires Alone(a, c)
    requires forall n :: n in c.names && n in a ==> n in b && b[n].committed == a[n].committed
    ensures Alone(b, c)
  {
    if Live(c) {
      match c.phase {
        case Checking(k, bad) => if k <= |c.names| { UncommittedAfter(a, b, c, c.names[..k]); }
        case Collecting(_) => UncommittedAfter(a, b, c, c.names);
        case Writing(_) => UncommittedAfter(a, b, c, c.names);
        case Marking(k) => if k <= |c.names| { UncommittedAfter(a, b, c, c.names[k..]); }
        case Over(_) =>
      }
    }
  }

  lemma {:induction false} UncommittedAfter(a: Streams, b: Streams, c: Call, names: seq<Name>)
    requires Uncommitted(a, names) && forall i :: 0 <= i < |names| ==> names[i] in c.names
    requires forall n :: n in c.names && n in a ==> n in b && b[n].committed == a[n].committed
    ensures Uncommitted(b, names)
  {
  }

  lemma {:induction false} AllApartAfter(a: Streams, b: Streams, calls: seq<Call>)
    requires AllApart(a, calls) && forall n :: n in a ==> n in b && b[n].committed == a[n].committed
    ensures AllApart(b, calls)
  {
    forall i | 0 <= i < |calls| ensures Alone(b, calls[i]) { AloneAfter(a, b, calls[i]); }
  }

  /** One call goes on, naming what it named and live only if it was. */
  lemma {:induction false} CallGoesOn(a: Streams, b: Streams, calls: seq<Call>, i: nat, c: Call)
    requires AllApart(a, calls) && i < |calls| && c.names == calls[i].names && (Live(c) ==> Live(calls[i]))
    requires Alone(b, c)
    requires forall j :: 0 <= j < |calls| && j != i ==> Alone(b, calls[j])
    ensures AllApart(b, calls[i := c])
  {
    var after := calls[i := c];
    forall j, k | 0 <= j < k < |after| ensures Apart(after[j], after[k]) { assert Apart(calls[j], calls[k]); }
  }

  lemma {:induction false} BeginKeepsApart(s: State, a: Action)
    requires AllApart(s.streams, s.calls) && a.Begin? && Enabled(s, a) && Safe(s, a)
    ensures AllApart(s.streams, Apply(s, a).calls)
  {
    var c := Call(a.ref, a.names, Checking(0, false));
    var after := s.calls + [c];
    assert c.names[..0] == [];
    forall i, j | 0 <= i < j < |after| ensures Apart(after[i], after[j]) {
      if j < |s.calls| { assert Apart(s.calls[i], s.calls[j]); }
    }
  }

  /** A step of a call that marks nothing leaves it alone on its streams. */
  lemma {:induction false} QuietIsAlone(s: State, i: nat, upsertOk: bool)
    requires Enabled(s, Advance(i, upsertOk)) && Alone(s.streams, s.calls[i]) && CallOk(s.streams, s.calls[i])
    requires !(s.calls[i].phase.Marking? && s.calls[i].phase.k < |s.calls[i].names|)
    ensures Alone(s.streams, Apply(s, Advance(i, upsertOk)).calls[i])
  {
    var c := s.calls[i];
    if c.phase.Checking? {
      if c.phase.k < |c.names| {
        assert c.names[..c.phase.k + 1] == c.names[..c.phase.k] + [c.names[c.phase.k]];
      } else {
        assert c.names[..c.phase.k] == c.names;
      }
    }
    assert c.names[0..] == c.names;
  }

  lemma {:induction false} QuietKeepsApart(s: State, a: Action)
    requires AllApart(s.streams, s.calls) && CallsOk(s.streams, s.calls) && a.Advance? && Enabled(s, a)
    requires !(s.calls[a.i].phase.Marking? && s.calls[a.i].phase.k < |s.calls[a.i].names|)
    ensures Apply(s, a).streams == s.streams && AllApart(s.streams, Apply(s, a).calls)
  {
    assert CallOk(s.streams, s.calls[a.i]) && Alone(s.streams, s.calls[a.i]);
    QuietIsAlone(s, a.i, a.upsertOk);
    CallGoesOn(s.streams, s.streams, s.calls, a.i, Apply(s, a).calls[a.i]);
  }

  lemma {:induction false} MarkIsAlone(streams: Streams, c: Call, k: nat)
    requires Alone(streams, c) && c.phase == Marking(k) && k < |c.names|
    ensures c.names[k] in streams
    ensures Alone(streams[c.names[k] := Marked(streams[c.names[k]])], c.(phase := Marking(k + 1)))
  {
    var rest := c.names[k..];
    assert rest[0] == c.names[k];
    var b := streams[c.names[k] := Marked(streams[c.names[k]])];
    forall i | k < i < |c.names| ensures c.names[i] in b && !b[c.names[i]].committed {
      assert c.names[i] == rest[i - k];
    }
  }

  lemma {:induction false} OthersStayAlone(a: Streams, b: Streams, calls: seq<Call>, i: nat, n: Name, j: nat)
    requires AllApart(a, calls) && i < |calls| && j < |calls| && i != j && Live(calls[i]) && n in calls[i].names
    requires forall m :: m in a && m != n ==> m in b && b[m].committed == a[m].committed
    ensures Alone(b, calls[j])
  {
    assert Alone(a, calls[j]);
    assert Apart(calls[if i < j then i else j], calls[if i < j then j else i]);
    if Live(calls[j]) {
      assert n !in calls[j].names;
      AloneAfter(a, b, calls[j]);
    }
  }

  lemma {:induction false} MarkKeepsApart(s: State, a: Action)
    requires AllApart(s.streams, s.calls) && a.Advance? && Enabled(s, a)
    requires s.calls[a.i].phase.Marking? && s.calls[a.i].phase.k < |s.calls[a.i].names|
    ensures AllApart(Apply(s, a).streams, Apply(s, a).calls)
  {
    var c, t := s.calls[a.i], Apply(s, a);
    var k := c.phase.k;
    assert Alone(s.streams, c);
    MarkIsAlone(s.streams, c, k);
    forall j | 0 <= j < |s.calls| && j != a.i ensures Alone(t.streams, s.calls[j]) {
      OthersStayAlone(s.streams, t.streams, s.calls, a.i, c.names[k], j);
    }
    CallGoesOn(s.streams, t.streams, s.calls, a.i, c.(phase := Marking(k + 1)));
  }

  // ---- Streams land once -------------------------------------------------------------------------

  lemma {:induction false} SameFlightOnce(streams: Streams, total: Name -> seq<Row>, landed: Name -> seq<Row>,
                                          flying: Name -> bool, flying': Name -> bool)
    requires AllOnce(streams, total, landed, flying) && forall n :: n in streams ==> flying'(n) == flying(n)
    ensures AllOnce(streams, total, landed, flying')
  {
  }

  lemma {:induction false} AppendLandsOnce(streams: Streams, n: Name, rows: seq<Row>, flying: Name -> bool,
                                           total: Name -> seq<Row>, landed: Name -> seq<Row>,
                                           total': Name -> seq<Row>, landed': Name -> seq<Row>)
    requires AllOnce(streams, total, landed, flying) && n in streams && !streams[n].committed && !flying(n)
    requires forall m :: m != n ==> total'(m) == total(m)
    requires forall m :: landed'(m) == if m == n && streams[m].kind.Committed? then landed(m) + rows else landed(m)
    ensures AllOnce(streams[n := Appended(streams[n], rows)], total', landed', flying)
  {
    assert Once(streams[n], total(n), landed(n), flying(n));
  }

  lemma {:induction false} AppendKeepsOnce(s: State, a: Action)
    requires Base(s) && LandsOnce(s) && a.Append? && Enabled(s, a) && IsAccepted(s, a)
    ensures LandsOnce(Apply(s, a))
  {
    var n, t := a.name, Apply(s, a);
    forall m
      ensures m != n ==> Total(t.accepted)(m) == Total(s.accepted)(m)
      ensures LandedIn(t.log)(m) == if m == n && s.streams[m].kind.Committed? then LandedIn(s.log)(m) + a.rows
                else LandedIn(s.log)(m)
    {
      AppendChangesHistory(s, a, m);
    }
    assert !s.streams[n].committed by { assert Steady(s.streams[n], Total(s.accepted)(n), LandedIn(s.log)(n)); }
    assert !Flying(s.calls)(n) by { if InFlight(s.calls, n) { FlyingIsClosed(s.streams, s.calls, n); } }
    AppendLandsOnce(s.streams, n, a.rows, Flying(s.calls), Total(s.accepted), LandedIn(s.log), Total(t.accepted),
        LandedIn(t.log));
  }

  /** Creating and finalizing. */
  lemma {:induction false} OneStreamOnce(s: State, t: State, n: Name)
    requires LandsOnce(s) && t.log == s.log && t.calls == s.calls && n in t.streams
    requires t.streams == s.streams[n := t.streams[n]]
    requires forall m :: m != n ==> Total(t.accepted)(m) == Total(s.accepted)(m)
    requires Once(t.streams[n], Total(t.accepted)(n), LandedIn(s.log)(n), Flying(s.calls)(n))
    ensures LandsOnce(t)
  {
  }

  lemma {:induction false} CreateKeepsOnce(s: State, a: Action)
    requires Base(s) && LandsOnce(s) && a.Create?
    ensures LandsOnce(Apply(s, a))
  {
    var n, t := Name(a.ref, s.counter + 1), Apply(s, a);
    assert n !in s.streams;
    assert LandedIn(s.log)(n) == [] && Total(t.accepted)(n) == [];
    OneStreamOnce(s, t, n);
  }

  lemma {:induction false} FinalizeKeepsOnce(s: State, a: Action)
    requires LandsOnce(s) && a.Finalize? && Enabled(s, a)
    ensures LandsOnce(Apply(s, a))
  {
    assert Once(s.streams[a.name], Total(s.accepted)(a.name), LandedIn(s.log)(a.name), Flying(s.calls)(a.name));
    OneStreamOnce(s, Apply(s, a), a.name);
  }

  lemma {:induction false} EmptyParts(parts: seq<Part>, i: nat)
    requires RowsOf(parts) == [] && i < |parts|
    ensures parts[i].rows == []
  {
    var m := |parts| - 1;
    assert RowsOf(parts) == RowsOf(parts[..m]) + parts[m].rows;
    if i < m { EmptyParts(parts[..m], i); }
  }

  /** What the write of a commit lands, stream by stream. */
  lemma {:induction false} WriteLands(streams: Streams, c: Call, n: Name)
    requires c.phase.Writing? && CallOk(streams, c) && NoDuplicates(c.names) && Uncommitted(streams, c.names)
    ensures PartRows(c.phase.parts, n) == if n in c.names && n in streams then streams[n].buffered else []
    ensures RowsOf(c.phase.parts) == [] ==> PartRows(c.phase.parts, n) == []
  {
    if n in c.names {
      var j :| 0 <= j < |c.names| && c.names[j] == n;
      SinglePart(c.phase.parts, j);
      if RowsOf(c.phase.parts) == [] { EmptyParts(c.phase.parts, j); }
    } else {
      AbsentPart(c.phase.parts, n);
    }
  }

  /** The streams of a call that is about to write have not landed and are carried by no other. */
  lemma {:induction false} WriterIsAlone(streams: Streams, calls: seq<Call>, i: nat, n: Name)
    requires AllApart(streams, calls) && i < |calls| && calls[i].phase.Writing? && n in calls[i].names
    ensures n in streams && !streams[n].committed && !InFlight(calls, n)
  {
    assert Alone(streams, calls[i]);
    forall j | 0 <= j < |calls| ensures !Flies(calls[j], n) {
      assert i != j ==> Apart(calls[if i < j then i else j], calls[if i < j then j else i]);
      FliesIfNamed(calls[j], n);
    }
  }

  lemma {:induction false} FliesIfNamed(c: Call, n: Name)
    ensures Flies(c, n) ==> n in c.names && Live(c)
  {
  }

  lemma {:induction false} WriteOnce(streams: Streams, names: seq<Name>, total: Name -> seq<Row>,
                                     landed: Name -> seq<Row>, landed': Name -> seq<Row>,
                                     flying: Name -> bool, flying': Name -> bool)
    requires AllSteady(streams, total, landed) && AllOnce(streams, total, landed, flying)
    requires forall n :: n in names ==> n in streams && streams[n].kind.Pending? && !streams[n].committed && !flying(n)
    requires forall n :: flying'(n) == (flying(n) || n in names)
    requires forall n :: landed'(n) == landed(n) + if n in names && n in streams then streams[n].buffered else []
    ensures AllOnce(streams, total, landed', flying')
  {
    forall n | n in streams ensures Once(streams[n], total(n), landed'(n), flying'(n)) {
      assert Steady(streams[n], total(n), landed(n)) && Once(streams[n], total(n), landed(n), flying(n));
    }
  }

  /** A call that starts marking carries all its streams. */
  lemma {:induction false} WriteChangesFlight(calls: seq<Call>, i: nat, n: Name)
    requires i < |calls| && calls[i].phase.Writing?
    ensures Flying(calls[i := calls[i].(phase := Marking(0))])(n) == (Flying(calls)(n) || n in calls[i].names)
  {
    FlightSplits(calls, i, calls[i].(phase := Marking(0)), n);
    assert calls[i].names[0..] == calls[i].names;
  }

  predicate PastWrite(s: State, a: Action) {
    && a.Advance? && a.i < |s.calls| && s.calls[a.i].phase.Writing?
    && (RowsOf(s.calls[a.i].phase.parts) == [] || a.upsertOk)
  }

  lemma {:induction false} WrittenStreams(s: State, i: nat, n: Name)
    requires CallsOk(s.streams, s.calls) && AllApart(s.streams, s.calls) && i < |s.calls| && s.calls[i].phase.Writing?
    requires n in s.calls[i].names
    ensures n in s.streams && s.streams[n].kind.Pending? && !s.streams[n].committed && !Flying(s.calls)(n)
  {
    var c := s.calls[i];
    WriterIsAlone(s.streams, s.calls, i, n);
    assert CallOk(s.streams, c);
    var j :| 0 <= j < |c.names| && c.names[j] == n;
    assert Closed(s.streams, c.names[j], c.ref);
  }

  lemma {:induction false} WriteChangesLanded(s: State, a: Action, n: Name)
    requires Enabled(s, a) && PastWrite(s, a) && CallOk(s.streams, s.calls[a.i]) && Alone(s.streams, s.calls[a.i])
    ensures LandedIn(Apply(s, a).log)(n)
         == LandedIn(s.log)(n) + if n in s.calls[a.i].names && n in s.streams then s.streams[n].buffered else []
  {
    var c := s.calls[a.i];
    WriteLands(s.streams, c, n);
    LandedAppend(s.log, Landing(c.ref, c.phase.parts), n);
  }

  lemma {:induction false} WriteKeepsOnce(s: State, a: Action)
    requires Inv(s) && Enabled(s, a) && PastWrite(s, a)
    ensures LandsOnce(Apply(s, a))
  {
    var c, t := s.calls[a.i], Apply(s, a);
    assert CallOk(s.streams, c) && Alone(s.streams, c);
    forall n
      ensures LandedIn(t.log)(n)
           == LandedIn(s.log)(n) + if n in c.names && n in s.streams then s.streams[n].buffered else []
    {
      WriteChangesLanded(s, a, n);
    }
    forall n ensures Flying(t.calls)(n) == (Flying(s.calls)(n) || n in c.names) { WriteChangesFlight(s.calls, a.i, n); }
    forall n | n in c.names
      ensures n in s.streams && s.streams[n].kind.Pending? && !s.streams[n].committed && !Flying(s.calls)(n)
    {
      WrittenStreams(s, a.i, n);
    }
    WriteOnce(s.streams, c.names, Total(s.accepted), LandedIn(s.log), LandedIn(t.log), Flying(s.calls),
        Flying(t.calls));
  }

  ghost predicate SameBut(f: Name -> bool, g: Name -> bool, n: Name) {
    forall m :: m != n ==> f(m) == g(m)
  }

  lemma {:induction false} MarkOnce(streams: Streams, n: Name, total: Name -> seq<Row>, landed: Name -> seq<Row>,
                                    flying: Name -> bool, flying': Name -> bool)
    requires AllOnce(streams, total, landed, flying) && n in streams && flying(n) && SameBut(flying, flying', n)
    ensures AllOnce(streams[n := Marked(streams[n])], total, landed, flying')
  {
    assert Once(streams[n], total(n), landed(n), flying(n));
  }

  /** Marking moves exactly one stream out of flight. */
  lemma {:induction false} MarkChangesFlight(calls: seq<Call>, i: nat, k: nat)
    requires i < |calls| && calls[i].phase == Marking(k) && k < |calls[i].names|
    ensures var n := calls[i].names[k];
            && Flying(calls)(n)
            && SameBut(Flying(calls), Flying(calls[i := calls[i].(phase := Marking(k + 1))]), n)
  {
    var c := calls[i];
    var d := c.(phase := Marking(k + 1));
    var n := c.names[k];
    assert c.names[k..] == [n] + c.names[k + 1..];
    assert Flies(calls[i], n);
    forall m | m != n ensures Flying(calls)(m) == Flying(calls[i := d])(m) { FlightSplits(calls, i, d, m); }
  }

  lemma {:induction false} MarkKeepsOnce(s: State, a: Action)
    requires LandsOnce(s) && a.Advance? && Enabled(s, a)
    requires s.calls[a.i].phase.Marking? && s.calls[a.i].phase.k < |s.calls[a.i].names|
    ensures LandsOnce(Apply(s, a))
  {
    var c, t := s.calls[a.i], Apply(s, a);
    MarkChangesFlight(s.calls, a.i, c.phase.k);
    MarkOnce(s.streams, c.names[c.phase.k], Total(s.accepted), LandedIn(s.log), Flying(s.calls), Flying(t.calls));
  }

  /** A step that neither writes nor marks changes neither history nor flight. */
  lemma {:induction false} QuietKeepsOnce(s: State, a: Action)
    requires LandsOnce(s) && a.Advance? && Enabled(s, a) && !PastWrite(s, a) && CallOk(s.streams, s.calls[a.i])
    requires !(s.calls[a.i].phase.Marking? && s.calls[a.i].phase.k < |s.calls[a.i].names|)
    ensures LandsOnce(Apply(s, a))
  {
    var c, t := s.calls[a.i], Apply(s, a);
    var d := t.calls[a.i];
    assert t == s.(calls := s.calls[a.i := d]);
    assert c.phase.Marking? ==> c.names[c.phase.k..] == [];
    forall n ensures Flying(t.calls)(n) == Flying(s.calls)(n) { FlightSplits(s.calls, a.i, d, n); }
    SameFlightOnce(s.streams, Total(s.accepted), LandedIn(s.log), Flying(s.calls), Flying(t.calls));
  }

  lemma {:induction false} BeginKeepsOnce(s: State, a: Action)
    requires LandsOnce(s) && a.Begin? && Enabled(s, a)
    ensures LandsOnce(Apply(s, a))
  {
    var t := Apply(s, a);
    forall n ensures Flying(t.calls)(n) == Flying(s.calls)(n) {
      if i :| 0 <= i < |s.calls| && Flies(s.calls[i], n) { assert Flies(t.calls[i], n); }
      if i :| 0 <= i < |t.calls| && Flies(t.calls[i], n) { assert Flies(s.calls[i], n); }
    }
    SameFlightOnce(s.streams, Total(s.accepted), LandedIn(s.log), Flying(s.calls), Flying(t.calls));
  }

  // ---- Preservation ----------------------------------------------------------------------------------

  /** No step of a stream marks one as committed. */
  lemma {:induction false} StreamStepKeepsMarks(s: State, a: Action)
    requires HistoryOk(s) && Enabled(s, a) && (a.Create? || a.Append? || a.Finalize?)
    ensures Apply(s, a).calls == s.calls
    ensures forall n :: n in s.streams ==>
              n in Apply(s, a).streams && Apply(s, a).streams[n].committed == s.streams[n].committed
  {
  }

  lemma {:induction false} StreamStepKeepsOnce(s: State, a: Action)
    requires Base(s) && LandsOnce(s) && Enabled(s, a) && (a.Create? || a.Append? || a.Finalize?)
    ensures LandsOnce(Apply(s, a))
  {
    match a {
      case Create(_, _) => CreateKeepsOnce(s, a);
      case Append(_, _, _, _) => if IsAccepted(s, a) { AppendKeepsOnce(s, a); }
      case _ => FinalizeKeepsOnce(s, a);
    }
  }

  lemma {:induction false} StreamStepKeepsInv(s: State, a: Action)
    requires Inv(s) && Enabled(s, a) && (a.Create? || a.Append? || a.Finalize?)
    ensures Inv(Apply(s, a))
  {
    StepKeepsBase(s, a);
    StreamStepKeepsOnce(s, a);
    StreamStepKeepsMarks(s, a);
    AllApartAfter(s.streams, Apply(s, a).streams, s.calls);
  }

  lemma {:induction false} AdvanceKeepsInv(s: State, a: Action)
    requires Inv(s) && Enabled(s, a) && a.Advance?
    ensures Inv(Apply(s, a))
  {
    StepKeepsBase(s, a);
    var p := s.calls[a.i].phase;
    if p.Marking? && p.k < |s.calls[a.i].names| {
      MarkKeepsApart(s, a);
      MarkKeepsOnce(s, a);
    } else {
      QuietKeepsApart(s, a);
      assert CallOk(s.streams, s.calls[a.i]);
      if PastWrite(s, a) {
        WriteKeepsOnce(s, a);
      } else {
        QuietKeepsOnce(s, a);
      }
    }
  }

  lemma {:induction false} StepKeepsInv(s: State, a: Action)
    requires Inv(s) && Enabled(s, a) && Safe(s, a)
    ensures Inv(Apply(s, a))
  {
    if a.Advance? {
      AdvanceKeepsInv(s, a);
    } else if a.Begin? {
      StepKeepsBase(s, a);
      BeginKeepsApart(s, a);
      BeginKeepsOnce(s, a);
    } else {
      StreamStepKeepsInv(s, a);
    }
  }

  lemma {:induction false} RunKeepsInv(s: State, run: seq<Action>)
    requires Inv(s) && ValidRun(s, run) && SafeRun(s, run)
    ensures Inv(Final(s, run))
    decreases |run|
  {
    if run != [] {
      StepKeepsInv(s, run[0]);
      RunKeepsInv(Apply(s, run[0]), run[1..]);
    }
  }
}
