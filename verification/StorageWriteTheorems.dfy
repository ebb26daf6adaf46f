/** What the Storage Write protocol guarantees over every run. */
module StorageWriteTheorems {
  import opened Options
  import opened Signature
  import opened Partitioning
  import opened StorageWrite
  import opened StorageWriteRuns
  import opened StorageWriteCommits

  /** Reached by some run, whatever its commits do. */
  ghost predicate Reachable(s: State) {
    exists run :: ValidRun(INIT, run) && Final(INIT, run) == s
  }

  /** Reached by a run whose commits never share a stream while under way. */
  ghost predicate SafelyReached(s: State) {
    exists run :: ValidRun(INIT, run) && SafeRun(INIT, run) && Final(INIT, run) == s
  }

  lemma {:induction false} ReachableIsBase(s: State)
    requires Reachable(s)
    ensures Base(s) && TilesOk(s)
  {
    var run :| ValidRun(INIT, run) && Final(INIT, run) == s;
    RunKeepsBase(INIT, run);
  }

  lemma {:induction false} SafelyReachedIsInv(s: State)
    requires SafelyReached(s)
    ensures Inv(s)
  {
    var run :| ValidRun(INIT, run) && SafeRun(INIT, run) && Final(INIT, run) == s;
    RunKeepsInv(INIT, run);
  }

  // ---- Committed streams -------------------------------------------------------------------

  /** The accepted batches tile the offsets from 0, and the table has received exactly them. */
  lemma {:induction false} CommittedStreamIsExact(s: State, n: Name)
    requires Reachable(s) && n in s.streams && s.streams[n].kind.Committed?
    ensures n in s.accepted && Tiles(s.accepted[n])
    ensures s.streams[n].next == |AcceptedRows(s.accepted[n])|
    ensures Landed(s.log, n) == AcceptedRows(s.accepted[n])
  {
    ReachableIsBase(s);
    assert Steady(s.streams[n], Total(s.accepted)(n), LandedIn(s.log)(n));
  }

  /** An append is taken only at the end of the stream; any other changes nothing at all. */
  lemma {:induction false} WrongOffsetChangesNothing(s: State, n: Name, offset: int, rows: seq<Row>, upsertOk: bool)
    requires Enabled(s, Append(n, Some(offset), rows, upsertOk)) && offset != s.streams[n].next
    ensures Apply(s, Append(n, Some(offset), rows, upsertOk)) == s
    ensures !s.streams[n].finalized ==>
              Answered(s.streams[n], Some(offset), upsertOk) == if offset < s.streams[n].next then AlreadyWritten
                  else OutOfRange
  {
  }

  /** The batch is a slice of the client's data, at its offset. */
  predicate IsSlice(data: seq<Row>, a: Action) {
    a.Append? ==> a.offset.Some? && 0 <= a.offset.value <= a.offset.value + |a.rows| <= |data|
                  && a.rows == data[a.offset.value..a.offset.value + |a.rows|]
  }

  /** Every append to n sends a slice of data, in any order and any number of times. */
  ghost predicate Sends(run: seq<Action>, n: Name, data: seq<Row>) {
    forall i :: 0 <= i < |run| && run[i].Append? && run[i].name == n ==> IsSlice(data, run[i])
  }

  predicate IsPrefix(s: State, n: Name, data: seq<Row>) {
    n in s.accepted ==> AcceptedRows(s.accepted[n]) <= data
  }

  lemma {:induction false} StepKeepsPrefix(s: State, a: Action, n: Name, data: seq<Row>)
    requires HistoryOk(s) && StreamsOk(s) && Enabled(s, a) && IsPrefix(s, n, data)
    requires a.Append? && a.name == n ==> IsSlice(data, a)
    ensures IsPrefix(Apply(s, a), n, data)
  {
    if n !in s.accepted {
      assert AcceptedRows([]) == [];
    } else if a.Append? && a.name == n {
      AppendKeepsPrefix(s, a, data);
    } else {
      OthersAcceptNothing(s, a, n);
    }
  }

  /** What the stream took, after an append. */
  lemma {:induction false} AppendTakes(s: State, a: Action)
    requires StreamsOk(s) && a.Append? && Enabled(s, a)
    ensures a.name in Apply(s, a).accepted
    ensures var before, after := AcceptedRows(s.accepted[a.name]), AcceptedRows(Apply(s, a).accepted[a.name]);
            && |before| == s.streams[a.name].next
            && after == if IsAccepted(s, a) then before + a.rows else before
  {
    AppendAccepts(s, a);
    NextIsTotal(s, a.name);
    AcceptAppend(s.accepted[a.name], Batch(s.streams[a.name].next, a.rows));
  }

  lemma {:induction false} SliceExtendsPrefix(data: seq<Row>, before: seq<Row>, rows: seq<Row>)
    requires before <= data && |before| + |rows| <= |data| && rows == data[|before|..|before| + |rows|]
    ensures before + rows <= data
  {
  }

  lemma {:induction false} AcceptedIsNext(s: State, a: Action, data: seq<Row>)
    requires a.Append? && Enabled(s, a) && IsSlice(data, a) && IsAccepted(s, a)
    ensures var k := s.streams[a.name].next; k + |a.rows| <= |data| && a.rows == data[k..k + |a.rows|]
  {
  }

  lemma {:induction false} AppendKeepsPrefix(s: State, a: Action, data: seq<Row>)
    requires StreamsOk(s) && a.Append? && Enabled(s, a) && IsPrefix(s, a.name, data) && IsSlice(data, a)
    ensures IsPrefix(Apply(s, a), a.name, data)
  {
    AppendTakes(s, a);
    if IsAccepted(s, a) {
      AcceptedIsNext(s, a, data);
      SliceExtendsPrefix(data, AcceptedRows(s.accepted[a.name]), a.rows);
    }
  }

  lemma {:induction false} RunKeepsPrefix(s: State, run: seq<Action>, n: Name, data: seq<Row>)
    requires Base(s) && ValidRun(s, run) && IsPrefix(s, n, data) && Sends(run, n, data)
    ensures IsPrefix(Final(s, run), n, data)
    decreases |run|
  {
    if run != [] {
      StepKeepsBase(s, run[0]);
      StepKeepsPrefix(s, run[0], n, data);
      assert forall i :: 0 <= i < |run[1..]| ==> run[1..][i] == run[i + 1];
      RunKeepsPrefix(Apply(s, run[0]), run[1..], n, data);
    }
  }

  /** Exactly once: whatever the retries, the order and the commits going on, the table holds the
      first NextOffset rows of the client's data, each once and in order. */
  lemma {:induction false} RetriesLandExactlyOnce(run: seq<Action>, n: Name, data: seq<Row>)
    requires ValidRun(INIT, run) && Sends(run, n, data)
    ensures var s := Final(INIT, run);
            n in s.streams && s.streams[n].kind.Committed? ==>
              s.streams[n].next <= |data| && Landed(s.log, n) == data[..s.streams[n].next]
  {
    var s := Final(INIT, run);
    RunKeepsPrefix(INIT, run, n, data);
    if n in s.streams && s.streams[n].kind.Committed? {
      CommittedStreamIsExact(s, n);
    }
  }

  // ---- Pending streams -----------------------------------------------------------------------

  /** Nothing of a pending stream is in the catalog before its commit writes, all of it afterwards,
      once. */
  lemma {:induction false} PendingLandsAtMostOnce(s: State, n: Name)
    requires SafelyReached(s) && n in s.streams && s.streams[n].kind.Pending?
    ensures n in s.accepted
    ensures Landed(s.log, n) == if s.streams[n].committed || InFlight(s.calls, n) then AcceptedRows(s.accepted[n])
              else []
    ensures !s.streams[n].committed ==> s.streams[n].buffered == AcceptedRows(s.accepted[n])
  {
    SafelyReachedIsInv(s);
    assert Steady(s.streams[n], Total(s.accepted)(n), LandedIn(s.log)(n));
    assert Once(s.streams[n], Total(s.accepted)(n), LandedIn(s.log)(n), Flying(s.calls)(n));
  }

  /** After finalization the stream takes no more rows and its buffer changes only by its commit. */
  lemma {:induction false} FinalizedIsFrozen(s: State, a: Action, n: Name)
    requires HistoryOk(s) && Enabled(s, a) && n in s.streams && s.streams[n].finalized
    ensures var t := Apply(s, a);
            && n in t.streams && n in t.accepted && t.streams[n].finalized && t.accepted[n] == s.accepted[n]
            && (t.streams[n].buffered == s.streams[n].buffered || t.streams[n].committed)
  {
    StepIsOnward(s, a);
    if !(a.Append? && a.name == n) { OthersAcceptNothing(s, a, n); }
  }

  lemma {:induction false} FinalizedStaysFrozen(s: State, run: seq<Action>, n: Name)
    requires Base(s) && ValidRun(s, run) && n in s.streams && s.streams[n].finalized
    ensures var t := Final(s, run);
            && n in t.streams && n in t.accepted && t.streams[n].finalized && t.accepted[n] == s.accepted[n]
            && Onward(s.streams[n], t.streams[n])
    decreases |run|
  {
    if run != [] {
      FinalizedIsFrozen(s, run[0], n);
      StepIsOnward(s, run[0]);
      StepKeepsBase(s, run[0]);
      var t := Apply(s, run[0]);
      FinalizedStaysFrozen(t, run[1..], n);
      OnwardIsTransitive(s.streams[n], t.streams[n], Final(t, run[1..]).streams[n]);
    }
  }

  lemma {:induction false} OnwardIsTransitive(x: Stream, y: Stream, z: Stream)
    requires Onward(x, y) && Onward(y, z)
    ensures Onward(x, z)
  {
  }

  // ---- Commits -----------------------------------------------------------------------------------

  /** A commit makes at most one call of the catalog, with one part for each of its streams in
      request order; a commit that fails leaves streams and catalog alone. */
  lemma {:induction false} CommitWritesInOneCall(s: State, i: nat, upsertOk: bool)
    requires Reachable(s) && Enabled(s, Advance(i, upsertOk))
    ensures var c, t := s.calls[i], Apply(s, Advance(i, upsertOk));
            && (t.log != s.log ==>
                  && c.phase.Writing? && t.calls[i].phase == Marking(0)
                  && t.log == s.log + [Landing(c.ref, c.phase.parts)]
                  && |c.phase.parts| == |c.names| && Carried(s.streams, c.names, c.phase.parts))
            && (t.calls[i].phase == Over(false) ==> t.streams == s.streams && t.log == s.log)
            && (t.streams != s.streams ==> c.phase.Marking?)
  {
    ReachableIsBase(s);
    assert CallOk(s.streams, s.calls[i]);
  }

  /** All or nothing: what it writes are the buffers of all its streams, in request order. */
  lemma {:induction false} CommitIsAllOrNothing(s: State, i: nat, upsertOk: bool)
    requires SafelyReached(s) && Enabled(s, Advance(i, upsertOk))
    ensures var c, t := s.calls[i], Apply(s, Advance(i, upsertOk));
            t.log == s.log || t.log == s.log + [Landing(c.ref, PartsOf(s.streams, c.names))]
  {
    SafelyReachedIsInv(s);
    var c := s.calls[i];
    assert CallOk(s.streams, c) && Alone(s.streams, c);
    if c.phase.Writing? {
      assert c.phase.parts == PartsOf(s.streams, c.names);
    }
  }

  // ---- Without the hypothesis: a stream named twice ---------------------------------------------

  function Times(rows: seq<Row>, k: nat): seq<Row> {
    if k == 0 then [] else Times(rows, k - 1) + rows
  }

  function Mentions(names: seq<Name>, n: Name): nat {
    if names == [] then 0 else Mentions(names[..|names| - 1], n) + (if names[|names| - 1] == n then 1 else 0)
  }

  /** A commit lands the buffer of a stream as often as the request names it. */
  lemma {:induction false} LandsAsOftenAsNamed(streams: Streams, names: seq<Name>, n: Name)
    requires forall i :: 0 <= i < |names| ==> names[i] in streams
    requires n in streams
    ensures PartRows(PartsOf(streams, names), n) == Times(streams[n].buffered, Mentions(names, n))
  {
    if names != [] {
      var m := |names| - 1;
      LandsAsOftenAsNamed(streams, names[..m], n);
      assert PartsOf(streams, names)[..m] == PartsOf(streams, names[..m]);
    }
  }

  /** So a commit lands each of its streams once exactly when its request repeats no stream that
      has rows. */
  lemma {:induction false} LandsOnceIff(streams: Streams, names: seq<Name>, n: Name)
    requires forall i :: 0 <= i < |names| ==> names[i] in streams
    requires n in names && n in streams && streams[n].buffered != []
    ensures PartRows(PartsOf(streams, names), n) == streams[n].buffered <==> Mentions(names, n) == 1
  {
    LandsAsOftenAsNamed(streams, names, n);
    TimesLength(streams[n].buffered, Mentions(names, n));
    if Mentions(names, n) == 1 { assert Times(streams[n].buffered, 0) == []; }
    MentionedAtLeastOnce(names, n);
    if Mentions(names, n) > 1 { LongerProduct(Mentions(names, n), |streams[n].buffered|); }
  }

  lemma {:induction false} LongerProduct(k: nat, m: nat)
    requires k > 1 && m > 0
    ensures k * m > m
  {
    assert k * m == (k - 1) * m + m;
    assert (k - 1) * m > 0;
  }

  lemma {:induction false} TimesLength(rows: seq<Row>, k: nat)
    ensures |Times(rows, k)| == k * |rows|
  {
    if k > 0 {
      TimesLength(rows, k - 1);
      assert k * |rows| == (k - 1) * |rows| + |rows|;
    }
  }

  lemma {:induction false} MentionedAtLeastOnce(names: seq<Name>, n: Name)
    requires n in names
    ensures Mentions(names, n) >= 1
  {
    var m := |names| - 1;
    if names[m] != n {
      MentionedAtLeastOnce(names[..m], n);
    }
  }

  // ---- Without the hypothesis: two commits of one stream ------------------------------------------

  /** The call has not written, no stream has been refused, and none it has still to check will be. */
  predicate CanWrite(streams: Streams, c: Call) {
    match c.phase
    case Checking(k, bad) =>
      !bad && k <= |c.names| && forall i :: k <= i < |c.names| ==>
          c.names[i] in streams && Refused(c.names[i], streams[c.names[i]], c.ref).None?
    case Collecting(_) => true
    case Writing(_) => true
    case _ => false
  }

  /** Steps a call needs at most to get past its write. */
  function Left(c: Call): nat {
    match c.phase
    case Checking(k, _) => if k <= |c.names| then |c.names| - k + |c.names| + 3 else 0
    case Collecting(parts) => if |parts| <= |c.names| then |c.names| - |parts| + 2 else 0
    case Writing(_) => 1
    case _ => 0
  }

  lemma {:induction false} PartIsInRows(parts: seq<Part>, j: nat)
    requires j < |parts|
    ensures |RowsOf(parts)| >= |parts[j].rows| && |PartRows(parts, parts[j].name)| >= |parts[j].rows|
  {
    var m := |parts| - 1;
    if j < m {
      PartIsInRows(parts[..m], j);
    }
  }

  /** One step of a call towards its write changes nothing but its own phase. */
  lemma {:induction false} StepTowardsWrite(s: State, i: nat)
    requires Base(s) && Enabled(s, Advance(i, true)) && CanWrite(s.streams, s.calls[i]) && !s.calls[i].phase.Writing?
    ensures var c, t := s.calls[i], Apply(s, Advance(i, true));
            && t == s.(calls := s.calls[i := t.calls[i]])
            && t.calls[i] == c.(phase := t.calls[i].phase)
            && CanWrite(t.streams, t.calls[i]) && Left(t.calls[i]) < Left(c)
  {
    assert CallOk(s.streams, s.calls[i]);
  }

  /** The write lands the stream's whole buffer at least once. */
  lemma {:induction false} WriteLandsBuffer(s: State, i: nat, n: Name)
    requires Base(s) && Enabled(s, Advance(i, true)) && s.calls[i].phase.Writing?
    requires n in s.calls[i].names && n in s.streams && s.streams[n].buffered != []
    ensures var c, t := s.calls[i], Apply(s, Advance(i, true));
            && t == s.(calls := s.calls[i := c.(phase := Marking(0))], log := t.log)
            && |Landed(t.log, n)| >= |Landed(s.log, n)| + |s.streams[n].buffered|
  {
    var c := s.calls[i];
    assert CallOk(s.streams, c);
    assert Steady(s.streams[n], Total(s.accepted)(n), LandedIn(s.log)(n));
    var j :| 0 <= j < |c.names| && c.names[j] == n;
    assert Closed(s.streams, c.names[j], c.ref);
    assert c.phase.parts[j].rows == s.streams[n].buffered;
    PartIsInRows(c.phase.parts, j);
    LandedAppend(s.log, Landing(c.ref, c.phase.parts), n);
  }

  /** Left to itself, a call that can write does, and lands the stream's buffer. */
  lemma {:induction false} WritesEventually(s: State, i: nat, n: Name) returns (run: seq<Action>)
    requires Base(s) && i < |s.calls| && CanWrite(s.streams, s.calls[i])
    requires n in s.calls[i].names && n in s.streams && s.streams[n].buffered != []
    ensures ValidRun(s, run)
    ensures var t := Final(s, run);
            && t == s.(calls := s.calls[i := s.calls[i].(phase := Marking(0))], log := t.log)
            && |Landed(t.log, n)| >= |Landed(s.log, n)| + |s.streams[n].buffered|
    decreases Left(s.calls[i])
  {
    var a := Advance(i, true);
    assert CallOk(s.streams, s.calls[i]);
    var t := Apply(s, a);
    var rest: seq<Action> := [];
    if s.calls[i].phase.Writing? {
      WriteLandsBuffer(s, i, n);
    } else {
      StepTowardsWrite(s, i);
      StepKeepsBase(s, a);
      rest := WritesEventually(t, i, n);
      assert t.calls[i := t.calls[i].(phase := Marking(0))] == s.calls[i := s.calls[i].(phase := Marking(0))];
    }
    run := [a] + rest;
    assert run[1..] == rest;
  }

  lemma {:induction false} RunConcat(s: State, a: seq<Action>, b: seq<Action>)
    requires ValidRun(s, a) && ValidRun(Final(s, a), b)
    ensures ValidRun(s, a + b) && Final(s, a + b) == Final(Final(s, a), b)
    decreases |a|
  {
    if a == [] {
      assert a + b == b;
    } else {
      RunConcat(Apply(s, a[0]), a[1..], b);
      assert (a + b)[1..] == a[1..] + b;
    }
  }

  /** From every reachable state in which two commits that can still write name one stream with
      rows, some continuation lands that stream twice. */
  lemma {:induction false} OverlappingCommitsLandTwice(s: State, i: nat, j: nat, n: Name) returns (run: seq<Action>)
    requires Reachable(s) && i < |s.calls| && j < |s.calls| && i != j
    requires CanWrite(s.streams, s.calls[i]) && CanWrite(s.streams, s.calls[j])
    requires n in s.calls[i].names && n in s.calls[j].names && n in s.streams && s.streams[n].buffered != []
    ensures ValidRun(s, run)
    ensures |Landed(Final(s, run).log, n)| >= |Landed(s.log, n)| + 2 * |s.streams[n].buffered|
  {
    ReachableIsBase(s);
    run := TwoWrite(s, i, j, n);
  }

  /** The condition on a new commit is needed: begun while a commit that can still write the stream,
      or has written and not marked it, is under way, a commit that passes its checks lands the
      stream's rows a second time in some continuation. */
  lemma {:induction false} SharedStreamLandsTwice(s: State, i: nat, ref: TableRef, names: seq<Name>, n: Name)
    returns (run: seq<Action>)
    requires SafelyReached(s) && i < |s.calls| && n in s.calls[i].names && n in names && n in s.streams
    requires CanWrite(s.streams, s.calls[i]) || Flies(s.calls[i], n)
    requires forall k :: 0 <= k < |names| ==> names[k] in s.streams && Refused(names[k], s.streams[names[k]], ref).None?
    requires s.streams[n].buffered != []
    ensures ValidRun(s, run) && run != [] && run[0] == Begin(ref, names) && n in s.accepted
    ensures |Landed(Final(s, run).log, n)| >= 2 * |AcceptedRows(s.accepted[n])|
  {
    SafelyReachedIsInv(s);
    var begin := Begin(ref, names);
    var t := Apply(s, begin);
    var j := |s.calls|;
    StepKeepsBase(s, begin);
    assert t.calls[i] == s.calls[i] && t.calls[j] == Call(ref, names, Checking(0, false));
    PendingStands(s, i, n);
    var rest;
    if Flies(s.calls[i], n) {
      rest := WritesEventually(t, j, n);
    } else {
      rest := TwoWrite(t, i, j, n);
    }
    run := [begin] + rest;
    assert run[1..] == rest;
  }

  lemma {:induction false} PendingStands(s: State, i: nat, n: Name)
    requires Inv(s) && n in s.streams && s.streams[n].buffered != [] && i < |s.calls|
    ensures n in s.accepted && s.streams[n].buffered == AcceptedRows(s.accepted[n])
    ensures Flies(s.calls[i], n) ==> Landed(s.log, n) == AcceptedRows(s.accepted[n])
  {
    assert Steady(s.streams[n], Total(s.accepted)(n), LandedIn(s.log)(n));
    assert Once(s.streams[n], Total(s.accepted)(n), LandedIn(s.log)(n), Flying(s.calls)(n));
    if Flies(s.calls[i], n) {
      assert InFlight(s.calls, n);
      FlyingIsClosed(s.streams, s.calls, n);
    }
  }

  lemma {:induction false} TwoWrite(s: State, i: nat, j: nat, n: Name) returns (run: seq<Action>)
    requires Base(s) && i < |s.calls| && j < |s.calls| && i != j
    requires CanWrite(s.streams, s.calls[i]) && CanWrite(s.streams, s.calls[j])
    requires n in s.calls[i].names && n in s.calls[j].names && n in s.streams && s.streams[n].buffered != []
    ensures ValidRun(s, run)
    ensures |Landed(Final(s, run).log, n)| >= |Landed(s.log, n)| + 2 * |s.streams[n].buffered|
  {
    var first := WritesEventually(s, i, n);
    var t := Final(s, first);
    BaseOfRun(s, first);
    var second := WritesEventually(t, j, n);
    RunConcat(s, first, second);
    run := first + second;
  }

  lemma {:induction false} BaseOfRun(s: State, run: seq<Action>)
    requires Base(s) && ValidRun(s, run)
    ensures Base(Final(s, run))
    decreases |run|
  {
    if run != [] {
      StepKeepsBase(s, run[0]);
      BaseOfRun(Apply(s, run[0]), run[1..]);
    }
  }
}
