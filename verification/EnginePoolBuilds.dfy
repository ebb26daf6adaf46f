/** What a shared build makes of the engine it starts on, and when it rightly trusts what an earlier
    build that failed has left there. */
module EnginePoolBuilds {
  import opened Options
  import opened Signature
  import opened EnginePool
  import opened EnginePoolProtocol
  import opened EnginePoolFreshness
  import opened EnginePoolTheorems
  import Leases = EnginePoolLeases
  import Content = EnginePoolContent

  /** Loads of the planned tables from n on. */
  function LoadFrom(pe: PooledEngine, rs: seq<Resolved>, n: nat): PooledEngine
    requires n <= |rs|
    decreases |rs| - n
  {
    if n == |rs| then pe else LoadFrom(Materialize(pe, rs[n]), rs, n + 1)
  }

  /** A plan of distinct tables, each found and versioned, with rows no older than was seen. */
  ghost predicate IsShared(rs: seq<Resolved>) {
    && NoDuplicates(Content.Refs(rs))
    && forall i :: 0 <= i < |rs| ==> rs[i].hasVersion && rs[i].found && Fresh(rs[i].seen, rs[i].image)
  }

  predicate SameTable(a: PooledEngine, b: PooledEngine, k: TableRef) {
    (k in a.db <==> k in b.db) && (k in a.db ==> a.db[k] == b.db[k])
  }

  lemma {:induction false} OtherTablesStay(pe: PooledEngine, rs: seq<Resolved>, n: nat, k: TableRef)
    requires n <= |rs| && forall i :: n <= i < |rs| ==> rs[i].ref != k
    ensures var q := LoadFrom(pe, rs, n);
            && SameTable(pe, q, k)
            && q.signature == pe.signature && q.refCount == pe.refCount
    decreases |rs| - n
  {
    if n < |rs| { OtherTablesStay(Materialize(pe, rs[n]), rs, n + 1, k); }
  }

  /** A planned table is loaded, or skipped when it is marked. */
  lemma {:induction false} PlannedTableLoads(pe: PooledEngine, rs: seq<Resolved>, n: nat, i: nat)
    requires n <= i < |rs| && IsShared(rs)
    ensures var q, k := LoadFrom(pe, rs, n), rs[i].ref;
            if Marks(pe, rs[i]) then SameTable(pe, q, k)
            else k in q.db && q.db[k] == rs[i].image
    decreases |rs| - n
  {
    assert forall j :: 0 <= j < |rs| && j != i ==> Content.Refs(rs)[j] != Content.Refs(rs)[i];
    if n < i {
      PlannedTableLoads(Materialize(pe, rs[n]), rs, n + 1, i);
    } else {
      OtherTablesStay(Materialize(pe, rs[n]), rs, n + 1, rs[i].ref);
    }
  }

  /** Reconciling an engine and loading the whole plan serves exactly the plan if and only if each
      planned table that the engine has marked at the planned version is there and fresh. */
  lemma {:induction false} BuildServesIff(pe: PooledEngine, rs: seq<Resolved>)
    requires IsShared(rs) && pe.db.Keys <= pe.tables.Keys
    ensures Serves(LoadFrom(DropUnwanted(pe, rs), rs, 0), rs) <==> Trusts(pe, rs)
  {
    var p := DropUnwanted(pe, rs);
    var q := LoadFrom(p, rs, 0);
    forall i | 0 <= i < |rs|
      ensures Marks(p, rs[i]) == Marks(pe, rs[i])
      ensures if Marks(pe, rs[i]) then SameTable(pe, q, rs[i].ref)
              else rs[i].ref in q.db && q.db[rs[i].ref] == rs[i].image
    {
      assert rs[i].ref in RefSet(rs);
      PlannedTableLoads(p, rs, 0, i);
    }
    forall k | k in q.db ensures k in RefSet(rs) {
      if k !in RefSet(rs) {
        OtherTablesStay(p, rs, 0, k);
      }
    }
    if Serves(q, rs) {
      assert forall i :: 0 <= i < |rs| && Marks(pe, rs[i]) ==> rs[i].ref in q.db && Fresh(rs[i].seen, q.db[rs[i].ref]);
    }
  }

  // ---- The same as a run ---------------------------------------------------------------------------

  /** No CREATE TABLE of the build meets a table that is there. */
  predicate MayLoadAll(pe: PooledEngine, rs: seq<Resolved>, n: nat) {
    forall i :: n <= i < |rs| ==> MayLoad(pe, rs[i])
  }

  lemma {:induction false} LoadKeepsMayLoad(pe: PooledEngine, rs: seq<Resolved>, n: nat)
    requires n < |rs| && IsShared(rs) && MayLoadAll(pe, rs, n)
    ensures MayLoadAll(Materialize(pe, rs[n]), rs, n + 1)
  {
    assert forall j :: 0 <= j < |rs| && j != n ==> Content.Refs(rs)[j] != Content.Refs(rs)[n];
  }

  /** c, which builds on e, after n loads that have made its engine pe. */
  function Loaded(s: State, c: ClientId, pe: PooledEngine, n: nat): State
    requires c in s.pcs && s.pcs[c].Building?
  {
    Goto(SetEngine(s, s.pcs[c].e, pe), c, s.pcs[c].(next := n))
  }

  lemma {:induction false} LoadStep(s: State, c: ClientId, pe: PooledEngine, n: nat)
    requires WellFormedPool(s.pool) && Holding(s, c) && s.pcs[c].Building? && s.pcs[c].reconciled
    requires n < |s.pcs[c].resolved| && MayLoad(pe, s.pcs[c].resolved[n])
    ensures ValidRun(Loaded(s, c, pe, n), [Load(c)])
    ensures Final(Loaded(s, c, pe, n), [Load(c)]) == Loaded(s, c, Materialize(pe, s.pcs[c].resolved[n]), n + 1)
  {
    var t, q := Loaded(s, c, pe, n), Materialize(pe, s.pcs[c].resolved[n]);
    OneStep(t, Load(c));
    assert t.pool.engines[s.pcs[c].e := q] == s.pool.engines[s.pcs[c].e := q];
    assert t.pcs[c := s.pcs[c].(next := n + 1)] == s.pcs[c := s.pcs[c].(next := n + 1)];
  }

  lemma {:induction false} LoadRun(s: State, c: ClientId, pe: PooledEngine, n: nat) returns (run: seq<Action>)
    requires WellFormedPool(s.pool) && Holding(s, c) && s.pcs[c].Building? && s.pcs[c].reconciled
    requires n <= |s.pcs[c].resolved| && IsShared(s.pcs[c].resolved) && MayLoadAll(pe, s.pcs[c].resolved, n)
    ensures ValidRun(Loaded(s, c, pe, n), run)
    ensures var rs := s.pcs[c].resolved;
            Final(Loaded(s, c, pe, n), run) == Loaded(s, c, LoadFrom(pe, rs, n), |rs|)
    decreases |s.pcs[c].resolved| - n
  {
    var rs := s.pcs[c].resolved;
    if n == |rs| {
      run := [];
    } else {
      assert MayLoad(pe, rs[n]);
      LoadKeepsMayLoad(pe, rs, n);
      LoadStep(s, c, pe, n);
      var rest := LoadRun(s, c, Materialize(pe, rs[n]), n + 1);
      JoinRuns(Loaded(s, c, pe, n), [Load(c)], rest);
      run := [Load(c)] + rest;
    }
  }

  /** The end of a build: the engine gets its signature. */
  lemma {:induction false} FinishStep(s: State, c: ClientId)
    requires WellFormedPool(s.pool) && Holding(s, c) && s.pcs[c].Building? && s.pcs[c].reconciled
    requires s.pcs[c].sig != "" && s.pcs[c].next == |s.pcs[c].resolved|
    ensures ValidRun(s, [FinishBuild(c)])
    ensures var pc, u := s.pcs[c], Final(s, [FinishBuild(c)]);
            && c in u.pcs && u.pcs[c] == Using(pc.e, pc.resolved, pc.sig) && pc.e in u.pool.engines
            && u.pool.engines[pc.e] == s.pool.engines[pc.e].(signature := pc.sig)
  {
    OneStep(s, FinishBuild(c));
  }

  lemma {:induction false} LoadAndFinish(s: State, c: ClientId) returns (run: seq<Action>)
    requires WellFormedPool(s.pool) && Holding(s, c) && s.pcs[c].Building? && s.pcs[c].reconciled && s.pcs[c].next == 0
    requires s.pcs[c].sig != "" && IsShared(s.pcs[c].resolved)
    requires MayLoadAll(s.pool.engines[s.pcs[c].e], s.pcs[c].resolved, 0)
    ensures ValidRun(s, run)
    ensures var pc, u := s.pcs[c], Final(s, run);
            && c in u.pcs && u.pcs[c] == Using(pc.e, pc.resolved, pc.sig) && pc.e in u.pool.engines
            && u.pool.engines[pc.e] == LoadFrom(s.pool.engines[pc.e], pc.resolved, 0).(signature := pc.sig)
  {
    var pc, pe := s.pcs[c], s.pool.engines[s.pcs[c].e];
    assert s.pcs[c := pc] == s.pcs && s.pool.engines[pc.e := pe] == s.pool.engines;
    var loads := LoadRun(s, c, pe, 0);
    FinishStep(Final(s, loads), c);
    JoinRuns(s, loads, [FinishBuild(c)]);
    run := loads + [FinishBuild(c)];
  }

  lemma {:induction false} ReconcileKeepsMayLoad(pe: PooledEngine, rs: seq<Resolved>)
    requires MayLoadAll(pe, rs, 0)
    ensures MayLoadAll(DropUnwanted(pe, rs), rs, 0)
  {
    forall i | 0 <= i < |rs| ensures MayLoad(DropUnwanted(pe, rs), rs[i]) {
      assert rs[i].ref in RefSet(rs) && MayLoad(pe, rs[i]);
    }
  }

  lemma {:induction false} ReconcileStep(s: State, c: ClientId)
    requires WellFormedPool(s.pool) && Holding(s, c) && s.pcs[c].Building? && !s.pcs[c].reconciled && s.pcs[c].sig != ""
    ensures ValidRun(s, [Reconcile(c)])
    ensures var pc, u := s.pcs[c], Final(s, [Reconcile(c)]);
            && WellFormedPool(u.pool) && c in u.pcs && u.pcs[c] == pc.(reconciled := true) && pc.e in u.pool.engines
            && u.pool.engines[pc.e] == DropUnwanted(s.pool.engines[pc.e], pc.resolved)
  {
    OneStep(s, Reconcile(c));
  }

  /** From where a shared build starts to where its query runs. */
  lemma {:induction false} BuildRun(s: State, c: ClientId) returns (run: seq<Action>)
    requires WellFormedPool(s.pool) && Holding(s, c) && s.pcs[c].Building? && !s.pcs[c].reconciled && s.pcs[c].next == 0
    requires s.pcs[c].sig != "" && IsShared(s.pcs[c].resolved)
    requires MayLoadAll(s.pool.engines[s.pcs[c].e], s.pcs[c].resolved, 0)
    ensures ValidRun(s, run)
    ensures var pc, u := s.pcs[c], Final(s, run);
            && c in u.pcs && u.pcs[c] == Using(pc.e, pc.resolved, pc.sig) && pc.e in u.pool.engines
            && u.pool.engines[pc.e] ==
               LoadFrom(DropUnwanted(s.pool.engines[pc.e], pc.resolved), pc.resolved, 0).(signature := pc.sig)
  {
    var pc := s.pcs[c];
    ReconcileStep(s, c);
    ReconcileKeepsMayLoad(s.pool.engines[pc.e], pc.resolved);
    var rest := LoadAndFinish(Final(s, [Reconcile(c)]), c);
    JoinRuns(s, [Reconcile(c)], rest);
    run := [Reconcile(c)] + rest;
  }

  lemma {:induction false} PlanIsShared(s: State, c: ClientId)
    requires Inv(s) && ResolvedAll(s, c) && SigOf(s, c) != ""
    ensures IsShared(s.pcs[c].done)
  {
    var rs := s.pcs[c].done;
    assert Content.PcOk(s.sign, s.pool, s.pcs[c]) && PcOk(s.cat, s.pool, s.pcs[c]);
    forall i | 0 <= i < |rs| ensures rs[i].hasVersion && rs[i].found && Fresh(rs[i].seen, rs[i].image) {
      assert Content.ResolvedOk(rs[i]) && Current(s.cat, rs[i]);
    }
  }

  lemma {:induction false} LeaseStep(s: State, c: ClientId, e: EngineId)
    requires Enabled(s, LeaseShared(c, e)) && e in s.pool.engines && IsBlank(s.pool, e)
    ensures ValidRun(s, [LeaseShared(c, e)])
    ensures var u := Final(s, [LeaseShared(c, e)]);
            && WellFormedPool(u.pool) && c in u.pcs && u.pcs[c] == Building(e, s.pcs[c].done, SigOf(s, c), 0, false)
            && e in u.pool.engines && u.pool.engines[e] == s.pool.engines[e].(refCount := 1)
  {
    OneStep(s, LeaseShared(c, e));
  }

  /** Leases and labels do not matter to what is served. */
  lemma {:induction false} LabelledBuildServesIff(pe: PooledEngine, rs: seq<Resolved>, n: nat, sig: string)
    requires IsShared(rs) && pe.db.Keys <= pe.tables.Keys
    ensures Serves(LoadFrom(DropUnwanted(pe.(refCount := n), rs), rs, 0).(signature := sig), rs) <==> Trusts(pe, rs)
  {
    BuildServesIff(pe.(refCount := n), rs);
  }

  lemma {:induction false} BlankLeaseRun(s: State, c: ClientId, e: EngineId) returns (run: seq<Action>)
    requires Enabled(s, LeaseShared(c, e)) && e in s.pool.engines && IsBlank(s.pool, e) && IsShared(s.pcs[c].done)
    requires MayLoadAll(s.pool.engines[e], s.pcs[c].done, 0)
    ensures ValidRun(s, [LeaseShared(c, e)] + run)
    ensures var u, rs := Final(s, [LeaseShared(c, e)] + run), s.pcs[c].done;
            && c in u.pcs && u.pcs[c] == Using(e, rs, SigOf(s, c)) && e in u.pool.engines
            && u.pool.engines[e] ==
               LoadFrom(DropUnwanted(s.pool.engines[e].(refCount := 1), rs), rs, 0).(signature := SigOf(s, c))
  {
    var rs, pe := s.pcs[c].done, s.pool.engines[e];
    LeaseStep(s, c, e);
    assert forall i :: 0 <= i < |rs| ==> MayLoad(pe, rs[i]) == MayLoad(pe.(refCount := 1), rs[i]);
    run := BuildRun(Final(s, [LeaseShared(c, e)]), c);
    JoinRuns(s, [LeaseShared(c, e)], run);
  }

  /** The condition on blank engines decides: a query that leases one and builds on it is served
      exactly what it asked for if and only if the marks it trusts are right. */
  lemma {:induction false} BlankLeaseServesIff(s: State, c: ClientId, e: EngineId) returns (run: seq<Action>)
    requires Inv(s) && Enabled(s, LeaseShared(c, e)) && IsBlank(s.pool, e)
    requires MayLoadAll(s.pool.engines[e], s.pcs[c].done, 0)
    ensures ValidRun(s, [LeaseShared(c, e)] + run)
    ensures var u, rs := Final(s, [LeaseShared(c, e)] + run), s.pcs[c].done;
            && c in u.pcs && SharedUser(u.pcs[c]) && u.pcs[c].e == e && u.pcs[c].resolved == rs
            && e in u.pool.engines
            && (Serves(u.pool.engines[e], rs) <==> Trusts(s.pool.engines[e], rs))
  {
    PlanIsShared(s, c);
    run := BlankLeaseRun(s, c, e);
    LabelledBuildServesIff(s.pool.engines[e], s.pcs[c].done, 1, SigOf(s, c));
  }

  // ---- While shared builds succeed --------------------------------------------------------------------

  predicate IsEmpty(pe: PooledEngine) {
    pe.tables == map[] && pe.db == map[]
  }

  /** Blank idle engines are empty, except those about to be closed. */
  ghost predicate BlankIsEmpty(s: State)
    requires WellFormedPool(s.pool)
  {
    && (forall e :: e in s.pool.all && IsIdle(s.pool, e) && IsBlank(s.pool, e) ==>
          IsEmpty(s.pool.engines[e]) || exists d :: d in s.pcs && Leases.Discards(s.pcs[d], e))
    && (forall c :: c in s.pcs && s.pcs[c].Publishing? && s.pcs[c].e in s.pool.engines ==>
        IsEmpty(s.pool.engines[s.pcs[c].e]))
  }

  /** What the hypotheses ask for when no shared build fails. */
  ghost predicate Succeeds(s: State, a: Action)
    requires Enabled(s, a)
  {
    && Leases.Safe(s, a)
    && (a.Begin? ==> forall i :: 0 <= i < |a.refs| ==> WellFormedRef(a.refs[i]))
    && (a.Create? ==> Forgotten(s, a.k))
    && !Leases.IsGivingUp(s, a)
  }

  ghost predicate SuccessfulRun(s: State, run: seq<Action>)
    requires ValidRun(s, run)
    decreases |run|
  {
    run != [] ==> Succeeds(s, run[0]) && SuccessfulRun(Apply(s, run[0]), run[1..])
  }

  lemma {:induction false} SuccessIsSafe(s: State, a: Action)
    requires WellFormedPool(s.pool) && BlankIsEmpty(s) && Enabled(s, a) && Succeeds(s, a)
    ensures Safe(s, a)
  {
    if a.LeaseShared? { Leases.LeasedWasIdle(s, a); }
  }

  /** A held engine is not idle, so only the engine that a step gives back need be looked at. */
  lemma {:induction false} StepKeepsEmpty(s: State, a: Action)
    requires Inv(s) && BlankIsEmpty(s) && Enabled(s, a) && Succeeds(s, a) && Inv(Apply(s, a))
    ensures BlankIsEmpty(Apply(s, a))
  {
    var t := Apply(s, a);
    forall c | c in t.pcs && t.pcs[c].Publishing? && t.pcs[c].e in t.pool.engines
      ensures IsEmpty(t.pool.engines[t.pcs[c].e])
    {
      PublishedIsEmpty(s, a, c);
    }
    forall e | e in t.pool.all && IsIdle(t.pool, e) && IsBlank(t.pool, e)
      ensures IsEmpty(t.pool.engines[e]) || exists d :: d in t.pcs && Leases.Discards(t.pcs[d], e)
    {
      IdleIsEmpty(s, a, e);
    }
  }

  lemma {:induction false} PublishedIsEmpty(s: State, a: Action, c: ClientId)
    requires Content.Inv(s) && BlankIsEmpty(s) && Enabled(s, a)
    requires c in Apply(s, a).pcs && Apply(s, a).pcs[c].Publishing? && Apply(s, a).pcs[c].e in Apply(s, a).pool.engines
    ensures IsEmpty(Apply(s, a).pool.engines[Apply(s, a).pcs[c].e])
  {
    if c !in Actor(a) {
      NobodyAppears(s, a);
      OthersWait(s, a, c);
      Leases.HeldEngineStays(s, a, c);
    }
  }

  /** An engine that the acting client does not hold is leased or left as it is. */
  lemma {:induction false} UnheldStays(s: State, a: Action, e: EngineId)
    requires Enabled(s, a) && e in s.pool.all && (IsCatalog(a) || a.c !in s.pcs || HolderOf(s.pcs[a.c]) != Some(e))
    ensures var t := Apply(s, a);
            e in t.pool.engines && (t.pool.engines[e] == s.pool.engines[e] || !IsIdle(t.pool, e))
  {
  }

  /** One that it holds stays held, or is given back empty, signed or to be closed. */
  lemma {:induction false} GivenBackIsEmpty(s: State, a: Action)
    requires Leases.LeaseInv(s) && BlankIsEmpty(s) && Enabled(s, a) && !Leases.IsGivingUp(s, a)
    requires !IsCatalog(a) && a.c in s.pcs && HolderOf(s.pcs[a.c]).Some?
    requires var t, e := Apply(s, a), HolderOf(s.pcs[a.c]).value;
             e in t.pool.engines && IsIdle(t.pool, e) && IsBlank(t.pool, e)
    ensures var t, e := Apply(s, a), HolderOf(s.pcs[a.c]).value;
            IsEmpty(t.pool.engines[e]) || (a.c in t.pcs && Leases.Discards(t.pcs[a.c], e))
  {
    Leases.HeldIsOpen(s, a.c);
    if !a.LeaveShared? { Leases.OnlyHolder(s, a.c, HolderOf(s.pcs[a.c]).value); }
  }

  lemma {:induction false} DiscardersStay(s: State, a: Action, d: ClientId, e: EngineId)
    requires Enabled(s, a) && d in s.pcs && Leases.Discards(s.pcs[d], e) && e in Apply(s, a).pool.all
    ensures d in Apply(s, a).pcs && Leases.Discards(Apply(s, a).pcs[d], e)
  {
    if a == CloseDiscarded(d) { WithoutMembers(s.pool.all, {e}); }
  }

  lemma {:induction false} ReleaseOpensNothing(p: Pool, x: EngineId)
    requires WellFormedPool(p) && x in p.engines
    ensures forall e :: e in ReleaseShared(p, x).all || e in PublishIdle(p, x).all ==> e in p.all
  {
    var n := if p.engines[x].refCount > 0 then p.engines[x].refCount - 1 else 0;
    EvictOverCapKeeps(p.(engines := p.engines[x := p.engines[x].(refCount := n)]));
    EvictOverCapKeeps(p.(engines := p.engines[x := p.engines[x].(refCount := 0)]));
  }

  lemma {:induction false} OnlyOpenedAppears(s: State, a: Action, e: EngineId)
    requires Enabled(s, a) && !Leases.IsGivingUp(s, a) && e in Apply(s, a).pool.all && e !in s.pool.all
    ensures a.OpenEngine? && e == s.pool.nextId
  {
    if a.CloseDiscarded? {
      WithoutMembers(s.pool.all, {s.pcs[a.c].gone});
    } else if IsUse(a) || IsBuild(a) {
      WithoutMembers(s.pool.all, {s.pcs[a.c].e});
      ReleaseOpensNothing(s.pool, s.pcs[a.c].e);
    }
  }

  lemma {:induction false} IdleIsEmpty(s: State, a: Action, e: EngineId)
    requires Inv(s) && BlankIsEmpty(s) && Enabled(s, a) && Succeeds(s, a) && WellFormedPool(Apply(s, a).pool)
    requires var t := Apply(s, a); e in t.pool.all && IsIdle(t.pool, e) && IsBlank(t.pool, e)
    ensures var t := Apply(s, a); IsEmpty(t.pool.engines[e]) || exists d :: d in t.pcs && Leases.Discards(t.pcs[d], e)
  {
    var t := Apply(s, a);
    if e !in s.pool.all {
      OnlyOpenedAppears(s, a, e);
    } else if !IsCatalog(a) && a.c in s.pcs && HolderOf(s.pcs[a.c]) == Some(e) {
      GivenBackIsEmpty(s, a);
    } else {
      UnheldStays(s, a, e);
      if !IsEmpty(t.pool.engines[e]) {
        var d :| d in s.pcs && Leases.Discards(s.pcs[d], e);
        DiscardersStay(s, a, d, e);
      }
    }
  }

  lemma {:induction false} SuccessfulRunKeepsEmpty(s: State, run: seq<Action>)
    requires Inv(s) && BlankIsEmpty(s) && ValidRun(s, run) && SuccessfulRun(s, run)
    ensures SafeRun(s, run)
    decreases |run|
  {
    if run != [] {
      SuccessIsSafe(s, run[0]);
      StepKeepsInv(s, run[0]);
      StepKeepsEmpty(s, run[0]);
      SuccessfulRunKeepsEmpty(Apply(s, run[0]), run[1..]);
    }
  }

  /** While no shared build fails, every blank engine a build starts on is empty: the condition on
      blank engines holds by itself. */
  lemma {:induction false} SuccessfulBuildsAreTrusted(sign: Signer, run: seq<Action>)
    requires ValidRun(Init(sign), run) && SuccessfulRun(Init(sign), run)
    ensures SafeRun(Init(sign), run)
  {
    SuccessfulRunKeepsEmpty(Init(sign), run);
  }
}
