/** What pooled engines hold, over every run: an engine that carries a signature holds exactly the
    tables the signature names. */
module EnginePoolContent {
  import opened Signature
  import opened EnginePool
  import opened EnginePoolProtocol
  import Leases = EnginePoolLeases

  // ---- The hypotheses --------------------------------------------------------------------------

  /** Every planned table the engine has marked at the planned version is really there. */
  predicate HoldsMarked(pe: PooledEngine, rs: seq<Resolved>) {
    forall i :: 0 <= i < |rs| && Marks(pe, rs[i]) ==> rs[i].ref in pe.db
  }

  /** Names without separators; no engine is leased while it is discarded; and a shared build does
      not start on a blank engine whose marks it would wrongly trust. */
  ghost predicate Safe(s: State, a: Action)
    requires Enabled(s, a)
  {
    && Leases.Safe(s, a)
    && (a.Begin? ==> forall i :: 0 <= i < |a.refs| ==> WellFormedRef(a.refs[i]))
    && (a.LeaseShared? && IsBlank(s.pool, a.e) ==> HoldsMarked(s.pool.engines[a.e], s.pcs[a.c].done))
  }

  ghost predicate SafeRun(s: State, run: seq<Action>)
    requires ValidRun(s, run)
    decreases |run|
  {
    run != [] ==> Safe(s, run[0]) && SafeRun(Apply(s, run[0]), run[1..])
  }

  // ---- The invariant -----------------------------------------------------------------------------

  function Refs(rs: seq<Resolved>): (r: seq<TableRef>)
    ensures |r| == |rs|
    ensures forall i :: 0 <= i < |rs| ==> r[i] == rs[i].ref
  {
    seq(|rs|, i requires 0 <= i < |rs| => rs[i].ref)
  }

  predicate ResolvedOk(r: Resolved) {
    WellFormedRef(r.ref) && (r.hasVersion ==> r.found)
  }

  ghost predicate PlanOk(sign: Signer, rs: seq<Resolved>, sig: string) {
    && NoDuplicates(Refs(rs))
    && (forall i :: 0 <= i < |rs| ==> ResolvedOk(rs[i]))
    && (sig != "" ==> AllVersioned(rs) && sig == sign(CacheRefs(rs)))
  }

  ghost predicate ResolvingOk(sign: Signer, todo: seq<TableRef>, done: seq<Resolved>) {
    && PlanOk(sign, done, "")
    && NoDuplicates(Refs(done) + todo)
    && (forall i :: 0 <= i < |todo| ==> WellFormedRef(todo[i]))
  }

  /** The first next tables are marked, whatever is marked is there, and nothing else is marked. */
  ghost predicate BuildingOk(pe: PooledEngine, rs: seq<Resolved>, next: nat, reconciled: bool)
    requires next <= |rs|
  {
    && HoldsMarked(pe, rs)
    && (forall i :: 0 <= i < next ==> Marks(pe, rs[i]))
    && (if reconciled then pe.tables.Keys <= RefSet(rs) else next == 0)
  }

  ghost predicate PcOk(sign: Signer, pool: Pool, pc: Pc) {
    match pc
    case Resolving(_, todo, _, done) => ResolvingOk(sign, todo, done)
    case Opening(rs, sig) => PlanOk(sign, rs, sig)
    case Resetting(_, rs, sig) => PlanOk(sign, rs, sig)
    case Building(e, rs, sig, next, reconciled) =>
      && PlanOk(sign, rs, sig) && next <= |rs|
      && (sig != "" ==> e in pool.engines && BuildingOk(pool.engines[e], rs, next, reconciled))
    case Using(_, rs, sig) => PlanOk(sign, rs, sig)
    case _ => true
  }

  ghost predicate PcsOk(s: State) {
    forall c :: c in s.pcs ==> PcOk(s.sign, s.pool, s.pcs[c])
  }

  ghost predicate Represents(refs: seq<CacheRef>, tables: map<TableRef, nat>) {
    forall k, v :: CacheRef(k, v) in refs <==> k in tables && tables[k] == v
  }

  ghost predicate SignatureNames(sign: Signer, sig: string, tables: map<TableRef, nat>) {
    exists refs :: WellFormed(refs) && NoDuplicates(refs) && sig == sign(refs) && Represents(refs, tables)
  }

  /** What a signature promises: exactly its tables. */
  ghost predicate Loaded(sign: Signer, pe: PooledEngine) {
    SignatureNames(sign, pe.signature, pe.tables) && pe.db.Keys == pe.tables.Keys
  }

  /** Everything the connection holds is tracked, so that a reset empties it. */
  ghost predicate EngineOk(sign: Signer, pe: PooledEngine) {
    pe.db.Keys <= pe.tables.Keys && (pe.signature != "" ==> Loaded(sign, pe))
  }

  ghost predicate EnginesOk(sign: Signer, pool: Pool) {
    forall e :: e in pool.engines ==> EngineOk(sign, pool.engines[e])
  }

  ghost predicate ContentOk(s: State) {
    PcsOk(s) && EnginesOk(s.sign, s.pool)
  }

  ghost predicate Inv(s: State) {
    Leases.LeaseInv(s) && ContentOk(s)
  }

  // ---- Everybody else ------------------------------------------------------------------------------

  /** The pool q lets a builder keep what its engine holds. */
  predicate KeepsBuild(p: Pool, q: Pool, pc: Pc) {
    pc.Building? ==>
      && pc.e in p.engines && pc.e in q.engines
      && q.engines[pc.e].tables == p.engines[pc.e].tables && q.engines[pc.e].db == p.engines[pc.e].db
  }

  lemma {:induction false} PcStaysOk(sign: Signer, p: Pool, q: Pool, pc: Pc)
    requires PcOk(sign, p, pc) && KeepsBuild(p, q, pc)
    ensures PcOk(sign, q, pc)
  {
  }

  /** A client that does not step keeps its guarantees. */
  lemma {:induction false} OthersStayOk(s: State, a: Action, d: ClientId)
    requires Inv(s) && Enabled(s, a) && d in s.pcs && d !in Actor(a)
    ensures var t := Apply(s, a);
            d in t.pcs && t.pcs[d] == s.pcs[d] && KeepsBuild(s.pool, t.pool, s.pcs[d]) && PcOk(s.sign, t.pool, t.pcs[d])
  {
    OthersWait(s, a, d);
    if s.pcs[d].Building? { Leases.HeldEngineStays(s, a, d); }
    PcStaysOk(s.sign, s.pool, Apply(s, a).pool, s.pcs[d]);
  }

  /** So only the client that steps and the engines that change need be looked at. */
  lemma {:induction false} StepOk(s: State, a: Action)
    requires Inv(s) && Enabled(s, a) && Leases.Safe(s, a)
    requires forall c :: c in Actor(a) && c in Apply(s, a).pcs ==> PcOk(s.sign, Apply(s, a).pool, Apply(s, a).pcs[c])
    requires EnginesOk(s.sign, Apply(s, a).pool)
    ensures Inv(Apply(s, a))
  {
    var t := Apply(s, a);
    Leases.StepKeepsLeases(s, a);
    StepKeepsSigner(s, a);
    NobodyAppears(s, a);
    forall d | d in t.pcs ensures PcOk(t.sign, t.pool, t.pcs[d]) {
      if d !in Actor(a) { OthersStayOk(s, a, d); }
    }
  }

  // ---- Resolving -------------------------------------------------------------------------------------

  lemma {:induction false} RowsReadOk(sign: Signer, cat: Catalog, pc: Pc, stable: bool)
    requires pc.Resolving? && pc.todo != [] && ResolvingOk(sign, pc.todo, pc.done)
    ensures ResolvingOk(sign, pc.todo[1..], pc.done + [ResolveRows(cat, pc.todo[0], pc.pending, stable)])
  {
    var r := ResolveRows(cat, pc.todo[0], pc.pending, stable);
    var all := Refs(pc.done) + pc.todo;
    assert Refs(pc.done + [r]) + pc.todo[1..] == all;
    assert Refs(pc.done + [r]) == all[..|pc.done| + 1];
  }

  lemma {:induction false} ReadKeepsInv(s: State, a: Action)
    requires Inv(s) && Enabled(s, a) && Safe(s, a) && IsRead(a)
    ensures Inv(Apply(s, a))
  {
    if a.Begin? {
      assert Refs([]) + a.refs == a.refs;
    } else {
      assert PcOk(s.sign, s.pool, s.pcs[a.c]);
      if a.ReadRows? { RowsReadOk(s.sign, s.cat, s.pcs[a.c], a.stable); }
    }
    StepOk(s, a);
  }

  // ---- Acquiring ---------------------------------------------------------------------------------------

  lemma {:induction false} AcquireKeepsEngines(s: State, a: Action)
    requires EnginesOk(s.sign, s.pool) && Enabled(s, a) && IsAcquire(a)
    ensures EnginesOk(s.sign, Apply(s, a).pool)
  {
  }

  lemma {:induction false} AcquireKeepsPc(s: State, a: Action)
    requires Enabled(s, a) && Safe(s, a) && IsAcquire(a) && PcOk(s.sign, s.pool, s.pcs[a.c])
    ensures a.c in Apply(s, a).pcs && PcOk(s.sign, Apply(s, a).pool, Apply(s, a).pcs[a.c])
  {
  }

  lemma {:induction false} AcquireKeepsInv(s: State, a: Action)
    requires Inv(s) && Enabled(s, a) && Safe(s, a) && IsAcquire(a)
    ensures Inv(Apply(s, a))
  {
    AcquireKeepsEngines(s, a);
    AcquireKeepsPc(s, a);
    StepOk(s, a);
  }

  // ---- Building ------------------------------------------------------------------------------------------

  lemma {:induction false} ReconcileKeepsBuilding(pe: PooledEngine, rs: seq<Resolved>)
    requires BuildingOk(pe, rs, 0, false)
    ensures BuildingOk(DropUnwanted(pe, rs), rs, 0, true)
  {
    var q := DropUnwanted(pe, rs);
    forall i | 0 <= i < |rs| && Marks(q, rs[i]) ensures rs[i].ref in q.db {
      assert rs[i].ref in RefSet(rs) && Marks(pe, rs[i]);
    }
  }

  lemma {:induction false} LoadKeepsBuilding(pe: PooledEngine, rs: seq<Resolved>, n: nat)
    requires n < |rs| && NoDuplicates(Refs(rs)) && rs[n].hasVersion && rs[n].found && BuildingOk(pe, rs, n, true)
    ensures BuildingOk(Materialize(pe, rs[n]), rs, n + 1, true)
  {
    assert forall i :: 0 <= i < |rs| && i != n ==> Refs(rs)[i] != Refs(rs)[n];
    assert rs[n].ref in RefSet(rs);
  }

  lemma {:induction false} MarkedPlan(pe: PooledEngine, rs: seq<Resolved>)
    requires BuildingOk(pe, rs, |rs|, true)
    ensures Represents(CacheRefs(rs), pe.tables) && pe.tables.Keys <= pe.db.Keys
  {
    var refs := CacheRefs(rs);
    forall k, v ensures CacheRef(k, v) in refs <==> k in pe.tables && pe.tables[k] == v {
      if k in pe.tables {
        var i :| 0 <= i < |rs| && rs[i].ref == k;
        assert Marks(pe, rs[i]) && refs[i] == CacheRef(k, pe.tables[k]);
      }
      if CacheRef(k, v) in refs {
        var i :| 0 <= i < |rs| && refs[i] == CacheRef(k, v);
        assert Marks(pe, rs[i]);
      }
    }
    forall k | k in pe.tables ensures k in pe.db {
      var i :| 0 <= i < |rs| && rs[i].ref == k;
      assert Marks(pe, rs[i]);
    }
  }

  /** A finished build makes good on its signature. */
  lemma {:induction false} FinishedBuildIsLoaded(sign: Signer, pe: PooledEngine, rs: seq<Resolved>, sig: string)
    requires sig != "" && PlanOk(sign, rs, sig) && BuildingOk(pe, rs, |rs|, true) && pe.db.Keys <= pe.tables.Keys
    ensures Loaded(sign, pe.(signature := sig))
  {
    MarkedPlan(pe, rs);
    forall i, j | 0 <= i < j < |rs| ensures CacheRefs(rs)[i] != CacheRefs(rs)[j] {
      assert Refs(rs)[i] != Refs(rs)[j];
    }
    assert WellFormed(CacheRefs(rs));
  }

  predicate IsPreparing(a: Action) {
    a.ResetLeased? || a.ResetLeasedFails? || a.Reconcile?
  }

  lemma {:induction false} PrepareKeepsEngines(s: State, a: Action)
    requires EnginesOk(s.sign, s.pool) && Enabled(s, a) && IsPreparing(a)
    requires s.pool.engines[s.pcs[a.c].e].signature == ""
    ensures EnginesOk(s.sign, Apply(s, a).pool)
  {
  }

  lemma {:induction false} PrepareKeepsPc(s: State, a: Action)
    requires Enabled(s, a) && IsPreparing(a) && PcOk(s.sign, s.pool, s.pcs[a.c])
    ensures a.c in Apply(s, a).pcs && PcOk(s.sign, Apply(s, a).pool, Apply(s, a).pcs[a.c])
  {
    var pc := s.pcs[a.c];
    if a.Reconcile? && pc.sig != "" { ReconcileKeepsBuilding(s.pool.engines[pc.e], pc.resolved); }
  }

  lemma {:induction false} PrepareKeepsInv(s: State, a: Action)
    requires Inv(s) && Enabled(s, a) && IsPreparing(a)
    ensures Inv(Apply(s, a))
  {
    Leases.HeldIsOpen(s, a.c);
    PrepareKeepsEngines(s, a);
    PrepareKeepsPc(s, a);
    StepOk(s, a);
  }

  lemma {:induction false} LoadKeepsEngines(s: State, a: Action)
    requires EnginesOk(s.sign, s.pool) && Enabled(s, a) && a.Load? && s.pool.engines[s.pcs[a.c].e].signature == ""
    ensures EnginesOk(s.sign, Apply(s, a).pool)
  {
  }

  lemma {:induction false} LoadKeepsPc(s: State, a: Action)
    requires Enabled(s, a) && a.Load? && PcOk(s.sign, s.pool, s.pcs[a.c])
    ensures a.c in Apply(s, a).pcs && PcOk(s.sign, Apply(s, a).pool, Apply(s, a).pcs[a.c])
  {
    var pc := s.pcs[a.c];
    if pc.sig != "" { LoadKeepsBuilding(s.pool.engines[pc.e], pc.resolved, pc.next); }
  }

  lemma {:induction false} LoadKeepsInv(s: State, a: Action)
    requires Inv(s) && Enabled(s, a) && a.Load?
    ensures Inv(Apply(s, a))
  {
    Leases.HeldIsOpen(s, a.c);
    LoadKeepsEngines(s, a);
    LoadKeepsPc(s, a);
    StepOk(s, a);
  }

  lemma {:induction false} FinishKeepsInv(s: State, a: Action)
    requires Inv(s) && Enabled(s, a) && a.FinishBuild?
    ensures Inv(Apply(s, a))
  {
    var pc := s.pcs[a.c];
    assert PcOk(s.sign, s.pool, pc);
    Leases.HeldIsOpen(s, a.c);
    if pc.sig != "" { FinishedBuildIsLoaded(s.sign, s.pool.engines[pc.e], pc.resolved, pc.sig); }
    StepOk(s, a);
  }

  lemma {:induction false} LeftBehindIsOk(s: State, a: Action)
    requires Enabled(s, a) && (a.LoadFails? || a.ReconcileFails?) && EngineOk(s.sign, s.pool.engines[s.pcs[a.c].e])
    requires s.pool.engines[s.pcs[a.c].e].signature == ""
    ensures EngineOk(s.sign, Leases.LeftBehind(s, a))
  {
  }

  lemma {:induction false} GiveUpKeepsEngines(s: State, a: Action)
    requires EnginesOk(s.sign, s.pool) && Enabled(s, a) && (a.LoadFails? || a.ReconcileFails?)
    requires s.pool.engines[s.pcs[a.c].e].signature == ""
    ensures EnginesOk(s.sign, Apply(s, a).pool)
  {
    var pc := s.pcs[a.c];
    LeftBehindIsOk(s, a);
    var m := SetEngine(s, pc.e, Leases.LeftBehind(s, a));
    assert EnginesOk(s.sign, m.pool);
    forall e | e in Apply(s, a).pool.engines ensures EngineOk(s.sign, Apply(s, a).pool.engines[e]) {
      if pc.sig != "" { Leases.ReleaseKeepsContent(m.pool, pc.e, e); }
    }
  }

  lemma {:induction false} GiveUpKeepsInv(s: State, a: Action)
    requires Inv(s) && Enabled(s, a) && (a.LoadFails? || a.ReconcileFails?)
    ensures Inv(Apply(s, a))
  {
    assert PcOk(s.sign, s.pool, s.pcs[a.c]);
    Leases.HeldIsOpen(s, a.c);
    GiveUpKeepsEngines(s, a);
    StepOk(s, a);
  }

  /** Changes of the catalog, and the steps that follow a query. */
  predicate IsOther(a: Action) {
    IsCatalog(a) || IsUse(a) || a.CloseDiscarded?
  }

  lemma {:induction false} OtherKeepsEngines(s: State, a: Action)
    requires EnginesOk(s.sign, s.pool) && Enabled(s, a) && IsOther(a)
    requires a.Execute? ==> s.pool.engines[s.pcs[a.c].e].signature == ""
    requires a.ResetPrivateFails? ==> s.pool.engines[s.pcs[a.c].e].signature == ""
    ensures EnginesOk(s.sign, Apply(s, a).pool)
  {
  }

  lemma {:induction false} OtherKeepsPc(s: State, a: Action)
    requires Enabled(s, a) && IsOther(a) && !IsCatalog(a) && PcOk(s.sign, s.pool, s.pcs[a.c])
    ensures a.c in Apply(s, a).pcs ==> PcOk(s.sign, Apply(s, a).pool, Apply(s, a).pcs[a.c])
  {
  }

  lemma {:induction false} OtherKeepsInv(s: State, a: Action)
    requires Inv(s) && Enabled(s, a) && IsOther(a)
    ensures Inv(Apply(s, a))
  {
    if IsUse(a) { Leases.HeldIsOpen(s, a.c); }
    if !IsCatalog(a) { OtherKeepsPc(s, a); }
    OtherKeepsEngines(s, a);
    StepOk(s, a);
  }

  // ---- Every run -----------------------------------------------------------------------------------------------

  lemma {:induction false} StepKeepsInv(s: State, a: Action)
    requires Inv(s) && Enabled(s, a) && Safe(s, a)
    ensures Inv(Apply(s, a))
  {
    if IsRead(a) { ReadKeepsInv(s, a); }
    else if IsAcquire(a) { AcquireKeepsInv(s, a); }
    else if a.Load? { LoadKeepsInv(s, a); }
    else if a.FinishBuild? { FinishKeepsInv(s, a); }
    else if a.LoadFails? || a.ReconcileFails? { GiveUpKeepsInv(s, a); }
    else if IsBuild(a) { PrepareKeepsInv(s, a); }
    else { OtherKeepsInv(s, a); }
  }

  lemma {:induction false} RunKeepsInv(s: State, run: seq<Action>)
    requires Inv(s) && ValidRun(s, run) && SafeRun(s, run)
    ensures Inv(Final(s, run))
    decreases |run|
  {
    if run != [] {
      StepKeepsInv(s, run[0]);
      RunKeepsInv(Apply(s, run[0]), run[1..]);
    }
  }

  /** An engine that carries a signature holds exactly that signature's tables. */
  lemma {:induction false} SignedEngineHoldsItsTables(sign: Signer, run: seq<Action>, e: EngineId)
    requires ValidRun(Init(sign), run) && SafeRun(Init(sign), run)
    requires e in Final(Init(sign), run).pool.engines && Final(Init(sign), run).pool.engines[e].signature != ""
    ensures Loaded(sign, Final(Init(sign), run).pool.engines[e])
  {
    RunKeepsInv(Init(sign), run);
    RunKeepsSigner(Init(sign), run);
  }
}
