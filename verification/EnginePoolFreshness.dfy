/** What a query on a shared engine reads, over every run: rows of the very tables it asked for,
    no older than the versions it saw. */
module EnginePoolFreshness {
  import opened Signature
  import opened EnginePool
  import opened EnginePoolProtocol
  import Leases = EnginePoolLeases
  import Content = EnginePoolContent

  predicate Fresh(seen: Image, rows: Image) {
    rows.birth == seen.birth && seen.version <= rows.version
  }

  // ---- The hypotheses ----------------------------------------------------------------------------

  /** The query has not read k, or will never share what it read. */
  predicate Unread(pc: Pc, k: TableRef) {
    match pc
    case Resolving(readOnly, todo, pending, done) =>
      readOnly ==>
        && (pending.Seen? && todo != [] ==> todo[0] != k)
        && forall i :: 0 <= i < |done| && done[i].hasVersion ==> done[i].ref != k
    case Publishing(_) => true
    case Discarding(_) => true
    case _ => pc.sig != "" ==> forall i :: 0 <= i < |pc.resolved| ==> pc.resolved[i].ref != k
  }

  /** No open engine offers k, and no query under way will. */
  ghost predicate Forgotten(s: State, k: TableRef)
    requires WellFormedPool(s.pool)
  {
    && (forall c :: c in s.pcs ==> Unread(s.pcs[c], k))
    && (forall e :: e in s.pool.all && s.pool.engines[e].signature != "" ==> k !in s.pool.engines[e].tables)
  }

  /** Every planned table the engine has marked at the planned version is there, and fresh. */
  predicate Trusts(pe: PooledEngine, rs: seq<Resolved>) {
    forall i :: 0 <= i < |rs| && Marks(pe, rs[i]) ==> rs[i].ref in pe.db && Fresh(rs[i].seen, pe.db[rs[i].ref])
  }

  /** A table name is used again only when it is forgotten, and a shared build starts on a blank
      engine only when it rightly trusts its marks. */
  ghost predicate Safe(s: State, a: Action)
    requires Enabled(s, a)
  {
    && Content.Safe(s, a)
    && (a.Create? ==> Forgotten(s, a.k))
    && (a.LeaseShared? && IsBlank(s.pool, a.e) ==> Trusts(s.pool.engines[a.e], s.pcs[a.c].done))
  }

  ghost predicate SafeRun(s: State, run: seq<Action>)
    requires ValidRun(s, run)
    decreases |run|
  {
    run != [] ==> Safe(s, run[0]) && SafeRun(Apply(s, run[0]), run[1..])
  }

  // ---- The invariant -------------------------------------------------------------------------------

  ghost predicate CatalogOk(cat: Catalog) {
    && (forall k :: k in cat.live ==> k in cat.born && cat.live[k].birth == cat.born[k])
    && (forall k :: k in cat.born ==> cat.born[k] >= 1)
  }

  ghost predicate LookupOk(cat: Catalog, k: TableRef, seen: Image) {
    k in cat.born && seen.birth == cat.born[k] && (k in cat.live ==> seen.version <= cat.live[k].version)
  }

  /** Read from the latest table of that name. */
  predicate Current(cat: Catalog, r: Resolved) {
    r.ref in cat.born && r.seen.birth == cat.born[r.ref] && Fresh(r.seen, r.image)
  }

  predicate AllCurrent(cat: Catalog, rs: seq<Resolved>) {
    forall i :: 0 <= i < |rs| && rs[i].hasVersion ==> Current(cat, rs[i])
  }

  ghost predicate PcOk(cat: Catalog, pool: Pool, pc: Pc) {
    match pc
    case Resolving(readOnly, todo, pending, done) =>
      readOnly ==> (pending.Seen? && todo != [] ==> LookupOk(cat, todo[0], pending.image)) && AllCurrent(cat, done)
    case Building(e, rs, sig, _, _) =>
      sig != "" ==> e in pool.engines && AllCurrent(cat, rs) && Trusts(pool.engines[e], rs)
    case Publishing(_) => true
    case Discarding(_) => true
    case _ => pc.sig != "" ==> AllCurrent(cat, pc.resolved)
  }

  ghost predicate PcsOk(s: State) {
    forall c :: c in s.pcs ==> PcOk(s.cat, s.pool, s.pcs[c])
  }

  /** The table is that of the latest creation, and no older than its mark. */
  predicate Offers(cat: Catalog, pe: PooledEngine, k: TableRef) {
    k in pe.tables && k in pe.db && k in cat.born && Fresh(Image(cat.born[k], pe.tables[k]), pe.db[k])
  }

  ghost predicate EngineOk(cat: Catalog, pe: PooledEngine) {
    pe.signature != "" ==> forall k :: k in pe.tables ==> Offers(cat, pe, k)
  }

  ghost predicate EnginesOk(cat: Catalog, pool: Pool) {
    forall e :: e in pool.all && e in pool.engines ==> EngineOk(cat, pool.engines[e])
  }

  ghost predicate FreshOk(s: State) {
    CatalogOk(s.cat) && PcsOk(s) && EnginesOk(s.cat, s.pool)
  }

  ghost predicate Inv(s: State) {
    Content.Inv(s) && FreshOk(s)
  }

  // ---- Everybody else ------------------------------------------------------------------------------

  lemma {:induction false} PcStaysOk(cat: Catalog, p: Pool, q: Pool, pc: Pc)
    requires PcOk(cat, p, pc) && Content.KeepsBuild(p, q, pc)
    ensures PcOk(cat, q, pc)
  {
  }

  lemma {:induction false} OthersStayOk(s: State, a: Action, d: ClientId)
    requires Inv(s) && Enabled(s, a) && !IsCatalog(a) && d in s.pcs && d != a.c
    ensures var t := Apply(s, a);
            d in t.pcs && t.pcs[d] == s.pcs[d] && PcOk(s.cat, t.pool, t.pcs[d])
  {
    Content.OthersStayOk(s, a, d);
    PcStaysOk(s.cat, s.pool, Apply(s, a).pool, s.pcs[d]);
  }

  lemma {:induction false} StepOk(s: State, a: Action)
    requires Inv(s) && Enabled(s, a) && Safe(s, a) && !IsCatalog(a)
    requires a.c in Apply(s, a).pcs ==> PcOk(s.cat, Apply(s, a).pool, Apply(s, a).pcs[a.c])
    requires EnginesOk(s.cat, Apply(s, a).pool)
    ensures Inv(Apply(s, a))
  {
    var t := Apply(s, a);
    Content.StepKeepsInv(s, a);
    NobodyAppears(s, a);
    assert t.cat == s.cat;
    forall d | d in t.pcs ensures PcOk(t.cat, t.pool, t.pcs[d]) {
      if d != a.c { OthersStayOk(s, a, d); }
    }
  }

  /** The step signs no engine and refills no signed one. */
  ghost predicate SignsNothing(p: Pool, q: Pool) {
    forall e :: e in q.all && e in q.engines && q.engines[e].signature != "" ==>
      e in p.all && e in p.engines && Leases.SameContent(p.engines[e], q.engines[e])
  }

  lemma {:induction false} QuietStep(s: State, a: Action)
    requires Inv(s) && Enabled(s, a) && Safe(s, a) && !IsCatalog(a) && SignsNothing(s.pool, Apply(s, a).pool)
    requires a.c in Apply(s, a).pcs ==> PcOk(s.cat, Apply(s, a).pool, Apply(s, a).pcs[a.c])
    ensures Inv(Apply(s, a))
  {
    var q := Apply(s, a).pool;
    forall e | e in q.all && e in q.engines ensures EngineOk(s.cat, q.engines[e]) {
      if e in s.pool.all { assert EngineOk(s.cat, s.pool.engines[e]); }
    }
    StepOk(s, a);
  }

  // ---- The catalog moves on --------------------------------------------------------------------------

  /** Nothing is known of the table that is created, and other tables only move on. */
  ghost predicate MovesOn(cat: Catalog, next: Catalog, created: set<TableRef>) {
    && CatalogOk(next)
    && (forall k :: k in cat.born && k !in created ==> k in next.born && next.born[k] == cat.born[k])
    && (forall k :: k in next.live && k !in created ==> k in cat.live && cat.live[k].version <= next.live[k].version)
  }

  lemma {:induction false} PcMovesOn(cat: Catalog, next: Catalog, created: set<TableRef>, pool: Pool, pc: Pc)
    requires MovesOn(cat, next, created) && PcOk(cat, pool, pc) && forall k :: k in created ==> Unread(pc, k)
    requires pc.Resolving? || pc.Publishing? || pc.Discarding? || pc.sig == "" || AllVersioned(pc.resolved)
    ensures PcOk(next, pool, pc)
  {
  }

  lemma {:induction false} CatalogKeepsInv(s: State, a: Action)
    requires Inv(s) && Enabled(s, a) && Safe(s, a) && IsCatalog(a)
    ensures Inv(Apply(s, a))
  {
    var t := Apply(s, a);
    var created := if a.Create? then {a.k} else {};
    Content.StepKeepsInv(s, a);
    assert MovesOn(s.cat, t.cat, created);
    forall c | c in t.pcs ensures PcOk(t.cat, t.pool, t.pcs[c]) {
      assert Content.PcOk(s.sign, s.pool, s.pcs[c]) && PcOk(s.cat, s.pool, s.pcs[c]);
      PcMovesOn(s.cat, t.cat, created, s.pool, s.pcs[c]);
    }
    forall e | e in t.pool.all && e in t.pool.engines ensures EngineOk(t.cat, t.pool.engines[e]) {
      assert EngineOk(s.cat, s.pool.engines[e]);
    }
  }

  // ---- Resolving and acquiring -----------------------------------------------------------------------

  lemma {:induction false} ReadKeepsInv(s: State, a: Action)
    requires Inv(s) && Enabled(s, a) && Safe(s, a) && IsRead(a)
    ensures Inv(Apply(s, a))
  {
    if !a.Begin? { assert PcOk(s.cat, s.pool, s.pcs[a.c]); }
    StepOk(s, a);
  }

  lemma {:induction false} AcquireKeepsInv(s: State, a: Action)
    requires Inv(s) && Enabled(s, a) && Safe(s, a) && IsAcquire(a)
    ensures Inv(Apply(s, a))
  {
    assert PcOk(s.cat, s.pool, s.pcs[a.c]);
    StepOk(s, a);
  }

  // ---- Building --------------------------------------------------------------------------------------------

  lemma {:induction false} ReconcileKeepsTrust(pe: PooledEngine, rs: seq<Resolved>)
    requires Trusts(pe, rs)
    ensures Trusts(DropUnwanted(pe, rs), rs)
  {
    var q := DropUnwanted(pe, rs);
    forall i | 0 <= i < |rs| && Marks(q, rs[i]) ensures rs[i].ref in q.db && Fresh(rs[i].seen, q.db[rs[i].ref]) {
      assert rs[i].ref in RefSet(rs) && Marks(pe, rs[i]);
    }
  }

  lemma {:induction false} LoadKeepsTrust(pe: PooledEngine, rs: seq<Resolved>, n: nat)
    requires n < |rs| && NoDuplicates(Content.Refs(rs)) && rs[n].found && Fresh(rs[n].seen, rs[n].image)
    requires Trusts(pe, rs)
    ensures Trusts(Materialize(pe, rs[n]), rs)
  {
    assert forall i :: 0 <= i < |rs| && i != n ==> Content.Refs(rs)[i] != Content.Refs(rs)[n];
  }

  lemma {:induction false} FinishedBuildIsFresh(cat: Catalog, pe: PooledEngine, rs: seq<Resolved>)
    requires AllVersioned(rs) && AllCurrent(cat, rs) && Trusts(pe, rs) && Content.BuildingOk(pe, rs, |rs|, true)
    ensures forall k :: k in pe.tables ==> Offers(cat, pe, k)
  {
    forall k | k in pe.tables ensures Offers(cat, pe, k) {
      var i :| 0 <= i < |rs| && rs[i].ref == k;
      assert Marks(pe, rs[i]) && Current(cat, rs[i]);
    }
  }

  lemma {:induction false} PreparingSignsNothing(s: State, a: Action)
    requires Leases.LeaseInv(s) && Enabled(s, a) && (Content.IsPreparing(a) || a.Load?)
    ensures SignsNothing(s.pool, Apply(s, a).pool)
  {
    Leases.HeldIsOpen(s, a.c);
    WithoutMembers(s.pool.all, {s.pcs[a.c].e});
  }

  lemma {:induction false} PrepareKeepsInv(s: State, a: Action)
    requires Inv(s) && Enabled(s, a) && Content.IsPreparing(a)
    ensures Inv(Apply(s, a))
  {
    var pc := s.pcs[a.c];
    assert PcOk(s.cat, s.pool, pc);
    PreparingSignsNothing(s, a);
    if a.Reconcile? && pc.sig != "" { ReconcileKeepsTrust(s.pool.engines[pc.e], pc.resolved); }
    QuietStep(s, a);
  }

  lemma {:induction false} LoadKeepsInv(s: State, a: Action)
    requires Inv(s) && Enabled(s, a) && a.Load?
    ensures Inv(Apply(s, a))
  {
    var pc := s.pcs[a.c];
    assert PcOk(s.cat, s.pool, pc) && Content.PcOk(s.sign, s.pool, pc);
    PreparingSignsNothing(s, a);
    if pc.sig != "" {
      assert Current(s.cat, pc.resolved[pc.next]) && Content.ResolvedOk(pc.resolved[pc.next]);
      LoadKeepsTrust(s.pool.engines[pc.e], pc.resolved, pc.next);
    }
    QuietStep(s, a);
  }

  lemma {:induction false} FinishKeepsInv(s: State, a: Action)
    requires Inv(s) && Enabled(s, a) && a.FinishBuild?
    ensures Inv(Apply(s, a))
  {
    var pc := s.pcs[a.c];
    assert PcOk(s.cat, s.pool, pc) && Content.PcOk(s.sign, s.pool, pc);
    Leases.HeldIsOpen(s, a.c);
    if pc.sig != "" { FinishedBuildIsFresh(s.cat, s.pool.engines[pc.e], pc.resolved); }
    StepOk(s, a);
  }

  // ---- Leaving ---------------------------------------------------------------------------------------------

  lemma {:induction false} ReleaseSignsNothing(p: Pool, x: EngineId)
    requires WellFormedPool(p) && x in p.engines
    ensures SignsNothing(p, ReleaseShared(p, x)) && SignsNothing(p, PublishIdle(p, x))
  {
    var n := if p.engines[x].refCount > 0 then p.engines[x].refCount - 1 else 0;
    EvictOverCapKeeps(p.(engines := p.engines[x := p.engines[x].(refCount := n)]));
    EvictOverCapKeeps(p.(engines := p.engines[x := p.engines[x].(refCount := 0)]));
  }

  lemma {:induction false} GiveUpSignsNothing(s: State, a: Action)
    requires Leases.LeaseInv(s) && Enabled(s, a) && Leases.IsGivingUp(s, a)
    ensures SignsNothing(s.pool, Apply(s, a).pool)
  {
    var e := s.pcs[a.c].e;
    Leases.HeldIsOpen(s, a.c);
    Leases.LeavesBehind(s, a);
    var p, m := s.pool, SetEngine(s, e, Leases.LeftBehind(s, a));
    ReleaseSignsNothing(m.pool, e);
    assert forall x :: x in p.all && x != e ==> m.pool.engines[x] == p.engines[x];
    assert m.pool.engines[e].signature == "";
  }

  /** A failed load on a private engine, or one of the steps that follow a query. */
  predicate IsLast(s: State, a: Action) {
    IsUse(a) || a.CloseDiscarded? || (a.LoadFails? && a.c in s.pcs && s.pcs[a.c].Building? && s.pcs[a.c].sig == "")
  }

  lemma {:induction false} ReleasingSignsNothing(s: State, a: Action)
    requires WellFormedPool(s.pool) && Enabled(s, a) && (a.LeaveShared? || a.LeavePrivate?)
    ensures SignsNothing(s.pool, Apply(s, a).pool)
  {
    ReleaseSignsNothing(s.pool, s.pcs[a.c].e);
  }

  lemma {:induction false} LastSignsNothing(s: State, a: Action)
    requires Leases.LeaseInv(s) && Enabled(s, a) && IsLast(s, a)
    ensures SignsNothing(s.pool, Apply(s, a).pool)
  {
    if a.CloseDiscarded? {
      WithoutMembers(s.pool.all, {s.pcs[a.c].gone});
    } else if a.LeaveShared? || a.LeavePrivate? {
      ReleasingSignsNothing(s, a);
    } else {
      Leases.HeldIsOpen(s, a.c);
    }
  }

  lemma {:induction false} LeavingPromisesNothing(s: State, a: Action)
    requires Enabled(s, a) && (IsLast(s, a) || Leases.IsGivingUp(s, a))
    ensures a.c in Apply(s, a).pcs ==> PcOk(s.cat, Apply(s, a).pool, Apply(s, a).pcs[a.c])
  {
  }

  lemma {:induction false} LeaveKeepsInv(s: State, a: Action)
    requires Inv(s) && Enabled(s, a) && Safe(s, a) && (IsLast(s, a) || Leases.IsGivingUp(s, a))
    ensures Inv(Apply(s, a))
  {
    if IsLast(s, a) { LastSignsNothing(s, a); } else { GiveUpSignsNothing(s, a); }
    LeavingPromisesNothing(s, a);
    QuietStep(s, a);
  }

  // ---- Every run ----------------------------------------------------------------------------------------------

  lemma {:induction false} StepKeepsInv(s: State, a: Action)
    requires Inv(s) && Enabled(s, a) && Safe(s, a)
    ensures Inv(Apply(s, a))
  {
    if IsCatalog(a) { CatalogKeepsInv(s, a); }
    else if IsRead(a) { ReadKeepsInv(s, a); }
    else if IsAcquire(a) { AcquireKeepsInv(s, a); }
    else if a.Load? { LoadKeepsInv(s, a); }
    else if a.FinishBuild? { FinishKeepsInv(s, a); }
    else if Content.IsPreparing(a) { PrepareKeepsInv(s, a); }
    else { LeaveKeepsInv(s, a); }
  }

  lemma {:induction false} RunKeepsInv(s: State, run: seq<Action>)
    requires Inv(s) && ValidRun(s, run) && SafeRun(s, run)
    ensures Inv(Final(s, run))
    decreases |run|
  {
    if run != [] {
      StepKeepsInv(s, run[0]);
      RunKeepsInv(Apply(s, run[0]), run[1..]);
    }
  }
}
