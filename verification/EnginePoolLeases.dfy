/** Leases on engines, whatever the tables are called, however often they are created, and whether
    or not loads and resets succeed. */
module EnginePoolLeases {
  import opened Options
  import opened EnginePool
  import opened EnginePoolProtocol

  predicate Discards(pc: Pc, e: EngineId) {
    pc.Discarding? && pc.gone == e
  }

  /** The hypothesis: no engine is leased between the failed reset that publishes it as idle and
      the close that follows. */
  ghost predicate Safe(s: State, a: Action) {
    a.LeaseShared? || a.LeasePrivate? ==> forall d :: d in s.pcs ==> !Discards(s.pcs[d], a.e)
  }

  ghost predicate SafeRun(s: State, run: seq<Action>)
    requires ValidRun(s, run)
    decreases |run|
  {
    run != [] ==> Safe(s, run[0]) && SafeRun(Apply(s, run[0]), run[1..])
  }

  // ---- The invariant -----------------------------------------------------------------------

  /** A shared reader's engine carries its signature; any other holder's carries none. */
  predicate SignedFor(pe: PooledEngine, pc: Pc) {
    pe.signature == if pc.Using? then pc.sig else ""
  }

  predicate IsAbandoned(pool: Pool, e: EngineId) {
    e in pool.engines && IsIdle(pool, e) && IsBlank(pool, e)
  }

  predicate LeaseOk(pool: Pool, pc: Pc) {
    match HolderOf(pc)
    case Some(e) => e in pool.all && e in pool.engines && SignedFor(pool.engines[e], pc)
    case None => pc.Discarding? ==> IsAbandoned(pool, pc.gone)
  }

  ghost predicate LeasesOk(s: State) {
    forall c :: c in s.pcs ==> LeaseOk(s.pool, s.pcs[c])
  }

  /** refCount is the number of outstanding leases. */
  ghost predicate CountsOk(s: State)
    requires WellFormedPool(s.pool)
  {
    forall e :: e in s.pool.all ==> s.pool.engines[e].refCount == |Holders(s.pcs, e)|
  }

  predicate SameEngine(a: Pc, b: Pc) {
    HolderOf(a).Some? && HolderOf(a) == HolderOf(b)
  }

  /** Only shared readers ever have company. */
  ghost predicate ExclusiveOk(s: State) {
    forall c, d :: c in s.pcs && d in s.pcs && c != d && SameEngine(s.pcs[c], s.pcs[d]) ==> SharedUser(s.pcs[c])
  }

  ghost predicate LeaseInv(s: State) {
    WellFormedPool(s.pool) && LeasesOk(s) && CountsOk(s) && ExclusiveOk(s)
  }

  lemma {:induction false} IdleIsUnheld(s: State, e: EngineId)
    requires LeaseInv(s) && e in s.pool.all && IsIdle(s.pool, e)
    ensures Holders(s.pcs, e) == {}
    ensures forall c :: c in s.pcs ==> HolderOf(s.pcs[c]) != Some(e)
  {
    assert forall c :: c in s.pcs && HolderOf(s.pcs[c]) == Some(e) ==> c in Holders(s.pcs, e);
  }

  lemma {:induction false} OnlyHolder(s: State, c: ClientId, e: EngineId)
    requires LeaseInv(s) && c in s.pcs && HolderOf(s.pcs[c]) == Some(e) && !SharedUser(s.pcs[c])
    ensures e in s.pool.all && Holders(s.pcs, e) == {c} && s.pool.engines[e].refCount == 1
    ensures forall d :: d in s.pcs && d != c ==> HolderOf(s.pcs[d]) != Some(e)
  {
    assert LeaseOk(s.pool, s.pcs[c]);
    assert Holders(s.pcs, e) == {c};
  }

  lemma {:induction false} HeldIsOpen(s: State, c: ClientId)
    requires LeaseInv(s) && c in s.pcs && HolderOf(s.pcs[c]).Some?
    ensures var e := HolderOf(s.pcs[c]).value;
            e in s.pool.all && s.pool.engines[e].refCount > 0 && SignedFor(s.pool.engines[e], s.pcs[c])
  {
    assert LeaseOk(s.pool, s.pcs[c]);
    assert c in Holders(s.pcs, HolderOf(s.pcs[c]).value);
  }

  // ---- Kinds of steps --------------------------------------------------------------------------

  /** The pool lets each holder but c keep its engine and signature, and leases nothing abandoned. */
  ghost predicate OthersKeep(s: State, t: State, c: ClientId) {
    forall d :: d in s.pcs && d != c ==>
      match HolderOf(s.pcs[d])
      case Some(e) =>
        && e in t.pool.all && e in t.pool.engines && e in s.pool.engines
        && t.pool.engines[e].signature == s.pool.engines[e].signature
      case None => s.pcs[d].Discarding? ==> IsAbandoned(t.pool, s.pcs[d].gone)
  }

  lemma {:induction false} OthersStayOk(s: State, t: State, c: ClientId)
    requires LeasesOk(s) && OthersKeep(s, t, c)
    requires forall d :: d in t.pcs && d != c ==> d in s.pcs && t.pcs[d] == s.pcs[d]
    requires c in t.pcs ==> LeaseOk(t.pool, t.pcs[c])
    ensures LeasesOk(t)
  {
    forall d | d in t.pcs ensures LeaseOk(t.pool, t.pcs[d]) {
      if d != c { assert LeaseOk(s.pool, s.pcs[d]); }
    }
  }

  /** A client that holds nothing before and after. */
  lemma {:induction false} IdleStep(s: State, t: State, c: ClientId)
    requires LeaseInv(s) && t.pool == s.pool && c in t.pcs && t.pcs == s.pcs[c := t.pcs[c]]
    requires (c in s.pcs ==> HolderOf(s.pcs[c]).None?) && HolderOf(t.pcs[c]).None? && LeaseOk(t.pool, t.pcs[c])
    ensures LeaseInv(t)
  {
    assert forall d :: d in s.pcs ==> LeaseOk(s.pool, s.pcs[d]);
    OthersStayOk(s, t, c);
    forall e ensures Holders(t.pcs, e) == Holders(s.pcs, e) {
      HoldersAfterGoto(s.pcs, c, t.pcs[c], e);
      assert c !in Holders(s.pcs, e);
    }
    assert CountsOk(t) && ExclusiveOk(t);
  }

  lemma {:induction false} HeldIsNotDiscarded(s: State, c: ClientId, e: EngineId)
    requires LeaseInv(s) && c in s.pcs && HolderOf(s.pcs[c]) == Some(e)
    ensures forall d :: d in s.pcs ==> !Discards(s.pcs[d], e)
  {
    HeldIsOpen(s, c);
    forall d | d in s.pcs ensures !Discards(s.pcs[d], e) { assert LeaseOk(s.pool, s.pcs[d]); }
  }

  /** The only holder of an engine works on it and goes on holding it. */
  lemma {:induction false} OwnStep(s: State, t: State, c: ClientId, e: EngineId)
    requires LeaseInv(s) && c in s.pcs && HolderOf(s.pcs[c]) == Some(e) && !SharedUser(s.pcs[c])
    requires e in t.pool.engines && t.pool == s.pool.(engines := s.pool.engines[e := t.pool.engines[e]])
    requires t.pool.engines[e].refCount == 1
    requires c in t.pcs && t.pcs == s.pcs[c := t.pcs[c]] && HolderOf(t.pcs[c]) == Some(e)
    requires SignedFor(t.pool.engines[e], t.pcs[c])
    ensures LeaseInv(t)
  {
    OnlyHolder(s, c, e);
    HeldIsNotDiscarded(s, c, e);
    assert forall d :: d in s.pcs ==> LeaseOk(s.pool, s.pcs[d]);
    OthersStayOk(s, t, c);
    forall x ensures Holders(t.pcs, x) == Holders(s.pcs, x) { HoldersAfterGoto(s.pcs, c, t.pcs[c], x); }
    assert CountsOk(t) && ExclusiveOk(t);
  }

  lemma {:induction false} FirstHolder(pcs: map<ClientId, Pc>, c: ClientId, pc: Pc, e: EngineId, x: EngineId)
    requires (c in pcs ==> HolderOf(pcs[c]).None?) && HolderOf(pc) == Some(e)
    requires forall d :: d in pcs ==> HolderOf(pcs[d]) != Some(e)
    ensures Holders(pcs[c := pc], x) == if x == e then {c} else Holders(pcs, x)
  {
    HoldersAfterGoto(pcs, c, pc, x);
    assert c !in Holders(pcs, x);
    assert Holders(pcs, e) == {};
  }

  /** Besides e the engines are what they were. */
  ghost predicate OnlyGains(p: Pool, q: Pool, e: EngineId) {
    && (forall x :: x in p.engines && x != e ==> x in q.engines && q.engines[x] == p.engines[x])
    && (forall x :: x in q.all && x != e ==> x in p.all)
    && (forall x :: x in p.all ==> x in q.all)
  }

  lemma {:induction false} GainCounts(s: State, t: State, c: ClientId, e: EngineId)
    requires WellFormedPool(s.pool) && CountsOk(s) && WellFormedPool(t.pool) && OnlyGains(s.pool, t.pool, e)
    requires (c in s.pcs ==> HolderOf(s.pcs[c]).None?) && forall d :: d in s.pcs ==> HolderOf(s.pcs[d]) != Some(e)
    requires e in t.pool.all && t.pool.engines[e].refCount == 1
    requires c in t.pcs && t.pcs == s.pcs[c := t.pcs[c]] && HolderOf(t.pcs[c]) == Some(e)
    ensures CountsOk(t)
  {
    forall x | x in t.pool.all ensures t.pool.engines[x].refCount == |Holders(t.pcs, x)| {
      FirstHolder(s.pcs, c, t.pcs[c], e, x);
    }
  }

  /** An engine without holders gets its first. */
  lemma {:induction false} GainStep(s: State, t: State, c: ClientId, e: EngineId)
    requires LeaseInv(s) && WellFormedPool(t.pool) && (c in s.pcs ==> HolderOf(s.pcs[c]).None?)
    requires forall d :: d in s.pcs ==> HolderOf(s.pcs[d]) != Some(e) && !Discards(s.pcs[d], e)
    requires OnlyGains(s.pool, t.pool, e) && e in t.pool.all && t.pool.engines[e].refCount == 1
    requires c in t.pcs && t.pcs == s.pcs[c := t.pcs[c]] && HolderOf(t.pcs[c]) == Some(e)
    requires SignedFor(t.pool.engines[e], t.pcs[c])
    ensures LeaseInv(t)
  {
    assert forall d :: d in s.pcs ==> LeaseOk(s.pool, s.pcs[d]);
    OthersStayOk(s, t, c);
    GainCounts(s, t, c, e);
    assert ExclusiveOk(t);
  }

  /** A reader joins an engine that carries a signature. */
  lemma {:induction false} JoinStep(s: State, t: State, c: ClientId, e: EngineId)
    requires LeaseInv(s) && (c in s.pcs ==> HolderOf(s.pcs[c]).None?) && e in s.pool.all
    requires s.pool.engines[e].signature != ""
    requires t.pool == AddLease(s.pool, e) && c in t.pcs && t.pcs == s.pcs[c := t.pcs[c]]
    requires HolderOf(t.pcs[c]) == Some(e) && SharedUser(t.pcs[c]) && SignedFor(t.pool.engines[e], t.pcs[c])
    ensures LeaseInv(t)
  {
    assert forall d :: d in s.pcs ==> LeaseOk(s.pool, s.pcs[d]);
    OthersStayOk(s, t, c);
    assert CountsOk(t) by {
      forall x | x in t.pool.all ensures t.pool.engines[x].refCount == |Holders(t.pcs, x)| {
        HoldersAfterGoto(s.pcs, c, t.pcs[c], x);
        assert c !in Holders(s.pcs, x);
      }
    }
    assert ExclusiveOk(t) by {
      forall x, y | x in t.pcs && y in t.pcs && x != y && SameEngine(t.pcs[x], t.pcs[y]) ensures SharedUser(t.pcs[x]) {
        if x != c { assert LeaseOk(s.pool, s.pcs[x]); }
      }
    }
  }

  /** One lease less on e, before any eviction. */
  function Unlease(s: State, c: ClientId, e: EngineId): State
    requires e in s.pool.engines && s.pool.engines[e].refCount > 0
  {
    Leave(SetEngine(s, e, s.pool.engines[e].(refCount := s.pool.engines[e].refCount - 1)), c)
  }

  lemma {:induction false} DropLease(s: State, c: ClientId, e: EngineId)
    requires LeaseInv(s) && c in s.pcs && HolderOf(s.pcs[c]) == Some(e)
    ensures e in s.pool.engines && s.pool.engines[e].refCount > 0 && LeaseInv(Unlease(s, c, e))
  {
    HeldIsOpen(s, c);
    HeldIsNotDiscarded(s, c, e);
    var t := Unlease(s, c, e);
    assert forall d :: d in s.pcs ==> LeaseOk(s.pool, s.pcs[d]);
    OthersStayOk(s, t, c);
    assert c in Holders(s.pcs, e);
    assert CountsOk(t) by {
      forall x | x in t.pool.all ensures t.pool.engines[x].refCount == |Holders(t.pcs, x)| {
        HoldersAfterLeave(s.pcs, c, x);
        if x != e { assert Holders(s.pcs, x) - {c} == Holders(s.pcs, x); }
      }
    }
    assert ExclusiveOk(t);
  }

  lemma {:induction false} EvictionKeepsLeases(s: State)
    requires LeaseInv(s)
    ensures LeaseInv(s.(pool := EvictOverCap(s.pool)))
  {
    var t := s.(pool := EvictOverCap(s.pool));
    EvictOverCapKeeps(s.pool);
    forall c | c in t.pcs ensures LeaseOk(t.pool, t.pcs[c]) {
      assert LeaseOk(s.pool, s.pcs[c]);
      if HolderOf(s.pcs[c]).Some? { HeldIsOpen(s, c); }
    }
  }

  lemma {:induction false} ReleaseKeepsLeases(s: State, c: ClientId, e: EngineId)
    requires LeaseInv(s) && c in s.pcs && HolderOf(s.pcs[c]) == Some(e)
    ensures e in s.pool.engines && LeaseInv(Leave(s.(pool := ReleaseShared(s.pool, e)), c))
    ensures s.pcs[c].Publishing? ==> PublishIdle(s.pool, e) == ReleaseShared(s.pool, e)
  {
    DropLease(s, c, e);
    EvictionKeepsLeases(Unlease(s, c, e));
    if s.pcs[c].Publishing? { OnlyHolder(s, c, e); }
  }

  /** The only holder of an engine closes it. */
  lemma {:induction false} DiscardStep(s: State, c: ClientId, e: EngineId, pc: Pc)
    requires LeaseInv(s) && c in s.pcs && HolderOf(s.pcs[c]) == Some(e) && !SharedUser(s.pcs[c]) && pc.Opening?
    ensures LeaseInv(Goto(s.(pool := Discard(s.pool, e)), c, pc))
  {
    OnlyHolder(s, c, e);
    var t := Goto(s.(pool := Discard(s.pool, e)), c, pc);
    WithoutMembers(s.pool.all, {e});
    assert forall d :: d in s.pcs ==> LeaseOk(s.pool, s.pcs[d]);
    OthersStayOk(s, t, c);
    assert CountsOk(t) by {
      forall x | x in t.pool.all ensures Holders(t.pcs, x) == Holders(s.pcs, x) {
        HoldersAfterGoto(s.pcs, c, pc, x);
        assert c !in Holders(s.pcs, x);
      }
    }
    assert ExclusiveOk(t);
  }

  // ---- Every step ------------------------------------------------------------------------------------

  lemma {:induction false} LeasedWasIdle(s: State, a: Action)
    requires WellFormedPool(s.pool) && Enabled(s, a) && (a.LeaseShared? || a.LeasePrivate?)
    ensures a.e in s.pool.all && a.e in s.pool.engines && IsIdle(s.pool, a.e)
    ensures Apply(s, a).pool == Lease(s.pool, a.e)
  {
  }

  lemma {:induction false} AcquireKeepsLeases(s: State, a: Action)
    requires LeaseInv(s) && Enabled(s, a) && Safe(s, a) && IsAcquire(a)
    ensures LeaseInv(Apply(s, a))
  {
    var t := Apply(s, a);
    if a.JoinShared? {
      JoinStep(s, t, a.c, a.e);
    } else if a.LeaseShared? || a.LeasePrivate? {
      LeasedWasIdle(s, a);
      IdleIsUnheld(s, a.e);
      GainStep(s, t, a.c, a.e);
    } else if a.NoEngine? {
      IdleStep(s, t, a.c);
    } else {
      OpenKeepsLeases(s, a);
    }
  }

  lemma {:induction false} OpenIsWellFormed(p: Pool)
    requires WellFormedPool(p)
    ensures WellFormedPool(Open(p)) && p.nextId in Open(p).all && p.nextId !in p.all
    ensures forall x :: x in Open(p).all && x != p.nextId ==> x in p.all
    ensures forall x :: x in p.all ==> x in Open(p).all
  {
    var all := Open(p).all;
    assert all[|p.all|] == p.nextId && forall i :: 0 <= i < |p.all| ==> all[i] == p.all[i];
    assert p.nextId !in p.all;
    forall i, j | 0 <= i < j < |all| ensures all[i] != all[j] { assert all[i] in p.all; }
  }

  lemma {:induction false} OpenKeepsLeases(s: State, a: Action)
    requires LeaseInv(s) && Enabled(s, a) && a.OpenEngine?
    ensures LeaseInv(Apply(s, a))
  {
    var e, t := s.pool.nextId, Apply(s, a);
    assert e !in s.pool.engines && t.pool == Open(s.pool) && t.pool.engines[e] == FreshEngine;
    forall d | d in s.pcs ensures HolderOf(s.pcs[d]) != Some(e) && !Discards(s.pcs[d], e) {
      assert LeaseOk(s.pool, s.pcs[d]);
    }
    OpenIsWellFormed(s.pool);
    GainStep(s, t, a.c, e);
  }

  /** A step of a holder on its own engine that keeps it. */
  predicate IsOwnStep(s: State, a: Action) {
    || a.ResetLeased? || a.Reconcile? || a.Load? || a.FinishBuild? || a.Execute? || a.ResetPrivate?
    || (a.LoadFails? && a.c in s.pcs && s.pcs[a.c].Building? && s.pcs[a.c].sig == "")
  }

  lemma {:induction false} OwnStepKeepsLeases(s: State, a: Action)
    requires LeaseInv(s) && Enabled(s, a) && IsOwnStep(s, a)
    ensures LeaseInv(Apply(s, a))
  {
    var e := s.pcs[a.c].e;
    HeldIsOpen(s, a.c);
    OnlyHolder(s, a.c, e);
    var t := Apply(s, a);
    assert t.pcs == s.pcs[a.c := t.pcs[a.c]];
    OwnStep(s, t, a.c, e);
  }

  /** A step of a query that fails on a shared engine, and gives it back. */
  predicate IsGivingUp(s: State, a: Action) {
    (a.LoadFails? || a.ReconcileFails?) && a.c in s.pcs && s.pcs[a.c].Building? && s.pcs[a.c].sig != ""
  }

  /** What it leaves behind. */
  ghost function LeftBehind(s: State, a: Action): PooledEngine
    requires Enabled(s, a) && (a.LoadFails? || a.ReconcileFails?)
  {
    var pc := s.pcs[a.c];
    var pe := s.pool.engines[pc.e];
    if a.LoadFails? then Spoil(pe, pc.resolved[pc.next], a.failure) else DropTables(pe, a.dropped)
  }

  lemma {:induction false} LeavesBehind(s: State, a: Action)
    requires LeaseInv(s) && Enabled(s, a) && IsGivingUp(s, a)
    ensures var m := SetEngine(s, s.pcs[a.c].e, LeftBehind(s, a));
            && LeaseInv(m) && Apply(s, a) == Leave(m.(pool := ReleaseShared(m.pool, s.pcs[a.c].e)), a.c)
  {
    var e := s.pcs[a.c].e;
    HeldIsOpen(s, a.c);
    OnlyHolder(s, a.c, e);
    var m := SetEngine(s, e, LeftBehind(s, a));
    assert m.pcs == s.pcs[a.c := m.pcs[a.c]];
    OwnStep(s, m, a.c, e);
  }

  lemma {:induction false} GiveUpKeepsLeases(s: State, a: Action)
    requires LeaseInv(s) && Enabled(s, a) && IsGivingUp(s, a)
    ensures LeaseInv(Apply(s, a))
  {
    LeavesBehind(s, a);
    ReleaseKeepsLeases(SetEngine(s, s.pcs[a.c].e, LeftBehind(s, a)), a.c, s.pcs[a.c].e);
  }

  /** A failed reset: the lease is given up, and the engine is still in the list. */
  lemma {:induction false} FailedResetKeepsLeases(s: State, a: Action)
    requires LeaseInv(s) && Enabled(s, a) && a.ResetPrivateFails?
    ensures LeaseInv(Apply(s, a))
  {
    var e := s.pcs[a.c].e;
    HeldIsOpen(s, a.c);
    OnlyHolder(s, a.c, e);
    HeldIsNotDiscarded(s, a.c, e);
    var t := Apply(s, a);
    assert forall d :: d in s.pcs ==> LeaseOk(s.pool, s.pcs[d]);
    OthersStayOk(s, t, a.c);
    assert CountsOk(t) by {
      forall x ensures Holders(t.pcs, x) == if x == e then {} else Holders(s.pcs, x) {
        HoldersAfterGoto(s.pcs, a.c, t.pcs[a.c], x);
      }
    }
    assert ExclusiveOk(t);
  }

  lemma {:induction false} DiscardedIsUnheld(s: State, c: ClientId)
    requires LeaseInv(s) && c in s.pcs && s.pcs[c].Discarding?
    ensures forall d :: d in s.pcs ==> HolderOf(s.pcs[d]) != Some(s.pcs[c].gone)
  {
    assert LeaseOk(s.pool, s.pcs[c]);
    if s.pcs[c].gone in s.pool.all { IdleIsUnheld(s, s.pcs[c].gone); }
    forall d | d in s.pcs ensures HolderOf(s.pcs[d]) != Some(s.pcs[c].gone) { assert LeaseOk(s.pool, s.pcs[d]); }
  }

  /** The close that follows a failed reset. */
  lemma {:induction false} CloseKeepsLeases(s: State, a: Action)
    requires LeaseInv(s) && Enabled(s, a) && a.CloseDiscarded?
    ensures LeaseInv(Apply(s, a))
  {
    DiscardedIsUnheld(s, a.c);
    var t := Apply(s, a);
    WithoutMembers(s.pool.all, {s.pcs[a.c].gone});
    assert forall d :: d in s.pcs ==> LeaseOk(s.pool, s.pcs[d]);
    OthersStayOk(s, t, a.c);
    assert CountsOk(t) by {
      forall x | x in t.pool.all ensures Holders(t.pcs, x) == Holders(s.pcs, x) {
        HoldersAfterLeave(s.pcs, a.c, x);
        assert a.c !in Holders(s.pcs, x);
      }
    }
    assert ExclusiveOk(t);
  }

  lemma {:induction false} ReleasingKeepsLeases(s: State, a: Action)
    requires LeaseInv(s) && Enabled(s, a) && (a.LeaveShared? || a.LeavePrivate?)
    ensures LeaseInv(Apply(s, a))
  {
    ReleaseKeepsLeases(s, a.c, s.pcs[a.c].e);
  }

  lemma {:induction false} StepKeepsLeases(s: State, a: Action)
    requires LeaseInv(s) && Enabled(s, a) && Safe(s, a)
    ensures LeaseInv(Apply(s, a))
  {
    if IsCatalog(a) {
    } else if IsRead(a) {
      IdleStep(s, Apply(s, a), a.c);
    } else if IsAcquire(a) {
      AcquireKeepsLeases(s, a);
    } else if a.CloseDiscarded? {
      CloseKeepsLeases(s, a);
    } else if a.ResetPrivateFails? {
      FailedResetKeepsLeases(s, a);
    } else if a.LeaveShared? || a.LeavePrivate? {
      ReleasingKeepsLeases(s, a);
    } else if a.ResetLeasedFails? {
      DiscardStep(s, a.c, s.pcs[a.c].e, Opening(s.pcs[a.c].resolved, s.pcs[a.c].sig));
    } else if IsOwnStep(s, a) {
      OwnStepKeepsLeases(s, a);
    } else {
      GiveUpKeepsLeases(s, a);
    }
  }

  lemma {:induction false} RunKeepsLeases(s: State, run: seq<Action>)
    requires LeaseInv(s) && ValidRun(s, run) && SafeRun(s, run)
    ensures LeaseInv(Final(s, run))
    decreases |run|
  {
    if run != [] {
      StepKeepsLeases(s, run[0]);
      RunKeepsLeases(Apply(s, run[0]), run[1..]);
    }
  }

  // ---- What a step leaves alone ---------------------------------------------------------------------

  /** The step closes e, changes what it holds, or takes a signature away from it. */
  ghost predicate Disturbs(s: State, t: State, e: EngineId)
    requires e in s.pool.engines && e in t.pool.engines
  {
    || e !in t.pool.all
    || t.pool.engines[e].tables != s.pool.engines[e].tables
    || t.pool.engines[e].db != s.pool.engines[e].db
    || (s.pool.engines[e].signature != "" && t.pool.engines[e].signature != s.pool.engines[e].signature)
  }

  lemma {:induction false} EvictionDisturbsNoHolder(s: State, e: EngineId, c: ClientId, p: Pool)
    requires LeaseInv(s) && e in s.pool.all && WellFormedPool(p) && p.all == s.pool.all
    requires e in p.engines && p.engines[e].refCount >= |Holders(s.pcs, e) - {c}|
    ensures e !in EvictOverCap(p).all ==> Holders(s.pcs, e) <= {c}
  {
    EvictOverCapKeeps(p);
    if e !in EvictOverCap(p).all {
      assert Holders(s.pcs, e) - {c} == {};
    }
  }

  predicate SameContent(a: PooledEngine, b: PooledEngine) {
    a.tables == b.tables && a.db == b.db && a.signature == b.signature
  }

  /** A release changes no engine but for a reference count, and may close some. */
  lemma {:induction false} ReleaseKeepsContent(p: Pool, x: EngineId, e: EngineId)
    requires WellFormedPool(p) && x in p.engines && e in p.engines
    ensures e in ReleaseShared(p, x).engines && SameContent(p.engines[e], ReleaseShared(p, x).engines[e])
  {
  }

  lemma {:induction false} ReleaseDisturbsNobodyElse(s: State, c: ClientId, x: EngineId, e: EngineId)
    requires LeaseInv(s) && c in s.pcs && HolderOf(s.pcs[c]) == Some(x) && e in s.pool.all && x in s.pool.engines
    ensures e in ReleaseShared(s.pool, x).engines
    ensures Disturbs(s, Leave(s.(pool := ReleaseShared(s.pool, x)), c), e) ==> Holders(s.pcs, e) <= {c}
  {
    ReleaseKeepsContent(s.pool, x, e);
    HeldIsOpen(s, c);
    assert c in Holders(s.pcs, x);
    var q := s.pool.(engines := s.pool.engines[x := s.pool.engines[x].(refCount := s.pool.engines[x].refCount - 1)]);
    assert e != x ==> Holders(s.pcs, e) - {c} == Holders(s.pcs, e);
    EvictionDisturbsNoHolder(s, e, c, q);
  }

  lemma {:induction false} AcquireDisturbsNobody(s: State, a: Action, e: EngineId)
    requires LeaseInv(s) && Enabled(s, a) && e in s.pool.all && IsAcquire(a)
    ensures e in Apply(s, a).pool.engines
    ensures Disturbs(s, Apply(s, a), e) ==> Holders(s.pcs, e) == {}
  {
    if a.LeaseShared? || a.LeasePrivate? {
      LeasedWasIdle(s, a);
      if a.e == e { IdleIsUnheld(s, e); }
    }
  }

  /** A step on its own engine that keeps or closes it. */
  predicate IsOnOwnEngine(s: State, a: Action) {
    IsOwnStep(s, a) || a.ResetLeasedFails? || a.ResetPrivateFails?
  }

  lemma {:induction false} OtherEnginesStay(s: State, a: Action, e: EngineId)
    requires Enabled(s, a) && IsOnOwnEngine(s, a) && e in s.pool.all && e != s.pcs[a.c].e
    ensures e in Apply(s, a).pool.engines && !Disturbs(s, Apply(s, a), e)
  {
    WithoutMembers(s.pool.all, {s.pcs[a.c].e});
  }

  lemma {:induction false} OwnStepDisturbsNobodyElse(s: State, a: Action, e: EngineId)
    requires LeaseInv(s) && Enabled(s, a) && e in s.pool.all && IsOnOwnEngine(s, a)
    ensures e in Apply(s, a).pool.engines
    ensures Disturbs(s, Apply(s, a), e) ==> Holders(s.pcs, e) <= {a.c}
  {
    if e == s.pcs[a.c].e {
      OnlyHolder(s, a.c, e);
    } else {
      OtherEnginesStay(s, a, e);
    }
  }

  lemma {:induction false} GiveUpDisturbsNobodyElse(s: State, a: Action, e: EngineId)
    requires LeaseInv(s) && Enabled(s, a) && e in s.pool.all && IsGivingUp(s, a)
    ensures e in Apply(s, a).pool.engines
    ensures Disturbs(s, Apply(s, a), e) ==> Holders(s.pcs, e) <= {a.c}
  {
    var x := s.pcs[a.c].e;
    OnlyHolder(s, a.c, x);
    LeavesBehind(s, a);
    ReleaseDisturbsNobodyElse(SetEngine(s, x, LeftBehind(s, a)), a.c, x, e);
  }

  lemma {:induction false} CloseDisturbsNobody(s: State, a: Action, e: EngineId)
    requires LeaseInv(s) && Enabled(s, a) && e in s.pool.all && a.CloseDiscarded?
    ensures Disturbs(s, Apply(s, a), e) ==> Holders(s.pcs, e) == {}
  {
    DiscardedIsUnheld(s, a.c);
    WithoutMembers(s.pool.all, {s.pcs[a.c].gone});
  }

  lemma {:induction false} StepDisturbsNobodyElse(s: State, a: Action, e: EngineId)
    requires LeaseInv(s) && Enabled(s, a) && e in s.pool.all
    ensures e in Apply(s, a).pool.engines
    ensures Disturbs(s, Apply(s, a), e) ==> Holders(s.pcs, e) <= Actor(a)
  {
    if IsCatalog(a) || IsRead(a) {
    } else if IsAcquire(a) {
      AcquireDisturbsNobody(s, a, e);
    } else if a.LeaveShared? || a.LeavePrivate? {
      HeldIsOpen(s, a.c);
      ReleaseDisturbsNobodyElse(s, a.c, s.pcs[a.c].e, e);
      ReleaseKeepsLeases(s, a.c, s.pcs[a.c].e);
    } else if a.CloseDiscarded? {
      CloseDisturbsNobody(s, a, e);
    } else if IsGivingUp(s, a) {
      GiveUpDisturbsNobodyElse(s, a, e);
    } else {
      OwnStepDisturbsNobodyElse(s, a, e);
    }
  }

  /** A client that does not step finds its engine as it was. */
  lemma {:induction false} HeldEngineStays(s: State, a: Action, d: ClientId)
    requires LeaseInv(s) && Enabled(s, a) && d in s.pcs && d !in Actor(a) && HolderOf(s.pcs[d]).Some?
    ensures var e, p, q := HolderOf(s.pcs[d]).value, s.pool, Apply(s, a).pool;
            && e in p.engines && e in q.engines
            && q.engines[e].tables == p.engines[e].tables && q.engines[e].db == p.engines[e].db
  {
    var e := HolderOf(s.pcs[d]).value;
    HeldIsOpen(s, d);
    assert d in Holders(s.pcs, e);
    StepDisturbsNobodyElse(s, a, e);
  }

  // ---- Theorems ----------------------------------------------------------------------------------------

  /** The reference count is the number of leases, and a blank engine has at most one. */
  lemma {:induction false} LeasesAreCounted(sign: Signer, run: seq<Action>, e: EngineId)
    requires ValidRun(Init(sign), run) && SafeRun(Init(sign), run)
    requires e in Final(Init(sign), run).pool.all
    ensures var s := Final(Init(sign), run);
            && e in s.pool.engines
            && s.pool.engines[e].refCount == |Holders(s.pcs, e)|
            && (s.pool.engines[e].signature == "" ==> |Holders(s.pcs, e)| <= 1)
  {
    RunKeepsLeases(Init(sign), run);
    var s := Final(Init(sign), run);
    if s.pool.engines[e].signature == "" && Holders(s.pcs, e) != {} {
      var c :| c in Holders(s.pcs, e);
      assert LeaseOk(s.pool, s.pcs[c]);
      OnlyHolder(s, c, e);
    }
  }

  /** No engine is reset, repurposed, refilled or closed while another client holds it. */
  lemma {:induction false} NeverDisturbsAnotherHolder(sign: Signer, run: seq<Action>, a: Action, e: EngineId)
    requires ValidRun(Init(sign), run) && SafeRun(Init(sign), run)
    requires Enabled(Final(Init(sign), run), a) && e in Final(Init(sign), run).pool.all
    ensures var s := Final(Init(sign), run);
            && e in s.pool.engines && e in Apply(s, a).pool.engines
            && (Disturbs(s, Apply(s, a), e) ==> Holders(s.pcs, e) <= Actor(a))
  {
    RunKeepsLeases(Init(sign), run);
    StepDisturbsNobodyElse(Final(Init(sign), run), a, e);
  }

  lemma {:induction false} LeaseHolds(s: State, a: Action)
    requires Enabled(s, a) && (a.LeaseShared? || a.LeasePrivate?)
    ensures var t := Apply(s, a);
            && WellFormedPool(t.pool) && a.c in s.pcs && s.pcs[a.c].Resolving?
            && a.c in t.pcs && HolderOf(t.pcs[a.c]) == Some(a.e)
            && forall d :: d in s.pcs && d != a.c ==> d in t.pcs && t.pcs[d] == s.pcs[d]
  {
    LeasedWasIdle(s, a);
  }

  lemma {:induction false} CloseTakesEngine(s: State, c: ClientId, d: ClientId, e: EngineId)
    requires WellFormedPool(s.pool) && c in s.pcs && c != d && d in s.pcs && Discards(s.pcs[d], e)
    ensures Enabled(s, CloseDiscarded(d))
    ensures var u := Apply(s, CloseDiscarded(d)); c in u.pcs && u.pcs[c] == s.pcs[c] && e !in u.pool.all
  {
    WithoutMembers(s.pool.all, {e});
  }

  /** And the condition decides: an engine leased while another client is discarding it is closed
      under its new holder by that client's next step. */
  lemma {:induction false} DiscardedEngineIsLost(s: State, a: Action, d: ClientId)
    requires Enabled(s, a) && (a.LeaseShared? || a.LeasePrivate?)
    requires d in s.pcs && Discards(s.pcs[d], a.e)
    ensures var t := Apply(s, a);
            && a.c in t.pcs && HolderOf(t.pcs[a.c]) == Some(a.e) && Enabled(t, CloseDiscarded(d))
            && var u := Apply(t, CloseDiscarded(d));
               a.c in u.pcs && HolderOf(u.pcs[a.c]) == Some(a.e) && a.e !in u.pool.all
  {
    LeaseHolds(s, a);
    CloseTakesEngine(Apply(s, a), a.c, d, a.e);
  }

  /** While resets made on release succeed, nothing is ever discarded, so the condition holds. */
  lemma {:induction false} SuccessfulResetsAreSafe(s: State, run: seq<Action>)
    requires ValidRun(s, run) && (forall c :: c in s.pcs ==> !s.pcs[c].Discarding?)
    requires forall i :: 0 <= i < |run| ==> !run[i].ResetPrivateFails?
    ensures SafeRun(s, run)
    decreases |run|
  {
    if run != [] {
      assert !run[0].ResetPrivateFails?;
      assert forall i :: 0 <= i < |run[1..]| ==> run[1..][i] == run[i + 1];
      SuccessfulResetsAreSafe(Apply(s, run[0]), run[1..]);
    }
  }
}
