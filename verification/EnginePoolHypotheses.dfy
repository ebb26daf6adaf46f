/** Runs of the engine pool that leave the hypotheses of the theorems about it. */
module EnginePoolHypotheses {
  import opened Options
  import opened Signature
  import opened EnginePool
  import opened EnginePoolProtocol
  import opened EnginePoolFreshness
  import opened EnginePoolTheorems
  import Leases = EnginePoolLeases
  import Content = EnginePoolContent

  ghost predicate Reachable(s: State) {
    exists run :: ValidRun(Init(s.sign), run) && Final(Init(s.sign), run) == s
  }

  lemma {:induction false} Then(s: State, a: Action, t: State)
    requires Reachable(s) && Enabled(s, a) && Apply(s, a) == t && t.sign == s.sign
    ensures Reachable(t)
  {
    var run :| ValidRun(Init(s.sign), run) && Final(Init(s.sign), run) == s;
    OneStep(s, a);
    JoinRuns(Init(s.sign), run, [a]);
  }

  /** The plan of a query that read the table in its `birth`-th incarnation. */
  function Plan(k: TableRef, birth: nat): seq<Resolved> {
    [Resolved(k, Image(birth, 1), Image(birth, 1), true, true)]
  }

  /** sig is what a query over that one table, read at version 1, asks the pool for. */
  ghost predicate Asks(sign: Signer, k: TableRef, birth: nat, sig: string) {
    sig != "" && CacheSignature(sign, true, Plan(k, birth)) == sig
  }

  lemma {:induction false} Asked(sign: Signer, k: TableRef) returns (sig: string)
    requires sign([CacheRef(k, 1)]) != ""
    ensures Asks(sign, k, 1, sig) && Asks(sign, k, 2, sig)
  {
    assert CacheRefs(Plan(k, 1)) == CacheRefs(Plan(k, 2)) == [CacheRef(k, 1)];
    sig := sign([CacheRef(k, 1)]);
  }

  function One(pe: PooledEngine): Pool {
    Pool([0], map[0 := pe], 1)
  }

  function Born(k: TableRef, n: nat): Catalog {
    Catalog(map[k := Image(n, 1)], map[k := n])
  }

  /** A state in which one client is active. */
  function On(sign: Signer, pool: Pool, c: ClientId, pc: Pc, cat: Catalog): State {
    State(sign, pool, map[c := pc], cat)
  }

  // ---- Single steps of a lone client -----------------------------------------

  /** A client reads the table's version and rows. */
  lemma {:induction false} ReadTable(sign: Signer, k: TableRef, pool: Pool, c: ClientId, birth: nat)
    requires Reachable(State(sign, pool, map[], Born(k, birth))) && WellFormedPool(pool)
    ensures Reachable(On(sign, pool, c, Resolving(true, [], NotRead, Plan(k, birth)), Born(k, birth)))
  {
    var s0 := State(sign, pool, map[], Born(k, birth));
    var s1 := On(sign, pool, c, Resolving(true, [k], NotRead, []), Born(k, birth));
    var s2 := On(sign, pool, c, Resolving(true, [k], Seen(Image(birth, 1)), []), Born(k, birth));
    var s3 := On(sign, pool, c, Resolving(true, [], NotRead, Plan(k, birth)), Born(k, birth));
    assert [k][1..] == [] && [] + Plan(k, birth) == Plan(k, birth);
    assert Apply(s0, Begin(c, true, [k])) == s1;
    assert Apply(s1, ReadVersion(c)) == s2;
    assert Apply(s2, ReadRows(c, true)) == s3;
    Then(s0, Begin(c, true, [k]), s1);
    Then(s1, ReadVersion(c), s2);
    Then(s2, ReadRows(c, true), s3);
  }

  lemma {:induction false} OpensEngine(sign: Signer, c: ClientId, readOnly: bool, rs: seq<Resolved>, sig: string,
                                       cat: Catalog)
    requires Reachable(On(sign, EmptyPool, c, Resolving(readOnly, [], NotRead, rs), cat))
    requires CacheSignature(sign, readOnly, rs) == sig
    ensures Reachable(On(sign, One(FreshEngine), c, Building(0, rs, sig, 0, false), cat))
  {
    var s1 := On(sign, EmptyPool, c, Resolving(readOnly, [], NotRead, rs), cat);
    var s2 := On(sign, EmptyPool, c, Opening(rs, sig), cat);
    assert Apply(s1, NoEngine(c)) == s2;
    Then(s1, NoEngine(c), s2);
    OpensFresh(sign, c, rs, sig, cat);
  }

  lemma {:induction false} OpensFresh(sign: Signer, c: ClientId, rs: seq<Resolved>, sig: string, cat: Catalog)
    requires Reachable(On(sign, EmptyPool, c, Opening(rs, sig), cat))
    ensures Reachable(On(sign, One(FreshEngine), c, Building(0, rs, sig, 0, false), cat))
  {
    var s2 := On(sign, EmptyPool, c, Opening(rs, sig), cat);
    var s3 := On(sign, One(FreshEngine), c, Building(0, rs, sig, 0, false), cat);
    assert Apply(s2, OpenEngine(c)) == s3;
    Then(s2, OpenEngine(c), s3);
  }

  lemma {:induction false} Reconciles(sign: Signer, pe: PooledEngine, c: ClientId, rs: seq<Resolved>, sig: string,
                                      cat: Catalog)
    requires Reachable(On(sign, One(pe), c, Building(0, rs, sig, 0, false), cat))
    requires DropUnwanted(pe, rs) == pe
    ensures Reachable(On(sign, One(pe), c, Building(0, rs, sig, 0, true), cat))
  {
    var s1 := On(sign, One(pe), c, Building(0, rs, sig, 0, false), cat);
    var s2 := On(sign, One(pe), c, Building(0, rs, sig, 0, true), cat);
    assert Apply(s1, Reconcile(c)) == s2;
    Then(s1, Reconcile(c), s2);
  }

  lemma {:induction false} Loads(sign: Signer, pe: PooledEngine, c: ClientId, r: Resolved, sig: string, cat: Catalog)
    requires Reachable(On(sign, One(pe), c, Building(0, [r], sig, 0, true), cat)) && MayLoad(pe, r)
    ensures Reachable(On(sign, One(Materialize(pe, r)), c, Building(0, [r], sig, 1, true), cat))
  {
    var s1 := On(sign, One(pe), c, Building(0, [r], sig, 0, true), cat);
    var s2 := On(sign, One(Materialize(pe, r)), c, Building(0, [r], sig, 1, true), cat);
    assert Apply(s1, Load(c)) == s2;
    Then(s1, Load(c), s2);
  }

  lemma {:induction false} Finishes(sign: Signer, pe: PooledEngine, c: ClientId, rs: seq<Resolved>, sig: string,
                                    cat: Catalog)
    requires Reachable(On(sign, One(pe), c, Building(0, rs, sig, |rs|, true), cat)) && pe.signature == ""
    ensures Reachable(On(sign, One(pe.(signature := sig)), c, Using(0, rs, sig), cat))
  {
    var s1 := On(sign, One(pe), c, Building(0, rs, sig, |rs|, true), cat);
    var s2 := On(sign, One(pe.(signature := sig)), c, Using(0, rs, sig), cat);
    assert Apply(s1, FinishBuild(c)) == s2;
    Then(s1, FinishBuild(c), s2);
  }

  lemma {:induction false} InitReachable(sign: Signer)
    ensures Reachable(Init(sign))
  {
    assert ValidRun(Init(sign), []) && Final(Init(sign), []) == Init(sign);
  }

  /** The first query opens an engine and prepares it for loading. */
  lemma {:induction false} OpenFirst(sign: Signer, k: TableRef, sig: string)
    requires Asks(sign, k, 1, sig)
    ensures Reachable(On(sign, One(FreshEngine), 0, Building(0, Plan(k, 1), sig, 0, true), Born(k, 1)))
  {
    InitReachable(sign);
    Then(Init(sign), Create(k, 1), State(sign, EmptyPool, map[], Born(k, 1)));
    ReadTable(sign, k, EmptyPool, 0, 1);
    OpensEngine(sign, 0, true, Plan(k, 1), sig, Born(k, 1));
    Reconciles(sign, FreshEngine, 0, Plan(k, 1), sig, Born(k, 1));
  }

  function LoadedOnce(k: TableRef, sig: string): PooledEngine {
    PooledEngine(map[k := 1], map[k := Image(1, 1)], sig, 0)
  }

  lemma {:induction false} LoadFirst(sign: Signer, k: TableRef, sig: string)
    requires Asks(sign, k, 1, sig)
    ensures Reachable(State(sign, One(LoadedOnce(k, sig)), map[], Born(k, 1)))
  {
    OpenFirst(sign, k, sig);
    Loads(sign, FreshEngine, 0, Plan(k, 1)[0], sig, Born(k, 1));
    Finishes(sign, LoadedOnce(k, "").(refCount := 1), 0, Plan(k, 1), sig, Born(k, 1));
    Leaves(sign, LoadedOnce(k, sig), Plan(k, 1), sig, Born(k, 1));
  }

  lemma {:induction false} Leaves(sign: Signer, pe: PooledEngine, rs: seq<Resolved>, sig: string, cat: Catalog)
    requires Reachable(On(sign, One(pe.(refCount := 1)), 0, Using(0, rs, sig), cat)) && sig != "" && pe.refCount == 0
    ensures Reachable(State(sign, One(pe), map[], cat))
  {
    var s1 := On(sign, One(pe.(refCount := 1)), 0, Using(0, rs, sig), cat);
    var s2 := State(sign, One(pe), map[], cat);
    LeaveOne(pe);
    assert Apply(s1, LeaveShared(0)) == s2;
    Then(s1, LeaveShared(0), s2);
  }

  lemma {:induction false} LeaveOne(pe: PooledEngine)
    requires pe.refCount == 0
    ensures WellFormedPool(One(pe.(refCount := 1)))
    ensures ReleaseShared(One(pe.(refCount := 1)), 0) == One(pe)
  {
    var p, q := One(pe.(refCount := 1)), One(pe);
    assert p.engines[0 := pe] == q.engines;
    EvictOverCapCorrect(q);
    assert IdleSet(q) == {0};
    EvictedCount(q);
    WithoutNothing(q.all);
  }

  /** Creating a dropped table again restarts its versions, and a later query is then
      served the rows of the dropped table. */
  lemma {:induction false} RecreatedTableIsServedStale(sign: Signer, k: TableRef)
    requires sign([CacheRef(k, 1)]) != ""
    ensures exists s: State, c ::
      && s.sign == sign && Reachable(s) && c in s.pcs && SharedUser(s.pcs[c])
      && s.pcs[c].resolved == Plan(k, 2) && s.pcs[c].e in s.pool.engines
      && k in s.pool.engines[s.pcs[c].e].db
      && !Fresh(Plan(k, 2)[0].seen, s.pool.engines[s.pcs[c].e].db[k])
  {
    var sig := Asked(sign, k);
    LoadFirst(sign, k, sig);
    RecreateTable(sign, k, One(LoadedOnce(k, sig)));
    ReadTable(sign, k, One(LoadedOnce(k, sig)), 1, 2);
    JoinStale(sign, k, sig);
    var s4 := On(sign, One(LoadedOnce(k, sig).(refCount := 1)), 1, Using(0, Plan(k, 2), sig), Born(k, 2));
    assert 1 in s4.pcs && SharedUser(s4.pcs[1]);
  }

  lemma {:induction false} RecreateTable(sign: Signer, k: TableRef, pool: Pool)
    requires Reachable(State(sign, pool, map[], Born(k, 1))) && WellFormedPool(pool)
    ensures Reachable(State(sign, pool, map[], Born(k, 2)))
  {
    var s1 := State(sign, pool, map[], Born(k, 1));
    var s2 := State(sign, pool, map[], Catalog(map[], map[k := 1]));
    var s3 := State(sign, pool, map[], Born(k, 2));
    assert Apply(s1, Drop(k)) == s2;
    assert Apply(s2, Create(k, 1)) == s3;
    Then(s1, Drop(k), s2);
    Then(s2, Create(k, 1), s3);
  }

  lemma {:induction false} JoinStale(sign: Signer, k: TableRef, sig: string)
    requires Asks(sign, k, 2, sig)
    requires Reachable(On(sign, One(LoadedOnce(k, sig)), 1, Resolving(true, [], NotRead, Plan(k, 2)), Born(k, 2)))
    ensures Reachable(On(sign, One(LoadedOnce(k, sig).(refCount := 1)), 1, Using(0, Plan(k, 2), sig), Born(k, 2)))
  {
    var s1 := On(sign, One(LoadedOnce(k, sig)), 1, Resolving(true, [], NotRead, Plan(k, 2)), Born(k, 2));
    var s2 := On(sign, One(LoadedOnce(k, sig).(refCount := 1)), 1, Using(0, Plan(k, 2), sig), Born(k, 2));
    assert ChoosesMatch(s1.pool, sig, Some(0)) by { assert s1.pool.all[0] == 0; }
    assert Apply(s1, JoinShared(1, 0)) == s2;
    Then(s1, JoinShared(1, 0), s2);
  }

  function MarkedTable(k: TableRef): PooledEngine {
    PooledEngine(map[k := 1], map[], "", 0)
  }

  /** A failed shared load leaves the table marked, and a later query skips loading it. */
  lemma {:induction false} FailedLoadIsServedAsLoaded(sign: Signer, k: TableRef)
    requires sign([CacheRef(k, 1)]) != ""
    ensures exists s: State, c ::
      && s.sign == sign && Reachable(s) && c in s.pcs && SharedUser(s.pcs[c])
      && s.pcs[c].resolved == Plan(k, 1) && s.pcs[c].e in s.pool.engines
      && k !in s.pool.engines[s.pcs[c].e].db
  {
    var sig := Asked(sign, k);
    OpenFirst(sign, k, sig);
    LoadFailsOnce(sign, k, sig);
    ReadTable(sign, k, One(MarkedTable(k)), 1, 1);
    ReuseMarked(sign, k, sig);
    var s3 := On(sign, One(MarkedTable(k).(refCount := 1, signature := sig)), 1, Using(0, Plan(k, 1), sig), Born(k, 1));
    assert 1 in s3.pcs && SharedUser(s3.pcs[1]);
  }

  lemma {:induction false} LoadFailsOnce(sign: Signer, k: TableRef, sig: string)
    requires sig != "" && Reachable(On(sign, One(FreshEngine), 0, Building(0, Plan(k, 1), sig, 0, true), Born(k, 1)))
    ensures Reachable(State(sign, One(MarkedTable(k)), map[], Born(k, 1)))
  {
    var s1 := On(sign, One(FreshEngine), 0, Building(0, Plan(k, 1), sig, 0, true), Born(k, 1));
    var s2 := State(sign, One(MarkedTable(k)), map[], Born(k, 1));
    LeaveOne(MarkedTable(k));
    assert SetEngine(s1, 0, MarkedTable(k).(refCount := 1)).pool == One(MarkedTable(k).(refCount := 1));
    assert Apply(s1, LoadFails(0, NoTable)) == s2;
    Then(s1, LoadFails(0, NoTable), s2);
  }

  lemma {:induction false} ReuseMarked(sign: Signer, k: TableRef, sig: string)
    requires Asks(sign, k, 1, sig)
    requires Reachable(On(sign, One(MarkedTable(k)), 1, Resolving(true, [], NotRead, Plan(k, 1)), Born(k, 1)))
    ensures Reachable(On(sign, One(MarkedTable(k).(refCount := 1, signature := sig)), 1, Using(0, Plan(k, 1), sig),
              Born(k, 1)))
  {
    var s1 := On(sign, One(MarkedTable(k)), 1, Resolving(true, [], NotRead, Plan(k, 1)), Born(k, 1));
    var s2 := On(sign, One(MarkedTable(k).(refCount := 1)), 1, Building(0, Plan(k, 1), sig, 0, false), Born(k, 1));
    assert ChoosesReuse(s1.pool, Some(0)) by {
      assert s1.pool.all[0] == 0 && IsIdle(s1.pool, 0) && IsBlank(s1.pool, 0);
    }
    assert Apply(s1, LeaseShared(1, 0)) == s2;
    Then(s1, LeaseShared(1, 0), s2);
    FinishMarked(sign, k, sig);
  }

  lemma {:induction false} FinishMarked(sign: Signer, k: TableRef, sig: string)
    requires Asks(sign, k, 1, sig)
    requires Reachable(On(sign, One(MarkedTable(k).(refCount := 1)), 1, Building(0, Plan(k, 1), sig, 0, false),
               Born(k, 1)))
    ensures Reachable(On(sign, One(MarkedTable(k).(refCount := 1, signature := sig)), 1, Using(0, Plan(k, 1), sig),
              Born(k, 1)))
  {
    var pe := MarkedTable(k).(refCount := 1);
    assert RefSet(Plan(k, 1)) == {k} by { assert Plan(k, 1)[0].ref == k; }
    Reconciles(sign, pe, 1, Plan(k, 1), sig, Born(k, 1));
    Loads(sign, pe, 1, Plan(k, 1)[0], sig, Born(k, 1));
    Finishes(sign, pe, 1, Plan(k, 1), sig, Born(k, 1));
  }

  /** When the reset made on release fails, the engine is published as idle before it is
      closed: another client can lease it in between and lose it. */
  lemma {:induction false} FailedReleaseClosesHeldEngine(sign: Signer)
    ensures exists s: State, c :: s.sign == sign && Reachable(s) && c in s.pcs && HolderOf(s.pcs[c]) == Some(0)
              && 0 !in s.pool.all
  {
    OpenPrivate(sign);
    var none := Catalog(map[], map[]);
    var s1 := State(sign, One(FreshEngine), map[0 := Using(0, [], "")], none);
    var idle := FreshEngine.(refCount := 0);
    var s2 := State(sign, One(idle), map[0 := Discarding(0)], none);
    var s3 := State(sign, One(idle), map[0 := Discarding(0), 1 := Resolving(false, [], NotRead, [])], none);
    assert Apply(s1, ResetPrivateFails(0, {})) == s2;
    assert Apply(s2, Begin(1, false, [])) == s3;
    Then(s1, ResetPrivateFails(0, {}), s2);
    Then(s2, Begin(1, false, []), s3);
    LoseEngine(sign);
    var s4 := State(sign, Pool([], map[0 := FreshEngine], 1), map[1 := Resetting(0, [], "")], none);
    assert 1 in s4.pcs;
  }

  lemma {:induction false} OpenPrivate(sign: Signer)
    ensures Reachable(State(sign, One(FreshEngine), map[0 := Using(0, [], "")], Catalog(map[], map[])))
  {
    InitReachable(sign);
    var none := Catalog(map[], map[]);
    assert Apply(Init(sign), Begin(0, false, [])) == On(sign, EmptyPool, 0, Resolving(false, [], NotRead, []), none);
    Then(Init(sign), Begin(0, false, []), On(sign, EmptyPool, 0, Resolving(false, [], NotRead, []), none));
    OpensEngine(sign, 0, false, [], "", none);
    Reconciles(sign, FreshEngine, 0, [], "", none);
    Finishes(sign, FreshEngine, 0, [], "", none);
  }

  lemma {:induction false} LoseEngine(sign: Signer)
    requires Reachable(State(sign, One(FreshEngine.(refCount := 0)),
                             map[0 := Discarding(0), 1 := Resolving(false, [], NotRead, [])], Catalog(map[], map[])))
    ensures Reachable(State(sign, Pool([], map[0 := FreshEngine], 1), map[1 := Resetting(0, [], "")],
              Catalog(map[], map[])))
  {
    var none := Catalog(map[], map[]);
    var idle := FreshEngine.(refCount := 0);
    var s3 := State(sign, One(idle), map[0 := Discarding(0), 1 := Resolving(false, [], NotRead, [])], none);
    var s4 := State(sign, One(FreshEngine), map[0 := Discarding(0), 1 := Resetting(0, [], "")], none);
    var s5 := State(sign, Pool([], map[0 := FreshEngine], 1), map[1 := Resetting(0, [], "")], none);
    assert ChoosesIdle(s3.pool, Some(0)) by { assert s3.pool.all[0] == 0 && IsIdle(s3.pool, 0); }
    assert Apply(s3, LeasePrivate(1, 0)) == s4;
    WithoutMembers([0], {0});
    assert Apply(s4, CloseDiscarded(0)) == s5;
    Then(s3, LeasePrivate(1, 0), s4);
    Then(s4, CloseDiscarded(0), s5);
  }

  // ---- A name is used again --------------------------------------------------------------------------

  function Names(refs: seq<CacheRef>): (names: seq<TableRef>)
    ensures |names| == |refs| && forall i :: 0 <= i < |refs| ==> names[i] == refs[i].ref
  {
    seq(|refs|, i requires 0 <= i < |refs| => refs[i].ref)
  }

  /** Every table of the list is there, at its version. */
  predicate AllLive(cat: Catalog, refs: seq<CacheRef>) {
    forall i :: 0 <= i < |refs| ==> refs[i].ref in cat.live && cat.live[refs[i].ref].version == refs[i].version
  }

  function PlanOf(cat: Catalog, refs: seq<CacheRef>): (rs: seq<Resolved>)
    requires AllLive(cat, refs)
    ensures |rs| == |refs|
  {
    seq(|refs|,
        i requires 0 <= i < |refs| => Resolved(refs[i].ref, cat.live[refs[i].ref], cat.live[refs[i].ref], true, true))
  }

  function Reading(s: State, c: ClientId, todo: seq<TableRef>, done: seq<Resolved>): State {
    Goto(s, c, Resolving(true, todo, NotRead, done))
  }

  lemma {:induction false} ReadOne(s: State, c: ClientId, k: TableRef, rest: seq<TableRef>, done: seq<Resolved>)
    requires WellFormedPool(s.pool) && k in s.cat.live
    ensures var run := [ReadVersion(c), ReadRows(c, true)];
            && ValidRun(Reading(s, c, [k] + rest, done), run)
            && Final(Reading(s, c, [k] + rest, done), run)
            == Reading(s, c, rest, done + [Resolved(k, s.cat.live[k], s.cat.live[k], true, true)])
  {
    var s1 := Reading(s, c, [k] + rest, done);
    var s2 := Apply(s1, ReadVersion(c));
    assert ([k] + rest)[0] == k && ([k] + rest)[1..] == rest;
    OneStep(s1, ReadVersion(c));
    OneStep(s2, ReadRows(c, true));
    JoinRuns(s1, [ReadVersion(c)], [ReadRows(c, true)]);
    assert [ReadVersion(c)] + [ReadRows(c, true)] == [ReadVersion(c), ReadRows(c, true)];
    assert Final(s2, [ReadRows(c, true)]).pcs
        == Reading(s, c, rest, done + [Resolved(k, s.cat.live[k], s.cat.live[k], true, true)]).pcs;
  }

  /** A query reads tables that nobody changes meanwhile. */
  lemma {:induction false} ReadAll(s: State, c: ClientId, refs: seq<CacheRef>, done: seq<Resolved>)
    returns (run: seq<Action>)
    requires WellFormedPool(s.pool) && AllLive(s.cat, refs)
    ensures ValidRun(Reading(s, c, Names(refs), done), run)
    ensures Final(Reading(s, c, Names(refs), done), run) == Reading(s, c, [], done + PlanOf(s.cat, refs))
    decreases |refs|
  {
    if refs == [] {
      run := [];
      assert done + PlanOf(s.cat, refs) == done;
    } else {
      var k, rest := refs[0].ref, refs[1..];
      var next := done + [Resolved(k, s.cat.live[k], s.cat.live[k], true, true)];
      assert Names(refs) == [k] + Names(rest);
      assert next + PlanOf(s.cat, rest) == done + PlanOf(s.cat, refs);
      ReadOne(s, c, k, Names(rest), done);
      var more := ReadAll(s, c, rest, next);
      JoinRuns(Reading(s, c, Names(refs), done), [ReadVersion(c), ReadRows(c, true)], more);
      run := [ReadVersion(c), ReadRows(c, true)] + more;
    }
  }

  lemma {:induction false} BeginStep(s: State, c: ClientId, names: seq<TableRef>)
    requires WellFormedPool(s.pool) && c !in s.pcs && NoDuplicates(names)
    ensures ValidRun(s, [Begin(c, true, names)]) && Final(s, [Begin(c, true, names)]) == Reading(s, c, names, [])
  {
    OneStep(s, Begin(c, true, names));
  }

  lemma {:induction false} JoinStep(s: State, c: ClientId, e: EngineId, plan: seq<Resolved>)
    requires WellFormedPool(s.pool) && AllVersioned(plan) && s.sign(CacheRefs(plan)) != ""
    requires ChoosesMatch(s.pool, s.sign(CacheRefs(plan)), Some(e))
    ensures var t := Reading(s, c, [], plan);
            && ValidRun(t, [JoinShared(c, e)])
            && var u := Final(t, [JoinShared(c, e)]);
               && c in u.pcs && u.pcs[c] == Using(e, plan, s.sign(CacheRefs(plan)))
               && e in s.pool.engines && e in u.pool.engines && u.pool.engines[e].db == s.pool.engines[e].db
  {
    OneStep(Reading(s, c, [], plan), JoinShared(c, e));
  }

  /** A query over exactly the tables of refs gets the engine that the pool offers for them. */
  lemma {:induction false} QueryJoins(s: State, c: ClientId, e: EngineId, refs: seq<CacheRef>)
    returns (run: seq<Action>)
    requires WellFormedPool(s.pool) && c !in s.pcs && NoDuplicates(Names(refs)) && AllLive(s.cat, refs)
    requires s.sign(refs) != "" && ChoosesMatch(s.pool, s.sign(refs), Some(e))
    ensures ValidRun(s, run)
    ensures var u := Final(s, run);
            && c in u.pcs && u.pcs[c] == Using(e, PlanOf(s.cat, refs), s.sign(refs))
            && e in s.pool.engines && e in u.pool.engines && u.pool.engines[e].db == s.pool.engines[e].db
  {
    var plan, begin := PlanOf(s.cat, refs), [Begin(c, true, Names(refs))];
    assert [] + plan == plan && CacheRefs(plan) == refs;
    BeginStep(s, c, Names(refs));
    var lookups := ReadAll(s, c, refs, []);
    JoinRuns(s, begin, lookups);
    JoinStep(s, c, e, plan);
    JoinRuns(s, begin + lookups, [JoinShared(c, e)]);
    run := begin + lookups + [JoinShared(c, e)];
  }

  /** The condition on creations is needed: while an open engine offers a table that has been
      dropped, a table created under its name at the version offered is served with the rows of the
      dropped one, to a query over the tables of that engine. */
  lemma {:induction false} TableCreatedBehindEngineIsServedStale(s: State, e: EngineId, refs: seq<CacheRef>, j: nat,
                                                                 c: ClientId)
    returns (run: seq<Action>)
    requires Inv(s) && Canonical(s.sign) && WellFormed(refs) && NoDuplicates(Names(refs)) && c !in s.pcs
    requires s.sign(refs) != "" && ChoosesMatch(s.pool, s.sign(refs), Some(e))
    requires j < |refs| && refs[j].ref !in s.cat.live && refs[j].version >= 1
    requires AllLive(s.cat, refs[..j]) && AllLive(s.cat, refs[j + 1..])
    ensures ValidRun(s, [Create(refs[j].ref, refs[j].version)] + run)
    ensures var u := Final(s, [Create(refs[j].ref, refs[j].version)] + run);
            && c in u.pcs && SharedUser(u.pcs[c]) && u.pcs[c].e == e && |u.pcs[c].resolved| == |refs|
            && u.pcs[c].resolved[j].ref == refs[j].ref
            && e in u.pool.engines && refs[j].ref in u.pool.engines[e].db
            && !Fresh(u.pcs[c].resolved[j].seen, u.pool.engines[e].db[refs[j].ref])
  {
    var k, v := refs[j].ref, refs[j].version;
    OfferedIsLatest(s, e, refs, j);
    var create := Create(k, v);
    var t := Apply(s, create);
    OneStep(s, create);
    CreatedIsLive(s.cat, refs, j);
    run := QueryJoins(t, c, e, refs);
    JoinRuns(s, [create], run);
  }

  lemma {:induction false} OfferedIsLatest(s: State, e: EngineId, refs: seq<CacheRef>, j: nat)
    requires Inv(s) && Canonical(s.sign) && WellFormed(refs) && s.sign(refs) != "" && j < |refs|
    requires ChoosesMatch(s.pool, s.sign(refs), Some(e))
    ensures e in s.pool.engines && refs[j].ref in s.pool.engines[e].db && refs[j].ref in s.cat.born
    ensures s.pool.engines[e].db[refs[j].ref].birth == s.cat.born[refs[j].ref]
  {
    var pe := s.pool.engines[e];
    assert Content.EngineOk(s.sign, pe) && EngineOk(s.cat, pe);
    SignatureDecides(s.sign, pe, refs);
    assert CacheRef(refs[j].ref, refs[j].version) in refs;
    assert Offers(s.cat, pe, refs[j].ref);
  }

  lemma {:induction false} CreatedIsLive(cat: Catalog, refs: seq<CacheRef>, j: nat)
    requires NoDuplicates(Names(refs)) && j < |refs| && AllLive(cat, refs[..j]) && AllLive(cat, refs[j + 1..])
    ensures AllLive(ApplyCatalog(cat, Create(refs[j].ref, refs[j].version)), refs)
  {
    forall i | 0 <= i < |refs| && i != j ensures refs[i].ref != refs[j].ref {
      assert Names(refs)[i] != Names(refs)[j];
    }
    assert forall i :: 0 <= i < j ==> refs[..j][i] == refs[i];
    forall i | j < i < |refs| ensures refs[i].ref in cat.live && cat.live[refs[i].ref].version == refs[i].version {
      assert refs[j + 1..][i - j - 1] == refs[i];
    }
  }

  /** What a finished build holds was read from the latest table of each name. */
  lemma {:induction false} BuiltIsLatest(s: State, b: ClientId, j: nat)
    requires Inv(s) && b in s.pcs && s.pcs[b].Building? && s.pcs[b].sig != ""
    requires j < |s.pcs[b].resolved| == s.pcs[b].next
    ensures var e, k := s.pcs[b].e, s.pcs[b].resolved[j].ref;
            && e in s.pool.all && e in s.pool.engines && k in s.pool.engines[e].db && k in s.cat.born
            && s.pool.engines[e].db[k].birth == s.cat.born[k]
    ensures s.sign(CacheRefs(s.pcs[b].resolved)) == s.pcs[b].sig && NoDuplicates(Names(CacheRefs(s.pcs[b].resolved)))
  {
    var pc := s.pcs[b];
    assert Content.PcOk(s.sign, s.pool, pc) && PcOk(s.cat, s.pool, pc);
    Leases.HeldIsOpen(s, b);
    assert Marks(s.pool.engines[pc.e], pc.resolved[j]) && Current(s.cat, pc.resolved[j]);
    assert Names(CacheRefs(pc.resolved)) == Content.Refs(pc.resolved);
  }

  lemma {:induction false} TaggedIsOffered(p: Pool, e: EngineId, sig: string)
    requires WellFormedPool(p) && e in p.all && ChoosesMatch(p, sig, None)
    ensures WellFormedPool(Tag(p, e, sig)) && ChoosesMatch(Tag(p, e, sig), sig, Some(e))
  {
    var i :| 0 <= i < |p.all| && p.all[i] == e;
    assert forall j :: 0 <= j < i ==> p.all[j] != e;
    assert Tag(p, e, sig).all[i] == e;
  }

  lemma {:induction false} CreateThenFinish(s: State, create: Action, b: ClientId)
    requires Enabled(s, create) && create.Create? && Holding(s, b) && s.pcs[b].Building? && s.pcs[b].sig != ""
    requires s.pcs[b].reconciled && s.pcs[b].next == |s.pcs[b].resolved|
    ensures ValidRun(s, [create] + [FinishBuild(b)])
    ensures var u := Final(s, [create] + [FinishBuild(b)]);
            && u.pool == Tag(s.pool, s.pcs[b].e, s.pcs[b].sig) && u.cat == ApplyCatalog(s.cat, create)
            && u.sign == s.sign && u.pcs.Keys == s.pcs.Keys
  {
    var t := Apply(s, create);
    OneStep(s, create);
    OneStep(t, FinishBuild(b));
    JoinRuns(s, [create], [FinishBuild(b)]);
  }

  /** After a build is finished behind a creation, a query over its tables gets its engine. */
  lemma {:induction false} QueryJoinsBuilder(s: State, b: ClientId, j: nat, c: ClientId) returns (run: seq<Action>)
    requires WellFormedPool(s.pool) && Holding(s, b) && s.pcs[b].Building? && s.pcs[b].sig != "" && s.pcs[b].reconciled
    requires j < |s.pcs[b].resolved| == s.pcs[b].next && ChoosesMatch(s.pool, s.pcs[b].sig, None) && c !in s.pcs
    requires s.pcs[b].e in s.pool.all
    requires var refs := CacheRefs(s.pcs[b].resolved);
             && s.sign(refs) == s.pcs[b].sig && NoDuplicates(Names(refs))
             && refs[j].ref !in s.cat.live && refs[j].version >= 1
             && AllLive(s.cat, refs[..j]) && AllLive(s.cat, refs[j + 1..])
    ensures var refs := CacheRefs(s.pcs[b].resolved);
            var create := Create(refs[j].ref, refs[j].version);
            && ValidRun(s, [create] + run) && AllLive(ApplyCatalog(s.cat, create), refs)
            && var u := Final(s, [create] + run);
               && c in u.pcs && u.pcs[c] == Using(s.pcs[b].e, PlanOf(ApplyCatalog(s.cat, create), refs), s.pcs[b].sig)
               && s.pcs[b].e in u.pool.engines && u.pool.engines[s.pcs[b].e].db == s.pool.engines[s.pcs[b].e].db
  {
    var refs, e, sig := CacheRefs(s.pcs[b].resolved), s.pcs[b].e, s.pcs[b].sig;
    var create := Create(refs[j].ref, refs[j].version);
    TaggedIsOffered(s.pool, e, sig);
    CreatedIsLive(s.cat, refs, j);
    CreateThenFinish(s, create, b);
    var query := QueryJoins(Final(s, [create] + [FinishBuild(b)]), c, e, refs);
    JoinRuns(s, [create] + [FinishBuild(b)], query);
    run := [FinishBuild(b)] + query;
    assert [create] + run == [create] + [FinishBuild(b)] + query;
  }

  /** The same for the queries under way: a name used again behind one that is about to offer what
      it has built. */
  lemma {:induction false} TableCreatedBehindBuilderIsServedStale(s: State, b: ClientId, j: nat, c: ClientId)
    returns (run: seq<Action>)
    requires Inv(s) && b in s.pcs && s.pcs[b].Building? && s.pcs[b].sig != "" && s.pcs[b].reconciled
    requires j < |s.pcs[b].resolved| == s.pcs[b].next && ChoosesMatch(s.pool, s.pcs[b].sig, None) && c !in s.pcs
    requires var refs := CacheRefs(s.pcs[b].resolved);
             && refs[j].ref !in s.cat.live && refs[j].version >= 1
             && AllLive(s.cat, refs[..j]) && AllLive(s.cat, refs[j + 1..])
    ensures var r := CacheRefs(s.pcs[b].resolved)[j];
            && ValidRun(s, [Create(r.ref, r.version)] + run)
            && var u := Final(s, [Create(r.ref, r.version)] + run);
               && c in u.pcs && SharedUser(u.pcs[c]) && |u.pcs[c].resolved| == |s.pcs[b].resolved|
               && u.pcs[c].resolved[j].ref == r.ref
               && u.pcs[c].e in u.pool.engines && r.ref in u.pool.engines[u.pcs[c].e].db
               && !Fresh(u.pcs[c].resolved[j].seen, u.pool.engines[u.pcs[c].e].db[r.ref])
  {
    BuiltIsLatest(s, b, j);
    run := QueryJoinsBuilder(s, b, j, c);
  }
}
