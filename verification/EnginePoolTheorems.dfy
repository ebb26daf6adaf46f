/** What every run of the engine pool guarantees a query on a shared engine. */
module EnginePoolTheorems {
  import opened Signature
  import opened EnginePool
  import opened EnginePoolProtocol
  import opened EnginePoolFreshness
  import Leases = EnginePoolLeases
  import Content = EnginePoolContent

  /** Equal keys mean the same references, whatever the order they are listed in. */
  ghost predicate Canonical(sign: Signer) {
    forall a, b :: WellFormed(a) && WellFormed(b) && sign(a) == sign(b) ==> multiset(a) == multiset(b)
  }

  lemma {:induction false} TableSignatureIsCanonical()
    ensures Canonical(TableSignature)
  {
    forall a, b | WellFormed(a) && WellFormed(b) && TableSignature(a) == TableSignature(b)
      ensures multiset(a) == multiset(b)
    {
      SameSignatureIff(a, b);
    }
  }

  lemma {:induction false} RepresentedKeys(rs: seq<Resolved>, tables: map<TableRef, nat>)
    requires Content.Represents(CacheRefs(rs), tables)
    ensures tables.Keys == RefSet(rs)
    ensures forall i :: 0 <= i < |rs| ==> rs[i].ref in tables && tables[rs[i].ref] == rs[i].seen.version
  {
    var refs := CacheRefs(rs);
    forall i | 0 <= i < |rs| ensures rs[i].ref in tables && tables[rs[i].ref] == rs[i].seen.version {
      assert refs[i] == CacheRef(rs[i].ref, rs[i].seen.version);
    }
    forall k | k in tables ensures k in RefSet(rs) {
      assert CacheRef(k, tables[k]) in refs;
      var i :| 0 <= i < |refs| && refs[i] == CacheRef(k, tables[k]);
      assert rs[i].ref == k;
    }
  }

  /** An engine has exactly the tables of every list that its signature could be of. */
  lemma {:induction false} SignatureDecides(sign: Signer, pe: PooledEngine, refs: seq<CacheRef>)
    requires Canonical(sign) && Content.Loaded(sign, pe) && WellFormed(refs) && sign(refs) == pe.signature
    ensures Content.Represents(refs, pe.tables)
  {
    var named :| WellFormed(named) && NoDuplicates(named) && pe.signature == sign(named)
        && Content.Represents(named, pe.tables);
    assert multiset(named) == multiset(refs);
    assert forall r :: r in named <==> r in multiset(named);
    assert forall r :: r in refs <==> r in multiset(refs);
  }

  /** The engine holds the planned tables and no others, each with rows no older than was seen. */
  predicate Serves(pe: PooledEngine, rs: seq<Resolved>) {
    && pe.db.Keys == RefSet(rs)
    && forall i :: 0 <= i < |rs| ==> rs[i].ref in pe.db && Fresh(rs[i].seen, pe.db[rs[i].ref])
  }

  lemma {:induction false} SharedUserIsServed(s: State, c: ClientId)
    requires Inv(s) && Canonical(s.sign) && c in s.pcs && SharedUser(s.pcs[c])
    ensures s.pcs[c].e in s.pool.all && Serves(s.pool.engines[s.pcs[c].e], s.pcs[c].resolved)
  {
    var pc := s.pcs[c];
    Leases.HeldIsOpen(s, c);
    var pe := s.pool.engines[pc.e];
    assert Content.PcOk(s.sign, s.pool, pc) && PcOk(s.cat, s.pool, pc) && Content.EngineOk(s.sign, pe)
        && EngineOk(s.cat, pe);
    assert WellFormed(CacheRefs(pc.resolved));
    SignatureDecides(s.sign, pe, CacheRefs(pc.resolved));
    RepresentedKeys(pc.resolved, pe.tables);
    forall i | 0 <= i < |pc.resolved|
      ensures pc.resolved[i].ref in pe.db && Fresh(pc.resolved[i].seen, pe.db[pc.resolved[i].ref])
    {
      assert Current(s.cat, pc.resolved[i]) && Offers(s.cat, pe, pc.resolved[i].ref);
    }
  }

  /** Whatever the interleaving, a query on a shared engine finds exactly the tables it
      referenced, each with rows at least as new as the version it read. */
  lemma {:induction false} SharedQueryReadsFreshTables(sign: Signer, run: seq<Action>, c: ClientId)
    requires Canonical(sign) && ValidRun(Init(sign), run) && SafeRun(Init(sign), run)
    requires var s := Final(Init(sign), run); c in s.pcs && SharedUser(s.pcs[c])
    ensures var s := Final(Init(sign), run);
            var pc := s.pcs[c];
            && pc.e in s.pool.all && pc.e in s.pool.engines
            && Serves(s.pool.engines[pc.e], pc.resolved)
  {
    RunKeepsInv(Init(sign), run);
    RunKeepsSigner(Init(sign), run);
    SharedUserIsServed(Final(Init(sign), run), c);
  }
}
