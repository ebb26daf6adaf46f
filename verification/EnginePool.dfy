/** The embedded-engine pool of sql_engine_pool.go: its state, what each section
    executed under the pool mutex does to it, and the imperative pool itself.

    Engines are named by identifiers instead of pointers; `engines` maps every
    identifier ever handed out to the engine's current fields, and `all` is the
    pool's list of engines that are still open. */
module EnginePool {
  import opened Options
  import opened Signature

  type EngineId = nat

  /** Row images are named by the catalog state they were read from: the `version`-th
      state of the `birth`-th table created under that name. */
  datatype Image = Image(birth: nat, version: nat)

  /** tables: the bookkeeping (name to version); db: what the connection really holds. */
  datatype PooledEngine = PooledEngine(
    tables: map<TableRef, nat>,
    db: map<TableRef, Image>,
    signature: string,
    refCount: nat)

  const FreshEngine := PooledEngine(map[], map[], "", 1)

  datatype Pool = Pool(all: seq<EngineId>, engines: map<EngineId, PooledEngine>, nextId: nat)

  const EmptyPool := Pool([], map[], 0)

  const MAX_IDLE: nat := 8

  ghost predicate WellFormedPool(p: Pool) {
    && NoDuplicates(p.all)
    && (forall e :: e in p.all ==> e in p.engines)
    && (forall e :: e in p.engines ==> e < p.nextId)
  }

  predicate IsIdle(p: Pool, e: EngineId)
    requires e in p.engines
  {
    p.engines[e].refCount == 0
  }

  predicate IsBlank(p: Pool, e: EngineId)
    requires e in p.engines
  {
    p.engines[e].signature == ""
  }

  // ---- What the scans choose -------------------------------------------

  /** acquirePrivate: the first idle engine. */
  ghost predicate ChoosesIdle(p: Pool, choice: Option<EngineId>)
    requires WellFormedPool(p)
  {
    match choice
    case None => forall i :: 0 <= i < |p.all| ==> !IsIdle(p, p.all[i])
    case Some(e) =>
      exists i :: 0 <= i < |p.all| && p.all[i] == e && IsIdle(p, e)
                  && forall j :: 0 <= j < i ==> !IsIdle(p, p.all[j])
  }

  /** acquireShared, first scan: the first engine carrying exactly this signature. */
  ghost predicate ChoosesMatch(p: Pool, sig: string, choice: Option<EngineId>)
    requires WellFormedPool(p)
  {
    match choice
    case None => forall i :: 0 <= i < |p.all| ==> p.engines[p.all[i]].signature != sig
    case Some(e) =>
      exists i :: 0 <= i < |p.all| && p.all[i] == e && p.engines[e].signature == sig
                  && forall j :: 0 <= j < i ==> p.engines[p.all[j]].signature != sig
  }

  /** acquireShared, second scan: the first blank idle engine, or else the first idle one. */
  ghost predicate ChoosesReuse(p: Pool, choice: Option<EngineId>)
    requires WellFormedPool(p)
  {
    if exists i :: 0 <= i < |p.all| && IsIdle(p, p.all[i]) && IsBlank(p, p.all[i]) then
      && choice.Some?
      && exists i :: 0 <= i < |p.all| && p.all[i] == choice.value
                     && IsIdle(p, p.all[i]) && IsBlank(p, p.all[i])
                     && forall j :: 0 <= j < i ==> !(IsIdle(p, p.all[j]) && IsBlank(p, p.all[j]))
    else
      ChoosesIdle(p, choice)
  }

  // ---- What the sections write -----------------------------------------

  /** Take an idle engine exclusively: one lease, and no signature others could match. */
  function Lease(p: Pool, e: EngineId): Pool
    requires e in p.engines
  {
    p.(engines := p.engines[e := p.engines[e].(refCount := 1, signature := "")])
  }

  function AddLease(p: Pool, e: EngineId): Pool
    requires e in p.engines
  {
    p.(engines := p.engines[e := p.engines[e].(refCount := p.engines[e].refCount + 1)])
  }

  function Tag(p: Pool, e: EngineId, sig: string): Pool
    requires e in p.engines
  {
    p.(engines := p.engines[e := p.engines[e].(signature := sig)])
  }

  function Open(p: Pool): Pool {
    Pool(p.all + [p.nextId], p.engines[p.nextId := FreshEngine], p.nextId + 1)
  }

  function Without(s: seq<EngineId>, gone: set<EngineId>): seq<EngineId> {
    if s == [] then []
    else if s[0] in gone then Without(s[1..], gone)
    else [s[0]] + Without(s[1..], gone)
  }

  function Discard(p: Pool, e: EngineId): Pool {
    p.(all := Without(p.all, {e}))
  }

  function IdleEngines(p: Pool, s: seq<EngineId>, blank: bool): seq<EngineId>
    requires forall e :: e in s ==> e in p.engines
  {
    if s == [] then []
    else if IsIdle(p, s[0]) && IsBlank(p, s[0]) == blank then [s[0]] + IdleEngines(p, s[1..], blank)
    else IdleEngines(p, s[1..], blank)
  }

  /** Idle engines in eviction order: a stable sort that puts blank ones first. */
  function EvictionOrder(p: Pool): seq<EngineId>
    requires forall e :: e in p.all ==> e in p.engines
  {
    IdleEngines(p, p.all, true) + IdleEngines(p, p.all, false)
  }

  function Evicted(p: Pool): set<EngineId>
    requires forall e :: e in p.all ==> e in p.engines
  {
    var idle := EvictionOrder(p);
    if |idle| <= MAX_IDLE then {}
    else set i | 0 <= i < |idle| - MAX_IDLE :: idle[i]
  }

  function EvictOverCap(p: Pool): Pool
    requires forall e :: e in p.all ==> e in p.engines
  {
    p.(all := Without(p.all, Evicted(p)))
  }

  /** releaseShared: one lease less, and eviction when it was the last one. */
  function ReleaseShared(p: Pool, e: EngineId): Pool
    requires WellFormedPool(p) && e in p.engines
  {
    var n := if p.engines[e].refCount > 0 then p.engines[e].refCount - 1 else 0;
    var q := p.(engines := p.engines[e := p.engines[e].(refCount := n)]);
    if n == 0 then EvictOverCap(q) else q
  }

  /** releasePrivate after a successful reset. */
  function PublishIdle(p: Pool, e: EngineId): Pool
    requires WellFormedPool(p) && e in p.engines
  {
    EvictOverCap(p.(engines := p.engines[e := p.engines[e].(refCount := 0)]))
  }

  /** reset: drop every tracked table, forget the bookkeeping and the signature. */
  function Reset(p: Pool, e: EngineId): Pool
    requires e in p.engines
  {
    var pe := p.engines[e];
    p.(engines := p.engines[e := pe.(db := pe.db - pe.tables.Keys, tables := map[], signature := "")])
  }

  // ---- Eviction ---------------------------------------------------------

  lemma {:induction false} WithoutMembers(s: seq<EngineId>, gone: set<EngineId>)
    ensures forall e :: e in Without(s, gone) <==> e in s && e !in gone
    ensures NoDuplicates(s) ==> NoDuplicates(Without(s, gone))
  {
    if s != [] {
      WithoutMembers(s[1..], gone);
      assert s == [s[0]] + s[1..];
      if NoDuplicates(s) { assert s[0] !in s[1..]; }
    }
  }

  lemma {:induction false} IdleEnginesMembers(p: Pool, s: seq<EngineId>, blank: bool)
    requires forall e :: e in s ==> e in p.engines
    ensures forall e :: e in IdleEngines(p, s, blank) <==> e in s && IsIdle(p, e) && IsBlank(p, e) == blank
    ensures NoDuplicates(s) ==> NoDuplicates(IdleEngines(p, s, blank))
  {
    if s != [] {
      IdleEnginesMembers(p, s[1..], blank);
      assert s == [s[0]] + s[1..];
      if NoDuplicates(s) { assert s[0] !in s[1..]; }
    }
  }

  lemma {:induction false} EvictionOrderMembers(p: Pool)
    requires WellFormedPool(p)
    ensures NoDuplicates(EvictionOrder(p))
    ensures forall e :: e in EvictionOrder(p) <==> e in p.all && IsIdle(p, e)
  {
    IdleEnginesMembers(p, p.all, true);
    IdleEnginesMembers(p, p.all, false);
    var a, b := IdleEngines(p, p.all, true), IdleEngines(p, p.all, false);
    forall i, j | 0 <= i < |a| && 0 <= j < |b| ensures a[i] != b[j] {
      assert a[i] in a && b[j] in b;
    }
  }

  ghost function IdleSet(p: Pool): set<EngineId>
    requires forall e :: e in p.all ==> e in p.engines
  {
    set e | e in p.all && IsIdle(p, e)
  }

  ghost function Elements(s: seq<EngineId>): set<EngineId> {
    set e | e in s
  }

  lemma {:induction false} SetOfDistinct(s: seq<EngineId>)
    requires NoDuplicates(s)
    ensures |Elements(s)| == |s|
  {
    if s == [] {
      assert Elements(s) == {};
    } else {
      SetOfDistinct(s[1..]);
      assert Elements(s) == {s[0]} + Elements(s[1..]);
      assert s[0] !in s[1..];
    }
  }

  lemma {:induction false} EvictedMembers(p: Pool)
    requires WellFormedPool(p)
    ensures var idle := EvictionOrder(p);
            Evicted(p) == Elements(idle[..if |idle| <= MAX_IDLE then 0 else |idle| - MAX_IDLE])
    ensures forall e :: e in Evicted(p) ==> e in p.all && IsIdle(p, e)
  {
    EvictionOrderMembers(p);
    var idle := EvictionOrder(p);
    var n := if |idle| <= MAX_IDLE then 0 else |idle| - MAX_IDLE;
    forall e | e in Evicted(p) ensures e in idle[..n] {
      var i :| 0 <= i < n && idle[i] == e;
      assert idle[..n][i] == e;
    }
    forall e | e in idle[..n] ensures e in Evicted(p) && e in idle {
      var i :| 0 <= i < n && idle[..n][i] == e;
      assert idle[i] == e;
    }
  }

  lemma {:induction false} EvictOverCapKeeps(p: Pool)
    requires WellFormedPool(p)
    ensures WellFormedPool(EvictOverCap(p))
    ensures forall e :: e in EvictOverCap(p).all <==> e in p.all && e !in Evicted(p)
    ensures forall e :: e in Evicted(p) ==> e in p.all && IsIdle(p, e)
  {
    EvictedMembers(p);
    WithoutMembers(p.all, Evicted(p));
  }

  /** Eviction removes idle engines only and leaves exactly min(idle, 8) of them. */
  lemma {:induction false} EvictOverCapCorrect(p: Pool)
    requires WellFormedPool(p)
    ensures WellFormedPool(EvictOverCap(p))
    ensures IdleSet(EvictOverCap(p)) <= IdleSet(p)
    ensures forall e :: e in p.all && !IsIdle(p, e) ==> e in EvictOverCap(p).all
    ensures |IdleSet(EvictOverCap(p))| == if |IdleSet(p)| <= MAX_IDLE then |IdleSet(p)| else MAX_IDLE
  {
    EvictOverCapKeeps(p);
    EvictedCount(p);
    assert IdleSet(EvictOverCap(p)) == IdleSet(p) - Evicted(p);
  }

  lemma {:induction false} EvictedCount(p: Pool)
    requires WellFormedPool(p)
    ensures Evicted(p) <= IdleSet(p)
    ensures |Evicted(p)| == if |IdleSet(p)| <= MAX_IDLE then 0 else |IdleSet(p)| - MAX_IDLE
  {
    var idle := EvictionOrder(p);
    EvictionOrderMembers(p);
    EvictedMembers(p);
    assert IdleSet(p) == Elements(idle);
    SetOfDistinct(idle);
    SetOfDistinct(idle[..if |idle| <= MAX_IDLE then 0 else |idle| - MAX_IDLE]);
  }

  /** A loaded engine is never closed while a blank idle one is kept. */
  lemma {:induction false} EvictsBlankFirst(p: Pool, e: EngineId, k: EngineId)
    requires WellFormedPool(p)
    requires e in p.all && e in Evicted(p) && !IsBlank(p, e)
    requires k in p.all && IsIdle(p, k) && IsBlank(p, k)
    ensures k in Evicted(p)
  {
    EvictedMembers(p);
    IdleEnginesMembers(p, p.all, true);
    var a := IdleEngines(p, p.all, true);
    var idle := EvictionOrder(p);
    var i :| 0 <= i < |a| && a[i] == k;
    assert forall x :: 0 <= x < |a| ==> idle[x] == a[x] && a[x] in a && IsBlank(p, a[x]);
    var j :| 0 <= j < |idle| - MAX_IDLE && idle[j] == e;
    assert idle[i] == k;
  }

  // ---- The imperative pool ------------------------------------------------

  class SqlEnginePool {
    var all: seq<EngineId>
    var engines: map<EngineId, PooledEngine>
    var nextId: nat

    ghost function View(): Pool
      reads this
    {
      Pool(all, engines, nextId)
    }

    ghost predicate Valid()
      reads this
    {
      WellFormedPool(View())
    }

    constructor ()
      ensures Valid() && View() == EmptyPool
    {
      all, engines, nextId := [], map[], 0;
    }

    /** The locked part of acquirePrivate. */
    method AcquirePrivateSection() returns (choice: Option<EngineId>)
      requires Valid()
      modifies this
      ensures Valid()
      ensures ChoosesIdle(old(View()), choice)
      ensures View() == match choice case None => old(View()) case Some(e) => Lease(old(View()), e)
    {
      var i := 0;
      while i < |all|
        invariant 0 <= i <= |all|
        invariant View() == old(View())
        invariant forall j :: 0 <= j < i ==> !IsIdle(View(), all[j])
      {
        var pe := engines[all[i]];
        if pe.refCount == 0 {
          engines := engines[all[i] := pe.(refCount := 1, signature := "")];
          return Some(all[i]);
        }
        i := i + 1;
      }
      return None;
    }

    /** The first scan of acquireShared: join an engine that carries the signature. */
    method JoinMatchingEngine(sig: string) returns (choice: Option<EngineId>)
      requires Valid()
      modifies this
      ensures Valid()
      ensures ChoosesMatch(old(View()), sig, choice)
      ensures View() == match choice case None => old(View()) case Some(e) => AddLease(old(View()), e)
    {
      var i := 0;
      while i < |all|
        invariant 0 <= i <= |all|
        invariant View() == old(View())
        invariant forall j :: 0 <= j < i ==> engines[all[j]].signature != sig
      {
        var pe := engines[all[i]];
        if pe.signature == sig {
          engines := engines[all[i] := pe.(refCount := pe.refCount + 1)];
          return Some(all[i]);
        }
        i := i + 1;
      }
      return None;
    }

    /** The second scan of acquireShared: lease an idle engine, a blank one if there is any.
        dirty reports whether the leased engine still has to be reset. */
    method LeaseReusableEngine() returns (choice: Option<EngineId>, dirty: bool)
      requires Valid()
      modifies this
      ensures Valid()
      ensures ChoosesReuse(old(View()), choice)
      ensures View() == match choice case None => old(View()) case Some(e) => Lease(old(View()), e)
      ensures dirty == (choice.Some? && old(engines)[choice.value].signature != "")
    {
      ghost var p := View();
      choice := None;
      var i := 0;
      ghost var first := 0;
      while i < |all|
        invariant 0 <= i <= |all|
        invariant View() == p
        invariant forall j :: 0 <= j < i ==> !(IsIdle(p, all[j]) && IsBlank(p, all[j]))
        invariant choice.None? ==> forall j :: 0 <= j < i ==> !IsIdle(p, all[j])
        invariant choice.Some? ==> 0 <= first < i && all[first] == choice.value && IsIdle(p, all[first])
                                   && forall j :: 0 <= j < first ==> !IsIdle(p, all[j])
      {
        var pe := engines[all[i]];
        if pe.refCount == 0 {
          if pe.signature == "" {
            choice := Some(all[i]);
            assert IsIdle(p, all[i]) && IsBlank(p, all[i]);
            break;
          }
          if choice.None? {
            choice := Some(all[i]);
            first := i;
          }
        }
        i := i + 1;
      }
      dirty := false;
      if choice.Some? {
        var e := choice.value;
        dirty := engines[e].signature != "";
        engines := engines[e := engines[e].(refCount := 1, signature := "")];
      }
    }

    /** The locked part of openFresh. */
    method OpenFresh() returns (e: EngineId)
      requires Valid()
      modifies this
      ensures Valid()
      ensures e == old(nextId) && View() == Open(old(View()))
    {
      e := nextId;
      assert e !in all;
      all := all + [e];
      engines := engines[e := FreshEngine];
      nextId := nextId + 1;
    }

    method TagSignature(e: EngineId, sig: string)
      requires Valid() && e in engines
      modifies this
      ensures Valid() && View() == Tag(old(View()), e, sig)
    {
      engines := engines[e := engines[e].(signature := sig)];
    }

    method ReleaseSharedSection(e: EngineId)
      requires Valid() && e in engines
      modifies this
      ensures Valid() && View() == ReleaseShared(old(View()), e)
    {
      var pe := engines[e];
      if pe.refCount > 0 {
        pe := pe.(refCount := pe.refCount - 1);
      }
      engines := engines[e := pe];
      if pe.refCount == 0 {
        EvictOverCapLocked();
      }
    }

    method ReleasePrivateSection(e: EngineId)
      requires Valid() && e in engines
      modifies this
      ensures Valid() && View() == PublishIdle(old(View()), e)
    {
      engines := engines[e := engines[e].(refCount := 0)];
      EvictOverCapLocked();
    }

    method DiscardEngine(e: EngineId)
      requires Valid()
      modifies this
      ensures Valid() && View() == Discard(old(View()), e)
    {
      WithoutMembers(all, {e});
      all := Keep(all, {e});
    }

    static method Keep(s: seq<EngineId>, gone: set<EngineId>) returns (kept: seq<EngineId>)
      ensures kept == Without(s, gone)
    {
      kept := [];
      for i := 0 to |s|
        invariant kept + Without(s[i..], gone) == Without(s, gone)
      {
        assert s[i..][1..] == s[i + 1..];
        if s[i] !in gone {
          kept := kept + [s[i]];
        }
      }
    }

    /** The idle engines in list order, the blank ones apart from the loaded ones. */
    method CollectIdle() returns (blank: seq<EngineId>, loaded: seq<EngineId>)
      requires Valid()
      ensures blank == IdleEngines(View(), all, true)
      ensures loaded == IdleEngines(View(), all, false)
    {
      blank, loaded := [], [];
      for i := 0 to |all|
        invariant blank + IdleEngines(View(), all[i..], true) == IdleEngines(View(), all, true)
        invariant loaded + IdleEngines(View(), all[i..], false) == IdleEngines(View(), all, false)
      {
        assert all[i..][1..] == all[i + 1..];
        var pe := engines[all[i]];
        if pe.refCount == 0 {
          if pe.signature == "" {
            blank := blank + [all[i]];
          } else {
            loaded := loaded + [all[i]];
          }
        }
      }
    }

    method EvictOverCapLocked()
      requires Valid()
      modifies this
      ensures Valid() && View() == EvictOverCap(old(View()))
    {
      EvictOverCapKeeps(View());
      var blank, loaded := CollectIdle();
      var idle := blank + loaded;
      if |idle| <= MAX_IDLE {
        WithoutNothing(all);
        return;
      }
      var evict := set i | 0 <= i < |idle| - MAX_IDLE :: idle[i];
      all := Keep(all, evict);
    }
  }

  lemma {:induction false} WithoutNothing(s: seq<EngineId>)
    ensures Without(s, {}) == s
  {
    if s != [] {
      WithoutNothing(s[1..]);
      assert s == [s[0]] + s[1..];
    }
  }
}
