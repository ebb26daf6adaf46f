/** Every interleaving of queries over the engine pool and the catalog it caches:
    sql_engine_pool.go together with openMaterializedSQLDatabase in sql_engine.go.
    Each action is one section executed under the pool or catalog mutex, or one
    step a client makes on an engine it has leased. */
module EnginePoolProtocol {
  import opened Options
  import opened Signature
  import opened EnginePool

  type ClientId = nat

  /** How a list of table versions becomes a cache key; tableSignature in the source. */
  type Signer = seq<CacheRef> -> string

  // ---- State ------------------------------------------------------------

  /** live: the current state of each table; born: how often its name was created. */
  datatype Catalog = Catalog(live: map<TableRef, Image>, born: map<TableRef, nat>)

  /** seen: the catalog state whose version was read; image: the rows read after it. */
  datatype Resolved = Resolved(ref: TableRef, seen: Image, image: Image, found: bool, hasVersion: bool)

  datatype Lookup = NotRead | Missing | Seen(image: Image)

  /** Where a query is. A non-empty sig means that it uses a shared engine. */
  datatype Pc =
    | Resolving(readOnly: bool, todo: seq<TableRef>, pending: Lookup, done: seq<Resolved>)
    | Opening(resolved: seq<Resolved>, sig: string)
    | Resetting(e: EngineId, resolved: seq<Resolved>, sig: string)
    | Building(e: EngineId, resolved: seq<Resolved>, sig: string, next: nat, reconciled: bool)
    | Using(e: EngineId, resolved: seq<Resolved>, sig: string)
    | Publishing(e: EngineId)
    | Discarding(gone: EngineId)

  datatype State = State(sign: Signer, pool: Pool, pcs: map<ClientId, Pc>, cat: Catalog)

  function Init(sign: Signer): State {
    State(sign, EmptyPool, map[], Catalog(map[], map[]))
  }

  /** How far materializeResolvedRef got before it failed: no schema, no table, or a table without
      its rows. */
  datatype Failure = NoSchema | NoTable | NoRows

  datatype Action =
    | Create(k: TableRef, version: nat)
    | Mutate(k: TableRef)
    | Drop(k: TableRef)
    | Begin(c: ClientId, readOnly: bool, refs: seq<TableRef>)
    | ReadVersion(c: ClientId)
    | ReadRows(c: ClientId, stable: bool)
    | JoinShared(c: ClientId, e: EngineId)
    | LeaseShared(c: ClientId, e: EngineId)
    | LeasePrivate(c: ClientId, e: EngineId)
    | NoEngine(c: ClientId)
    | OpenEngine(c: ClientId)
    | ResetLeased(c: ClientId)
    | ResetLeasedFails(c: ClientId)
    | Reconcile(c: ClientId)
    | ReconcileFails(c: ClientId, dropped: set<TableRef>)
    | Load(c: ClientId)
    | LoadFails(c: ClientId, failure: Failure)
    | FinishBuild(c: ClientId)
    | Execute(c: ClientId, db: map<TableRef, Image>)
    | LeaveShared(c: ClientId)
    | ResetPrivate(c: ClientId)
    | ResetPrivateFails(c: ClientId, dropped: set<TableRef>)
    | LeavePrivate(c: ClientId)
    | CloseDiscarded(c: ClientId)

  // ---- What a query reads and asks for -----------------------------------

  const NoImage := Image(0, 0)

  function CacheRefs(rs: seq<Resolved>): (r: seq<CacheRef>)
    ensures |r| == |rs|
    ensures forall i :: 0 <= i < |rs| ==> r[i] == CacheRef(rs[i].ref, rs[i].seen.version)
  {
    seq(|rs|, i requires 0 <= i < |rs| => CacheRef(rs[i].ref, rs[i].seen.version))
  }

  predicate AllVersioned(rs: seq<Resolved>) {
    forall i :: 0 <= i < |rs| ==> rs[i].hasVersion
  }

  /** cacheSignature: "" sends the query to a private engine. */
  function CacheSignature(sign: Signer, readOnly: bool, rs: seq<Resolved>): string {
    if readOnly && AllVersioned(rs) then sign(CacheRefs(rs)) else ""
  }

  function Look(cat: Catalog, k: TableRef): Lookup {
    if k in cat.live then Seen(cat.live[k]) else Missing
  }

  /** The second read: rows as they are now, labelled with the version seen before.
      stable is false for views, external tables and pruned reads. */
  function ResolveRows(cat: Catalog, k: TableRef, pending: Lookup, stable: bool): Resolved {
    if k !in cat.live then Resolved(k, NoImage, NoImage, false, false)
    else if pending.Seen? && stable then Resolved(k, pending.image, cat.live[k], true, true)
    else Resolved(k, NoImage, cat.live[k], true, false)
  }

  /** The engine's bookkeeping has the table at the version that was read. */
  predicate Marks(pe: PooledEngine, r: Resolved) {
    r.ref in pe.tables && pe.tables[r.ref] == r.seen.version
  }

  /** materializedVersion: the table is taken to be there already. */
  predicate Skips(pe: PooledEngine, r: Resolved) {
    r.hasVersion && Marks(pe, r)
  }

  /** The CREATE TABLE of materializeTable fails on a table that is there. */
  predicate MayLoad(pe: PooledEngine, r: Resolved) {
    Skips(pe, r) || (r.found ==> r.ref !in pe.db)
  }

  function Mark(pe: PooledEngine, r: Resolved): PooledEngine {
    pe.(tables := pe.tables[r.ref := r.seen.version])
  }

  /** materializeResolvedRef, when the load succeeds. */
  function Materialize(pe: PooledEngine, r: Resolved): PooledEngine {
    if Skips(pe, r) then pe
    else Mark(pe, r).(db := if r.found then pe.db[r.ref := r.image] else pe.db)
  }

  /** A load is not tried when it is skipped, and only the rows of a found table are loaded. */
  predicate MayFail(pe: PooledEngine, r: Resolved, failure: Failure) {
    && !Skips(pe, r)
    && (failure.NoTable? ==> r.found)
    && (failure.NoRows? ==> r.found && r.ref !in pe.db)
  }

  /** materializeResolvedRef, when the load fails: the table is marked before it is loaded. */
  function Spoil(pe: PooledEngine, r: Resolved, failure: Failure): PooledEngine {
    match failure
    case NoSchema => pe
    case NoTable => Mark(pe, r)
    case NoRows => Mark(pe, r).(db := pe.db[r.ref := NoImage])
  }

  function RefSet(rs: seq<Resolved>): set<TableRef> {
    set i | 0 <= i < |rs| :: rs[i].ref
  }

  function Unwanted(pe: PooledEngine, rs: seq<Resolved>): set<TableRef> {
    pe.tables.Keys - RefSet(rs)
  }

  function DropTables(pe: PooledEngine, gone: set<TableRef>): PooledEngine {
    pe.(tables := pe.tables - gone, db := pe.db - gone)
  }

  /** reconcileSharedEngine: drop what the new signature does not want. */
  function DropUnwanted(pe: PooledEngine, rs: seq<Resolved>): PooledEngine {
    DropTables(pe, Unwanted(pe, rs))
  }

  // ---- Transitions -------------------------------------------------------

  predicate At(s: State, c: ClientId) {
    c in s.pcs
  }

  predicate ResolvedAll(s: State, c: ClientId) {
    c in s.pcs && s.pcs[c].Resolving? && s.pcs[c].todo == []
  }

  function SigOf(s: State, c: ClientId): string
    requires ResolvedAll(s, c)
  {
    CacheSignature(s.sign, s.pcs[c].readOnly, s.pcs[c].done)
  }

  function Goto(s: State, c: ClientId, pc: Pc): State {
    s.(pcs := s.pcs[c := pc])
  }

  function Leave(s: State, c: ClientId): State {
    s.(pcs := s.pcs - {c})
  }

  function SetEngine(s: State, e: EngineId, pe: PooledEngine): State {
    s.(pool := s.pool.(engines := s.pool.engines[e := pe]))
  }

  /** A client that holds a lease on an engine the pool knows. */
  predicate Holding(s: State, c: ClientId) {
    c in s.pcs && HolderOf(s.pcs[c]).Some? && HolderOf(s.pcs[c]).value in s.pool.engines
  }

  function HolderOf(pc: Pc): Option<EngineId> {
    if pc.Resetting? || pc.Building? || pc.Using? || pc.Publishing? then Some(pc.e) else None
  }

  /** A client with a table still to load. */
  predicate Loading(s: State, c: ClientId) {
    Holding(s, c) && s.pcs[c].Building? && s.pcs[c].reconciled && s.pcs[c].next < |s.pcs[c].resolved|
  }

  ghost predicate Enabled(s: State, a: Action) {
    && WellFormedPool(s.pool)
    && match a
       case Create(k, v) => k !in s.cat.live && 1 <= v
       case Mutate(k) => k in s.cat.live
       case Drop(k) => k in s.cat.live
       case Begin(c, readOnly, refs) => c !in s.pcs && NoDuplicates(refs)
       case ReadVersion(c) => At(s, c) && s.pcs[c].Resolving? && s.pcs[c].todo != [] && s.pcs[c].pending.NotRead?
       case ReadRows(c, _) => At(s, c) && s.pcs[c].Resolving? && s.pcs[c].todo != [] && !s.pcs[c].pending.NotRead?
       case JoinShared(c, e) => ResolvedAll(s, c) && SigOf(s, c) != "" && ChoosesMatch(s.pool, SigOf(s, c), Some(e))
       case LeaseShared(c, e) =>
         && ResolvedAll(s, c) && SigOf(s, c) != ""
         && ChoosesMatch(s.pool, SigOf(s, c), None) && ChoosesReuse(s.pool, Some(e))
       case LeasePrivate(c, e) => ResolvedAll(s, c) && SigOf(s, c) == "" && ChoosesIdle(s.pool, Some(e))
       case NoEngine(c) =>
         && ResolvedAll(s, c)
         && if SigOf(s, c) == "" then ChoosesIdle(s.pool, None)
            else ChoosesMatch(s.pool, SigOf(s, c), None) && ChoosesReuse(s.pool, None)
       case OpenEngine(c) => At(s, c) && s.pcs[c].Opening?
       case ResetLeased(c) => Holding(s, c) && s.pcs[c].Resetting?
       case ResetLeasedFails(c) => Holding(s, c) && s.pcs[c].Resetting?
       case Reconcile(c) => Holding(s, c) && s.pcs[c].Building? && !s.pcs[c].reconciled
       case ReconcileFails(c, dropped) =>
         && Holding(s, c) && s.pcs[c].Building? && !s.pcs[c].reconciled && s.pcs[c].sig != ""
         && dropped < Unwanted(s.pool.engines[s.pcs[c].e], s.pcs[c].resolved)
       case Load(c) => Loading(s, c) && MayLoad(s.pool.engines[s.pcs[c].e], s.pcs[c].resolved[s.pcs[c].next])
       case LoadFails(c, failure) =>
         Loading(s, c) && MayFail(s.pool.engines[s.pcs[c].e], s.pcs[c].resolved[s.pcs[c].next], failure)
       case FinishBuild(c) =>
         Holding(s, c) && s.pcs[c].Building? && s.pcs[c].reconciled && s.pcs[c].next == |s.pcs[c].resolved|
       case Execute(c, db) =>
         && Holding(s, c) && s.pcs[c].Using? && s.pcs[c].sig == ""
         && db.Keys <= s.pool.engines[s.pcs[c].e].tables.Keys
       case LeaveShared(c) => Holding(s, c) && s.pcs[c].Using? && s.pcs[c].sig != ""
       case ResetPrivate(c) => Holding(s, c) && s.pcs[c].Using? && s.pcs[c].sig == ""
       case ResetPrivateFails(c, _) => Holding(s, c) && s.pcs[c].Using? && s.pcs[c].sig == ""
       case LeavePrivate(c) => Holding(s, c) && s.pcs[c].Publishing?
       case CloseDiscarded(c) => At(s, c) && s.pcs[c].Discarding?
  }

  function ApplyCatalog(cat: Catalog, a: Action): Catalog {
    match a
    case Create(k, v) =>
      var b := if k in cat.born then cat.born[k] + 1 else 1;
      Catalog(cat.live[k := Image(b, v)], cat.born[k := b])
    case Mutate(k) =>
      if k !in cat.live then cat
      else cat.(live := cat.live[k := Image(cat.live[k].birth, cat.live[k].version + 1)])
    case Drop(k) => cat.(live := cat.live - {k})
    case _ => cat
  }

  predicate IsCatalog(a: Action) {
    a.Create? || a.Mutate? || a.Drop?
  }

  predicate IsRead(a: Action) {
    a.Begin? || a.ReadVersion? || a.ReadRows?
  }

  predicate IsAcquire(a: Action) {
    a.JoinShared? || a.LeaseShared? || a.LeasePrivate? || a.NoEngine? || a.OpenEngine?
  }

  predicate IsUse(a: Action) {
    a.Execute? || a.LeaveShared? || a.ResetPrivate? || a.ResetPrivateFails? || a.LeavePrivate?
  }

  predicate IsBuild(a: Action) {
    || a.ResetLeased? || a.ResetLeasedFails? || a.Reconcile? || a.ReconcileFails?
    || a.Load? || a.LoadFails? || a.FinishBuild?
  }

  ghost function ApplyRead(s: State, a: Action): State
    requires Enabled(s, a) && IsRead(a)
  {
    match a
    case Begin(c, readOnly, refs) => Goto(s, c, Resolving(readOnly, refs, NotRead, []))
    case ReadVersion(c) =>
      var pc := s.pcs[c];
      Goto(s, c, pc.(pending := Look(s.cat, pc.todo[0])))
    case ReadRows(c, stable) =>
      var pc := s.pcs[c];
      Goto(s, c, Resolving(pc.readOnly, pc.todo[1..], NotRead,
                           pc.done + [ResolveRows(s.cat, pc.todo[0], pc.pending, stable)]))
  }

  /** The pool's answer to acquire, and openFresh. */
  ghost function ApplyAcquire(s: State, a: Action): State
    requires Enabled(s, a) && IsAcquire(a)
  {
    match a
    case JoinShared(c, e) =>
      Goto(s.(pool := AddLease(s.pool, e)), c, Using(e, s.pcs[c].done, SigOf(s, c)))
    case LeaseShared(c, e) =>
      var pc := if s.pool.engines[e].signature != "" then Resetting(e, s.pcs[c].done, SigOf(s, c))
                else Building(e, s.pcs[c].done, SigOf(s, c), 0, false);
      Goto(s.(pool := Lease(s.pool, e)), c, pc)
    case LeasePrivate(c, e) => Goto(s.(pool := Lease(s.pool, e)), c, Resetting(e, s.pcs[c].done, ""))
    case NoEngine(c) => Goto(s, c, Opening(s.pcs[c].done, SigOf(s, c)))
    case OpenEngine(c) =>
      var pc := s.pcs[c];
      Goto(s.(pool := Open(s.pool)), c, Building(s.pool.nextId, pc.resolved, pc.sig, 0, false))
  }

  /** A failed query leaves pe behind and gives its engine back. */
  function GiveUp(s: State, c: ClientId, pe: PooledEngine): State
    requires Holding(s, c) && s.pcs[c].Building? && WellFormedPool(s.pool)
  {
    var pc := s.pcs[c];
    var t := SetEngine(s, pc.e, pe);
    if pc.sig == "" then Goto(t, c, Using(pc.e, pc.resolved, ""))
    else Leave(t.(pool := ReleaseShared(t.pool, pc.e)), c)
  }

  /** What the holder of an engine does to it until it runs its query. */
  ghost function ApplyBuild(s: State, a: Action): State
    requires Enabled(s, a) && IsBuild(a)
  {
    var c := a.c;
    var pc := s.pcs[c];
    var pe := s.pool.engines[pc.e];
    match a
    case ResetLeased(_) => Goto(s.(pool := Reset(s.pool, pc.e)), c, Building(pc.e, pc.resolved, pc.sig, 0, false))
    case ResetLeasedFails(_) => Goto(s.(pool := Discard(s.pool, pc.e)), c, Opening(pc.resolved, pc.sig))
    case Reconcile(_) =>
      Goto(SetEngine(s, pc.e, if pc.sig == "" then pe else DropUnwanted(pe, pc.resolved)), c, pc.(reconciled := true))
    case Load(_) =>
      Goto(SetEngine(s, pc.e, Materialize(pe, pc.resolved[pc.next])), c, pc.(next := pc.next + 1))
    case ReconcileFails(_, dropped) => GiveUp(s, c, DropTables(pe, dropped))
    case LoadFails(_, failure) => GiveUp(s, c, Spoil(pe, pc.resolved[pc.next], failure))
    case FinishBuild(_) =>
      var t := if pc.sig == "" then s else s.(pool := Tag(s.pool, pc.e, pc.sig));
      Goto(t, c, Using(pc.e, pc.resolved, pc.sig))
  }

  /** Running the query, and giving the engine back. */
  ghost function ApplyUse(s: State, a: Action): State
    requires Enabled(s, a) && IsUse(a)
  {
    var c := a.c;
    var e := s.pcs[c].e;
    match a
    case Execute(_, db) => SetEngine(s, e, s.pool.engines[e].(db := db))
    case LeaveShared(_) => Leave(s.(pool := ReleaseShared(s.pool, e)), c)
    case ResetPrivate(_) => Goto(s.(pool := Reset(s.pool, e)), c, Publishing(e))
    case ResetPrivateFails(_, dropped) =>
      var pe := s.pool.engines[e];
      Goto(SetEngine(s, e, pe.(db := pe.db - dropped, refCount := 0)), c, Discarding(e))
    case LeavePrivate(_) => Leave(s.(pool := PublishIdle(s.pool, e)), c)
  }

  ghost function Apply(s: State, a: Action): State
    requires Enabled(s, a)
  {
    if IsCatalog(a) then s.(cat := ApplyCatalog(s.cat, a))
    else if IsRead(a) then ApplyRead(s, a)
    else if IsAcquire(a) then ApplyAcquire(s, a)
    else if IsUse(a) then ApplyUse(s, a)
    else if IsBuild(a) then ApplyBuild(s, a)
    else Leave(s.(pool := Discard(s.pool, s.pcs[a.c].gone)), a.c)
  }

  ghost predicate ValidRun(s: State, run: seq<Action>)
    decreases |run|
  {
    run != [] ==> Enabled(s, run[0]) && ValidRun(Apply(s, run[0]), run[1..])
  }

  ghost function Final(s: State, run: seq<Action>): State
    requires ValidRun(s, run)
    decreases |run|
  {
    if run == [] then s else Final(Apply(s, run[0]), run[1..])
  }

  lemma {:induction false} JoinRuns(s: State, first: seq<Action>, second: seq<Action>)
    requires ValidRun(s, first) && ValidRun(Final(s, first), second)
    ensures ValidRun(s, first + second) && Final(s, first + second) == Final(Final(s, first), second)
    decreases |first|
  {
    if first == [] {
      assert first + second == second;
    } else {
      JoinRuns(Apply(s, first[0]), first[1..], second);
      assert (first + second)[1..] == first[1..] + second;
    }
  }

  lemma {:induction false} OneStep(s: State, a: Action)
    requires Enabled(s, a)
    ensures ValidRun(s, [a]) && Final(s, [a]) == Apply(s, a)
  {
    assert [a][1..] == [];
  }

  // ---- Holders -----------------------------------------------------------

  ghost function Holders(pcs: map<ClientId, Pc>, e: EngineId): set<ClientId> {
    set c | c in pcs && HolderOf(pcs[c]) == Some(e)
  }

  lemma {:induction false} HoldersAfterGoto(pcs: map<ClientId, Pc>, c: ClientId, pc: Pc, e: EngineId)
    ensures Holders(pcs[c := pc], e) ==
            if HolderOf(pc) == Some(e) then Holders(pcs, e) + {c} else Holders(pcs, e) - {c}
  {
  }

  lemma {:induction false} HoldersAfterLeave(pcs: map<ClientId, Pc>, c: ClientId, e: EngineId)
    ensures Holders(pcs - {c}, e) == Holders(pcs, e) - {c}
  {
  }

  predicate SharedUser(pc: Pc) {
    pc.Using? && pc.sig != ""
  }

  /** The client whose step it is; nobody for a change of the catalog. */
  function Actor(a: Action): set<ClientId> {
    if IsCatalog(a) then {} else {a.c}
  }

  lemma {:induction false} OthersWait(s: State, a: Action, d: ClientId)
    requires Enabled(s, a) && d in s.pcs && d !in Actor(a)
    ensures d in Apply(s, a).pcs && Apply(s, a).pcs[d] == s.pcs[d]
  {
  }

  lemma {:induction false} NobodyAppears(s: State, a: Action)
    requires Enabled(s, a)
    ensures forall d :: d in Apply(s, a).pcs ==> d in s.pcs || d in Actor(a)
  {
  }

  lemma {:induction false} StepKeepsSigner(s: State, a: Action)
    requires Enabled(s, a)
    ensures Apply(s, a).sign == s.sign
  {
  }

  lemma {:induction false} RunKeepsSigner(s: State, run: seq<Action>)
    requires ValidRun(s, run)
    ensures Final(s, run).sign == s.sign
    decreases |run|
  {
    if run != [] {
      StepKeepsSigner(s, run[0]);
      RunKeepsSigner(Apply(s, run[0]), run[1..]);
    }
  }
}
