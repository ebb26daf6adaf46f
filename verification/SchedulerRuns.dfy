/** All interleavings of job goroutines over the scheduler: mutual exclusion, limits,
    accounting, absence of deadlock and termination. */
module SchedulerRuns {
  import opened Options
  import opened Counting
  import opened Scheduler

  /** Where the goroutine of a job is. Unwind(n, p) still has n deferred releases to make
      (3 resource, 2 storage write, 1 run slot); p tells whether the executor panicked. */
  datatype Pc =
    | Queued | Admitted | WantStorage | WantResource | Ready | Executing
    | Unwind(level: nat, panicked: bool) | Recovering | Finished

  /** key and storage, whether the job goes through the storage-write limiter, are read from the
      record at the first check. */
  datatype Run = Run(job: JobId, key: string, storage: bool, pc: Pc)

  datatype State = State(svc: Service, runs: seq<Run>)

  datatype Action =
    | Insert(requested: Option<JobId>, jobType: JobType, key: string)
    | Cancel(id: JobId)
    | Admit(r: nat)
    | First(r: nat)
    | TakeStorage(r: nat)
    | TakeResource(r: nat)
    | Second(r: nat)
    | Finish(r: nat, ok: bool)
    | Panic(r: nat)
    | Release(r: nat)
    | Recover(r: nat)

  function Init(runLimit: int, storageLimit: int): State {
    State(NewService(runLimit, storageLimit), [])
  }

  predicate At(s: State, r: nat, pc: Pc) {
    r < |s.runs| && s.runs[r].pc == pc && s.runs[r].job in s.svc.jobs
  }

  predicate Enabled(s: State, a: Action) {
    match a
    case Insert(_, _, _) => true
    case Cancel(_) => true
    case Admit(r) => At(s, r, Queued) && HasRoom(s.svc.runLimit, s.svc.runUsed)
    case First(r) => At(s, r, Admitted)
    case TakeStorage(r) =>
      At(s, r, WantStorage) && (s.runs[r].storage ==> HasRoom(s.svc.storageLimit, s.svc.storageUsed))
    case TakeResource(r) => At(s, r, WantResource) && (s.runs[r].key != "" ==> SlotUse(s.svc, s.runs[r].key) == 0)
    case Second(r) => At(s, r, Ready)
    case Finish(r, _) => At(s, r, Executing)
    case Panic(r) => At(s, r, Executing)
    case Release(r) => r < |s.runs| && s.runs[r].pc.Unwind? && s.runs[r].pc.level > 0 && s.runs[r].job in s.svc.jobs
    case Recover(r) => At(s, r, Recovering)
  }

  function Move(s: State, r: nat, svc: Service, y: Run): State
    requires r < |s.runs|
  {
    State(svc, s.runs[r := y])
  }

  function Goto(s: State, r: nat, svc: Service, pc: Pc): State
    requires r < |s.runs|
  {
    Move(s, r, svc, s.runs[r].(pc := pc))
  }

  /** One deferred release. */
  function ReleaseSlot(s: Service, run: Run, level: nat): Service {
    if level == 3 then FreeResourceSlot(s, run.key)
    else if level == 2 then FreeStorageSlot(s, run.storage)
    else FreeRunSlot(s)
  }

  function AfterRelease(level: nat, panicked: bool): Pc
    requires level > 0
  {
    if level > 1 then Unwind(level - 1, panicked)
    else if panicked then Recovering else Finished
  }

  function Apply(s: State, a: Action): State
    requires Enabled(s, a)
  {
    match a
    case Insert(requested, jobType, key) =>
      var (svc, id) := InsertJob(s.svc, requested, jobType, key);
      if id.None? then s
      else State(svc, s.runs + [Run(id.value, "", false, Queued)])
    case Cancel(id) => s.(svc := CancelJob(s.svc, id))
    case Admit(r) => Goto(s, r, TakeRunSlot(s.svc), Admitted)
    case First(r) =>
      var id := s.runs[r].job;
      var j := s.svc.jobs[id];
      Move(s, r, StopIfCancelled(s.svc, id),
           Run(id, j.key, s.svc.storageLimit.Some? && NeedsStorage(j.jobType, j.key),
               if j.cancelRequested then Unwind(1, false) else WantStorage))
    case TakeStorage(r) => Goto(s, r, TakeStorageSlot(s.svc, s.runs[r].storage), WantResource)
    case TakeResource(r) => Goto(s, r, TakeResourceSlot(s.svc, s.runs[r].key), Ready)
    case Second(r) =>
      var j := s.runs[r].job;
      Goto(s, r, StartOrStop(s.svc, j), if s.svc.jobs[j].cancelRequested then Unwind(3, false) else Executing)
    case Finish(r, ok) => Goto(s, r, FinishJob(s.svc, s.runs[r].job, ok), Unwind(3, false))
    case Panic(r) => Goto(s, r, s.svc, Unwind(3, true))
    case Release(r) =>
      var pc := s.runs[r].pc;
      Goto(s, r, ReleaseSlot(s.svc, s.runs[r], pc.level), AfterRelease(pc.level, pc.panicked))
    case Recover(r) => Goto(s, r, RecoverPanic(s.svc, s.runs[r].job), Finished)
  }

  ghost predicate ValidRun(s: State, run: seq<Action>)
    decreases |run|
  {
    run != [] ==> Enabled(s, run[0]) && ValidRun(Apply(s, run[0]), run[1..])
  }

  ghost function Final(s: State, run: seq<Action>): State
    requires ValidRun(s, run)
    decreases |run|
  {
    if run == [] then s else Final(Apply(s, run[0]), run[1..])
  }

  // ---- What a goroutine holds ---------------------------------------------------

  predicate InUnwind(pc: Pc, n: nat) {
    pc.Unwind? && n <= pc.level
  }

  predicate HasRunSlot(run: Run) {
    || run.pc.Admitted? || run.pc.WantStorage? || run.pc.WantResource? || run.pc.Ready? || run.pc.Executing?
    || InUnwind(run.pc, 1)
  }

  predicate HasStorageSlot(run: Run) {
    run.storage && (run.pc.WantResource? || run.pc.Ready? || run.pc.Executing? || InUnwind(run.pc, 2))
  }

  predicate HasKey(run: Run, key: string) {
    run.key == key && (run.pc.Ready? || run.pc.Executing? || InUnwind(run.pc, 3))
  }

  function KeyHolder(key: string): Run -> bool {
    (run: Run) => HasKey(run, key)
  }

  /** The goroutine has not yet recorded an outcome. */
  predicate Unrecorded(run: Run) {
    !run.pc.Finished? && !(run.pc.Unwind? && !run.pc.panicked)
  }

  // ---- What holds over every run ------------------------------------------------------------------

  predicate RunOk(svc: Service, run: Run) {
    && run.job in svc.jobs
    && (run.storage ==> svc.storageLimit.Some?)
    && (run.pc.Unwind? ==> 1 <= run.pc.level <= 3)
  }

  predicate Awaited(s: State, j: JobId) {
    exists r :: 0 <= r < |s.runs| && s.runs[r].job == j && Unrecorded(s.runs[r])
  }

  /** Every goroutine has its record, and a record that is not done has a goroutine that will
      record an outcome in it. */
  ghost predicate RunsOk(s: State) {
    && (forall r :: 0 <= r < |s.runs| ==> RunOk(s.svc, s.runs[r]))
    && (forall j :: j in s.svc.jobs && !s.svc.jobs[j].state.Done? ==> Awaited(s, j))
  }

  predicate WithinLimit(limit: Option<nat>, used: nat, holders: nat) {
    limit.Some? ==> used == holders && used <= limit.value && limit.value > 0
  }

  ghost predicate SlotsOk(s: State) {
    && WithinLimit(s.svc.runLimit, s.svc.runUsed, Count(s.runs, HasRunSlot))
    && WithinLimit(s.svc.storageLimit, s.svc.storageUsed, Count(s.runs, HasStorageSlot))
    && forall k :: k != "" ==> SlotUse(s.svc, k) == Count(s.runs, KeyHolder(k)) && SlotUse(s.svc, k) <= 1
  }

  ghost predicate CountersOk(s: State) {
    && s.svc.submitted == |s.runs|
    && s.svc.submitted == s.svc.completed + s.svc.failed + Count(s.runs, Unrecorded)
  }

  ghost predicate Base(s: State) {
    RunsOk(s) && SlotsOk(s) && CountersOk(s)
  }

  // ---- Preservation -------------------------------------------------------------------

  /** What a move does to the records: at most the goroutine's own changes, and it is done once
      its outcome is recorded. */
  predicate MovesRecord(s: State, r: nat, svc: Service, y: Run)
    requires r < |s.runs|
  {
    && y.job == s.runs[r].job && svc.jobs.Keys == s.svc.jobs.Keys
    && (forall j :: j in svc.jobs && j != y.job ==> svc.jobs[j] == s.svc.jobs[j])
    && (y.job in svc.jobs && !svc.jobs[y.job].state.Done? ==>
          Unrecorded(y) || (!Unrecorded(s.runs[r]) && !s.svc.jobs[y.job].state.Done?))
  }

  lemma {:induction false} MoveKeepsRuns(s: State, r: nat, svc: Service, y: Run)
    requires RunsOk(s) && r < |s.runs| && svc.storageLimit == s.svc.storageLimit && MovesRecord(s, r, svc, y)
    requires RunOk(svc, y)
    ensures RunsOk(Move(s, r, svc, y))
  {
    var t := Move(s, r, svc, y);
    forall q | 0 <= q < |t.runs| ensures RunOk(t.svc, t.runs[q]) {
      if q != r { assert RunOk(s.svc, s.runs[q]); }
    }
    forall j | j in t.svc.jobs && !t.svc.jobs[j].state.Done? ensures Awaited(t, j) {
      if j == y.job && Unrecorded(y) {
        assert t.runs[r] == y;
      } else {
        assert Awaited(s, j);
        var q :| 0 <= q < |s.runs| && s.runs[q].job == j && Unrecorded(s.runs[q]);
        assert t.runs[q] == s.runs[q];
      }
    }
  }

  function One(b: bool): nat {
    if b then 1 else 0
  }

  /** A limiter stays in step with its holders when its tokens change as the move says. */
  predicate Balanced(limit: Option<nat>, before: nat, after: nat, held: bool, holds: bool) {
    limit.Some? ==> after + One(held) == before + One(holds) && after <= limit.value && limit.value > 0
  }

  /** What a move owes to the three kinds of slots. */
  ghost predicate MoveIsBalanced(s: State, r: nat, svc: Service, y: Run)
    requires r < |s.runs|
  {
    var x := s.runs[r];
    && svc.runLimit == s.svc.runLimit && svc.storageLimit == s.svc.storageLimit
    && Balanced(svc.runLimit, s.svc.runUsed, svc.runUsed, HasRunSlot(x), HasRunSlot(y))
    && Balanced(svc.storageLimit, s.svc.storageUsed, svc.storageUsed, HasStorageSlot(x), HasStorageSlot(y))
    && forall k :: k != "" ==> Balanced(Some(1), SlotUse(s.svc, k), SlotUse(svc, k), HasKey(x, k), HasKey(y, k))
  }

  lemma {:induction false} MoveKeepsSlots(s: State, r: nat, svc: Service, y: Run)
    requires SlotsOk(s) && r < |s.runs| && MoveIsBalanced(s, r, svc, y)
    ensures SlotsOk(Move(s, r, svc, y))
  {
    var t := Move(s, r, svc, y);
    CountUpdate(s.runs, r, y, HasRunSlot);
    CountUpdate(s.runs, r, y, HasStorageSlot);
    forall k | k != "" ensures SlotUse(t.svc, k) == Count(t.runs, KeyHolder(k)) && SlotUse(t.svc, k) <= 1 {
      assert Balanced(Some(1), SlotUse(s.svc, k), SlotUse(svc, k), HasKey(s.runs[r], k), HasKey(y, k));
      CountUpdate(s.runs, r, y, KeyHolder(k));
    }
  }

  predicate MovesCounters(s: State, r: nat, svc: Service, y: Run)
    requires r < |s.runs|
  {
    && svc.submitted == s.svc.submitted
    && svc.completed + svc.failed + One(Unrecorded(y)) == s.svc.completed + s.svc.failed + One(Unrecorded(s.runs[r]))
  }

  lemma {:induction false} MoveKeepsBase(s: State, r: nat, svc: Service, y: Run)
    requires Base(s) && r < |s.runs| && RunOk(svc, y)
    requires MovesRecord(s, r, svc, y) && MoveIsBalanced(s, r, svc, y) && MovesCounters(s, r, svc, y)
    ensures Base(Move(s, r, svc, y))
  {
    MoveKeepsRuns(s, r, svc, y);
    MoveKeepsSlots(s, r, svc, y);
    CountUpdate(s.runs, r, y, Unrecorded);
  }

  lemma {:induction false} SlotsUntouched(s: State, r: nat, svc: Service, y: Run)
    requires SlotsOk(s) && r < |s.runs|
    requires svc == s.svc.(jobs := svc.jobs, completed := svc.completed, failed := svc.failed)
    requires var x := s.runs[r];
             HasRunSlot(x) == HasRunSlot(y) && HasStorageSlot(x) == HasStorageSlot(y)
             && forall k :: HasKey(x, k) == HasKey(y, k)
    ensures MoveIsBalanced(s, r, svc, y)
  {
  }

  lemma {:induction false} FirstKeepsBase(s: State, a: Action)
    requires Base(s) && Enabled(s, a) && a.First?
    ensures Base(Apply(s, a))
  {
    var t := Apply(s, a);
    assert RunOk(s.svc, s.runs[a.r]);
    SlotsUntouched(s, a.r, t.svc, t.runs[a.r]);
    MoveKeepsBase(s, a.r, t.svc, t.runs[a.r]);
  }

  lemma {:induction false} SecondKeepsBase(s: State, a: Action)
    requires Base(s) && Enabled(s, a) && a.Second?
    ensures Base(Apply(s, a))
  {
    var t := Apply(s, a);
    assert RunOk(s.svc, s.runs[a.r]);
    SlotsUntouched(s, a.r, t.svc, t.runs[a.r]);
    MoveKeepsBase(s, a.r, t.svc, t.runs[a.r]);
  }

  lemma {:induction false} FinishKeepsBase(s: State, a: Action)
    requires Base(s) && Enabled(s, a) && a.Finish?
    ensures Base(Apply(s, a))
  {
    var t := Apply(s, a);
    assert RunOk(s.svc, s.runs[a.r]);
    SlotsUntouched(s, a.r, t.svc, t.runs[a.r]);
    MoveKeepsBase(s, a.r, t.svc, t.runs[a.r]);
  }

  lemma {:induction false} PanicKeepsBase(s: State, a: Action)
    requires Base(s) && Enabled(s, a) && a.Panic?
    ensures Base(Apply(s, a))
  {
    var t := Apply(s, a);
    assert RunOk(s.svc, s.runs[a.r]);
    SlotsUntouched(s, a.r, t.svc, t.runs[a.r]);
    MoveKeepsBase(s, a.r, t.svc, t.runs[a.r]);
  }

  lemma {:induction false} RecoverKeepsBase(s: State, a: Action)
    requires Base(s) && Enabled(s, a) && a.Recover?
    ensures Base(Apply(s, a))
  {
    var t := Apply(s, a);
    assert RunOk(s.svc, s.runs[a.r]);
    SlotsUntouched(s, a.r, t.svc, t.runs[a.r]);
    MoveKeepsBase(s, a.r, t.svc, t.runs[a.r]);
  }

  lemma {:induction false} AdmitKeepsBase(s: State, a: Action)
    requires Base(s) && Enabled(s, a) && a.Admit?
    ensures Base(Apply(s, a))
  {
    var t := Apply(s, a);
    assert RunOk(s.svc, s.runs[a.r]);
    MoveKeepsBase(s, a.r, t.svc, t.runs[a.r]);
  }

  lemma {:induction false} TakeStorageKeepsBase(s: State, a: Action)
    requires Base(s) && Enabled(s, a) && a.TakeStorage?
    ensures Base(Apply(s, a))
  {
    var t := Apply(s, a);
    assert RunOk(s.svc, s.runs[a.r]);
    MoveKeepsBase(s, a.r, t.svc, t.runs[a.r]);
  }

  lemma {:induction false} TakeResourceKeepsBase(s: State, a: Action)
    requires Base(s) && Enabled(s, a) && a.TakeResource?
    ensures Base(Apply(s, a))
  {
    var t := Apply(s, a);
    assert RunOk(s.svc, s.runs[a.r]);
    MoveKeepsBase(s, a.r, t.svc, t.runs[a.r]);
  }

  lemma {:induction false} ResourceReleaseIsBalanced(s: State, r: nat)
    requires SlotsOk(s) && Enabled(s, Release(r)) && RunOk(s.svc, s.runs[r]) && s.runs[r].pc.level == 3
    ensures var run := s.runs[r];
            MoveIsBalanced(s, r, ReleaseSlot(s.svc, run, 3), run.(pc := AfterRelease(3, run.pc.panicked)))
  {
    if s.runs[r].key != "" { CountsOne(s.runs, r, KeyHolder(s.runs[r].key)); }
  }

  lemma {:induction false} StorageReleaseIsBalanced(s: State, r: nat)
    requires SlotsOk(s) && Enabled(s, Release(r)) && RunOk(s.svc, s.runs[r]) && s.runs[r].pc.level == 2
    ensures var run := s.runs[r];
            MoveIsBalanced(s, r, ReleaseSlot(s.svc, run, 2), run.(pc := AfterRelease(2, run.pc.panicked)))
  {
    if s.runs[r].storage { CountsOne(s.runs, r, HasStorageSlot); }
  }

  lemma {:induction false} RunReleaseIsBalanced(s: State, r: nat)
    requires SlotsOk(s) && Enabled(s, Release(r)) && RunOk(s.svc, s.runs[r]) && s.runs[r].pc.level == 1
    ensures var run := s.runs[r];
            MoveIsBalanced(s, r, ReleaseSlot(s.svc, run, 1), run.(pc := AfterRelease(1, run.pc.panicked)))
  {
    CountsOne(s.runs, r, HasRunSlot);
  }

  lemma {:induction false} ReleaseIsBalanced(s: State, r: nat)
    requires SlotsOk(s) && Enabled(s, Release(r)) && RunOk(s.svc, s.runs[r])
    ensures var run := s.runs[r];
            MoveIsBalanced(s, r, ReleaseSlot(s.svc, run, run.pc.level),
                run.(pc := AfterRelease(run.pc.level, run.pc.panicked)))
  {
    match s.runs[r].pc.level {
      case 3 => ResourceReleaseIsBalanced(s, r);
      case 2 => StorageReleaseIsBalanced(s, r);
      case _ => RunReleaseIsBalanced(s, r);
    }
  }

  lemma {:induction false} ReleaseKeepsBase(s: State, a: Action)
    requires Base(s) && Enabled(s, a) && a.Release?
    ensures Base(Apply(s, a))
  {
    var run := s.runs[a.r];
    var svc, y := ReleaseSlot(s.svc, run, run.pc.level), run.(pc := AfterRelease(run.pc.level, run.pc.panicked));
    assert RunOk(s.svc, run);
    assert svc == s.svc.(runUsed := svc.runUsed, storageUsed := svc.storageUsed, slots := svc.slots);
    assert RunOk(svc, y) && Unrecorded(y) == Unrecorded(run);
    ReleaseIsBalanced(s, a.r);
    MoveKeepsBase(s, a.r, svc, y);
  }

  lemma {:induction false} AppendKeepsRuns(s: State, svc: Service, x: Run)
    requires RunsOk(s) && RunOk(svc, x) && Unrecorded(x)
    requires svc.storageLimit == s.svc.storageLimit && x.job in svc.jobs
    requires svc.jobs == s.svc.jobs[x.job := svc.jobs[x.job]]
    ensures RunsOk(State(svc, s.runs + [x]))
  {
    var t := State(svc, s.runs + [x]);
    var n := |s.runs|;
    forall q | 0 <= q < |t.runs| ensures RunOk(t.svc, t.runs[q]) {
      if q < n { assert RunOk(s.svc, s.runs[q]); }
    }
    forall j | j in t.svc.jobs && !t.svc.jobs[j].state.Done? ensures Awaited(t, j) {
      if j == x.job {
        assert t.runs[n] == x;
      } else {
        assert Awaited(s, j);
        var q :| 0 <= q < n && s.runs[q].job == j && Unrecorded(s.runs[q]);
        assert t.runs[q] == s.runs[q];
      }
    }
  }

  lemma {:induction false} AppendKeepsCounts(s: State, svc: Service, x: Run)
    requires SlotsOk(s) && CountersOk(s) && x.pc == Queued
    requires svc == s.svc.(jobs := svc.jobs, counter := svc.counter, submitted := s.svc.submitted + 1)
    ensures SlotsOk(State(svc, s.runs + [x])) && CountersOk(State(svc, s.runs + [x]))
  {
    CountAppend(s.runs, x, HasRunSlot);
    CountAppend(s.runs, x, HasStorageSlot);
    CountAppend(s.runs, x, Unrecorded);
    forall k | k != ""
      ensures SlotUse(svc, k) == Count(s.runs + [x], KeyHolder(k)) && SlotUse(svc, k) <= 1
    {
      CountAppend(s.runs, x, KeyHolder(k));
    }
  }

  lemma {:induction false} InsertKeepsBase(s: State, a: Action)
    requires Base(s) && a.Insert?
    ensures Base(Apply(s, a))
  {
    var (svc, id) := InsertJob(s.svc, a.requested, a.jobType, a.key);
    if id.Some? {
      var x := Run(id.value, "", false, Queued);
      AppendKeepsRuns(s, svc, x);
      AppendKeepsCounts(s, svc, x);
    }
  }

  lemma {:induction false} CancelKeepsBase(s: State, a: Action)
    requires Base(s) && a.Cancel?
    ensures Base(Apply(s, a))
  {
    var t := Apply(s, a);
    forall q | 0 <= q < |t.runs| ensures RunOk(t.svc, t.runs[q]) { assert RunOk(s.svc, s.runs[q]); }
    forall j | j in t.svc.jobs && !t.svc.jobs[j].state.Done? ensures Awaited(t, j) {
      assert Awaited(s, j);
      var q :| 0 <= q < |s.runs| && s.runs[q].job == j && Unrecorded(s.runs[q]);
      assert t.runs[q] == s.runs[q];
    }
  }

  lemma {:induction false} StepKeepsBase(s: State, a: Action)
    requires Base(s) && Enabled(s, a)
    ensures Base(Apply(s, a))
  {
    match a {
      case Insert(_, _, _) => InsertKeepsBase(s, a);
      case Cancel(_) => CancelKeepsBase(s, a);
      case Admit(_) => AdmitKeepsBase(s, a);
      case First(_) => FirstKeepsBase(s, a);
      case TakeStorage(_) => TakeStorageKeepsBase(s, a);
      case TakeResource(_) => TakeResourceKeepsBase(s, a);
      case Second(_) => SecondKeepsBase(s, a);
      case Finish(_, _) => FinishKeepsBase(s, a);
      case Panic(_) => PanicKeepsBase(s, a);
      case Release(_) => ReleaseKeepsBase(s, a);
      case Recover(_) => RecoverKeepsBase(s, a);
    }
  }

  lemma {:induction false} RunKeepsBase(s: State, run: seq<Action>)
    requires Base(s) && ValidRun(s, run)
    ensures Base(Final(s, run))
    decreases |run|
  {
    if run != [] {
      StepKeepsBase(s, run[0]);
      RunKeepsBase(Apply(s, run[0]), run[1..]);
    }
  }
}
