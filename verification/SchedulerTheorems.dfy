/** What holds over every run of the job scheduler. */
module SchedulerTheorems {
  import opened Options
  import opened Counting
  import opened Scheduler
  import opened SchedulerRuns
  import opened SchedulerRecords

  ghost predicate Reaches(runLimit: int, storageLimit: int, run: seq<Action>, s: State) {
    var i := Init(runLimit, storageLimit);
    ValidRun(i, run) && Final(i, run) == s
  }

  /** Reached by some run, whatever the job IDs. */
  ghost predicate Reachable(s: State) {
    exists m: int, n: int, run: seq<Action> :: Reaches(m, n, run, s)
  }

  /** Reached by a run in which generated job IDs are fresh. */
  ghost predicate SafelyReached(s: State) {
    exists m: int, n: int, run: seq<Action> :: Reaches(m, n, run, s) && SafeRun(Init(m, n), run)
  }

  lemma {:induction false} ReachableIsBase(s: State)
    requires Reachable(s)
    ensures Base(s)
  {
    var m, n, run :| Reaches(m, n, run, s);
    RunKeepsBase(Init(m, n), run);
  }

  lemma {:induction false} SafelyReachedIsInv(s: State)
    requires SafelyReached(s)
    ensures Inv(s)
  {
    var m, n, run :| Reaches(m, n, run, s) && SafeRun(Init(m, n), run);
    RunKeepsInv(Init(m, n), run);
  }

  // ---- Exclusion and limits ---------------------------------------------------------

  predicate InExecutor(run: Run) {
    run.pc.Executing?
  }

  predicate WritingInExecutor(run: Run) {
    run.pc.Executing? && run.storage
  }

  lemma {:induction false} ExecutorsAreExclusive(s: State, q: nat, r: nat)
    requires Reachable(s) && q < r < |s.runs| && InExecutor(s.runs[q]) && InExecutor(s.runs[r])
    ensures s.runs[q].key != s.runs[r].key || s.runs[q].key == ""
  {
    ReachableIsBase(s);
    var k := s.runs[q].key;
    if k == s.runs[r].key && k != "" {
      CountsTwo(s.runs, q, r, KeyHolder(k));
      assert false;
    }
  }

  lemma {:induction false} LimitsAreKept(s: State)
    requires Reachable(s)
    ensures s.svc.runLimit.Some? ==> Count(s.runs, InExecutor) <= s.svc.runLimit.value
    ensures s.svc.storageLimit.Some? ==> Count(s.runs, WritingInExecutor) <= s.svc.storageLimit.value
  {
    ReachableIsBase(s);
    CountWeaker(s.runs, InExecutor, HasRunSlot);
    CountWeaker(s.runs, WritingInExecutor, HasStorageSlot);
  }

  // ---- Job states ---------------------------------------------------------------------

  function Stage(state: JobState): nat {
    match state
    case Pending => 0
    case Running => 1
    case Done => 2
  }

  /** How one job may change: forward only, and a finished job keeps its outcome. */
  predicate Forward(x: Job, y: Job) {
    && Stage(x.state) <= Stage(y.state)
    && (x.state.Done? ==> y.reason == x.reason)
    && (x.cancelRequested ==> y.cancelRequested)
    && y.key == x.key
  }

  ghost predicate AllForward(s: State, t: State) {
    forall j :: j in s.svc.jobs ==> j in t.svc.jobs && Forward(s.svc.jobs[j], t.svc.jobs[j])
  }

  lemma {:induction false} ClientMovesForward(s: State, a: Action)
    requires Inv(s) && (a.Insert? || a.Cancel?) && Safe(s, a)
    ensures AllForward(s, Apply(s, a))
  {
  }

  lemma {:induction false} SlotMovesForward(s: State, a: Action)
    requires Inv(s) && Enabled(s, a) && (a.Admit? || a.TakeStorage? || a.TakeResource? || a.Panic? || a.Release?)
    ensures AllForward(s, Apply(s, a))
  {
    assert Apply(s, a).svc.jobs == s.svc.jobs;
  }

  lemma {:induction false} RecordMovesForward(s: State, a: Action)
    requires Inv(s) && Enabled(s, a) && (a.First? || a.Second? || a.Finish? || a.Recover?)
    ensures AllForward(s, Apply(s, a))
  {
    var id := s.runs[a.r].job;
    var t := Apply(s, a);
    assert RecordOk(s.svc, s.runs[a.r]);
    assert id in t.svc.jobs && Forward(s.svc.jobs[id], t.svc.jobs[id]);
    assert forall j :: j in s.svc.jobs && j != id ==> j in t.svc.jobs && t.svc.jobs[j] == s.svc.jobs[j];
  }

  lemma {:induction false} StepMovesForward(s: State, a: Action)
    requires Inv(s) && Enabled(s, a) && Safe(s, a)
    ensures AllForward(s, Apply(s, a))
  {
    match a {
      case Insert(_, _, _) => ClientMovesForward(s, a);
      case Cancel(_) => ClientMovesForward(s, a);
      case First(_) => RecordMovesForward(s, a);
      case Second(_) => RecordMovesForward(s, a);
      case Finish(_, _) => RecordMovesForward(s, a);
      case Recover(_) => RecordMovesForward(s, a);
      case _ => SlotMovesForward(s, a);
    }
  }

  lemma {:induction false} ForwardIsTransitive(s: State, t: State, u: State)
    requires AllForward(s, t) && AllForward(t, u)
    ensures AllForward(s, u)
  {
  }

  lemma {:induction false} JobsOnlyMoveForward(s: State, run: seq<Action>)
    requires Inv(s) && ValidRun(s, run) && SafeRun(s, run)
    ensures AllForward(s, Final(s, run))
    decreases |run|
  {
    if run != [] {
      var t := Apply(s, run[0]);
      StepKeepsInv(s, run[0]);
      StepMovesForward(s, run[0]);
      JobsOnlyMoveForward(t, run[1..]);
      ForwardIsTransitive(s, t, Final(t, run[1..]));
    }
  }

  /** A job cancelled while pending is never inside an executor afterwards. */
  lemma {:induction false} CancelledPendingJobNeverExecutes(s: State, id: JobId, run: seq<Action>, r: nat)
    requires SafelyReached(s) && id in s.svc.jobs && s.svc.jobs[id].state.Pending?
    requires var c := Apply(s, Cancel(id)); ValidRun(c, run) && SafeRun(c, run)
    requires r < |Final(Apply(s, Cancel(id)), run).runs|
    requires Final(Apply(s, Cancel(id)), run).runs[r].job == id
    ensures !InExecutor(Final(Apply(s, Cancel(id)), run).runs[r])
    ensures var t := Final(Apply(s, Cancel(id)), run); id in t.svc.jobs && t.svc.jobs[id].reason == Stopped
  {
    SafelyReachedIsInv(s);
    var c := Apply(s, Cancel(id));
    StepKeepsInv(s, Cancel(id));
    JobsOnlyMoveForward(c, run);
    RunKeepsInv(c, run);
    var t := Final(c, run);
    assert Forward(c.svc.jobs[id], t.svc.jobs[id]);
    assert RecordOk(t.svc, t.runs[r]);
  }

  /** A job ends without an error only when its own executor reports success and nobody has
      cancelled it; a panic ends it with an internal error. */
  lemma {:induction false} SuccessIsReportedByTheExecutor(s: State, a: Action, j: JobId)
    requires Inv(s) && Enabled(s, a) && Safe(s, a) && j in s.svc.jobs && !s.svc.jobs[j].state.Done?
    requires Apply(s, a).svc.jobs[j].state.Done?
    ensures Apply(s, a).svc.jobs[j].reason.NoError? <==>
              a.Finish? && a.ok && s.runs[a.r].job == j && !s.svc.jobs[j].cancelRequested
    ensures Apply(s, a).svc.jobs[j].reason.InternalError? <==> a.Recover?
    ensures Apply(s, a).svc.jobs[j].reason.Invalid? <==> a.Finish? && !a.ok && !s.svc.jobs[j].cancelRequested
  {
    StepMovesForward(s, a);
    if IsJobStep(a) {
      assert RecordOk(s.svc, s.runs[a.r]);
    }
  }

  // ---- Counters -------------------------------------------------------------------------

  /** submitted is completed, failed and the goroutines that have not recorded an outcome. */
  lemma {:induction false} CountersBalance(s: State)
    requires Reachable(s)
    ensures s.svc.submitted == s.svc.completed + s.svc.failed + Count(s.runs, Unrecorded)
  {
    ReachableIsBase(s);
  }

  /** completed and failed count the goroutines that recorded success and an error. */
  lemma {:induction false} CountersAreExact(s: State)
    requires SafelyReached(s)
    ensures OutcomesCounted(s)
    ensures s.svc.submitted == s.svc.completed + s.svc.failed + Count(s.runs, Unrecorded)
  {
    SafelyReachedIsInv(s);
  }

  // ---- Progress ---------------------------------------------------------------------------

  ghost predicate CanStep(s: State) {
    exists a :: IsJobStep(a) && Enabled(s, a)
  }

  predicate Unfinished(run: Run) {
    !run.pc.Finished?
  }

  /** Runs that wait for nothing. */
  predicate Free(pc: Pc) {
    pc.Admitted? || pc.Ready? || pc.Executing? || pc.Unwind? || pc.Recovering?
  }

  lemma {:induction false} FreeRunSteps(s: State, r: nat)
    requires Base(s) && r < |s.runs| && Free(s.runs[r].pc)
    ensures CanStep(s)
  {
    assert RunOk(s.svc, s.runs[r]);
    match s.runs[r].pc {
      case Admitted => assert Enabled(s, First(r));
      case Ready => assert Enabled(s, Second(r));
      case Executing => assert Enabled(s, Panic(r));
      case Unwind(_, _) => assert Enabled(s, Release(r));
      case Recovering => assert Enabled(s, Recover(r));
      case _ =>
    }
  }

  lemma {:induction false} NobodyHolds(s: State, p: Run -> bool)
    requires forall r :: 0 <= r < |s.runs| ==> !p(s.runs[r])
    ensures Count(s.runs, p) == 0
  {
    if Count(s.runs, p) > 0 { CountPositive(s.runs, p); }
  }

  /** Whoever waits at the innermost occupied level can take its slot. */
  lemma {:induction false} WaitingRunSteps(s: State, r: nat)
    requires Base(s) && r < |s.runs| && Unfinished(s.runs[r])
    requires forall q :: 0 <= q < |s.runs| ==> !Free(s.runs[q].pc)
    requires s.runs[r].pc.WantStorage? ==> forall q :: 0 <= q < |s.runs| ==> !s.runs[q].pc.WantResource?
    requires s.runs[r].pc.Queued? ==>
               forall q :: 0 <= q < |s.runs| ==> !s.runs[q].pc.WantResource? && !s.runs[q].pc.WantStorage?
    ensures CanStep(s)
  {
    assert RunOk(s.svc, s.runs[r]);
    match s.runs[r].pc {
      case WantResource =>
        NobodyHolds(s, KeyHolder(s.runs[r].key));
        assert Enabled(s, TakeResource(r));
      case WantStorage =>
        NobodyHolds(s, HasStorageSlot);
        assert Enabled(s, TakeStorage(r));
      case Queued =>
        NobodyHolds(s, HasRunSlot);
        assert Enabled(s, Admit(r));
      case _ =>
    }
  }

  lemma {:induction false} SchedulerNeverDeadlocks(s: State, r: nat)
    requires Reachable(s) && r < |s.runs| && Unfinished(s.runs[r])
    ensures CanStep(s)
  {
    ReachableIsBase(s);
    if q :| 0 <= q < |s.runs| && Free(s.runs[q].pc) {
      FreeRunSteps(s, q);
    } else if q :| 0 <= q < |s.runs| && s.runs[q].pc.WantResource? {
      WaitingRunSteps(s, q);
    } else if q :| 0 <= q < |s.runs| && s.runs[q].pc.WantStorage? {
      WaitingRunSteps(s, q);
    } else {
      WaitingRunSteps(s, r);
    }
  }

  // ---- Termination ------------------------------------------------------------------------

  const LONGEST: nat := 11

  /** Steps a goroutine at this point has left at most. */
  function Rank(run: Run): nat {
    match run.pc
    case Queued => LONGEST
    case Admitted => 10
    case WantStorage => 9
    case WantResource => 8
    case Ready => 7
    case Executing => 6
    case Unwind(level, panicked) => level + (if panicked then 1 else 0)
    case Recovering => 1
    case Finished => 0
  }

  function Measure(s: State): nat {
    Sum(s.runs, Rank)
  }

  lemma {:induction false} JobStepDecreases(s: State, a: Action)
    requires Base(s) && Enabled(s, a) && IsJobStep(a)
    ensures Measure(Apply(s, a)) < Measure(s)
  {
    RankDecreases(s, a);
    SumUpdate(s.runs, a.r, Apply(s, a).runs[a.r], Rank);
  }

  lemma {:induction false} RankDecreases(s: State, a: Action)
    requires RunsOk(s) && Enabled(s, a) && IsJobStep(a)
    ensures var t := Apply(s, a);
            t.runs == s.runs[a.r := t.runs[a.r]] && Rank(t.runs[a.r]) < Rank(s.runs[a.r])
  {
    assert RunOk(s.svc, s.runs[a.r]);
  }

  function JobSteps(run: seq<Action>): nat {
    if run == [] then 0 else One(IsJobStep(run[0])) + JobSteps(run[1..])
  }

  function Inserts(run: seq<Action>): nat {
    if run == [] then 0 else One(run[0].Insert?) + Inserts(run[1..])
  }

  lemma {:induction false} InsertAddsOneRank(s: State, a: Action)
    requires !IsJobStep(a)
    ensures Measure(Apply(s, a)) <= Measure(s) + LONGEST * One(a.Insert?)
  {
    var t := Apply(s, a);
    if a.Insert? && t != s {
      assert t.runs[..|s.runs|] == s.runs;
    }
  }

  /** No schedule runs for ever: the goroutines take at most LONGEST steps per submitted job. */
  lemma {:induction false} RunsAreBounded(s: State, run: seq<Action>)
    requires Base(s) && ValidRun(s, run)
    ensures JobSteps(run) + Measure(Final(s, run)) <= Measure(s) + LONGEST * Inserts(run)
    decreases |run|
  {
    if run != [] {
      var t := Apply(s, run[0]);
      StepKeepsBase(s, run[0]);
      if IsJobStep(run[0]) {
        JobStepDecreases(s, run[0]);
      } else {
        InsertAddsOneRank(s, run[0]);
      }
      RunsAreBounded(t, run[1..]);
    }
  }

  /** Every maximal run ends with all jobs done, all outcomes recorded and all slots free. */
  lemma {:induction false} MaximalRunsFinishEveryJob(s: State)
    requires Reachable(s) && !CanStep(s)
    ensures forall r :: 0 <= r < |s.runs| ==> s.runs[r].pc.Finished?
    ensures forall j :: j in s.svc.jobs ==> s.svc.jobs[j].state.Done?
    ensures s.svc.submitted == s.svc.completed + s.svc.failed
    ensures s.svc.runLimit.Some? ==> s.svc.runUsed == 0
    ensures s.svc.storageLimit.Some? ==> s.svc.storageUsed == 0
    ensures forall k :: k != "" ==> SlotUse(s.svc, k) == 0
  {
    ReachableIsBase(s);
    forall r | 0 <= r < |s.runs| ensures s.runs[r].pc.Finished? {
      if Unfinished(s.runs[r]) { SchedulerNeverDeadlocks(s, r); }
    }
    assert forall j :: !Awaited(s, j);
    NobodyHolds(s, Unrecorded);
    NobodyHolds(s, HasRunSlot);
    NobodyHolds(s, HasStorageSlot);
    forall k | k != "" ensures SlotUse(s.svc, k) == 0 { NobodyHolds(s, KeyHolder(k)); }
  }

  // ---- The hypothesis on generated IDs ------------------------------------------------------

  /** The step generates the ID of an existing record. */
  predicate Generates(s: State, a: Action, j: JobId) {
    a.Insert? && a.requested.None? && GeneratedId(s.svc.counter + 1) == j
  }

  /** A record that has got anywhere, by starting, finishing or being cancelled, moves forward in
      every step exactly unless the step generates its ID. */
  lemma {:induction false} RecordMovesForwardIff(s: State, a: Action, j: JobId)
    requires SafelyReached(s) && Enabled(s, a) && j in s.svc.jobs
    requires !s.svc.jobs[j].state.Pending? || s.svc.jobs[j].cancelRequested
    ensures j in Apply(s, a).svc.jobs
    ensures Forward(s.svc.jobs[j], Apply(s, a).svc.jobs[j]) <==> !Generates(s, a, j)
  {
    SafelyReachedIsInv(s);
    if !a.Insert? { StepMovesForward(s, a); }
  }

  /** From every state in which the ID to be generated next is not that of a running job: a client
      takes that ID and cancels its job, which is done; the next generated job then puts the record
      back to pending. */
  lemma {:induction false} GeneratedIdOverwritesFinishedJob(s: State, jobType: JobType, key: string)
    returns (run: seq<Action>)
    requires var id := GeneratedId(s.svc.counter + 1);
             IsValidJobId(id) && (id in s.svc.jobs ==> !s.svc.jobs[id].state.Running?)
    ensures ValidRun(s, run)
    ensures var id, t := GeneratedId(s.svc.counter + 1), Final(s, run);
            && id in t.svc.jobs && t.svc.jobs[id].state == Done
            && var u := Apply(t, Insert(None, jobType, key));
               id in u.svc.jobs && u.svc.jobs[id].state == Pending
  {
    var id := GeneratedId(s.svc.counter + 1);
    var take, cancel := Insert(Some(id), jobType, key), Cancel(id);
    assert [cancel][1..] == [] && [take, cancel][1..] == [cancel];
    if id in s.svc.jobs {
      run := [cancel];
      assert Final(s, run) == Apply(s, cancel);
    } else {
      run := [take, cancel];
      assert Final(s, run) == Final(Apply(s, take), [cancel]) == Apply(Apply(s, take), cancel);
    }
  }
}
