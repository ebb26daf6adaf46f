/** Job records over every run in which generated IDs are fresh: states, outcomes and what the
    two outcome counters count. */
module SchedulerRecords {
  import opened Counting
  import opened Scheduler
  import opened SchedulerRuns

  /** The hypothesis: a generated job ID is not already in use. */
  predicate Safe(s: State, a: Action) {
    a.Insert? && a.requested.None? ==> GeneratedId(s.svc.counter + 1) !in s.svc.jobs
  }

  ghost predicate SafeRun(s: State, run: seq<Action>)
    requires ValidRun(s, run)
    decreases |run|
  {
    run != [] ==> Safe(s, run[0]) && SafeRun(Apply(s, run[0]), run[1..])
  }

  // ---- The invariant -----------------------------------------------------------------------

  /** The executor has not been entered. */
  predicate BeforeStart(pc: Pc) {
    pc.Queued? || pc.Admitted? || pc.WantStorage? || pc.WantResource? || pc.Ready?
  }

  /** What the record of a job looks like while its goroutine is at pc. */
  predicate JobMatches(j: Job, pc: Pc) {
    if BeforeStart(pc) then
      || (j.state.Pending? && !j.cancelRequested && j.reason.NoError?)
      || (j.state.Done? && j.cancelRequested && j.reason.Stopped?)
    else if pc.Executing? || pc.Recovering? || (pc.Unwind? && pc.panicked) then j.state.Running? && j.reason.NoError?
    else j.state.Done?
  }

  predicate RecordOk(svc: Service, run: Run) {
    run.job in svc.jobs && JobMatches(svc.jobs[run.job], run.pc)
  }

  /** Each goroutine has a record of its own. */
  ghost predicate RecordsOk(s: State) {
    && (forall r :: 0 <= r < |s.runs| ==> RecordOk(s.svc, s.runs[r]))
    && (forall q, r :: 0 <= q < r < |s.runs| ==> s.runs[q].job != s.runs[r].job)
  }

  predicate RecordedWith(jobs: map<JobId, Job>, run: Run, success: bool) {
    !Unrecorded(run) && run.job in jobs && jobs[run.job].reason.NoError? == success
  }

  function Recorded(jobs: map<JobId, Job>, success: bool): Run -> bool {
    (run: Run) => RecordedWith(jobs, run, success)
  }

  /** completed and failed count the runs recorded without and with an error. */
  ghost predicate OutcomesCounted(s: State) {
    && s.svc.completed == Count(s.runs, Recorded(s.svc.jobs, true))
    && s.svc.failed == Count(s.runs, Recorded(s.svc.jobs, false))
  }

  ghost predicate Inv(s: State) {
    Base(s) && RecordsOk(s) && OutcomesCounted(s)
  }

  // ---- Moves ----------------------------------------------------------------------------------

  /** The goroutine's own record alone changes, to what its new place asks for. */
  predicate OwnRecord(s: State, r: nat, svc: Service, y: Run)
    requires r < |s.runs|
  {
    && y.job == s.runs[r].job && svc.jobs.Keys == s.svc.jobs.Keys
    && (forall j :: j in svc.jobs && j != y.job ==> svc.jobs[j] == s.svc.jobs[j])
    && RecordOk(svc, y)
  }

  lemma {:induction false} MoveKeepsRecords(s: State, r: nat, svc: Service, y: Run)
    requires RecordsOk(s) && r < |s.runs| && OwnRecord(s, r, svc, y)
    ensures RecordsOk(Move(s, r, svc, y))
  {
    var t := Move(s, r, svc, y);
    forall q | 0 <= q < |t.runs| ensures RecordOk(t.svc, t.runs[q]) {
      if q != r { assert RecordOk(s.svc, s.runs[q]); }
    }
  }

  predicate CountsMove(s: State, r: nat, svc: Service, y: Run, success: bool, before: nat, after: nat)
    requires r < |s.runs|
  {
    after + One(RecordedWith(s.svc.jobs, s.runs[r], success)) == before + One(RecordedWith(svc.jobs, y, success))
  }

  lemma {:induction false} MoveCountsOutcomes(s: State, r: nat, svc: Service, y: Run)
    requires RecordsOk(s) && OutcomesCounted(s) && r < |s.runs| && OwnRecord(s, r, svc, y)
    requires CountsMove(s, r, svc, y, true, s.svc.completed, svc.completed)
    requires CountsMove(s, r, svc, y, false, s.svc.failed, svc.failed)
    ensures OutcomesCounted(Move(s, r, svc, y))
  {
    var t := Move(s, r, svc, y);
    forall k | 0 <= k < |s.runs| && k != r ensures s.runs[k].job != s.runs[r].job {}
    CountDiffers(s.runs, t.runs, r, Recorded(s.svc.jobs, true), Recorded(svc.jobs, true));
    CountDiffers(s.runs, t.runs, r, Recorded(s.svc.jobs, false), Recorded(svc.jobs, false));
  }

  lemma {:induction false} MoveKeepsInv(s: State, a: Action, y: Run)
    requires Inv(s) && IsJobStep(a) && Enabled(s, a) && a.r < |s.runs|
    requires Apply(s, a) == Move(s, a.r, Apply(s, a).svc, y)
    requires OwnRecord(s, a.r, Apply(s, a).svc, y)
    requires CountsMove(s, a.r, Apply(s, a).svc, y, true, s.svc.completed, Apply(s, a).svc.completed)
    requires CountsMove(s, a.r, Apply(s, a).svc, y, false, s.svc.failed, Apply(s, a).svc.failed)
    ensures Inv(Apply(s, a))
  {
    StepKeepsBase(s, a);
    MoveKeepsRecords(s, a.r, Apply(s, a).svc, y);
    MoveCountsOutcomes(s, a.r, Apply(s, a).svc, y);
  }

  /** A step of some job's goroutine, as opposed to a client's call. */
  predicate IsJobStep(a: Action) {
    !a.Insert? && !a.Cancel?
  }

  lemma {:induction false} SlotStepKeepsInv(s: State, a: Action)
    requires Inv(s) && Enabled(s, a) && (a.Admit? || a.TakeStorage? || a.TakeResource? || a.Panic? || a.Release?)
    ensures Inv(Apply(s, a))
  {
    var t := Apply(s, a);
    assert RecordOk(s.svc, s.runs[a.r]) && RunOk(s.svc, s.runs[a.r]);
    assert t.svc.jobs == s.svc.jobs && Unrecorded(t.runs[a.r]) == Unrecorded(s.runs[a.r]);
    MoveKeepsInv(s, a, t.runs[a.r]);
  }

  lemma {:induction false} FirstKeepsInv(s: State, a: Action)
    requires Inv(s) && Enabled(s, a) && a.First?
    ensures Inv(Apply(s, a))
  {
    assert RecordOk(s.svc, s.runs[a.r]);
    MoveKeepsInv(s, a, Apply(s, a).runs[a.r]);
  }

  lemma {:induction false} SecondKeepsInv(s: State, a: Action)
    requires Inv(s) && Enabled(s, a) && a.Second?
    ensures Inv(Apply(s, a))
  {
    assert RecordOk(s.svc, s.runs[a.r]);
    MoveKeepsInv(s, a, Apply(s, a).runs[a.r]);
  }

  lemma {:induction false} EndKeepsInv(s: State, a: Action)
    requires Inv(s) && Enabled(s, a) && (a.Finish? || a.Recover?)
    ensures Inv(Apply(s, a))
  {
    assert RecordOk(s.svc, s.runs[a.r]);
    MoveKeepsInv(s, a, Apply(s, a).runs[a.r]);
  }

  // ---- Calls of clients -----------------------------------------------------------------------

  lemma {:induction false} CancelKeepsInv(s: State, a: Action)
    requires Inv(s) && a.Cancel?
    ensures Inv(Apply(s, a))
  {
    var t := Apply(s, a);
    StepKeepsBase(s, a);
    forall k | 0 <= k < |s.runs|
      ensures RecordOk(t.svc, s.runs[k])
      ensures RecordedWith(s.svc.jobs, s.runs[k], true) == RecordedWith(t.svc.jobs, s.runs[k], true)
      ensures RecordedWith(s.svc.jobs, s.runs[k], false) == RecordedWith(t.svc.jobs, s.runs[k], false)
    {
      assert RecordOk(s.svc, s.runs[k]);
    }
    CountSame(s.runs, Recorded(s.svc.jobs, true), Recorded(t.svc.jobs, true));
    CountSame(s.runs, Recorded(s.svc.jobs, false), Recorded(t.svc.jobs, false));
  }

  lemma {:induction false} AppendCountsOutcomes(s: State, jobs: map<JobId, Job>, x: Run, success: bool)
    requires RecordsOk(s) && x.pc == Queued && x.job !in s.svc.jobs && x.job in jobs
    requires jobs == s.svc.jobs[x.job := jobs[x.job]]
    ensures Count(s.runs + [x], Recorded(jobs, success)) == Count(s.runs, Recorded(s.svc.jobs, success))
  {
    forall k | 0 <= k < |s.runs|
      ensures RecordedWith(s.svc.jobs, s.runs[k], success) == RecordedWith(jobs, s.runs[k], success)
    {
      assert RecordOk(s.svc, s.runs[k]);
    }
    CountSame(s.runs, Recorded(s.svc.jobs, success), Recorded(jobs, success));
    CountAppend(s.runs, x, Recorded(jobs, success));
  }

  lemma {:induction false} AppendKeepsRecords(s: State, svc: Service, x: Run)
    requires RecordsOk(s) && x.job !in s.svc.jobs && RecordOk(svc, x)
    requires svc.jobs == s.svc.jobs[x.job := svc.jobs[x.job]]
    ensures RecordsOk(State(svc, s.runs + [x]))
  {
    var t := State(svc, s.runs + [x]);
    forall q | 0 <= q < |t.runs| ensures RecordOk(t.svc, t.runs[q]) {
      if q < |s.runs| { assert RecordOk(s.svc, s.runs[q]); }
    }
    forall q, r | 0 <= q < r < |t.runs| ensures t.runs[q].job != t.runs[r].job {
      assert RecordOk(s.svc, s.runs[q]);
    }
  }

  lemma {:induction false} InsertKeepsInv(s: State, a: Action)
    requires Inv(s) && Safe(s, a) && a.Insert?
    ensures Inv(Apply(s, a))
  {
    StepKeepsBase(s, a);
    var (svc, id) := InsertJob(s.svc, a.requested, a.jobType, a.key);
    if id.Some? {
      var x := Run(id.value, "", false, Queued);
      AppendKeepsRecords(s, svc, x);
      AppendCountsOutcomes(s, svc.jobs, x, true);
      AppendCountsOutcomes(s, svc.jobs, x, false);
    }
  }

  lemma {:induction false} StepKeepsInv(s: State, a: Action)
    requires Inv(s) && Enabled(s, a) && Safe(s, a)
    ensures Inv(Apply(s, a))
  {
    match a {
      case Insert(_, _, _) => InsertKeepsInv(s, a);
      case Cancel(_) => CancelKeepsInv(s, a);
      case First(_) => FirstKeepsInv(s, a);
      case Second(_) => SecondKeepsInv(s, a);
      case Finish(_, _) => EndKeepsInv(s, a);
      case Recover(_) => EndKeepsInv(s, a);
      case _ => SlotStepKeepsInv(s, a);
    }
  }

  lemma {:induction false} RunKeepsInv(s: State, run: seq<Action>)
    requires Inv(s) && ValidRun(s, run) && SafeRun(s, run)
    ensures Inv(Final(s, run))
    decreases |run|
  {
    if run != [] {
      StepKeepsInv(s, run[0]);
      RunKeepsInv(Apply(s, run[0]), run[1..]);
    }
  }
}
