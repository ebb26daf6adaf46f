/** The job scheduler of jobs_service.go: job records, counters and the three nested
    semaphores, what each locked section does to them, and the imperative service. */
module Scheduler {
  import opened Options
  import opened Decimal

  type JobId = string

  datatype JobState = Pending | Running | Done

  datatype JobType = Query | LoadData | Copy | Extract | Script

  datatype Reason = NoError | Stopped | Invalid | InternalError

  /** key is the resource key "project:dataset.table", or "" for a job without a target. */
  datatype Job = Job(state: JobState, cancelRequested: bool, reason: Reason, jobType: JobType, key: string)

  /** A limit of None is an unset limiter; used counts the tokens in its channel. slots maps
      each known resource key to the tokens in its channel of capacity one. */
  datatype Service = Service(
    jobs: map<JobId, Job>, counter: nat,
    submitted: nat, completed: nat, failed: nat,
    runLimit: Option<nat>, runUsed: nat,
    storageLimit: Option<nat>, storageUsed: nat,
    slots: map<string, nat>)

  /** A configured limit that is not positive leaves the limiter unset. */
  function Limiter(limit: int): Option<nat> {
    if limit > 0 then Some(limit) else None
  }

  function NewService(runLimit: int, storageLimit: int): Service {
    Service(map[], 0, 0, 0, 0, Limiter(runLimit), 0, Limiter(storageLimit), 0, map[])
  }

  // ---- Submitting and cancelling ------------------------------------------

  const MAX_JOB_ID_LENGTH: nat := 1024

  predicate IsJobIdChar(c: char) {
    'A' <= c <= 'Z' || 'a' <= c <= 'z' || '0' <= c <= '9' || c == '_' || c == '-'
  }

  predicate IsValidJobId(id: JobId) {
    0 < |id| <= MAX_JOB_ID_LENGTH && forall i :: 0 <= i < |id| ==> IsJobIdChar(id[i])
  }

  function GeneratedId(n: nat): JobId {
    "job_" + Itoa(n)
  }

  /** resolveJobIDLocked: a requested ID is honoured when valid and unused; a generated
      one is not compared with the IDs in use. */
  function ResolveJobId(s: Service, requested: Option<JobId>): Option<JobId> {
    match requested
    case None => Some(GeneratedId(s.counter + 1))
    case Some(id) => if IsValidJobId(id) && id !in s.jobs then Some(id) else None
  }

  function NewJob(jobType: JobType, key: string): Job {
    Job(Pending, false, NoError, jobType, key)
  }

  /** insert, without the request-ID index; None reports a rejected ID. */
  function InsertJob(s: Service, requested: Option<JobId>, jobType: JobType, key: string): (Service, Option<JobId>) {
    var id := ResolveJobId(s, requested);
    match id
    case None => (s, None)
    case Some(j) =>
      (s.(jobs := s.jobs[j := NewJob(jobType, key)],
          counter := if requested.None? then s.counter + 1 else s.counter,
          submitted := s.submitted + 1),
       id)
  }

  function CancelJob(s: Service, id: JobId): Service {
    if id !in s.jobs then s
    else
      var j := s.jobs[id].(cancelRequested := true);
      s.(jobs := s.jobs[id := if j.state.Pending? then j.(state := Done, reason := Stopped) else j])
  }

  // ---- The sections of run --------------------------------------------------

  /** recordJobOutcomeLocked together with the write of the finished record. */
  function Record(s: Service, id: JobId, j: Job): Service {
    s.(jobs := s.jobs[id := j.(state := Done)],
       completed := if j.reason.NoError? then s.completed + 1 else s.completed,
       failed := if j.reason.NoError? then s.failed else s.failed + 1)
  }

  function StopIfCancelled(s: Service, id: JobId): Service
    requires id in s.jobs
  {
    if s.jobs[id].cancelRequested then Record(s, id, s.jobs[id].(reason := Stopped)) else s
  }

  function StartOrStop(s: Service, id: JobId): Service
    requires id in s.jobs
  {
    if s.jobs[id].cancelRequested then StopIfCancelled(s, id)
    else s.(jobs := s.jobs[id := s.jobs[id].(state := Running)])
  }

  function FinishJob(s: Service, id: JobId, ok: bool): Service
    requires id in s.jobs
  {
    var j := s.jobs[id];
    if j.cancelRequested then Record(s, id, j.(reason := Stopped))
    else if !ok then Record(s, id, j.(reason := Invalid))
    else Record(s, id, j)
  }

  function RecoverPanic(s: Service, id: JobId): Service
    requires id in s.jobs
  {
    Record(s, id, s.jobs[id].(reason := InternalError))
  }

  /** requiresStorageWriteBackpressure. */
  predicate NeedsStorage(jobType: JobType, key: string) {
    jobType.LoadData? || jobType.Copy? || (jobType.Query? && key != "")
  }

  predicate HasRoom(limit: Option<nat>, used: nat) {
    limit.None? || used < limit.value
  }

  function SlotUse(s: Service, key: string): nat {
    if key in s.slots then s.slots[key] else 0
  }

  /** The three acquisitions, made once there is room; each release undoes its own. */
  function TakeRunSlot(s: Service): Service {
    if s.runLimit.Some? then s.(runUsed := s.runUsed + 1) else s
  }

  function TakeStorageSlot(s: Service, storage: bool): Service {
    if storage then s.(storageUsed := s.storageUsed + 1) else s
  }

  function TakeResourceSlot(s: Service, key: string): Service {
    if key == "" then s else s.(slots := s.slots[key := SlotUse(s, key) + 1])
  }

  function Dec(n: nat): nat {
    if n == 0 then 0 else n - 1
  }

  function FreeRunSlot(s: Service): Service {
    if s.runLimit.Some? then s.(runUsed := Dec(s.runUsed)) else s
  }

  function FreeStorageSlot(s: Service, storage: bool): Service {
    if storage then s.(storageUsed := Dec(s.storageUsed)) else s
  }

  function FreeResourceSlot(s: Service, key: string): Service {
    if key == "" then s else s.(slots := s.slots[key := Dec(SlotUse(s, key))])
  }

  // ---- The imperative service -------------------------------------------------

  class JobService {
    var jobs: map<JobId, Job>
    var counter: nat
    var submitted: nat
    var completed: nat
    var failed: nat
    const runLimit: Option<nat>
    var runUsed: nat
    const storageLimit: Option<nat>
    var storageUsed: nat
    var slots: map<string, nat>

    ghost function View(): Service
      reads this
    {
      Service(jobs, counter, submitted, completed, failed, runLimit, runUsed, storageLimit, storageUsed, slots)
    }

    constructor (runLimit: int, storageLimit: int)
      ensures View() == NewService(runLimit, storageLimit)
    {
      this.runLimit, this.storageLimit := Limiter(runLimit), Limiter(storageLimit);
      jobs, counter, submitted, completed, failed := map[], 0, 0, 0, 0;
      runUsed, storageUsed, slots := 0, 0, map[];
    }

    method Insert(requested: Option<JobId>, jobType: JobType, key: string) returns (id: Option<JobId>)
      modifies this
      ensures (View(), id) == InsertJob(old(View()), requested, jobType, key)
    {
      match requested {
        case None =>
          counter := counter + 1;
          id := Some(GeneratedId(counter));
        case Some(r) =>
          if !IsValidJobId(r) || r in jobs {
            return None;
          }
          id := Some(r);
      }
      jobs := jobs[id.value := NewJob(jobType, key)];
      submitted := submitted + 1;
    }

    method Cancel(id: JobId)
      modifies this
      ensures View() == CancelJob(old(View()), id)
    {
      if id !in jobs {
        return;
      }
      var j := jobs[id].(cancelRequested := true);
      if j.state.Pending? {
        j := j.(state := Done, reason := Stopped);
      }
      jobs := jobs[id := j];
    }

    /** One attempt at the channel send, which waits while the channel is full. */
    method AcquireStorageWriteSlot(jobType: JobType, key: string) returns (waits: bool, held: bool)
      modifies this
      ensures waits == (storageLimit.Some? && NeedsStorage(jobType, key) && !HasRoom(storageLimit, old(storageUsed)))
      ensures held == (storageLimit.Some? && NeedsStorage(jobType, key) && !waits)
      ensures View() == TakeStorageSlot(old(View()), held)
    {
      if storageLimit.None? || !NeedsStorage(jobType, key) {
        return false, false;
      }
      if storageUsed >= storageLimit.value {
        return true, false;
      }
      storageUsed := storageUsed + 1;
      return false, true;
    }

    /** One attempt, as above, at the channel of the key, which is made on first use. */
    method AcquireResourceSlot(key: string) returns (waits: bool)
      modifies this
      ensures waits == (key != "" && SlotUse(old(View()), key) > 0)
      ensures View() == if waits then old(View()) else TakeResourceSlot(old(View()), key)
    {
      if key == "" {
        return false;
      }
      if key !in slots {
        slots := slots[key := 0];
      }
      if slots[key] > 0 {
        return true;
      }
      slots := slots[key := slots[key] + 1];
      return false;
    }

    method ReleaseResourceSlot(key: string)
      requires key != "" ==> SlotUse(View(), key) > 0
      modifies this
      ensures View() == FreeResourceSlot(old(View()), key)
    {
      if key != "" {
        slots := slots[key := slots[key] - 1];
      }
    }

    method RecordOutcome(id: JobId, j: Job)
      modifies this
      ensures View() == Record(old(View()), id, j)
    {
      jobs := jobs[id := j.(state := Done)];
      if j.reason.NoError? {
        completed := completed + 1;
      } else {
        failed := failed + 1;
      }
    }

    /** The check made with a run slot in hand. */
    method FirstCheck(id: JobId) returns (stopped: bool)
      requires id in jobs
      modifies this
      ensures stopped == old(jobs)[id].cancelRequested
      ensures View() == StopIfCancelled(old(View()), id)
    {
      stopped := jobs[id].cancelRequested;
      if stopped {
        RecordOutcome(id, jobs[id].(reason := Stopped));
      }
    }

    /** The check made with every slot in hand; the job starts running if it passes. */
    method SecondCheck(id: JobId) returns (stopped: bool)
      requires id in jobs
      modifies this
      ensures stopped == old(jobs)[id].cancelRequested
      ensures View() == StartOrStop(old(View()), id)
    {
      stopped := jobs[id].cancelRequested;
      if stopped {
        RecordOutcome(id, jobs[id].(reason := Stopped));
      } else {
        jobs := jobs[id := jobs[id].(state := Running)];
      }
    }

    method Finish(id: JobId, ok: bool)
      requires id in jobs
      modifies this
      ensures View() == FinishJob(old(View()), id, ok)
    {
      var j := jobs[id];
      if j.cancelRequested {
        j := j.(reason := Stopped);
      } else if !ok {
        j := j.(reason := Invalid);
      }
      RecordOutcome(id, j);
    }

    method RecoverFromPanic(id: JobId)
      requires id in jobs
      modifies this
      ensures View() == RecoverPanic(old(View()), id)
    {
      RecordOutcome(id, jobs[id].(reason := InternalError));
    }
  }
}
