/** Resumable uploads (bigquery_upload.go): sessions, chunks and completion. */
module Upload {
  import opened Options
  import opened Decimal
  import opened ContentRange

  type Bytes = seq<bv8>
  type Id = string
  type Time = int

  const TTL: int := 3_600_000_000_000

  datatype Session = Session(data: Bytes, updatedAt: Time, finalizing: bool, completed: bool)

  type Sessions = map<Id, Session>

  datatype Answer =
    | NotFound | StoredResponse | BeingFinalized
    | Incomplete(received: nat)
    | LengthMismatch | OffsetConflict | ExceedsTotal
    | Submit(data: Bytes)

  predicate Expired(s: Session, now: Time) {
    now - s.updatedAt > TTL
  }

  /** What a live session answers to a request. */
  function Answered(s: Session, spec: Spec, payload: Bytes): Answer {
    if s.completed then StoredResponse
    else if s.finalizing then BeingFinalized
    else
      match spec
      case Probe(total) =>
        if total == Some(0) && s.data == [] && payload == [] then Submit([]) else Incomplete(|s.data|)
      case Chunk(start, end, total) =>
        if |payload| != Wrap64(Wrap64(end - start) + 1) then LengthMismatch
        else if start < |s.data| then
          (if end < |s.data| && start <= end && s.data[start..end + 1] == payload then Incomplete(|s.data|)
              else OffsetConflict)
        else if start > |s.data| then OffsetConflict
        else
          var data := s.data + payload;
          if total.None? || |data| < total.value then Incomplete(|data|)
          else if |data| != total.value then ExceedsTotal
          else Submit(data)
  }

  /** The session after it; bytes are kept even when the total turns out wrong. */
  function Accepted(s: Session, spec: Spec, payload: Bytes, now: Time): Session {
    if s.completed || s.finalizing then s
    else
      var a := Answered(s, spec, payload);
      var grows := spec.Chunk? && spec.start == |s.data| && !a.LengthMismatch?;
      s.(updatedAt := now, data := if grows then s.data + payload else s.data, finalizing := a.Submit?)
  }

  function Reply(sessions: Sessions, id: Id, spec: Spec, payload: Bytes, now: Time): Answer {
    if id !in sessions || Expired(sessions[id], now) then NotFound else Answered(sessions[id], spec, payload)
  }

  function AfterChunk(sessions: Sessions, id: Id, spec: Spec, payload: Bytes, now: Time): Sessions {
    if id !in sessions || Expired(sessions[id], now) then sessions - {id}
    else sessions[id := Accepted(sessions[id], spec, payload, now)]
  }

  function AfterBegin(sessions: Sessions, id: Id, now: Time): Sessions {
    (map i | i in sessions && !Expired(sessions[i], now) :: sessions[i])[id := Session([], now, false, false)]
  }

  function AfterComplete(sessions: Sessions, id: Id, now: Time): Sessions {
    if id in sessions then sessions[id := Session([], now, false, true)] else sessions
  }

  class UploadService {
    var sessions: Sessions

    constructor ()
      ensures sessions == map[]
    {
      sessions := map[];
    }

    method Begin(id: Id, now: Time)
      modifies this
      ensures sessions == AfterBegin(old(sessions), id, now)
    {
      var pending := sessions.Keys;
      while pending != {}
        invariant pending <= old(sessions).Keys
        invariant forall i :: i in sessions <==> i in old(sessions) && (i in pending || !Expired(old(sessions)[i], now))
        invariant forall i :: i in sessions ==> sessions[i] == old(sessions)[i]
        decreases |pending|
      {
        var i :| i in pending;
        pending := pending - {i};
        if Expired(sessions[i], now) {
          sessions := sessions - {i};
        }
      }
      sessions := sessions[id := Session([], now, false, false)];
    }

    method AcceptChunk(id: Id, spec: Spec, payload: Bytes, now: Time) returns (answer: Answer)
      modifies this
      ensures answer == Reply(old(sessions), id, spec, payload, now)
      ensures sessions == AfterChunk(old(sessions), id, spec, payload, now)
    {
      if id !in sessions || Expired(sessions[id], now) {
        sessions := sessions - {id};
        return NotFound;
      }
      var s := sessions[id];
      if s.completed {
        return StoredResponse;
      }
      if s.finalizing {
        return BeingFinalized;
      }
      s := s.(updatedAt := now);
      sessions := sessions[id := s];
      match spec {
        case Probe(total) =>
          if total == Some(0) && s.data == [] && payload == [] {
            sessions := sessions[id := s.(finalizing := true)];
            return Submit([]);
          }
          return Incomplete(|s.data|);
        case Chunk(start, end, total) =>
          if |payload| != Wrap64(Wrap64(end - start) + 1) {
            return LengthMismatch;
          }
          if start < |s.data| {
            if end < |s.data| && start <= end && s.data[start..end + 1] == payload {
              return Incomplete(|s.data|);
            }
            return OffsetConflict;
          }
          if start > |s.data| {
            return OffsetConflict;
          }
          s := s.(data := s.data + payload);
          sessions := sessions[id := s];
          if total.None? || |s.data| < total.value {
            return Incomplete(|s.data|);
          }
          if |s.data| != total.value {
            return ExceedsTotal;
          }
          sessions := sessions[id := s.(finalizing := true)];
          return Submit(s.data);
      }
    }

    method Complete(id: Id, now: Time)
      modifies this
      ensures sessions == AfterComplete(old(sessions), id, now)
    {
      if id in sessions {
        sessions := sessions[id := Session([], now, false, true)];
      }
    }
  }

  // ---- One request --------------------------------------------------------------------------

  /** The branch for bytes beyond the total is dead: whatever was parsed and sent, it is not taken. */
  lemma {:induction false} NeverExceedsTotal(s: Session, value: string, payload: Bytes)
    requires Parse(value).Some?
    ensures Answered(s, Parse(value).value, payload) != ExceedsTotal
  {
    var spec := Parse(value).value;
    if spec.Chunk? && spec.start == |s.data| && |payload| == Wrap64(Wrap64(spec.end - spec.start) + 1) {
      WrapOfSmall(spec.end - spec.start);
    }
  }

  lemma {:induction false} WrapOfSmall(n: nat)
    requires n <= MAX_INT64
    ensures Wrap64(n) == n
    ensures Wrap64(n + 1) >= 0 ==> Wrap64(n + 1) == n + 1
  {
  }

  // ---- Whole runs -----------------------------------------------------------------------------

  /** ids holds every session ID ever issued; submitted what was handed to the job service;
      running the submissions whose response has not been stored yet. */
  datatype State = State(sessions: Sessions, ids: set<Id>, submitted: seq<(Id, Bytes)>, running: set<Id>)

  datatype Action =
    | Start(id: Id, now: Time)
    | Put(id: Id, spec: Spec, payload: Bytes, now: Time)
    | Finish(id: Id, now: Time)

  const INIT := State(map[], {}, [], {})

  /** Session IDs are random; a new one has not been issued before. */
  predicate Enabled(s: State, a: Action) {
    match a
    case Start(id, _) => id !in s.ids
    case Put(_, _, _, _) => true
    case Finish(id, _) => id in s.running
  }

  function Apply(s: State, a: Action): State
    requires Enabled(s, a)
  {
    match a
    case Start(id, now) => s.(sessions := AfterBegin(s.sessions, id, now), ids := s.ids + {id})
    case Put(id, spec, payload, now) =>
      var reply := Reply(s.sessions, id, spec, payload, now);
      s.(sessions := AfterChunk(s.sessions, id, spec, payload, now),
         submitted := if reply.Submit? then s.submitted + [(id, reply.data)] else s.submitted,
         running := if reply.Submit? then s.running + {id} else s.running)
    case Finish(id, now) => s.(sessions := AfterComplete(s.sessions, id, now), running := s.running - {id})
  }

  ghost predicate ValidRun(s: State, run: seq<Action>)
    decreases |run|
  {
    run != [] ==> Enabled(s, run[0]) && ValidRun(Apply(s, run[0]), run[1..])
  }

  ghost function Final(s: State, run: seq<Action>): State
    requires ValidRun(s, run)
    decreases |run|
  {
    if run == [] then s else Final(Apply(s, run[0]), run[1..])
  }

  /** The request sends a slice of the file, or probes; a total, where given, is the file's size. */
  predicate SendsFile(file: Bytes, a: Action) {
    a.Put? ==>
      && (a.spec.total.Some? ==> a.spec.total.value == |file|)
      && (a.spec.Chunk? ==> a.spec.start <= a.spec.end < |file| && a.payload == file[a.spec.start..a.spec.end + 1])
  }

  ghost predicate AllSend(run: seq<Action>, id: Id, file: Bytes) {
    forall i :: 0 <= i < |run| && run[i].Put? && run[i].id == id ==> SendsFile(file, run[i])
  }

  /** The submissions made for one session. */
  function SubmittedFor(submitted: seq<(Id, Bytes)>, id: Id): seq<Bytes> {
    if submitted == [] then []
    else
      var last := submitted[|submitted| - 1];
      SubmittedFor(submitted[..|submitted| - 1], id) + (if last.0 == id then [last.1] else [])
  }

  /** Where a session stands, given what has been submitted for it. */
  predicate SessionOk(s: Session, file: Bytes, submitted: seq<Bytes>) {
    if s.completed || s.finalizing then submitted == [file]
    else submitted == [] && |s.data| <= |file| && s.data == file[..|s.data|]
  }

  predicate Inv(s: State, id: Id, file: Bytes) {
    && s.sessions.Keys <= s.ids && s.running <= s.ids
    && (id !in s.ids ==> SubmittedFor(s.submitted, id) == [])
    && (SubmittedFor(s.submitted, id) == [] || SubmittedFor(s.submitted, id) == [file])
    && (id in s.sessions ==> SessionOk(s.sessions[id], file, SubmittedFor(s.submitted, id)))
    && (id in s.running ==> SubmittedFor(s.submitted, id) == [file])
  }

  lemma {:induction false} SubmitAppend(submitted: seq<(Id, Bytes)>, x: (Id, Bytes), id: Id)
    ensures SubmittedFor(submitted + [x], id) == SubmittedFor(submitted, id) + (if x.0 == id then [x.1] else [])
  {
    assert (submitted + [x])[..|submitted|] == submitted;
  }

  /** A request that sends the file keeps the buffer a prefix of it, and submits only the file. */
  lemma {:induction false} ChunkKeepsSession(s: Session, file: Bytes, a: Action)
    requires a.Put? && SendsFile(file, a) && !s.completed && !s.finalizing
    requires |s.data| <= |file| && s.data == file[..|s.data|]
    ensures var t := Accepted(s, a.spec, a.payload, a.now);
            var r := Answered(s, a.spec, a.payload);
            && !t.completed && (t.finalizing <==> r.Submit?)
            && (r.Submit? ==> r.data == file)
            && |t.data| <= |file| && t.data == file[..|t.data|]
  {
    if a.spec.Chunk? && a.spec.start == |s.data| {
      var e := a.spec.end + 1;
      assert file[..|s.data|] + file[|s.data|..e] == file[..e];
    }
    assert file[..|file|] == file;
  }

  lemma {:induction false} PutKeepsInv(s: State, a: Action, id: Id, file: Bytes)
    requires Inv(s, id, file) && a.Put? && (a.id == id ==> SendsFile(file, a))
    ensures Inv(Apply(s, a), id, file)
  {
    var reply := Reply(s.sessions, a.id, a.spec, a.payload, a.now);
    if reply.Submit? {
      SubmitAppend(s.submitted, (a.id, reply.data), id);
    }
    if a.id == id && id in s.sessions && !s.sessions[id].completed && !s.sessions[id].finalizing {
      ChunkKeepsSession(s.sessions[id], file, a);
    }
  }

  lemma {:induction false} StepKeepsInv(s: State, a: Action, id: Id, file: Bytes)
    requires Inv(s, id, file) && Enabled(s, a) && (a.Put? && a.id == id ==> SendsFile(file, a))
    ensures Inv(Apply(s, a), id, file)
  {
    if a.Put? { PutKeepsInv(s, a, id, file); }
  }

  lemma {:induction false} RunKeepsInv(s: State, run: seq<Action>, id: Id, file: Bytes)
    requires Inv(s, id, file) && ValidRun(s, run) && AllSend(run, id, file)
    ensures Inv(Final(s, run), id, file)
    decreases |run|
  {
    if run != [] {
      StepKeepsInv(s, run[0], id, file);
      assert forall i :: 0 <= i < |run[1..]| ==> run[1..][i] == run[i + 1];
      RunKeepsInv(Apply(s, run[0]), run[1..], id, file);
    }
  }

  // ---- Whatever clients send -------------------------------------------------------------------

  predicate Once(s: State, id: Id) {
    var n := |SubmittedFor(s.submitted, id)|;
    && s.sessions.Keys <= s.ids && s.running <= s.ids && n <= 1
    && (id !in s.ids ==> n == 0)
    && (id in s.sessions && !s.sessions[id].completed && !s.sessions[id].finalizing ==> n == 0)
  }

  lemma {:induction false} StepKeepsOnce(s: State, a: Action, id: Id)
    requires Once(s, id) && Enabled(s, a)
    ensures Once(Apply(s, a), id)
  {
    if a.Put? {
      var reply := Reply(s.sessions, a.id, a.spec, a.payload, a.now);
      if reply.Submit? { SubmitAppend(s.submitted, (a.id, reply.data), id); }
    }
  }

  lemma {:induction false} RunKeepsOnce(s: State, run: seq<Action>, id: Id)
    requires Once(s, id) && ValidRun(s, run)
    ensures Once(Final(s, run), id)
    decreases |run|
  {
    if run != [] {
      StepKeepsOnce(s, run[0], id);
      RunKeepsOnce(Apply(s, run[0]), run[1..], id);
    }
  }

  /** Whatever is sent, in whatever order and by however many clients, a session submits one job at
      most. */
  lemma {:induction false} SubmitsAtMostOnce(run: seq<Action>, id: Id)
    requires ValidRun(INIT, run)
    ensures |SubmittedFor(Final(INIT, run).submitted, id)| <= 1
  {
    RunKeepsOnce(INIT, run, id);
  }

  /** With chunks of one file in any order and number, the buffer is always a prefix of the file,
      and the job is submitted at most once, with exactly the file. */
  lemma {:induction false} UploadsAreExact(run: seq<Action>, id: Id, file: Bytes)
    requires ValidRun(INIT, run) && AllSend(run, id, file)
    ensures var s := Final(INIT, run);
            && (SubmittedFor(s.submitted, id) == [] || SubmittedFor(s.submitted, id) == [file])
            && (id in s.sessions && !s.sessions[id].completed && !s.sessions[id].finalizing ==>
                  s.sessions[id].data <= file)
  {
    RunKeepsInv(INIT, run, id, file);
  }

  /** The chunk that ends the file, sent with its size at the end of the buffer, submits the file. */
  lemma {:induction false} LastChunkSubmits(s: Session, file: Bytes)
    requires !s.completed && !s.finalizing && |s.data| < |file| <= MAX_INT64 && s.data == file[..|s.data|]
    ensures Answered(s, Chunk(|s.data|, |file| - 1, Some(|file|)), file[|s.data|..]) == Submit(file)
  {
    assert file[..|s.data|] + file[|s.data|..] == file;
  }
}
