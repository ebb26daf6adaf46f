/** Write streams with offsets and the atomic batch commit (storage_write_service.go). */
module StorageWrite {
  import opened Options
  import opened Signature
  import opened Partitioning

  datatype Kind = Committed | Pending

  /** CreateWriteStream numbers the streams, so a name determines its table and number. */
  datatype Name = Name(ref: TableRef, number: nat)

  /** next is NextOffset, the rows accepted so far. */
  datatype Stream = Stream(kind: Kind, finalized: bool, committed: bool, buffered: seq<Row>, next: nat)

  function NewStream(kind: Kind): Stream {
    Stream(kind, false, false, [], 0)
  }

  type Streams = map<Name, Stream>

  // ---- Appending ---------------------------------------------------------------------------

  datatype Answer = Accepted(offset: nat) | AlreadyWritten | OutOfRange | StreamFinalized | WriteFailed

  /** The locked part of AppendRows for an explicit stream. upsertOk is what the catalog answers
      when the rows of a COMMITTED stream are written through. */
  function Answered(st: Stream, offset: Option<int>, upsertOk: bool): Answer {
    if st.finalized then StreamFinalized
    else if offset.Some? && offset.value < st.next then AlreadyWritten
    else if offset.Some? && offset.value > st.next then OutOfRange
    else if st.kind.Committed? && !upsertOk then WriteFailed
    else Accepted(st.next)
  }

  function Appended(st: Stream, rows: seq<Row>): Stream {
    st.(buffered := if st.kind.Pending? then st.buffered + rows else st.buffered, next := st.next + |rows|)
  }

  // ---- Committing ----------------------------------------------------------------------------

  datatype Refusal = NotPending | NotFinalized | AlreadyCommitted | OtherTable

  function Refused(name: Name, st: Stream, ref: TableRef): Option<Refusal> {
    if !st.kind.Pending? then Some(NotPending)
    else if !st.finalized then Some(NotFinalized)
    else if st.committed then Some(AlreadyCommitted)
    else if name.ref != ref then Some(OtherTable)
    else None
  }

  /** Rows written together, by the stream they come from. */
  datatype Part = Part(name: Name, rows: seq<Row>)

  function PartsOf(streams: Streams, names: seq<Name>): seq<Part>
    requires forall i :: 0 <= i < |names| ==> names[i] in streams
  {
    seq(|names|, i requires 0 <= i < |names| => Part(names[i], streams[names[i]].buffered))
  }

  /** What one call of the catalog appends to the table. */
  function RowsOf(parts: seq<Part>): seq<Row> {
    if parts == [] then [] else RowsOf(parts[..|parts| - 1]) + parts[|parts| - 1].rows
  }

  function Marked(st: Stream): Stream {
    st.(committed := true, buffered := [])
  }

  function MarkAll(streams: Streams, names: seq<Name>): Streams
    requires forall i :: 0 <= i < |names| ==> names[i] in streams
  {
    map n | n in streams :: if n in names then Marked(streams[n]) else streams[n]
  }

  // ---- The imperative service ------------------------------------------------------------------

  class WriteStream {
    const kind: Kind
    var finalized: bool
    var committed: bool
    var buffered: seq<Row>
    var nextOffset: nat

    ghost function View(): Stream
      reads this
    {
      Stream(kind, finalized, committed, buffered, nextOffset)
    }

    constructor (kind: Kind)
      ensures View() == NewStream(kind)
    {
      this.kind, finalized, committed, buffered, nextOffset := kind, false, false, [], 0;
    }

    method Append(offset: Option<int>, rows: seq<Row>, upsertOk: bool) returns (answer: Answer)
      modifies this
      ensures answer == Answered(old(View()), offset, upsertOk)
      ensures View() == if answer.Accepted? then Appended(old(View()), rows) else old(View())
    {
      if finalized {
        return StreamFinalized;
      }
      if offset.Some? {
        if offset.value < nextOffset {
          return AlreadyWritten;
        } else if offset.value > nextOffset {
          return OutOfRange;
        }
      }
      var start := nextOffset;
      if kind.Committed? {
        if !upsertOk {
          return WriteFailed;
        }
      } else {
        buffered := buffered + rows;
      }
      nextOffset := nextOffset + |rows|;
      return Accepted(start);
    }

    method Finalize() returns (count: nat)
      modifies this
      ensures View() == old(View()).(finalized := true) && count == old(View()).next
    {
      finalized := true;
      return nextOffset;
    }
  }

  /** The loops of BatchCommitWriteStreams, over the streams of one request. */
  method CheckStreams(streams: Streams, ref: TableRef, names: seq<Name>) returns (errors: seq<(Name, Refusal)>)
    requires forall i :: 0 <= i < |names| ==> names[i] in streams
    ensures errors == [] <==> forall i :: 0 <= i < |names| ==> Refused(names[i], streams[names[i]], ref).None?
    ensures forall e :: e in errors ==> e.0 in names && e.0 in streams && Refused(e.0, streams[e.0], ref) == Some(e.1)
  {
    errors := [];
    for i := 0 to |names|
      invariant errors == [] <==> forall j :: 0 <= j < i ==> Refused(names[j], streams[names[j]], ref).None?
      invariant forall e :: e in errors ==>
                  e.0 in names && e.0 in streams && Refused(e.0, streams[e.0], ref) == Some(e.1)
    {
      var refusal := Refused(names[i], streams[names[i]], ref);
      if refusal.Some? {
        errors := errors + [(names[i], refusal.value)];
      }
    }
  }

  method CollectRows(streams: Streams, names: seq<Name>) returns (rows: seq<Row>)
    requires forall i :: 0 <= i < |names| ==> names[i] in streams
    ensures rows == RowsOf(PartsOf(streams, names))
  {
    rows := [];
    var all := PartsOf(streams, names);
    for i := 0 to |names|
      invariant rows == RowsOf(all[..i])
    {
      assert all[..i + 1][..i] == all[..i];
      rows := rows + streams[names[i]].buffered;
    }
    assert all[..|all|] == all;
  }

  method MarkCommitted(streams: Streams, names: seq<Name>) returns (r: Streams)
    requires forall i :: 0 <= i < |names| ==> names[i] in streams
    ensures r == MarkAll(streams, names)
  {
    r := streams;
    for i := 0 to |names|
      invariant r.Keys == streams.Keys
      invariant forall n :: n in streams ==> r[n] == if n in names[..i] then Marked(streams[n]) else streams[n]
    {
      r := r[names[i] := Marked(r[names[i]])];
    }
    assert names[..|names|] == names;
  }
}
