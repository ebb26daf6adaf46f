/** The Content-Range header of a resumable upload (parseUploadContentRange), whose form is
    that of section 14.4 of RFC 9110. */
module ContentRange {
  import opened Options
  import opened Decimal
  import opened Text

  /** total is None for "*". A probe carries no bytes and asks how far the upload is. */
  datatype Spec = Chunk(start: nat, end: nat, total: Option<nat>) | Probe(total: Option<nat>)

  const UNIT := "bytes "

  /** A number too large for 64 bits reads as the largest one; the range error is ignored. */
  function Saturate(digits: string): (n: nat)
    requires AllDigits(digits)
    ensures n <= MAX_INT64
  {
    if Value(digits) <= MAX_INT64 then Value(digits) else MAX_INT64
  }

  /** The part after the slash: Some(None) is "*", None is malformed. */
  function ParseTotal(s: string): Option<Option<nat>> {
    if s == "*" then Some(None)
    else if AllDigits(s) then Some(Some(Saturate(s)))
    else None
  }

  function MakeChunk(start: nat, end: nat, total: Option<nat>): Option<Spec> {
    if end < start || (total.Some? && total.value <= end) then None else Some(Chunk(start, end, total))
  }

  /** The two patterns, "a-b/t" and "*"+"/t", on what follows the unit. */
  function ParseRange(s: string): Option<Spec> {
    if |s| >= 2 && s[..2] == "*/" then
      (match ParseTotal(s[2..]) case None => None case Some(t) => Some(Probe(t)))
    else
      var i := IndexOf(s, '-');
      if i == |s| then None
      else
        var rest := s[i + 1..];
        var j := IndexOf(rest, '/');
        if j == |rest| || !AllDigits(s[..i]) || !AllDigits(rest[..j]) then None
        else
          match ParseTotal(rest[j + 1..])
          case None => None
          case Some(t) => MakeChunk(Saturate(s[..i]), Saturate(rest[..j]), t)
  }

  function Parse(value: string): (r: Option<Spec>)
    ensures r.Some? && r.value.Chunk? ==>
              && r.value.start <= r.value.end
              && (r.value.total.Some? ==> r.value.end < r.value.total.value <= MAX_INT64)
              && r.value.end <= MAX_INT64
  {
    if UNIT <= value then ParseRange(value[|UNIT|..]) else None
  }

  // ---- Rendering and reading back ---------------------------------------------------------

  function RenderTotal(total: Option<nat>): string {
    if total.None? then "*" else Itoa(total.value)
  }

  function Render(spec: Spec): string {
    match spec
    case Probe(total) => UNIT + "*/" + RenderTotal(total)
    case Chunk(start, end, total) => UNIT + (Itoa(start) + "-" + (Itoa(end) + "/" + RenderTotal(total)))
  }

  /** What a client may ask for. */
  predicate WellFormed(spec: Spec) {
    && (spec.total.Some? ==> spec.total.value <= MAX_INT64)
    && (spec.Chunk? ==> spec.start <= spec.end <= MAX_INT64 && (spec.total.Some? ==> spec.end < spec.total.value))
  }

  lemma {:induction false} SaturateOfItoa(n: nat)
    requires n <= MAX_INT64
    ensures AllDigits(Itoa(n)) && Saturate(Itoa(n)) == n
  {
    ValueOfItoa(n);
  }

  lemma {:induction false} TotalRoundTrip(total: Option<nat>)
    requires total.Some? ==> total.value <= MAX_INT64
    ensures ParseTotal(RenderTotal(total)) == Some(total)
  {
    if total.Some? {
      SaturateOfItoa(total.value);
      assert IsDigit(Itoa(total.value)[0]);
    }
  }

  lemma {:induction false} ChunkParses(a: string, b: string, t: string)
    requires AllDigits(a) && AllDigits(b) && ParseTotal(t).Some?
    ensures ParseRange(a + "-" + (b + "/" + t)) == MakeChunk(Saturate(a), Saturate(b), ParseTotal(t).value)
  {
    var rest := b + "/" + t;
    var s := a + "-" + rest;
    assert IsDigit(a[0]) && s[0] == a[0];
    assert s[..2][0] == s[0] != '*';
    SplitAt(a, '-', rest);
    SplitAt(b, '/', t);
  }

  lemma {:induction false} ProbeParses(t: string)
    requires ParseTotal(t).Some?
    ensures ParseRange("*/" + t) == Some(Probe(ParseTotal(t).value))
  {
    var s := "*/" + t;
    assert s[..2] == "*/" && s[2..] == t;
  }

  lemma {:induction false} UnitIsStripped(s: string)
    ensures Parse(UNIT + s) == ParseRange(s)
  {
    assert (UNIT + s)[|UNIT|..] == s;
  }

  lemma {:induction false} ChunkRoundTrip(start: nat, end: nat, total: Option<nat>, a: string, b: string, t: string)
    requires start <= end && (total.Some? ==> end < total.value)
    requires AllDigits(a) && AllDigits(b) && Saturate(a) == start && Saturate(b) == end && ParseTotal(t) == Some(total)
    ensures Parse(UNIT + (a + "-" + (b + "/" + t))) == Some(Chunk(start, end, total))
  {
    ChunkParses(a, b, t);
    UnitIsStripped(a + "-" + (b + "/" + t));
  }

  /** Every range a client can write is read back as it was meant. */
  lemma {:induction false} ParseUndoesRender(spec: Spec)
    requires WellFormed(spec)
    ensures Parse(Render(spec)) == Some(spec)
  {
    TotalRoundTrip(spec.total);
    var t := RenderTotal(spec.total);
    match spec {
      case Probe(total) =>
        ProbeParses(t);
        UnitIsStripped("*/" + t);
        assert Render(spec) == UNIT + ("*/" + t);
      case Chunk(start, end, total) =>
        SaturateOfItoa(start);
        SaturateOfItoa(end);
        ChunkRoundTrip(start, end, total, Itoa(start), Itoa(end), t);
    }
  }
}
