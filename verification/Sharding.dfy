/** Splitting an extract into shard files (writeExtractDestinations, resolveNumberedShardPath). */
module Sharding {
  import opened Options
  import opened Decimal
  import opened Text
  import opened Partitioning

  type Bytes = seq<bv8>

  /** The encoder of the requested format; None is an error. */
  type Encoder = seq<Row> -> Option<Bytes>

  datatype Shard = Shard(index: nat, payload: Bytes)

  datatype Extract = Failed | NeedsWildcard | Shards(shards: seq<Shard>)

  // ---- How many --------------------------------------------------------------------------

  function CeilDiv(a: nat, b: nat): nat
    requires b > 0
  {
    (a + b - 1) / b
  }

  /** CeilDiv is the ceiling of the quotient. */
  lemma {:induction false} CeilDivIsCeiling(a: nat, b: nat)
    requires b > 0
    ensures CeilDiv(a, b) * b - b < a <= CeilDiv(a, b) * b
  {
    var q := CeilDiv(a, b);
    assert a + b - 1 == q * b + (a + b - 1) % b;
  }

  /** Both ceilings round up, and still no more shards come out than were counted. */
  lemma {:induction false} NoMoreShardsThanCounted(rows: nat, count: nat)
    requires 0 < count <= rows
    ensures CeilDiv(rows, count) > 0 && CeilDiv(rows, CeilDiv(rows, count)) <= count
  {
    var per := CeilDiv(rows, count);
    CeilDivIsCeiling(rows, count);
    assert per == 0 ==> per * count == 0;
    CeilDivIsCeiling(rows, per);
    var made := CeilDiv(rows, per);
    LessTimes(count, made, per);
  }

  lemma {:induction false} LessTimes(a: nat, b: nat, c: nat)
    ensures a < b ==> a * c + c <= b * c
    decreases b
  {
    if a < b {
      Distributes(b - 1, c);
      LessTimes(a, b - 1, c);
    }
  }

  lemma {:induction false} Distributes(a: nat, c: nat)
    ensures (a + 1) * c == a * c + c
  {
  }

  function ShardCount(size: nat, maxBytes: int, rows: nat): nat
    requires maxBytes > 0 && rows > 0
  {
    var n := CeilDiv(size, maxBytes);
    if n < 1 then 1 else if n > rows then rows else n
  }

  // ---- Which rows -----------------------------------------------------------------------------

  /** The consecutive slices of per rows from start on, the last one possibly shorter. */
  function Slices(rows: seq<Row>, per: nat, start: nat): seq<seq<Row>>
    requires per > 0
    decreases |rows| - start
  {
    if start >= |rows| then []
    else
      var end := if start + per > |rows| then |rows| else start + per;
      [rows[start..end]] + Slices(rows, per, start + per)
  }

  function Concat(slices: seq<seq<Row>>): seq<Row> {
    if slices == [] then [] else slices[0] + Concat(slices[1..])
  }

  lemma {:induction false} SlicesConserveRows(rows: seq<Row>, per: nat, start: nat)
    requires per > 0 && start <= |rows|
    ensures Concat(Slices(rows, per, start)) == rows[start..]
    ensures forall i :: 0 <= i < |Slices(rows, per, start)| ==> 0 < |Slices(rows, per, start)[i]| <= per
    decreases |rows| - start
  {
    if start < |rows| {
      var end := if start + per > |rows| then |rows| else start + per;
      var rest := Slices(rows, per, start + per);
      if start + per <= |rows| {
        SlicesConserveRows(rows, per, start + per);
      } else {
        assert rest == [];
      }
      assert ([rows[start..end]] + rest)[1..] == rest;
      assert rows[start..] == rows[start..end] + rows[end..];
    }
  }

  lemma {:induction false} SliceCount(rows: seq<Row>, per: nat, start: nat)
    requires per > 0 && start <= |rows|
    ensures |Slices(rows, per, start)| == CeilDiv(|rows| - start, per)
    decreases |rows| - start
  {
    if start < |rows| {
      if start + per <= |rows| {
        SliceCount(rows, per, start + per);
        CeilDivStep(|rows| - start, per);
      } else {
        assert Slices(rows, per, start + per) == [];
        CeilDivIsOne(|rows| - start, per);
      }
    } else {
      assert CeilDiv(0, per) == 0;
    }
  }

  lemma {:induction false} CeilDivStep(n: nat, per: nat)
    requires 0 < per <= n
    ensures CeilDiv(n, per) == CeilDiv(n - per, per) + 1
  {
    DivStep(n - 1, per);
  }

  lemma {:induction false} DivStep(m: nat, per: nat)
    requires per > 0
    ensures (m + per) / per == m / per + 1
  {
    var q, r := m / per, m % per;
    assert m + per == (q + 1) * per + r;
    QuotientIs(m + per, per, q + 1, r);
  }

  lemma {:induction false} QuotientIs(a: nat, b: nat, q: nat, r: nat)
    requires b > 0 && a == q * b + r && r < b
    ensures a / b == q
  {
    var p, s := a / b, a % b;
    assert a == p * b + s;
    LessTimes(p, q, b);
    LessTimes(q, p, b);
  }

  lemma {:induction false} CeilDivIsOne(n: nat, per: nat)
    requires 0 < n <= per
    ensures CeilDiv(n, per) == 1
  {
    QuotientIs(n + per - 1, per, 1, n - 1);
  }

  // ---- The extract ----------------------------------------------------------------------------

  function EncodeFrom(encode: Encoder, slices: seq<seq<Row>>, index: nat): Extract {
    if slices == [] then Shards([])
    else
      match encode(slices[0])
      case None => Failed
      case Some(payload) =>
        match EncodeFrom(encode, slices[1..], index + 1)
        case Shards(rest) => Shards([Shard(index, payload)] + rest)
        case e => e
  }

  predicate IsWhole(size: nat, maxBytes: int, rows: seq<Row>) {
    maxBytes <= 0 || size <= maxBytes || |rows| <= 1
  }

  function SlicesOf(size: nat, maxBytes: int, rows: seq<Row>): seq<seq<Row>>
    requires !IsWhole(size, maxBytes, rows)
  {
    var count := ShardCount(size, maxBytes, |rows|);
    NoMoreShardsThanCounted(|rows|, count);
    Slices(rows, CeilDiv(|rows|, count), 0)
  }

  /** wildcard: there is one destination and it has one '*'. */
  function ExtractOf(encode: Encoder, rows: seq<Row>, maxBytes: int, wildcard: bool): Extract {
    match encode(rows)
    case None => Failed
    case Some(full) =>
      if IsWhole(|full|, maxBytes, rows) then Shards([Shard(0, full)])
      else if !wildcard then NeedsWildcard
      else EncodeFrom(encode, SlicesOf(|full|, maxBytes, rows), 0)
  }

  /** The shards in order are the encodings of the slices, numbered from index on. */
  lemma {:induction false} ShardsAreSlices(encode: Encoder, slices: seq<seq<Row>>, index: nat)
    ensures var e := EncodeFrom(encode, slices, index);
            e.Shards? ==>
              && |e.shards| == |slices|
              && forall i :: 0 <= i < |slices| ==>
                  e.shards[i].index == index + i && encode(slices[i]) == Some(e.shards[i].payload)
  {
    if slices != [] {
      ShardsAreSlices(encode, slices[1..], index + 1);
    }
  }

  /** A split extract conserves the rows: there are slices, none empty, that make up the table in
      order; shard i holds exactly slice i; and there are no more than the computed count. */
  lemma {:induction false} ExtractConservesRows(encode: Encoder, rows: seq<Row>, maxBytes: int)
    returns (slices: seq<seq<Row>>)
    requires encode(rows).Some? && !IsWhole(|encode(rows).value|, maxBytes, rows)
    requires ExtractOf(encode, rows, maxBytes, true).Shards?
    ensures Concat(slices) == rows && forall i :: 0 <= i < |slices| ==> slices[i] != []
    ensures var shards := ExtractOf(encode, rows, maxBytes, true).shards;
            && |shards| == |slices| <= ShardCount(|encode(rows).value|, maxBytes, |rows|)
            && forall i :: 0 <= i < |shards| ==> shards[i].index == i && encode(slices[i]) == Some(shards[i].payload)
  {
    var size := |encode(rows).value|;
    var count := ShardCount(size, maxBytes, |rows|);
    slices := SlicesOf(size, maxBytes, rows);
    NoMoreShardsThanCounted(|rows|, count);
    var per := CeilDiv(|rows|, count);
    SlicesConserveRows(rows, per, 0);
    SliceCount(rows, per, 0);
    assert rows[0..] == rows;
    ShardsAreSlices(encode, slices, 0);
  }

  /** The shards of an extract: one, or as many as the size calls for. */
  method MakeShards(encode: Encoder, rows: seq<Row>, maxBytes: int, wildcard: bool) returns (e: Extract)
    ensures e == ExtractOf(encode, rows, maxBytes, wildcard)
  {
    var full := encode(rows);
    if full.None? {
      return Failed;
    }
    if maxBytes <= 0 || |full.value| <= maxBytes || |rows| <= 1 {
      return Shards([Shard(0, full.value)]);
    }
    if !wildcard {
      return NeedsWildcard;
    }
    var count := CeilDiv(|full.value|, maxBytes);
    if count < 1 {
      count := 1;
    }
    if count > |rows| {
      count := |rows|;
    }
    NoMoreShardsThanCounted(|rows|, count);
    var per := CeilDiv(|rows|, count);
    e := WriteSlices(encode, rows, per);
  }

  /** Shards made so far, then what is still to come. */
  function Then(shards: seq<Shard>, rest: Extract): Extract {
    if rest.Shards? then Shards(shards + rest.shards) else rest
  }

  /** What is left to write from row start on. */
  function Rest(encode: Encoder, rows: seq<Row>, per: nat, start: nat, index: nat): Extract
    requires per > 0
  {
    EncodeFrom(encode, Slices(rows, per, start), index)
  }

  function EndOf(rows: seq<Row>, per: nat, start: nat): nat {
    if start + per > |rows| then |rows| else start + per
  }

  /** One turn of the loop: the next slice fails, or becomes the next shard. */
  lemma {:induction false} NextShard(encode: Encoder, rows: seq<Row>, per: nat, start: nat, index: nat,
                                     shards: seq<Shard>)
    requires per > 0 && start < |rows|
    ensures var payload := encode(rows[start..EndOf(rows, per, start)]);
            Then(shards, Rest(encode, rows, per, start, index)) ==
            if payload.None? then Failed
            else Then(shards + [Shard(index, payload.value)], Rest(encode, rows, per, start + per, index + 1))
  {
    var slices := Slices(rows, per, start);
    assert slices[0] == rows[start..EndOf(rows, per, start)] && slices[1..] == Slices(rows, per, start + per);
  }

  method WriteSlices(encode: Encoder, rows: seq<Row>, per: nat) returns (e: Extract)
    requires per > 0
    ensures e == EncodeFrom(encode, Slices(rows, per, 0), 0)
  {
    var shards: seq<Shard> := [];
    var start, index := 0, 0;
    while start < |rows|
      invariant Then(shards, Rest(encode, rows, per, start, index)) == Rest(encode, rows, per, 0, 0)
      decreases |rows| - start
    {
      NextShard(encode, rows, per, start, index, shards);
      var end := start + per;
      if end > |rows| {
        end := |rows|;
      }
      var payload := encode(rows[start..end]);
      if payload.None? {
        return Failed;
      }
      shards := shards + [Shard(index, payload.value)];
      start, index := start + per, index + 1;
    }
    e := Shards(shards);
  }

  // ---- Paths ------------------------------------------------------------------------------------

  const WIDTH: nat := 12

  function Zeros(n: nat): string {
    seq(n, _ => '0')
  }

  /** The number zero-padded to twelve digits. */
  function Padded(n: nat): string {
    if |Itoa(n)| < WIDTH then Zeros(WIDTH - |Itoa(n)|) + Itoa(n) else Itoa(n)
  }

  lemma {:induction false} LeadingZeros(k: nat, digits: string)
    requires AllDigits(digits)
    ensures AllDigits(Zeros(k) + digits) && Value(Zeros(k) + digits) == Value(digits)
  {
    var s := Zeros(k) + digits;
    var n := |digits| - 1;
    assert s[..|s| - 1] == Zeros(k) + digits[..n];
    if n == 0 {
      ValueOfZeros(k);
      assert digits[..0] == "" && Zeros(k) + "" == Zeros(k);
    } else {
      LeadingZeros(k, digits[..n]);
    }
  }

  lemma {:induction false} ValueOfZeros(k: nat)
    ensures forall i :: 0 <= i < k ==> IsDigit(Zeros(k)[i])
    ensures Value(Zeros(k)) == 0
  {
    if k > 0 {
      ValueOfZeros(k - 1);
      assert Zeros(k)[..k - 1] == Zeros(k - 1);
    }
  }

  lemma {:induction false} PaddedInjective(m: nat, n: nat)
    requires Padded(m) == Padded(n)
    ensures m == n
  {
    PaddedValue(m);
    PaddedValue(n);
  }

  lemma {:induction false} PaddedValue(n: nat)
    ensures AllDigits(Padded(n)) && Value(Padded(n)) == n
  {
    ValueOfItoa(n);
    if |Itoa(n)| < WIDTH { LeadingZeros(WIDTH - |Itoa(n)|, Itoa(n)); }
  }

  function Stars(path: string): nat {
    if path == "" then 0 else (if path[0] == '*' then 1 else 0) + Stars(path[1..])
  }

  /** None when there is more than one wildcard. */
  function ShardPath(path: string, index: nat): Option<string> {
    if Stars(path) == 0 then Some(path)
    else if Stars(path) == 1 then
      var k := IndexOf(path, '*');
      if k < |path| then Some(path[..k] + Padded(index) + path[k + 1..]) else None
    else None
  }

  lemma {:induction false} StarIsFound(path: string)
    requires Stars(path) > 0
    ensures IndexOf(path, '*') < |path|
  {
    if path[0] != '*' { StarIsFound(path[1..]); }
  }

  /** With one wildcard, different shards go to different files. */
  lemma {:induction false} ShardPathsAreDistinct(path: string, i: nat, j: nat)
    requires Stars(path) == 1 && i != j
    ensures ShardPath(path, i).Some? && ShardPath(path, j).Some? && ShardPath(path, i) != ShardPath(path, j)
  {
    StarIsFound(path);
    var k := IndexOf(path, '*');
    var a, b := path[..k] + Padded(i) + path[k + 1..], path[..k] + Padded(j) + path[k + 1..];
    if a == b {
      assert |Padded(i)| == |Padded(j)|;
      assert Padded(i) == a[k..k + |Padded(i)|] == b[k..k + |Padded(j)|] == Padded(j);
      PaddedInjective(i, j);
    }
  }

  // ---- Files ------------------------------------------------------------------------------------

  type Files = map<string, Bytes>

  /** The local path of a destination, and the paths that can be written. */
  datatype Disk = Disk(resolve: string -> Option<string>, writable: string -> bool)

  datatype Written = Written(files: Files, total: nat, ok: bool)

  /** Where a shard goes for a destination; None when that is an error. */
  function Target(disk: Disk, uri: string, index: nat): Option<string> {
    match disk.resolve(uri)
    case None => None
    case Some(local) =>
      match ShardPath(local, index)
      case None => None
      case Some(path) => if disk.writable(path) then Some(path) else None
  }

  /** writeExtractShards from destination i of shard j on; an error leaves what has been written. */
  function WriteFrom(disk: Disk, uris: seq<string>, shards: seq<Shard>, j: nat, i: nat, files: Files,
                     total: nat): Written
    requires j <= |shards| && i <= |uris|
    decreases |shards| - j, |uris| - i
  {
    if j == |shards| then Written(files, total, true)
    else if i == |uris| then WriteFrom(disk, uris, shards, j + 1, 0, files, total)
    else
      match Target(disk, uris[i], shards[j].index)
      case None => Written(files, 0, false)
      case Some(path) =>
        WriteFrom(disk, uris, shards, j, i + 1, files[path := shards[j].payload], total + |shards[j].payload|)
  }

  predicate IsWildcard(uris: seq<string>) {
    |uris| == 1 && Stars(uris[0]) == 1
  }

  /** The files and the byte count after an extract. */
  function Extracted(encode: Encoder, rows: seq<Row>, maxBytes: int, uris: seq<string>, disk: Disk,
                     files: Files): Written
  {
    match ExtractOf(encode, rows, maxBytes, IsWildcard(uris))
    case Shards(shards) => WriteFrom(disk, uris, shards, 0, 0, files, 0)
    case _ => Written(files, 0, false)
  }

  method WriteExtractShards(disk: Disk, uris: seq<string>, shards: seq<Shard>, files: Files) returns (w: Written)
    ensures w == WriteFrom(disk, uris, shards, 0, 0, files, 0)
  {
    var out, total: nat := files, 0;
    for j := 0 to |shards|
      invariant WriteFrom(disk, uris, shards, j, 0, out, total) == WriteFrom(disk, uris, shards, 0, 0, files, 0)
    {
      for i := 0 to |uris|
        invariant WriteFrom(disk, uris, shards, j, i, out, total) == WriteFrom(disk, uris, shards, 0, 0, files, 0)
      {
        var path := Target(disk, uris[i], shards[j].index);
        if path.None? {
          return Written(out, 0, false);
        }
        out, total := out[path.value := shards[j].payload], total + |shards[j].payload|;
      }
    }
    return Written(out, total, true);
  }

  method WriteExtractDestinations(encode: Encoder, rows: seq<Row>, maxBytes: int, uris: seq<string>, disk: Disk,
                                  files: Files)
    returns (w: Written)
    ensures w == Extracted(encode, rows, maxBytes, uris, disk, files)
  {
    var e := MakeShards(encode, rows, maxBytes, |uris| == 1 && Stars(uris[0]) == 1);
    if !e.Shards? {
      return Written(files, 0, false);
    }
    w := WriteExtractShards(disk, uris, e.shards, files);
  }

  predicate Numbered(shards: seq<Shard>) {
    forall k :: 0 <= k < |shards| ==> shards[k].index == k
  }

  function Size(shards: seq<Shard>, j: nat): nat
    requires j <= |shards|
    decreases |shards| - j
  {
    if j == |shards| then 0 else |shards[j].payload| + Size(shards, j + 1)
  }

  /** One shard to one destination. */
  lemma {:induction false} WriteOne(disk: Disk, uri: string, shards: seq<Shard>, j: nat, files: Files, total: nat)
    requires j < |shards| && WriteFrom(disk, [uri], shards, j, 0, files, total).ok
    ensures var path := Target(disk, uri, shards[j].index);
            && path.Some?
            && WriteFrom(disk, [uri], shards, j, 0, files, total)
            == WriteFrom(disk, [uri], shards, j + 1, 0, files[path.value := shards[j].payload],
                         total + |shards[j].payload|)
  {
  }

  /** Shards written to one wildcard destination leave every other file alone. */
  lemma {:induction false} OtherFilesStay(disk: Disk, uri: string, local: string, shards: seq<Shard>, j: nat,
                                          files: Files, total: nat, path: string)
    requires disk.resolve(uri) == Some(local) && Numbered(shards) && j <= |shards|
    requires forall k :: j <= k < |shards| ==> ShardPath(local, k) != Some(path)
    ensures var w := WriteFrom(disk, [uri], shards, j, 0, files, total);
            w.ok ==> SameFile(files, w.files, path) && w.total == total + Size(shards, j)
    decreases |shards| - j
  {
    if j < |shards| && WriteFrom(disk, [uri], shards, j, 0, files, total).ok {
      WriteOne(disk, uri, shards, j, files, total);
      var next := files[Target(disk, uri, j).value := shards[j].payload];
      OtherFilesStay(disk, uri, local, shards, j + 1, next, total + |shards[j].payload|, path);
    }
  }

  /** And each of them is in its own file. */
  lemma {:induction false} NumberedFileHoldsShard(disk: Disk, uri: string, local: string, shards: seq<Shard>, j: nat,
                                                  files: Files, total: nat, k: nat)
    requires disk.resolve(uri) == Some(local) && Stars(local) == 1 && Numbered(shards) && j <= k < |shards|
    ensures var w := WriteFrom(disk, [uri], shards, j, 0, files, total);
            w.ok ==> HoldsShard(w.files, local, shards[k])
    decreases |shards| - j
  {
    if WriteFrom(disk, [uri], shards, j, 0, files, total).ok {
      WriteOne(disk, uri, shards, j, files, total);
      var path := Target(disk, uri, j).value;
      var next, more := files[path := shards[j].payload], total + |shards[j].payload|;
      if j < k {
        NumberedFileHoldsShard(disk, uri, local, shards, j + 1, next, more, k);
      } else {
        forall m | j < m < |shards| ensures ShardPath(local, m) != Some(path) { ShardPathsAreDistinct(local, j, m); }
        OtherFilesStay(disk, uri, local, shards, j + 1, next, more, path);
      }
    }
  }

  predicate HoldsShard(files: Files, local: string, shard: Shard) {
    var path := ShardPath(local, shard.index);
    path.Some? && path.value in files && files[path.value] == shard.payload
  }

  predicate IsNumbered(local: string, n: nat, path: string) {
    exists i :: 0 <= i < n && ShardPath(local, i) == Some(path)
  }

  predicate SameFile(a: Files, b: Files, path: string) {
    (path in a <==> path in b) && (path in a ==> a[path] == b[path])
  }

  /** A split extract that succeeds leaves the table on disk: the files numbered from 0 on hold, one
      by one, the encodings of non-empty slices that make up the rows in order, and no other file has
      changed. */
  lemma {:induction false} SplitExtractIsOnDisk(encode: Encoder, rows: seq<Row>, maxBytes: int, uri: string,
                                                local: string, disk: Disk, files: Files)
    returns (slices: seq<seq<Row>>)
    requires encode(rows).Some? && !IsWhole(|encode(rows).value|, maxBytes, rows)
    requires disk.resolve(uri) == Some(local) && Stars(local) == 1
    requires Extracted(encode, rows, maxBytes, [uri], disk, files).ok
    ensures Concat(slices) == rows && forall i :: 0 <= i < |slices| ==> slices[i] != [] && encode(slices[i]).Some?
    ensures var w := Extracted(encode, rows, maxBytes, [uri], disk, files);
            && (forall i :: 0 <= i < |slices| ==> HoldsShard(w.files, local, Shard(i, encode(slices[i]).value)))
            && (forall path :: !IsNumbered(local, |slices|, path) ==> SameFile(files, w.files, path))
  {
    slices := ExtractConservesRows(encode, rows, maxBytes);
    var shards := ExtractOf(encode, rows, maxBytes, true).shards;
    forall i | 0 <= i < |slices|
      ensures HoldsShard(Extracted(encode, rows, maxBytes, [uri], disk, files).files, local,
                         Shard(i, encode(slices[i]).value))
    {
      NumberedFileHoldsShard(disk, uri, local, shards, 0, files, 0, i);
    }
    forall path | !IsNumbered(local, |slices|, path)
      ensures SameFile(files, Extracted(encode, rows, maxBytes, [uri], disk, files).files, path)
    {
      OtherFilesStay(disk, uri, local, shards, 0, files, 0, path);
    }
  }

  lemma {:induction false} ShardIsEverywhere(disk: Disk, uris: seq<string>, shard: Shard, i: nat, files: Files,
                                             total: nat)
    requires i <= |uris|
    requires forall k :: 0 <= k < i ==> IsAt(disk, files, uris[k], shard)
    ensures var w := WriteFrom(disk, uris, [shard], 0, i, files, total);
            w.ok ==> forall k :: 0 <= k < |uris| ==> IsAt(disk, w.files, uris[k], shard)
    decreases |uris| - i
  {
    if i < |uris| && Target(disk, uris[i], shard.index).Some? {
      var next := files[Target(disk, uris[i], shard.index).value := shard.payload];
      ShardIsEverywhere(disk, uris, shard, i + 1, next, total + |shard.payload|);
    } else if i == |uris| {
      assert WriteFrom(disk, uris, [shard], 0, i, files, total) == WriteFrom(disk, uris, [shard], 1, 0, files, total);
    }
  }

  predicate IsAt(disk: Disk, files: Files, uri: string, shard: Shard) {
    var path := Target(disk, uri, shard.index);
    path.Some? && path.value in files && files[path.value] == shard.payload
  }

  /** An extract in one piece that succeeds is at every destination. */
  lemma {:induction false} WholeExtractIsEverywhere(encode: Encoder, rows: seq<Row>, maxBytes: int, uris: seq<string>,
                                                    disk: Disk, files: Files, k: nat)
    requires encode(rows).Some? && IsWhole(|encode(rows).value|, maxBytes, rows) && k < |uris|
    requires Extracted(encode, rows, maxBytes, uris, disk, files).ok
    ensures IsAt(disk, Extracted(encode, rows, maxBytes, uris, disk, files).files, uris[k],
                 Shard(0, encode(rows).value))
  {
    ShardIsEverywhere(disk, uris, Shard(0, encode(rows).value), 0, files, 0);
  }
}
