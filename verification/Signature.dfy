/** The cache key of the shared-engine pool: tableSignature in sql_engine_pool.go.
    A signature is the sorted, '|'-joined list of "dataset.table@version" parts. */
module Signature {
  import opened Decimal

  datatype TableRef = TableRef(datasetID: string, tableID: string)

  datatype CacheRef = CacheRef(ref: TableRef, version: nat)

  /** The separators may not occur where the encoding relies on them. */
  predicate WellFormedRef(r: TableRef) {
    '.' !in r.datasetID && '|' !in r.datasetID && '|' !in r.tableID
  }

  predicate WellFormed(refs: seq<CacheRef>) {
    forall i :: 0 <= i < |refs| ==> WellFormedRef(refs[i].ref)
  }

  predicate NoDuplicates<T(==)>(s: seq<T>) {
    forall i, j :: 0 <= i < j < |s| ==> s[i] != s[j]
  }

  // ---- One part -------------------------------------------------------

  /** The key under which the engine tracks a materialized table. */
  function TableKey(r: TableRef): string {
    r.datasetID + "." + r.tableID
  }

  function Part(r: CacheRef): string {
    TableKey(r.ref) + "@" + Itoa(r.version)
  }

  lemma {:induction false} TableKeyInjective(a: TableRef, b: TableRef)
    requires '.' !in a.datasetID && '.' !in b.datasetID
    requires TableKey(a) == TableKey(b)
    ensures a == b
  {
    var x, y := TableKey(a), TableKey(b);
    assert x[|a.datasetID|] == '.' && y[|b.datasetID|] == '.';
    assert forall i :: 0 <= i < |a.datasetID| ==> x[i] == a.datasetID[i] && x[i] != '.';
    assert forall i :: 0 <= i < |b.datasetID| ==> y[i] == b.datasetID[i] && y[i] != '.';
    assert |a.datasetID| == |b.datasetID|;
    assert a.datasetID == x[..|a.datasetID|] == b.datasetID;
    assert a.tableID == x[|a.datasetID| + 1..] == b.tableID;
  }

  lemma {:induction false} PartInjective(a: CacheRef, b: CacheRef)
    requires WellFormedRef(a.ref) && WellFormedRef(b.ref)
    requires Part(a) == Part(b)
    ensures a == b
  {
    var x, y := Part(a), Part(b);
    var ka, kb := TableKey(a.ref), TableKey(b.ref);
    var va, vb := Itoa(a.version), Itoa(b.version);
    assert x[|ka|] == '@' && y[|kb|] == '@';
    assert forall i :: |ka| < i < |x| ==> x[i] == va[i - |ka| - 1] && IsDigit(x[i]);
    assert forall i :: |kb| < i < |y| ==> y[i] == vb[i - |kb| - 1] && IsDigit(y[i]);
    assert |ka| == |kb|;
    assert ka == x[..|ka|] == kb;
    assert va == x[|ka| + 1..] == vb;
    TableKeyInjective(a.ref, b.ref);
    ItoaInjective(a.version, b.version);
  }

  // ---- Sorting: sort.Strings ------------------------------------------

  predicate LexLe(a: string, b: string) {
    if a == "" then true
    else if b == "" then false
    else if a[0] != b[0] then a[0] < b[0]
    else LexLe(a[1..], b[1..])
  }

  lemma {:induction false} LexLeTotal(a: string, b: string)
    ensures LexLe(a, b) || LexLe(b, a)
    ensures LexLe(a, b) && LexLe(b, a) ==> a == b
  {
    if a != "" && b != "" {
      LexLeTotal(a[1..], b[1..]);
      assert a == [a[0]] + a[1..] && b == [b[0]] + b[1..];
    }
  }

  lemma {:induction false} LexLeTransitive(a: string, b: string, c: string)
    requires LexLe(a, b) && LexLe(b, c)
    ensures LexLe(a, c)
  {
    if a != "" && b != "" && c != "" && a[0] == b[0] == c[0] {
      LexLeTransitive(a[1..], b[1..], c[1..]);
    }
  }

  predicate Sorted(s: seq<string>) {
    forall i, j :: 0 <= i < j < |s| ==> LexLe(s[i], s[j])
  }

  function Insert(x: string, s: seq<string>): (r: seq<string>)
    ensures multiset(r) == multiset(s) + multiset{x}
  {
    if s == [] then [x]
    else if LexLe(x, s[0]) then [x] + s
    else assert s == [s[0]] + s[1..]; [s[0]] + Insert(x, s[1..])
  }

  function Sort(s: seq<string>): (r: seq<string>)
    ensures multiset(r) == multiset(s)
    ensures Sorted(r)
  {
    if s == [] then []
    else
      InsertSorted(s[0], Sort(s[1..]));
      assert s == [s[0]] + s[1..];
      Insert(s[0], Sort(s[1..]))
  }

  lemma {:induction false} InsertSorted(x: string, s: seq<string>)
    requires Sorted(s)
    ensures Sorted(Insert(x, s))
  {
    if s != [] {
      if LexLe(x, s[0]) {
        forall j | 0 <= j < |s| ensures LexLe(x, s[j]) {
          if j > 0 { LexLeTransitive(x, s[0], s[j]); }
        }
      } else {
        LexLeTotal(x, s[0]);
        InsertSorted(x, s[1..]);
        var r := Insert(x, s[1..]);
        forall j | 0 <= j < |r| ensures LexLe(s[0], r[j]) {
          assert r[j] in multiset(s[1..]) + multiset{x};
          if r[j] != x { assert r[j] in s[1..]; }
        }
      }
    }
  }

  lemma {:induction false} SortedHeadIsLeast(a: seq<string>, x: string)
    requires Sorted(a) && x in multiset(a)
    ensures LexLe(a[0], x)
  {
    var i :| 0 <= i < |a| && a[i] == x;
    LexLeTotal(x, x);
  }

  lemma {:induction false} TailElements(a: seq<string>)
    requires a != []
    ensures multiset(a[1..]) == multiset(a) - multiset{a[0]} && a == [a[0]] + a[1..]
  {
    assert a == [a[0]] + a[1..];
  }

  /** A sorted list is determined by the multiset of its elements. */
  lemma {:induction false} SortedUnique(a: seq<string>, b: seq<string>)
    requires Sorted(a) && Sorted(b) && multiset(a) == multiset(b)
    ensures a == b
  {
    assert |multiset(a)| == |a| && |multiset(b)| == |b|;
    if a != [] {
      assert a[0] in multiset(a) && b[0] in multiset(b);
      SortedHeadIsLeast(a, b[0]);
      SortedHeadIsLeast(b, a[0]);
      LexLeTotal(a[0], b[0]);
      TailElements(a);
      TailElements(b);
      SortedUnique(a[1..], b[1..]);
    }
  }

  // ---- Joining: strings.Join ------------------------------------------

  function Join(parts: seq<string>, sep: char): string {
    if parts == [] then ""
    else if |parts| == 1 then parts[0]
    else parts[0] + [sep] + Join(parts[1..], sep)
  }

  /** A separator that occurs in no part makes Join reversible on non-empty lists. */
  lemma {:induction false} JoinInjective(a: seq<string>, b: seq<string>, sep: char)
    requires a != [] && b != []
    requires forall i :: 0 <= i < |a| ==> sep !in a[i]
    requires forall i :: 0 <= i < |b| ==> sep !in b[i]
    requires Join(a, sep) == Join(b, sep)
    ensures a == b
  {
    var x, y := Join(a, sep), Join(b, sep);
    assert a[0] == x[..|a[0]|] && b[0] == y[..|b[0]|];
    assert |a| > 1 ==> x[|a[0]|] == sep;
    assert |b| > 1 ==> y[|b[0]|] == sep;
    assert forall i :: 0 <= i < |a[0]| ==> x[i] == a[0][i] && x[i] != sep;
    assert forall i :: 0 <= i < |b[0]| ==> y[i] == b[0][i] && y[i] != sep;
    assert |a[0]| == |b[0]|;
    assert a == [a[0]] + a[1..] && b == [b[0]] + b[1..];
    if |a| > 1 {
      assert |b| > 1;
      assert Join(a[1..], sep) == x[|a[0]| + 1..] == y[|b[0]| + 1..] == Join(b[1..], sep);
      JoinInjective(a[1..], b[1..], sep);
    }
  }

  // ---- The signature --------------------------------------------------

  function Parts(refs: seq<CacheRef>): (r: seq<string>)
    ensures |r| == |refs|
    ensures forall i :: 0 <= i < |refs| ==> r[i] == Part(refs[i])
  {
    seq(|refs|, i requires 0 <= i < |refs| => Part(refs[i]))
  }

  function TableSignature(refs: seq<CacheRef>): string {
    if refs == [] then "" else Join(Sort(Parts(refs)), '|')
  }

  lemma {:induction false} PartsCons(refs: seq<CacheRef>)
    requires refs != []
    ensures multiset(Parts(refs)) == multiset{Part(refs[0])} + multiset(Parts(refs[1..]))
  {
    assert Parts(refs) == [Part(refs[0])] + Parts(refs[1..]);
  }

  lemma {:induction false} PartHasNoBar(r: CacheRef)
    requires WellFormedRef(r.ref)
    ensures '|' !in Part(r)
  {
    forall i | 0 <= i < |Part(r)| ensures Part(r)[i] != '|' {
      var k := TableKey(r.ref);
      if i < |r.ref.datasetID| {
        assert Part(r)[i] == r.ref.datasetID[i];
      } else if |r.ref.datasetID| < i < |k| {
        assert Part(r)[i] == r.ref.tableID[i - |r.ref.datasetID| - 1];
      } else if |k| < i {
        assert Part(r)[i] == Itoa(r.version)[i - |k| - 1];
      }
    }
  }

  lemma {:induction false} SortedPartsHaveNoBar(refs: seq<CacheRef>)
    requires WellFormed(refs)
    ensures forall i :: 0 <= i < |Sort(Parts(refs))| ==> '|' !in Sort(Parts(refs))[i]
  {
    var s := Sort(Parts(refs));
    forall i | 0 <= i < |s| ensures '|' !in s[i] {
      assert s[i] in multiset(Parts(refs));
      var j :| 0 <= j < |refs| && Parts(refs)[j] == s[i];
      PartHasNoBar(refs[j]);
    }
  }

  /** Part is injective, so it preserves multiplicities. */
  lemma {:induction false} PartMultiplicity(refs: seq<CacheRef>, r: CacheRef)
    requires WellFormed(refs) && WellFormedRef(r.ref)
    ensures multiset(Parts(refs))[Part(r)] == multiset(refs)[r]
  {
    if refs != [] {
      PartMultiplicity(refs[1..], r);
      PartsCons(refs);
      assert refs == [refs[0]] + refs[1..];
      if Part(refs[0]) == Part(r) { PartInjective(refs[0], r); }
    }
  }

  lemma {:induction false} SignatureNonEmpty(refs: seq<CacheRef>)
    requires refs != []
    ensures TableSignature(refs) != ""
  {
    var s := Sort(Parts(refs));
    assert |multiset(s)| == |multiset(Parts(refs))|;
    assert s[0] in multiset(Parts(refs));
  }

  /** Two lists of well-formed references share a signature exactly when they
      list the same references the same number of times, in any order. */
  lemma {:induction false} SameSignatureIff(a: seq<CacheRef>, b: seq<CacheRef>)
    requires WellFormed(a) && WellFormed(b)
    ensures TableSignature(a) == TableSignature(b) <==> multiset(a) == multiset(b)
  {
    if multiset(a) == multiset(b) {
      assert |multiset(a)| == |a| && |multiset(b)| == |b|;
      forall p ensures multiset(Parts(a))[p] == multiset(Parts(b))[p] {
        PartsMultisetEqualAt(a, b, p);
      }
      assert multiset(Parts(a)) == multiset(Parts(b));
      SortedUnique(Sort(Parts(a)), Sort(Parts(b)));
    }
    if TableSignature(a) == TableSignature(b) {
      if a == [] || b == [] {
        if a != [] { SignatureNonEmpty(a); }
        if b != [] { SignatureNonEmpty(b); }
      } else {
        SignatureDeterminesMultiset(a, b);
      }
    }
  }

  lemma {:induction false} PartsMultisetEqualAt(a: seq<CacheRef>, b: seq<CacheRef>, p: string)
    requires WellFormed(a) && WellFormed(b) && multiset(a) == multiset(b)
    ensures multiset(Parts(a))[p] == multiset(Parts(b))[p]
  {
    if p in Parts(a) {
      var i :| 0 <= i < |a| && Part(a[i]) == p;
      PartMultiplicity(a, a[i]);
      PartMultiplicity(b, a[i]);
    } else if p in Parts(b) {
      var i :| 0 <= i < |b| && Part(b[i]) == p;
      PartMultiplicity(a, b[i]);
      PartMultiplicity(b, b[i]);
    }
  }

  lemma {:induction false} SignatureDeterminesMultiset(a: seq<CacheRef>, b: seq<CacheRef>)
    requires WellFormed(a) && WellFormed(b) && a != [] && b != []
    requires TableSignature(a) == TableSignature(b)
    ensures multiset(a) == multiset(b)
  {
    var sa, sb := Sort(Parts(a)), Sort(Parts(b));
    assert |multiset(sa)| == |sa| && |multiset(sb)| == |sb|;
    assert |multiset(Parts(a))| == |a| && |multiset(Parts(b))| == |b|;
    SortedPartsHaveNoBar(a);
    SortedPartsHaveNoBar(b);
    JoinInjective(sa, sb, '|');
    assert multiset(Parts(a)) == multiset(Parts(b));
    forall r ensures multiset(a)[r] == multiset(b)[r] {
      if r in a || r in b {
        PartMultiplicity(a, r);
        PartMultiplicity(b, r);
      }
    }
  }

  /** Without the well-formedness condition the key is ambiguous: a table name
      that spells out a separator makes one reference look like two. */
  lemma {:induction false} SeparatorInTableNameCollides()
    ensures
      var one := [CacheRef(TableRef("a", "b@1|c.d"), 2)];
      var two := [CacheRef(TableRef("a", "b"), 1), CacheRef(TableRef("c", "d"), 2)];
      TableSignature(one) == TableSignature(two) && multiset(one) != multiset(two)
  {
    var one := [CacheRef(TableRef("a", "b@1|c.d"), 2)];
    var two := [CacheRef(TableRef("a", "b"), 1), CacheRef(TableRef("c", "d"), 2)];
    CollidingParts();
    assert Parts(one) == [Part(one[0])];
    assert Parts(two) == [Part(two[0]), Part(two[1])];
    SortedPairJoined(Part(two[0]), Part(two[1]));
    SortedSingletonJoined(Part(one[0]));
    assert |multiset(one)| == 1 && |multiset(two)| == 2;
  }

  lemma {:induction false} SortedSingletonJoined(p: string)
    ensures Join(Sort([p]), '|') == p
  {
    SortedUnique(Sort([p]), [p]);
  }

  lemma {:induction false} SortedPairJoined(p: string, q: string)
    requires LexLe(p, q)
    ensures Join(Sort([p, q]), '|') == p + "|" + q
  {
    SortedUnique(Sort([p, q]), [p, q]);
    assert [p, q][1..] == [q];
  }

  lemma {:induction false} CollidingParts()
    ensures Part(CacheRef(TableRef("a", "b@1|c.d"), 2)) == "a.b@1|c.d@2"
    ensures Part(CacheRef(TableRef("a", "b"), 1)) == "a.b@1"
    ensures Part(CacheRef(TableRef("c", "d"), 2)) == "c.d@2"
    ensures LexLe("a.b@1", "c.d@2") && "a.b@1|c.d@2" == "a.b@1" + "|" + "c.d@2"
  {
    assert Itoa(1) == "1" && Itoa(2) == "2";
  }
}
