/** Counting and summing over a sequence that changes one element at a time. */
module Counting {

  function Count<T>(s: seq<T>, p: T -> bool): nat {
    if s == [] then 0 else Count(s[..|s| - 1], p) + (if p(s[|s| - 1]) then 1 else 0)
  }

  lemma {:induction false} CountAppend<T>(s: seq<T>, x: T, p: T -> bool)
    ensures Count(s + [x], p) == Count(s, p) + (if p(x) then 1 else 0)
  {
    assert (s + [x])[..|s|] == s;
  }

  lemma {:induction false} CountUpdate<T>(s: seq<T>, i: nat, x: T, p: T -> bool)
    requires i < |s|
    ensures Count(s[i := x], p) + (if p(s[i]) then 1 else 0) == Count(s, p) + (if p(x) then 1 else 0)
  {
    var n := |s| - 1;
    if i == n {
      assert s[i := x][..n] == s[..n];
    } else {
      CountUpdate(s[..n], i, x, p);
      assert s[i := x][..n] == s[..n][i := x];
    }
  }

  /** The counts of two properties over two sequences that agree everywhere but at i. */
  lemma {:induction false} CountDiffers<T>(s: seq<T>, t: seq<T>, i: nat, p: T -> bool, q: T -> bool)
    requires i < |s| == |t|
    requires forall k :: 0 <= k < |s| && k != i ==> p(s[k]) == q(t[k])
    ensures Count(t, q) + (if p(s[i]) then 1 else 0) == Count(s, p) + (if q(t[i]) then 1 else 0)
  {
    var n := |s| - 1;
    if i == n {
      CountsAgree(s[..n], t[..n], p, q);
    } else {
      CountDiffers(s[..n], t[..n], i, p, q);
    }
  }

  lemma {:induction false} CountsAgree<T>(s: seq<T>, t: seq<T>, p: T -> bool, q: T -> bool)
    requires |s| == |t| && forall k :: 0 <= k < |s| ==> p(s[k]) == q(t[k])
    ensures Count(t, q) == Count(s, p)
  {
    if s != [] {
      CountsAgree(s[..|s| - 1], t[..|s| - 1], p, q);
    }
  }

  lemma {:induction false} CountSame<T>(s: seq<T>, p: T -> bool, q: T -> bool)
    requires forall i :: 0 <= i < |s| ==> p(s[i]) == q(s[i])
    ensures Count(s, p) == Count(s, q)
  {
    if s != [] { CountSame(s[..|s| - 1], p, q); }
  }

  lemma {:induction false} CountPositive<T>(s: seq<T>, p: T -> bool)
    requires Count(s, p) > 0
    ensures exists i :: 0 <= i < |s| && p(s[i])
  {
    var n := |s| - 1;
    if !p(s[n]) {
      CountPositive(s[..n], p);
      var i :| 0 <= i < n && p(s[..n][i]);
      assert p(s[i]);
    }
  }

  lemma {:induction false} CountsOne<T>(s: seq<T>, i: nat, p: T -> bool)
    requires i < |s| && p(s[i])
    ensures Count(s, p) >= 1
  {
    var n := |s| - 1;
    if i < n { CountsOne(s[..n], i, p); }
  }

  lemma {:induction false} CountsTwo<T>(s: seq<T>, i: nat, j: nat, p: T -> bool)
    requires i < j < |s| && p(s[i]) && p(s[j])
    ensures Count(s, p) >= 2
  {
    var n := |s| - 1;
    if j == n { CountsOne(s[..n], i, p); } else { CountsTwo(s[..n], i, j, p); }
  }

  lemma {:induction false} CountWeaker<T>(s: seq<T>, p: T -> bool, q: T -> bool)
    requires forall i :: 0 <= i < |s| && p(s[i]) ==> q(s[i])
    ensures Count(s, p) <= Count(s, q)
  {
    if s != [] { CountWeaker(s[..|s| - 1], p, q); }
  }

  function Sum<T>(s: seq<T>, f: T -> nat): nat {
    if s == [] then 0 else Sum(s[..|s| - 1], f) + f(s[|s| - 1])
  }

  lemma {:induction false} SumUpdate<T>(s: seq<T>, i: nat, x: T, f: T -> nat)
    requires i < |s|
    ensures Sum(s[i := x], f) + f(s[i]) == Sum(s, f) + f(x)
  {
    var n := |s| - 1;
    if i == n {
      assert s[i := x][..n] == s[..n];
    } else {
      SumUpdate(s[..n], i, x, f);
      assert s[i := x][..n] == s[..n][i := x];
    }
  }
}
