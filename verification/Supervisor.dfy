/** Restarts bounded by a sliding window (procsupervisor.go). */
module Supervisor {

  type Time = int

  // ---- The in-place filter -----------------------------------------------------------------

  /** The times strictly after the cutoff, in order. */
  function After(times: seq<Time>, cutoff: Time): seq<Time> {
    if times == [] then []
    else
      var n := |times| - 1;
      After(times[..n], cutoff) + (if times[n] > cutoff then [times[n]] else [])
  }

  /** Filters the first n times in place; the kept ones end up at the front. */
  method PruneOlderThan(times: array<Time>, n: nat, cutoff: Time) returns (kept: nat)
    requires n <= times.Length
    modifies times
    ensures kept <= n && times[..kept] == After(old(times[..n]), cutoff)
    ensures times[n..] == old(times[n..])
  {
    kept := 0;
    for i := 0 to n
      invariant kept <= i
      invariant times[..kept] == After(old(times[..])[..i], cutoff)
      invariant times[i..] == old(times[..])[i..]
    {
      assert old(times[..])[..i + 1][..i] == old(times[..])[..i];
      assert times[i] == times[i..][0] == old(times[..])[i];
      var t := times[i];
      if t > cutoff {
        times[kept] := t;
        kept := kept + 1;
      }
      assert times[i + 1..] == old(times[..])[i..][1..];
    }
    assert old(times[..n]) == old(times[..])[..n];
    assert times[n..] == old(times[..])[n..];
  }

  // ---- The restart loop --------------------------------------------------------------------------

  predicate Monotone(times: seq<Time>) {
    forall i, j :: 0 <= i <= j < |times| ==> times[i] <= times[j]
  }

  /** The crashes the policy counts at the i-th one: those of the whole history in the window
      that ends with it. */
  function Counted(times: seq<Time>, window: int, i: nat): seq<Time>
    requires i < |times|
  {
    After(times[..i + 1], times[i] - window)
  }

  /** One turn of the loop: whether the child could be started, how it ended and when, and whether a
      shutdown was requested by then or during the pause before the next turn. */
  datatype Round = Round(started: bool, stopped: bool, crashed: bool, at: Time, interrupted: bool)

  /** Restarting: the loop goes on after the given turns. */
  datatype Ending = NotStarted | ShutDown | Exited | GaveUp | Restarting

  function TimesOf(rounds: seq<Round>): (times: seq<Time>)
    ensures |times| == |rounds| && forall i :: 0 <= i < |rounds| ==> times[i] == rounds[i].at
  {
    seq(|rounds|, i requires 0 <= i < |rounds| => rounds[i].at)
  }

  /** The turns, from the i-th on, that are followed by a restart, and how it ends after them: a crash
      is answered by a restart unless the window of the whole history holds too many. */
  function Ended(rounds: seq<Round>, max: int, window: int, i: nat): (r: (nat, Ending))
    requires i <= |rounds|
    ensures i <= r.0 <= |rounds|
    decreases |rounds| - i
  {
    if i == |rounds| then (i, Restarting)
    else if !rounds[i].started then (i, NotStarted)
    else if rounds[i].stopped then (i, ShutDown)
    else if !rounds[i].crashed then (i, Exited)
    else if |Counted(TimesOf(rounds), window, i)| > max then (i, GaveUp)
    else if rounds[i].interrupted then (i, ShutDown)
    else Ended(rounds, max, window, i + 1)
  }

  lemma {:induction false} AfterAppend(times: seq<Time>, t: Time, cutoff: Time)
    ensures After(times + [t], cutoff) == After(times, cutoff) + (if t > cutoff then [t] else [])
  {
    assert (times + [t])[..|times|] == times;
  }

  /** Pruning at a later cutoff what was pruned at an earlier one is pruning once. */
  lemma {:induction false} PruneTwice(times: seq<Time>, c: Time, d: Time)
    requires c <= d
    ensures After(After(times, c), d) == After(times, d)
  {
    if times != [] {
      var n := |times| - 1;
      PruneTwice(times[..n], c, d);
      if times[n] > c { AfterAppend(After(times[..n], c), times[n], d); }
      assert times[n] <= c ==> After(times, c) == After(times[..n], c);
    }
  }

  /** A list pruned, extended and pruned again is the whole list pruned once. */
  lemma {:induction false} PruneAppended(times: seq<Time>, t: Time, c: Time, d: Time)
    requires c <= d
    ensures After(After(times, c) + [t], d) == After(times + [t], d)
  {
    AfterAppend(After(times, c), t, d);
    PruneTwice(times, c, d);
    AfterAppend(times, t, d);
  }

  lemma {:induction false} OneMore(times: seq<Time>, i: nat)
    requires i < |times|
    ensures times[..i + 1] == times[..i] + [times[i]]
  {
  }

  /** The list the loop carries is the filter of the whole crash history. */
  lemma {:induction false} PrunedListIsHistory(times: seq<Time>, window: int, i: nat)
    requires Monotone(times) && i + 1 < |times|
    ensures After(Counted(times, window, i) + [times[i + 1]], times[i + 1] - window) == Counted(times, window, i + 1)
  {
    OneMore(times, i + 1);
    PruneAppended(times[..i + 1], times[i + 1], times[i] - window, times[i + 1] - window);
  }

  /** What the policy has counted before the i-th crash. */
  function CountedBefore(times: seq<Time>, window: int, i: nat): seq<Time>
    requires i <= |times|
  {
    if i == 0 then [] else Counted(times, window, i - 1)
  }

  lemma {:induction false} NextCounted(times: seq<Time>, window: int, i: nat)
    requires Monotone(times) && i < |times|
    ensures After(CountedBefore(times, window, i) + [times[i]], times[i] - window) == Counted(times, window, i)
  {
    if i == 0 {
      OneMore(times, 0);
    } else {
      PrunedListIsHistory(times, window, i - 1);
    }
  }

  /** Appends a crash to the list and prunes it in place. */
  method RecordCrash(recent: array<Time>, n: nat, now: Time, window: int) returns (kept: nat)
    requires n < recent.Length
    modifies recent
    ensures kept <= n + 1 && recent[..kept] == After(old(recent[..n]) + [now], now - window)
  {
    recent[n] := now;
    assert recent[..n + 1] == old(recent[..n]) + [now];
    kept := PruneOlderThan(recent, n + 1, now - window);
  }

  /** The supervision loop over the turns it is given. */
  method Supervise(rounds: seq<Round>, max: int, window: int) returns (restarts: nat, ending: Ending)
    requires Monotone(TimesOf(rounds))
    ensures (restarts, ending) == Ended(rounds, max, window, 0)
  {
    ghost var times := TimesOf(rounds);
    var recent := new Time[|rounds|];
    var n: nat := 0;
    restarts := 0;
    while restarts < |rounds|
      invariant restarts <= |rounds| && n <= restarts
      invariant Ended(rounds, max, window, 0) == Ended(rounds, max, window, restarts)
      invariant recent[..n] == CountedBefore(times, window, restarts)
    {
      var round := rounds[restarts];
      if !round.started {
        return restarts, NotStarted;
      }
      if round.stopped {
        return restarts, ShutDown;
      }
      if !round.crashed {
        return restarts, Exited;
      }
      n := RecordCrash(recent, n, round.at, window);
      NextCounted(times, window, restarts);
      if n > max {
        return restarts, GaveUp;
      }
      if round.interrupted {
        return restarts, ShutDown;
      }
      restarts := restarts + 1;
    }
    return restarts, Restarting;
  }

  // ---- The bound -----------------------------------------------------------------------------------

  /** The times in (low, high]. */
  function Within(times: seq<Time>, low: Time, high: Time): seq<Time> {
    if times == [] then []
    else
      var n := |times| - 1;
      Within(times[..n], low, high) + (if low < times[n] <= high then [times[n]] else [])
  }

  lemma {:induction false} RestartsAreCounted(rounds: seq<Round>, max: int, window: int, i: nat, k: nat)
    requires i <= |rounds| && i <= k < Ended(rounds, max, window, i).0
    ensures |Counted(TimesOf(rounds), window, k)| <= max
    decreases |rounds| - i
  {
    if i < k { RestartsAreCounted(rounds, max, window, i + 1, k); }
  }

  lemma {:induction false} NarrowerIsFewer(times: seq<Time>, low: Time, high: Time, cutoff: Time)
    requires cutoff <= low
    ensures |Within(times, low, high)| <= |After(times, cutoff)|
  {
    if times != [] { NarrowerIsFewer(times[..|times| - 1], low, high, cutoff); }
  }

  lemma {:induction false} DropLate(times: seq<Time>, low: Time, high: Time, n: nat)
    requires n <= |times| && forall i :: n <= i < |times| ==> !(low < times[i] <= high)
    ensures Within(times, low, high) == Within(times[..n], low, high)
    decreases |times|
  {
    if n < |times| {
      DropLate(times[..|times| - 1], low, high, n);
      assert times[..|times| - 1][..n] == times[..n];
    } else {
      assert times[..n] == times;
    }
  }

  /** The last of the times that lies in (low, high], or -1. */
  function LastIn(times: seq<Time>, low: Time, high: Time): (k: int)
    ensures -1 <= k < |times|
    ensures k >= 0 ==> low < times[k] <= high
    ensures forall i :: k < i < |times| ==> !(low < times[i] <= high)
  {
    if times == [] then -1
    else
      var n := |times| - 1;
      if low < times[n] <= high then n else LastIn(times[..n], low, high)
  }

  /** A window holds no more of the times than the window that ends with the last of them. */
  lemma {:induction false} LastWindowIsFullest(times: seq<Time>, window: int, end: Time, k: nat)
    requires k < |times| && times[k] <= end && forall i :: k < i < |times| ==> !(end - window < times[i] <= end)
    ensures |Within(times, end - window, end)| <= |After(times[..k + 1], times[k] - window)|
  {
    DropLate(times, end - window, end, k + 1);
    NarrowerIsFewer(times[..k + 1], end - window, end, times[k] - window);
  }

  lemma {:induction false} PrefixOfPrefix(times: seq<Time>, n: nat, k: nat)
    requires k < n <= |times|
    ensures times[..n][..k + 1] == times[..k + 1] && times[..n][k] == times[k]
  {
  }

  /** However the child behaves, no window of the policy's length holds more restarts than it
      allows. */
  lemma {:induction false} WindowBoundsRestarts(rounds: seq<Round>, max: int, window: int, end: Time)
    requires Monotone(TimesOf(rounds)) && window > 0
    ensures var restarts := TimesOf(rounds)[..Ended(rounds, max, window, 0).0];
            |Within(restarts, end - window, end)| <= if max < 0 then 0 else max
  {
    var n := Ended(rounds, max, window, 0).0;
    var restarts := TimesOf(rounds)[..n];
    var k := LastIn(restarts, end - window, end);
    if k < 0 {
      DropLate(restarts, end - window, end, 0);
    } else {
      LastWindowIsFullest(restarts, window, end, k);
      PrefixOfPrefix(TimesOf(rounds), n, k);
      RestartsAreCounted(rounds, max, window, 0, k);
    }
  }

  /** Without a positive window nothing is ever counted, and the loop never gives up. */
  lemma {:induction false} EmptyWindowNeverGivesUp(rounds: seq<Round>, max: int, window: int, i: nat)
    requires Monotone(TimesOf(rounds)) && window <= 0 && max >= 0 && i <= |rounds|
    ensures Ended(rounds, max, window, i).1 != GaveUp
    decreases |rounds| - i
  {
    if i < |rounds| {
      var times := TimesOf(rounds);
      NothingAfter(times[..i + 1], times[i] - window);
      EmptyWindowNeverGivesUp(rounds, max, window, i + 1);
    }
  }

  lemma {:induction false} NothingAfter(times: seq<Time>, cutoff: Time)
    requires forall i :: 0 <= i < |times| ==> times[i] <= cutoff
    ensures After(times, cutoff) == []
  {
    if times != [] { NothingAfter(times[..|times| - 1], cutoff); }
  }
}
