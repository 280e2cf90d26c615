/**
 The in-memory limiter of payment creation: a list of admission times per merchant and
 mode, filtered to the last minute at every call, against the full history of what was
 admitted. The clock never goes back.
 */
module RateLimiter {
  import opened Options
  import opened Counting

  /** Nanoseconds. */
  const MINUTE: int := 60_000_000_000
  const LIMIT: nat := 60

  function Key(merchant: string, mode: string): string {
    merchant + "|" + mode
  }

  /** Distinct merchants and modes never share a list, as no mode contains a bar. */
  lemma KeysAreDistinct(m: string, mode: string, m': string, mode': string)
    requires '|' !in mode && '|' !in mode' && Key(m, mode) == Key(m', mode')
    ensures m == m' && mode == mode'
  {
    var k := Key(m, mode);
    assert k[|m|] == '|' && k[|m'|] == '|';
    assert forall i :: |m| < i < |k| ==> k[i] == mode[i - |m| - 1] && k[i] != '|';
    assert forall i :: |m'| < i < |k| ==> k[i] == mode'[i - |m'| - 1] && k[i] != '|';
    assert k[..|m|] == m && k[..|m'|] == m';
    assert k[|m| + 1..] == mode && k[|m'| + 1..] == mode';
  }

  /** The times after a point, in their order. */
  function After(times: seq<int>, window: int): seq<int> {
    if times == [] then []
    else if times[0] > window then [times[0]] + After(times[1..], window)
    else After(times[1..], window)
  }

  /** What is kept: every entry after the point as often as it is there, and no other. */
  lemma {:induction false} AfterKeepsExactly(times: seq<int>, window: int, x: int)
    ensures multiset(After(times, window))[x] == if x > window then multiset(times)[x] else 0
    decreases |times|
  {
    if times != [] {
      AfterKeepsExactly(times[1..], window, x);
      assert times == [times[0]] + times[1..];
    }
  }

  predicate Ordered(times: seq<int>) {
    forall i, j :: 0 <= i <= j < |times| ==> times[i] <= times[j]
  }

  /** Entries a limit or more apart in the list are a minute or more apart in time. */
  predicate Spaced(times: seq<int>) {
    forall i, j :: 0 <= i < j < |times| && j - i >= LIMIT ==> times[j] - times[i] >= MINUTE
  }

  lemma {:induction false} AfterKeepsAll(times: seq<int>, window: int)
    requires forall i :: 0 <= i < |times| ==> times[i] > window
    ensures After(times, window) == times
    decreases |times|
  {
    if times != [] {
      AfterKeepsAll(times[1..], window);
    }
  }

  /** Dropping entries that are out of the window does not change what is in it. */
  lemma {:induction false} AfterSkips(times: seq<int>, n: nat, window: int)
    requires n <= |times| && forall i :: 0 <= i < n ==> times[i] <= window
    ensures After(times, window) == After(times[n..], window)
    decreases n
  {
    if n > 0 {
      AfterSkips(times[1..], n - 1, window);
      assert times[1..][n - 1..] == times[n..];
    } else {
      assert times[0..] == times;
    }
  }

  /** The entries of an ordered list after a point are a suffix of it, and this is where it starts. */
  lemma {:induction false} FirstAfter(times: seq<int>, window: int) returns (n: nat)
    requires Ordered(times)
    ensures n <= |times| && After(times, window) == times[n..]
    ensures forall i :: 0 <= i < n ==> times[i] <= window
    ensures forall i :: n <= i < |times| ==> times[i] > window
    decreases |times|
  {
    if times == [] {
      n := 0;
    } else if times[0] > window {
      n := 0;
      AfterKeepsAll(times, window);
    } else {
      n := FirstAfter(times[1..], window);
      assert times[1..][n..] == times[n + 1..];
      assert forall i :: 1 <= i < |times| ==> times[i] == times[1..][i - 1];
      n := n + 1;
    }
  }

  /** A stored list against its history: the list is the end of the history, and what it forgot
      was over a minute old when it was forgotten. */
  predicate ListOk(h: seq<int>, s: seq<int>, clock: int) {
    && Ordered(h) && Spaced(h) && (h != [] ==> h[|h| - 1] <= clock)
    && |s| <= |h| && s == h[|h| - |s|..] && |s| <= LIMIT
    && forall i :: 0 <= i < |h| - |s| ==> h[i] <= clock - MINUTE
  }

  lemma WaitKeepsList(h: seq<int>, s: seq<int>, clock: int, now: int)
    requires ListOk(h, s, clock) && now >= clock
    ensures ListOk(h, s, now) && After(h, now - MINUTE) == After(s, now - MINUTE)
  {
    AfterSkips(h, |h| - |s|, now - MINUTE);
  }

  lemma AdmissionKeepsOrder(h: seq<int>, n: nat, now: int)
    requires Ordered(h) && Spaced(h) && (h != [] ==> h[|h| - 1] <= now)
    requires n <= |h| && |h| - n < LIMIT && forall i :: 0 <= i < n ==> h[i] <= now - MINUTE
    ensures Ordered(h + [now]) && Spaced(h + [now])
  {
  }

  lemma AdmissionKeepsList(h: seq<int>, s: seq<int>, clock: int, now: int)
    requires ListOk(h, s, clock) && now >= clock && |After(s, now - MINUTE)| < LIMIT
    ensures ListOk(h + [now], After(s, now - MINUTE) + [now], now)
  {
    WaitKeepsList(h, s, clock, now);
    var n := FirstAfter(h, now - MINUTE);
    AdmissionKeepsOrder(h, n, now);
    hide After, Ordered, Spaced;
    assert (h + [now])[n..] == h[n..] + [now];
  }

  function InWindow(times: seq<int>, from: int): set<int> {
    set i | 0 <= i < |times| && from < times[i] <= from + MINUTE
  }

  /** Every half-open minute, wherever it starts, holds at most the limit. */
  lemma WindowsHoldAtMostTheLimit(times: seq<int>, from: int)
    requires Ordered(times) && Spaced(times)
    ensures |InWindow(times, from)| <= LIMIT
  {
    var lo := FirstAfter(times, from);
    forall i | lo + LIMIT <= i < |times|
      ensures times[i] > from + MINUTE
    {
      assert times[lo] > from && times[i] - times[lo] >= MINUTE;
    }
    var range := RangeFrom(lo, LIMIT);
    PartIsSmaller(InWindow(times, from), range);
  }

  lemma {:induction false} RangeFrom(lo: int, n: nat) returns (r: set<int>)
    ensures |r| == n && forall i :: i in r <==> lo <= i < lo + n
    decreases n
  {
    r := {};
    if n > 0 {
      r := RangeFrom(lo, n - 1);
      r := r + {lo + n - 1};
    }
  }

  function InClosedWindow(times: seq<int>, from: int): set<int> {
    set i | 0 <= i < |times| && from <= times[i] <= from + MINUTE
  }

  /** With both ends included a minute holds at most twice the limit. */
  lemma ClosedWindowsHoldAtMostTwiceTheLimit(times: seq<int>, from: int)
    requires Ordered(times) && Spaced(times)
    ensures |InClosedWindow(times, from)| <= 2 * LIMIT
  {
    WindowsHoldAtMostTheLimit(times, from - 1);
    WindowsHoldAtMostTheLimit(times, from);
    var early, late := InWindow(times, from - 1), InWindow(times, from);
    assert early + late == early + (late - early);
    PartIsSmaller(late - early, late);
    PartIsSmaller(InClosedWindow(times, from), early + late);
  }

  /** Each entry was admitted after those before it. */
  predicate AllAdmitted(times: seq<int>) {
    forall n :: 0 <= n < |times| ==> |After(times[..n], times[n] - MINUTE)| < LIMIT
  }

  /** The histories that can arise are exactly the spaced ones. */
  lemma SpacedExactlyWhenAdmitted(times: seq<int>)
    requires Ordered(times)
    ensures AllAdmitted(times) <==> Spaced(times)
  {
    hide After;
    forall n | 0 <= n < |times|
      ensures |After(times[..n], times[n] - MINUTE)| < LIMIT <==> AMinuteFromThePast(times, n)
    {
      var m := FirstAfter(times[..n], times[n] - MINUTE);
      assert n >= LIMIT ==> times[..n][n - LIMIT] == times[n - LIMIT];
    }
    SpacedByTheLast(times);
    hide Spaced, AMinuteFromThePast;
  }

  predicate AMinuteFromThePast(times: seq<int>, n: nat)
    requires n < |times|
  {
    n >= LIMIT ==> times[n] - times[n - LIMIT] >= MINUTE
  }

  lemma SpacedByTheLast(times: seq<int>)
    requires Ordered(times)
    ensures Spaced(times) <==> forall n :: 0 <= n < |times| ==> AMinuteFromThePast(times, n)
  {
    if forall n :: 0 <= n < |times| ==> AMinuteFromThePast(times, n) {
      forall i, j | 0 <= i < j < |times| && j - i >= LIMIT
        ensures times[j] - times[i] >= MINUTE
      {
        assert AMinuteFromThePast(times, j) && times[i] <= times[j - LIMIT];
      }
    }
  }

  /** As many calls as are let through at one time, and again a minute later. */
  function TwoBursts(): seq<int> {
    seq(LIMIT, i => 0) + seq(LIMIT, i => MINUTE)
  }

  lemma ClosedWindowsCanHoldTwiceTheLimit()
    ensures var h := TwoBursts(); Ordered(h) && AllAdmitted(h) && |InClosedWindow(h, 0)| == 2 * LIMIT
  {
    var h := TwoBursts();
    assert forall i :: 0 <= i < |h| ==> h[i] == if i < LIMIT then 0 else MINUTE;
    SpacedExactlyWhenAdmitted(h);
    var all := RangeFrom(0, 2 * LIMIT);
    assert InClosedWindow(h, 0) == all;
    hide AllAdmitted;
  }

  function Get(lists: map<string, seq<int>>, key: string): seq<int> {
    if key in lists then lists[key] else []
  }

  ghost predicate ListsOk(history: map<string, seq<int>>, stored: map<string, seq<int>>, clock: int) {
    forall key :: ListOk(Get(history, key), Get(stored, key), clock)
  }

  lemma WaitKeepsLists(history: map<string, seq<int>>, stored: map<string, seq<int>>, clock: int, now: int)
    requires ListsOk(history, stored, clock) && now >= clock
    ensures ListsOk(history, stored, now)
  {
    forall key
      ensures ListOk(Get(history, key), Get(stored, key), now)
    {
      WaitKeepsList(Get(history, key), Get(stored, key), clock, now);
    }
  }

  /** An admission under one key: its two lists grow, the others keep. */
  lemma AdmissionKeepsLists(history: map<string, seq<int>>, stored: map<string, seq<int>>, key: string, h: seq<int>, s: seq<int>, now: int)
    requires ListsOk(history, stored, now) && ListOk(h, s, now)
    ensures ListsOk(history[key := h], stored[key := s], now)
  {
    var histories, lists := history[key := h], stored[key := s];
    forall other
      ensures ListOk(Get(histories, other), Get(lists, other), now)
    {
      assert ListOk(Get(history, other), Get(stored, other), now);
    }
  }

  lemma OneList(history: map<string, seq<int>>, stored: map<string, seq<int>>, clock: int, key: string)
    requires ListsOk(history, stored, clock)
    ensures ListOk(Get(history, key), Get(stored, key), clock) && |Get(stored, key)| <= LIMIT
  {
  }

  class Limiter {
    var rateMap: map<string, seq<int>>
    ghost var history: map<string, seq<int>>    // every admission there ever was
    ghost var clock: int

    ghost predicate Valid()
      reads this
    {
      ListsOk(history, rateMap, clock)
    }

    constructor (start: int)
      ensures Valid() && rateMap == map[] && history == map[] && clock == start
    {
      rateMap, history, clock := map[], map[], start;
    }

    /** A call is admitted exactly when fewer than 60 were in the last minute of the whole history of
        its merchant and mode; an admission extends that history and touches no other. */
    method CheckRateLimit(merchant: string, mode: string, now: int) returns (admitted: bool)
      requires Valid() && now >= clock
      modifies this
      ensures Valid() && clock == now
      ensures var key := Key(merchant, mode);
              && (admitted <==> |After(Get(old(history), key), now - MINUTE)| < LIMIT)
              && history == (if admitted then old(history)[key := Get(old(history), key) + [now]] else old(history))
              && |Get(rateMap, key)| <= LIMIT
    {
      hide ListOk, ListsOk, Key, After;
      var key := Key(merchant, mode);
      var window := now - MINUTE;
      var stored := if key in rateMap then rateMap[key] else [];
      ghost var h := Get(history, key);
      OneList(history, rateMap, clock, key);
      WaitKeepsList(h, stored, clock, now);
      WaitKeepsLists(history, rateMap, clock, now);
      var kept := Filter(stored, window);
      if |kept| >= LIMIT {
        clock := now;
        return false;
      }
      AdmissionKeepsList(h, stored, clock, now);
      AdmissionKeepsLists(history, rateMap, key, h + [now], kept + [now], now);
      rateMap := rateMap[key := kept + [now]];
      history := history[key := h + [now]];
      clock := now;
      return true;
    }

    method Filter(stored: seq<int>, window: int) returns (kept: seq<int>)
      ensures kept == After(stored, window)
    {
      kept := [];
      var k := 0;
      while k < |stored|
        invariant 0 <= k <= |stored|
        invariant After(stored, window) == kept + After(stored[k..], window)
      {
        assert stored[k..][1..] == stored[k + 1..];
        if stored[k] > window {
          kept := kept + [stored[k]];
        }
        k := k + 1;
      }
    }
  }
}
