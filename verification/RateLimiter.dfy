/** The fixed-window connection rate limiter. */
module RateLimiters {
  const SEC_TO_MS := 1000

  /** Times and the window are in milliseconds. */
  datatype Limiter = Limiter(limit: nat, window: nat, lastTime: int, count: nat)

  function New(limit: nat, now: int): Limiter {
    Limiter(limit, SEC_TO_MS, now, 0)
  }

  function Allow(l: Limiter, now: int): (bool, Limiter) {
    var l := if now - l.lastTime >= l.window then l.(lastTime := now, count := 0) else l;
    if l.count >= l.limit then (false, l) else (true, l.(count := l.count + 1))
  }

  class FixedWindowConnectionRateLimiter {
    const limit: nat
    const window: nat
    var lastTime: int
    var count: nat

    constructor (limit: nat, windowInSec: nat, now: int)
      ensures State() == Limiter(limit, windowInSec * SEC_TO_MS, now, 0)
    {
      this.limit, window := limit, windowInSec * SEC_TO_MS;
      lastTime, count := now, 0;
    }

    ghost function State(): Limiter
      reads this
    {
      Limiter(limit, window, lastTime, count)
    }

    method AllowNewConnection(now: int) returns (allowed: bool)
      modifies this
      ensures (allowed, State()) == Allow(old(State()), now)
    {
      if now - lastTime >= window {
        lastTime := now;
        count := 0;
      }
      if count >= limit {
        return false;
      }
      count := count + 1;
      return true;
    }
  }

  // ---- Runs of calls ----

  /** The clock does not go back, and the limiter was made before the first call. */
  predicate Monotone(l: Limiter, times: seq<int>) {
    && (forall i :: 0 <= i < |times| ==> l.lastTime <= times[i])
    && (forall i, j :: 0 <= i < j < |times| ==> times[i] <= times[j])
  }

  /** The limiter after the first n calls. */
  function After(l: Limiter, times: seq<int>, n: nat): Limiter
    requires n <= |times|
  {
    if n == 0 then l else Allow(After(l, times, n - 1), times[n - 1]).1
  }

  predicate Allowed(l: Limiter, times: seq<int>, i: nat)
    requires i < |times|
  {
    Allow(After(l, times, i), times[i]).0
  }

  /** How many of the first n calls are allowed at a time from `start` up to but not including `end`. */
  function AllowedIn(l: Limiter, times: seq<int>, n: nat, start: int, end: int): nat
    requires n <= |times|
  {
    if n == 0 then 0
    else
      AllowedIn(l, times, n - 1, start, end) +
      if Allowed(l, times, n - 1) && start <= times[n - 1] < end then 1 else 0
  }

  lemma {:induction false} AfterKeeps(l: Limiter, times: seq<int>, n: nat)
    requires n <= |times| && Monotone(l, times) && l.count <= l.limit
    ensures var s := After(l, times, n);
            && s.limit == l.limit && s.window == l.window && s.count <= l.limit
            && (n == 0 ==> s == l)
            && (n > 0 ==> s.lastTime <= times[n - 1] < s.lastTime + l.window || l.window == 0)
            && (n > 0 ==> s.lastTime <= times[n - 1])
  {
    if n > 0 {
      AfterKeeps(l, times, n - 1);
      assert n > 1 ==> times[n - 2] <= times[n - 1];
    }
  }

  lemma {:induction false} NoneTooEarly(l: Limiter, times: seq<int>, n: nat, start: int, end: int)
    requires n <= |times| && forall i :: 0 <= i < n ==> times[i] < start
    ensures AllowedIn(l, times, n, start, end) == 0
  {
    if n > 0 {
      NoneTooEarly(l, times, n - 1, start, end);
    }
  }

  lemma LastCall(l: Limiter, times: seq<int>, n: nat, start: int, end: int)
    requires 0 < n <= |times|
    ensures var (allowed, next) := Allow(After(l, times, n - 1), times[n - 1]);
            && After(l, times, n) == next
            && AllowedIn(l, times, n, start, end) ==
               AllowedIn(l, times, n - 1, start, end) + if allowed && start <= times[n - 1] < end then 1 else 0
  {
  }

  /** Everything allowed since `start` fits the present window and j full ones before it. */
  lemma {:induction false} WindowsBefore(l: Limiter, times: seq<int>, n: nat, start: int, end: int, j: nat)
    requires n <= |times| && Monotone(l, times) && l.count <= l.limit && l.window > 0
    requires After(l, times, n).lastTime < start + Times(j, l.window)
    ensures AllowedIn(l, times, n, start, end) <= After(l, times, n).count + Times(j, l.limit)
  {
    if n > 0 {
      var before, t := After(l, times, n - 1), times[n - 1];
      AfterKeeps(l, times, n - 1);
      LastCall(l, times, n, start, end);
      hide After, AllowedIn, Allowed, Monotone;
      if t - before.lastTime < before.window {
        WindowsBefore(l, times, n - 1, start, end, j);
      } else if j > 0 {
        WindowsBefore(l, times, n - 1, start, end, j - 1);
      } else {
        assert t < start;
        AllBefore(l, times, n, start);
        NoneTooEarly(l, times, n, start, end);
      }
    }
  }

  lemma AllBefore(l: Limiter, times: seq<int>, n: nat, start: int)
    requires 0 < n <= |times| && Monotone(l, times) && times[n - 1] < start
    ensures forall i :: 0 <= i < n ==> times[i] < start
  {
    forall i | 0 <= i < n ensures times[i] < start {
      assert i < n - 1 ==> times[i] <= times[n - 1];
    }
  }

  function Times(j: nat, w: nat): nat {
    if j == 0 then 0 else Times(j - 1, w) + w
  }

  lemma {:induction false} TimesMultiplies(j: nat, w: nat)
    ensures Times(j, w) == j * w
  {
    if j > 0 {
      TimesMultiplies(j - 1, w);
    }
  }

  /** In any k windows' time, wherever it begins, no more than k + 1 times the limit is allowed. */
  lemma {:induction false} SlidingBound(l: Limiter, times: seq<int>, n: nat, start: int, k: nat)
    requires n <= |times| && Monotone(l, times) && l.count <= l.limit && l.window > 0
    ensures AllowedIn(l, times, n, start, start + k * l.window) <= (k + 1) * l.limit
  {
    var end := start + k * l.window;
    TimesMultiplies(k, l.window);
    TimesMultiplies(k + 1, l.limit);
    hide AllowedIn, After, Allowed;
    if n == 0 {
      NoneTooEarly(l, times, n, start, end);
    } else if times[n - 1] < end {
      AfterKeeps(l, times, n);
      WindowsBefore(l, times, n, start, end, k);
    } else {
      LastCall(l, times, n, start, end);
      SlidingBound(l, times, n - 1, start, k);
    }
  }

  lemma {:induction false} LaterStartCountsLess(l: Limiter, times: seq<int>, n: nat, start: int, later: int, end: int)
    requires n <= |times| && start <= later
    ensures AllowedIn(l, times, n, start, end) >= AllowedIn(l, times, n, later, end)
  {
    if n > 0 {
      LaterStartCountsLess(l, times, n - 1, start, later, end);
    }
  }

  /** The count is owed to calls allowed since the window began. */
  lemma {:induction false} CountIsOwed(l: Limiter, times: seq<int>, n: nat, end: int)
    requires n <= |times| && Monotone(l, times) && l.count == 0
    requires forall i :: 0 <= i < n ==> times[i] < end
    ensures AllowedIn(l, times, n, After(l, times, n).lastTime, end) >= After(l, times, n).count
  {
    if n > 0 {
      AfterKeeps(l, times, n - 1);
      AfterKeeps(l, times, n);
      CountIsOwed(l, times, n - 1, end);
    }
  }

  lemma Refuses(l: Limiter, now: int)
    requires !Allow(l, now).0 && l.limit > 0
    ensures l.count >= l.limit && now - l.lastTime < l.window
  {
  }

  /** A call is refused only when the limit was already used up within the last window's length. */
  lemma RefusedOnlyWhenFull(l: Limiter, times: seq<int>, i: nat)
    requires i < |times| && Monotone(l, times) && l.count == 0 && l.window > 0
    requires !Allowed(l, times, i) && l.limit > 0
    ensures AllowedIn(l, times, i, times[i] - l.window + 1, times[i] + 1) >= l.limit
  {
    var s := After(l, times, i);
    AfterKeeps(l, times, i);
    Refuses(s, times[i]);
    AllBefore(l, times, i + 1, times[i] + 1);
    hide After, AllowedIn, Allowed, Allow, Monotone;
    CountIsOwed(l, times, i, times[i] + 1);
    LaterStartCountsLess(l, times, i, times[i] - l.window + 1, s.lastTime, times[i] + 1);
  }
}
