/** Fixed-window rate limiting: the runner's limiter, which forgets stale windows, and the server's
    login limiter, which forgets nothing. */
module RateLimit {
  import opened Wire

  // ---------------------------------------------------------------------------------------------
  // The limiters

  /** Spans and instants in nanoseconds of a monotonic clock. */
  const NANOS_PER_SECOND: nat := 1_000_000_000
  const MAX_DURATION: nat := 0xFFFF_FFFF_FFFF_FFFF * NANOS_PER_SECOND + 999_999_999
  const LOGIN_WINDOW: nat := 60 * NANOS_PER_SECOND

  datatype RateWindow = RateWindow(startedAt: Time, count: nat)

  type Windows = map<string, RateWindow>

  /** How old a window may get before it is dropped; doubling may not fit a duration. */
  function StaleWindow(window: nat): (age: nat)
    ensures window <= MAX_DURATION ==> window <= age <= MAX_DURATION
    ensures age == 2 * window || MAX_DURATION < 2 * window
  {
    if 2 * window <= MAX_DURATION then 2 * window else window
  }

  function Pruned(ws: Windows, now: Time, maxAge: nat): Windows {
    map k | k in ws && now - ws[k].startedAt < maxAge :: ws[k]
  }

  /** The window an attempt is counted in: its key's own, or a new one when there is none or it is over. */
  function Current(ws: Windows, key: string, window: nat, now: Time): RateWindow {
    if key in ws && now - ws[key].startedAt < window then ws[key] else RateWindow(now, 0)
  }

  predicate Allows(ws: Windows, key: string, limit: nat, window: nat, now: Time) {
    Current(ws, key, window, now).count < limit
  }

  function Counted(ws: Windows, key: string, limit: nat, window: nat, now: Time): Windows {
    var current := Current(ws, key, window, now);
    ws[key := if current.count < limit then current.(count := current.count + 1) else current]
  }

  class RateLimiter {
    var windows: Windows

    constructor ()
      ensures windows == map[]
    {
      windows := map[];
    }

    method PruneExpiredWindows(now: Time, maxAge: nat)
      modifies this
      ensures windows == Pruned(old(windows), now, maxAge)
    {
      var keys := windows.Keys;
      while keys != {}
        invariant keys <= old(windows).Keys
        invariant windows == map k | k in old(windows) && (k in keys || now - old(windows)[k].startedAt < maxAge) :: old(windows)[k]
        decreases |keys|
      {
        var k :| k in keys;
        if maxAge <= now - windows[k].startedAt {
          windows := windows - {k};
        }
        keys := keys - {k};
      }
    }

    method Check(scope: string, tokenName: string, limit: nat, window: nat, now: Time) returns (allowed: bool)
      modifies this
      ensures
        var key, kept := scope + ":" + tokenName, Pruned(old(windows), now, StaleWindow(window));
        allowed == Allows(kept, key, limit, window, now) && windows == Counted(kept, key, limit, window, now)
    {
      var key := scope + ":" + tokenName;
      PruneExpiredWindows(now, StaleWindow(window));
      ghost var kept := windows;
      if key !in windows {
        windows := windows[key := RateWindow(now, 0)];
      }
      if window <= now - windows[key].startedAt {
        windows := windows[key := RateWindow(now, 0)];
      }
      if limit <= windows[key].count {
        assert windows == kept[key := windows[key]];
        return false;
      }
      windows := windows[key := windows[key].(count := windows[key].count + 1)];
      assert windows == kept[key := windows[key]];
      allowed := true;
    }
  }

  class LoginLimiter {
    const limitPerMinute: nat
    var attempts: Windows

    constructor (limitPerMinute: nat)
      ensures this.limitPerMinute == limitPerMinute && attempts == map[]
    {
      this.limitPerMinute, this.attempts := limitPerMinute, map[];
    }

    method AllowLoginAttempt(username: string, now: Time) returns (allowed: bool)
      modifies this
      ensures allowed == Allows(old(attempts), username, limitPerMinute, LOGIN_WINDOW, now)
      ensures attempts == Counted(old(attempts), username, limitPerMinute, LOGIN_WINDOW, now)
    {
      if username !in attempts {
        attempts := attempts[username := RateWindow(now, 0)];
      }
      if LOGIN_WINDOW <= now - attempts[username].startedAt {
        attempts := attempts[username := RateWindow(now, 0)];
      }
      if limitPerMinute <= attempts[username].count {
        assert attempts == old(attempts)[username := attempts[username]];
        return false;
      }
      attempts := attempts[username := attempts[username].(count := attempts[username].count + 1)];
      assert attempts == old(attempts)[username := attempts[username]];
      allowed := true;
    }
  }

  // ---------------------------------------------------------------------------------------------
  // Histories

  datatype Attempt = Attempt(key: string, limit: nat, now: Time)

  /** Calls reach the windows in the order of their clock readings. The login limiter reads the clock under
      its lock; the runner's limiter reads it before, so for concurrent calls to that one this is an
      assumption. */
  predicate Ordered(attempts: seq<Attempt>) {
    forall i, j :: 0 <= i < j < |attempts| ==> attempts[i].now <= attempts[j].now
  }

  /** The windows after a history, with every window kept, and with stale ones dropped. */
  function WindowsAfter(window: nat, attempts: seq<Attempt>): Windows {
    if attempts == [] then map[]
    else
      var a := attempts[|attempts| - 1];
      Counted(WindowsAfter(window, attempts[..|attempts| - 1]), a.key, a.limit, window, a.now)
  }

  function PrunedWindowsAfter(window: nat, attempts: seq<Attempt>): Windows {
    if attempts == [] then map[]
    else
      var a := attempts[|attempts| - 1];
      Counted(Pruned(PrunedWindowsAfter(window, attempts[..|attempts| - 1]), a.now, StaleWindow(window)),
              a.key, a.limit, window, a.now)
  }

  predicate Allowed(window: nat, attempts: seq<Attempt>, i: nat)
    requires i < |attempts|
  {
    Allows(WindowsAfter(window, attempts[..i]), attempts[i].key, attempts[i].limit, window, attempts[i].now)
  }

  predicate PrunedAllowed(window: nat, attempts: seq<Attempt>, i: nat)
    requires i < |attempts|
  {
    Allows(Pruned(PrunedWindowsAfter(window, attempts[..i]), attempts[i].now, StaleWindow(window)),
           attempts[i].key, attempts[i].limit, window, attempts[i].now)
  }

  // ---------------------------------------------------------------------------------------------
  // Pruning is invisible

  /** `p` holds what `u` holds, but for windows already over at `now`. */
  predicate OnlyOverDropped(window: nat, u: Windows, p: Windows, now: Time) {
    && (forall k :: k in p ==> k in u && p[k] == u[k])
    && (forall k :: k in u && k !in p ==> window <= now - u[k].startedAt)
  }

  lemma PruningDropsOnlyOver(window: nat, u: Windows, p: Windows, now: Time)
    requires OnlyOverDropped(window, u, p, now)
    ensures OnlyOverDropped(window, u, Pruned(p, now, StaleWindow(window)), now)
  {
  }

  lemma SameWindowCounts(window: nat, u: Windows, p: Windows, key: string, limit: nat, now: Time)
    requires OnlyOverDropped(window, u, p, now)
    ensures Current(p, key, window, now) == Current(u, key, window, now)
    ensures OnlyOverDropped(window, Counted(u, key, limit, window, now), Counted(p, key, limit, window, now), now)
  {
  }

  lemma {:induction false} HistoriesAgree(window: nat, attempts: seq<Attempt>, now: Time)
    requires Ordered(attempts) && forall i :: 0 <= i < |attempts| ==> attempts[i].now <= now
    ensures OnlyOverDropped(window, WindowsAfter(window, attempts), PrunedWindowsAfter(window, attempts), now)
  {
    if attempts != [] {
      var n := |attempts| - 1;
      var a := attempts[n];
      HistoriesAgree(window, attempts[..n], a.now);
      var u, p := WindowsAfter(window, attempts[..n]), PrunedWindowsAfter(window, attempts[..n]);
      PruningDropsOnlyOver(window, u, p, a.now);
      SameWindowCounts(window, u, Pruned(p, a.now, StaleWindow(window)), a.key, a.limit, a.now);
    }
  }

  /** Dropping stale windows changes no decision, in any history over one window length, and also when
      twice the length does not fit a duration. */
  lemma PruningIsInvisible(window: nat, attempts: seq<Attempt>, i: nat)
    requires Ordered(attempts) && i < |attempts|
    ensures PrunedAllowed(window, attempts, i) == Allowed(window, attempts, i)
  {
    var a := attempts[i];
    HistoriesAgree(window, attempts[..i], a.now);
    var u, p := WindowsAfter(window, attempts[..i]), PrunedWindowsAfter(window, attempts[..i]);
    PruningDropsOnlyOver(window, u, p, a.now);
    SameWindowCounts(window, u, Pruned(p, a.now, StaleWindow(window)), a.key, a.limit, a.now);
  }

  // ---------------------------------------------------------------------------------------------
  // How much gets through

  /** The attempts under one key and one limit let through at instants from `lo` up to, not including, `hi`. */
  function AllowedIn(window: nat, attempts: seq<Attempt>, key: string, lo: Time, hi: Time): nat {
    if attempts == [] then 0
    else
      var n := |attempts| - 1;
      AllowedIn(window, attempts[..n], key, lo, hi)
      + if attempts[n].key == key && lo <= attempts[n].now < hi && Allowed(window, attempts, n) then 1 else 0
  }

  /** The attempts let through in the period that started at `start`. */
  function AllowedInPeriod(window: nat, attempts: seq<Attempt>, key: string, start: Time): nat {
    if attempts == [] then 0
    else
      var n := |attempts| - 1;
      AllowedInPeriod(window, attempts[..n], key, start)
      + if attempts[n].key == key && Allowed(window, attempts, n)
           && Current(WindowsAfter(window, attempts[..n]), key, window, attempts[n].now).startedAt == start then 1 else 0
  }

  predicate OneLimit(attempts: seq<Attempt>, key: string, limit: nat) {
    forall i :: 0 <= i < |attempts| && attempts[i].key == key ==> attempts[i].limit == limit
  }

  lemma {:induction false} AllowedInSplits(window: nat, attempts: seq<Attempt>, key: string, lo: Time, mid: Time, hi: Time)
    requires lo <= mid <= hi
    ensures AllowedIn(window, attempts, key, lo, hi) ==
              AllowedIn(window, attempts, key, lo, mid) + AllowedIn(window, attempts, key, mid, hi)
  {
    if attempts != [] {
      AllowedInSplits(window, attempts[..|attempts| - 1], key, lo, mid, hi);
    }
  }

  lemma {:induction false} AllowedInNothing(window: nat, attempts: seq<Attempt>, key: string, lo: Time, hi: Time)
    requires hi <= lo
    ensures AllowedIn(window, attempts, key, lo, hi) == 0
  {
    if attempts != [] {
      AllowedInNothing(window, attempts[..|attempts| - 1], key, lo, hi);
    }
  }

  /** A key no attempt has named has had nothing let through. */
  lemma {:induction false} AllowedUnseen(window: nat, attempts: seq<Attempt>, key: string, lo: Time, hi: Time)
    requires key !in WindowsAfter(window, attempts)
    ensures AllowedIn(window, attempts, key, lo, hi) == 0
  {
    if attempts != [] {
      AllowedUnseen(window, attempts[..|attempts| - 1], key, lo, hi);
    }
  }

  /** Where a key's window stands after a history: nothing was let through before it that is not
      already within bounds, and what was let through since is what it counts. */
  predicate Standing(window: nat, limit: nat, attempts: seq<Attempt>, key: string, t: Time, hi: Time)
    requires key in WindowsAfter(window, attempts)
  {
    var w := WindowsAfter(window, attempts)[key];
    && w.count <= limit && (0 < limit ==> 0 < w.count)
    && AllowedIn(window, attempts, key, w.startedAt, hi) <= w.count
    && AllowedIn(window, attempts, key, w.startedAt + 1, hi) <= (if w.count == 0 then 0 else w.count - 1)
    && AllowedIn(window, attempts, key, w.startedAt + window, hi) == 0
    && (t + window <= w.startedAt ==> AllowedIn(window, attempts, key, t, t + window) <= Burst(limit))
    && (t <= w.startedAt < t + window ==> AllowedIn(window, attempts, key, t, w.startedAt) <= (if limit == 0 then 0 else limit - 1))
  }

  /** The most one window length can let through. */
  function Burst(limit: nat): nat {
    if limit == 0 then 0 else 2 * limit - 1
  }

  lemma StandingBounds(window: nat, limit: nat, attempts: seq<Attempt>, key: string, t: Time)
    requires 0 < window && key in WindowsAfter(window, attempts) && Standing(window, limit, attempts, key, t, t + window)
    ensures AllowedIn(window, attempts, key, t, t + window) <= Burst(limit)
  {
    var s := WindowsAfter(window, attempts)[key].startedAt;
    if t <= s < t + window {
      AllowedInSplits(window, attempts, key, t, s, t + window);
    } else if s < t {
      AllowedInSplits(window, attempts, key, s + 1, t, t + window);
    }
  }

  lemma OneMore(window: nat, before: seq<Attempt>, a: Attempt, key: string, lo: Time, hi: Time)
    ensures
      var allowed := Allows(WindowsAfter(window, before), a.key, a.limit, window, a.now);
      && WindowsAfter(window, before + [a]) == Counted(WindowsAfter(window, before), a.key, a.limit, window, a.now)
      && AllowedIn(window, before + [a], key, lo, hi) ==
           AllowedIn(window, before, key, lo, hi) + if a.key == key && lo <= a.now < hi && allowed then 1 else 0
  {
    assert (before + [a])[..|before|] == before;
  }

  /** An attempt that opens a new period, after a history that stands. */
  lemma NewPeriod(window: nat, limit: nat, before: seq<Attempt>, a: Attempt, t: Time, hi: Time)
    requires 0 < window && a.limit == limit && a.key in WindowsAfter(window, before)
    requires window <= a.now - WindowsAfter(window, before)[a.key].startedAt
    requires Standing(window, limit, before, a.key, t, hi)
    requires Standing(window, limit, before, a.key, t, t + window)
    requires Standing(window, limit, before, a.key, t, a.now)
    ensures Standing(window, limit, before + [a], a.key, t, hi)
  {
    hide AllowedIn, WindowsAfter, Burst;
    var s := WindowsAfter(window, before)[a.key].startedAt;
    OneMore(window, before, a, a.key, a.now, hi);
    OneMore(window, before, a, a.key, a.now + 1, hi);
    OneMore(window, before, a, a.key, a.now + window, hi);
    OneMore(window, before, a, a.key, t, t + window);
    OneMore(window, before, a, a.key, t, a.now);
    NothingSince(window, before, a.key, s + window, a.now, hi);
    NothingSince(window, before, a.key, s + window, a.now + 1, hi);
    NothingSince(window, before, a.key, s + window, a.now + window, hi);
    StandingBounds(window, limit, before, a.key, t);
    if t <= a.now < t + window {
      AllowedInSplits(window, before, a.key, s + 1, t, a.now);
    }
  }

  lemma NothingSince(window: nat, attempts: seq<Attempt>, key: string, lo: Time, later: Time, hi: Time)
    requires lo <= later && AllowedIn(window, attempts, key, lo, hi) == 0
    ensures AllowedIn(window, attempts, key, later, hi) == 0
  {
    if later <= hi {
      AllowedInSplits(window, attempts, key, lo, later, hi);
    } else {
      AllowedInNothing(window, attempts, key, later, hi);
    }
  }

  /** The first attempt under a key. */
  lemma FirstPeriod(window: nat, limit: nat, before: seq<Attempt>, a: Attempt, t: Time, hi: Time)
    requires 0 < window && a.limit == limit && a.key !in WindowsAfter(window, before)
    ensures Standing(window, limit, before + [a], a.key, t, hi)
  {
    hide AllowedIn, WindowsAfter;
    OneMore(window, before, a, a.key, a.now, hi);
    OneMore(window, before, a, a.key, a.now + 1, hi);
    OneMore(window, before, a, a.key, a.now + window, hi);
    OneMore(window, before, a, a.key, t, t + window);
    OneMore(window, before, a, a.key, t, a.now);
    AllowedUnseen(window, before, a.key, a.now, hi);
    AllowedUnseen(window, before, a.key, a.now + 1, hi);
    AllowedUnseen(window, before, a.key, a.now + window, hi);
    AllowedUnseen(window, before, a.key, t, t + window);
    AllowedUnseen(window, before, a.key, t, a.now);
  }

  /** An attempt within the running period, or under another key. */
  lemma SamePeriod(window: nat, limit: nat, before: seq<Attempt>, a: Attempt, key: string, t: Time, hi: Time)
    requires 0 < window && (a.key == key ==> a.limit == limit) && key in WindowsAfter(window, before)
    requires a.key == key ==> 0 <= a.now - WindowsAfter(window, before)[key].startedAt < window
    requires Standing(window, limit, before, key, t, hi)
    ensures Standing(window, limit, before + [a], key, t, hi)
  {
    hide AllowedIn, WindowsAfter, Burst;
    var s := WindowsAfter(window, before)[key].startedAt;
    OneMore(window, before, a, key, s, hi);
    OneMore(window, before, a, key, s + 1, hi);
    OneMore(window, before, a, key, s + window, hi);
    OneMore(window, before, a, key, t, t + window);
    OneMore(window, before, a, key, t, s);
  }

  lemma {:induction false} StandingHolds(window: nat, limit: nat, attempts: seq<Attempt>, key: string, t: Time, hi: Time)
    requires 0 < window && Ordered(attempts) && OneLimit(attempts, key, limit) && key in WindowsAfter(window, attempts)
    ensures Standing(window, limit, attempts, key, t, hi)
    ensures WindowsAfter(window, attempts)[key].startedAt <= attempts[|attempts| - 1].now
  {
    hide Standing;
    var n := |attempts| - 1;
    var before, a := attempts[..n], attempts[n];
    assert attempts == before + [a];
    var ws := WindowsAfter(window, before);
    if key !in ws {
      FirstPeriod(window, limit, before, a, t, hi);
    } else {
      StandingHolds(window, limit, before, key, t, hi);
      if a.key == key && window <= a.now - ws[key].startedAt {
        StandingHolds(window, limit, before, key, t, t + window);
        StandingHolds(window, limit, before, key, t, a.now);
        NewPeriod(window, limit, before, a, t, hi);
      } else {
        SamePeriod(window, limit, before, a, key, t, hi);
      }
    }
  }

  /** No stretch of one window length, wherever it starts, lets through more than one less than twice
      the limit. */
  lemma SlidingWindowBound(window: nat, limit: nat, attempts: seq<Attempt>, key: string, t: Time)
    requires 0 < window && Ordered(attempts) && OneLimit(attempts, key, limit)
    ensures AllowedIn(window, attempts, key, t, t + window) <= if limit == 0 then 0 else 2 * limit - 1
  {
    hide Standing;
    if key in WindowsAfter(window, attempts) {
      StandingHolds(window, limit, attempts, key, t, t + window);
      StandingBounds(window, limit, attempts, key, t);
    } else {
      AllowedUnseen(window, attempts, key, t, t + window);
    }
  }

  /** No period lets through more than the limit, and the running one has let through what it counts. */
  lemma {:induction false} PeriodBound(window: nat, limit: nat, attempts: seq<Attempt>, key: string, start: Time)
    requires 0 < window && Ordered(attempts) && OneLimit(attempts, key, limit)
    ensures AllowedInPeriod(window, attempts, key, start) <= limit
    ensures
      var ws := WindowsAfter(window, attempts);
      if key !in ws || ws[key].startedAt < start then AllowedInPeriod(window, attempts, key, start) == 0
      else ws[key].count <= limit && (ws[key].startedAt == start ==> AllowedInPeriod(window, attempts, key, start) == ws[key].count)
  {
    if attempts != [] {
      PeriodBound(window, limit, attempts[..|attempts| - 1], key, start);
    }
  }

  lemma {:induction false} StartedBefore(window: nat, attempts: seq<Attempt>, key: string)
    requires Ordered(attempts) && key in WindowsAfter(window, attempts)
    ensures WindowsAfter(window, attempts)[key].startedAt <= attempts[|attempts| - 1].now
  {
    var before := attempts[..|attempts| - 1];
    if key in WindowsAfter(window, before) {
      StartedBefore(window, before, key);
    }
  }

  /** What a period has let through, it has let through since it started. */
  lemma {:induction false} PeriodIsSinceStart(window: nat, attempts: seq<Attempt>, key: string, start: Time, hi: Time)
    requires Ordered(attempts) && forall i :: 0 <= i < |attempts| ==> attempts[i].now < hi
    ensures AllowedInPeriod(window, attempts, key, start) <= AllowedIn(window, attempts, key, start, hi)
  {
    if attempts != [] {
      var n := |attempts| - 1;
      PeriodIsSinceStart(window, attempts[..n], key, start, hi);
      if key in WindowsAfter(window, attempts[..n]) {
        StartedBefore(window, attempts[..n], key);
      }
    }
  }

  /** An attempt is let through exactly when the period it falls in has not let through the limit. */
  lemma AllowedExactlyWhen(window: nat, limit: nat, attempts: seq<Attempt>, i: nat)
    requires 0 < window && Ordered(attempts) && i < |attempts| && OneLimit(attempts, attempts[i].key, limit)
    ensures
      var before, a := attempts[..i], attempts[i];
      var start := Current(WindowsAfter(window, before), a.key, window, a.now).startedAt;
      Allowed(window, attempts, i) <==> AllowedInPeriod(window, before, a.key, start) < limit
  {
    var before, a := attempts[..i], attempts[i];
    var start := Current(WindowsAfter(window, before), a.key, window, a.now).startedAt;
    PeriodBound(window, limit, before, a.key, start);
  }

  /** So nobody is refused who has not had the limit within the last window length. */
  lemma RefusedOnlyWhenFull(window: nat, limit: nat, attempts: seq<Attempt>, i: nat)
    requires 0 < window && Ordered(attempts) && i < |attempts| && OneLimit(attempts, attempts[i].key, limit)
    requires !Allowed(window, attempts, i)
    ensures
      var a := attempts[i];
      limit <= AllowedIn(window, attempts[..i], a.key, a.now - window + 1, a.now + 1)
  {
    var before, a := attempts[..i], attempts[i];
    var start := Current(WindowsAfter(window, before), a.key, window, a.now).startedAt;
    AllowedExactlyWhen(window, limit, attempts, i);
    PeriodIsSinceStart(window, before, a.key, start, a.now + 1);
    if a.key in WindowsAfter(window, before) {
      StartedBefore(window, before, a.key);
    }
    AllowedInSplits(window, before, a.key, a.now - window + 1, start, a.now + 1);
  }

  // ---------------------------------------------------------------------------------------------
  // The bound is met

  function Repeated(a: Attempt, times: nat): (attempts: seq<Attempt>)
    ensures |attempts| == times && forall i :: 0 <= i < times ==> attempts[i] == a
  {
    seq(times, _ => a)
  }

  /** Attempts within the running period and its limit are all let through. */
  lemma {:induction false} RepeatedAllowed(window: nat, before: seq<Attempt>, a: Attempt, times: nat, lo: Time, hi: Time)
    requires lo <= a.now < hi && 0 < window
    requires
      var current := Current(WindowsAfter(window, before), a.key, window, a.now);
      a.now - current.startedAt < window && current.count + times <= a.limit
    ensures
      var attempts, current := before + Repeated(a, times), Current(WindowsAfter(window, before), a.key, window, a.now);
      && AllowedIn(window, attempts, a.key, lo, hi) == AllowedIn(window, before, a.key, lo, hi) + times
      && (0 < times ==> WindowsAfter(window, attempts) ==
                          WindowsAfter(window, before)[a.key := current.(count := current.count + times)])
    decreases times
  {
    hide AllowedIn, WindowsAfter;
    if times == 0 {
      assert before + Repeated(a, 0) == before;
    } else {
      RepeatedAllowed(window, before, a, times - 1, lo, hi);
      var shorter := before + Repeated(a, times - 1);
      assert before + Repeated(a, times) == shorter + [a];
      if times == 1 {
        assert shorter == before;
      }
      OneMore(window, shorter, a, a.key, lo, hi);
    }
  }

  /** Some history lets that many through. */
  lemma SlidingWindowBoundIsMet(window: nat, limit: nat, key: string) returns (attempts: seq<Attempt>, t: Time)
    requires 1 < window && 0 < limit
    ensures Ordered(attempts) && OneLimit(attempts, key, limit)
    ensures AllowedIn(window, attempts, key, t, t + window) == 2 * limit - 1
  {
    hide AllowedIn;
    var opening := [Attempt(key, limit, 0)];
    var late, next := Attempt(key, limit, window - 1), Attempt(key, limit, window);
    t := 1;
    assert opening[..0] == [];
    assert WindowsAfter(window, opening) == map[key := RateWindow(0, 1)];
    assert AllowedIn(window, opening, key, t, t + window) == 0 by {
      OneMore(window, [], Attempt(key, limit, 0), key, t, t + window);
      AllowedUnseen(window, [], key, t, t + window);
      assert [] + opening == opening;
    }
    RepeatedAllowed(window, opening, late, limit - 1, t, t + window);
    var first := opening + Repeated(late, limit - 1);
    assert limit == 1 ==> first == opening;
    assert WindowsAfter(window, first) == map[key := RateWindow(0, limit)];
    RepeatedAllowed(window, first, next, limit, t, t + window);
    attempts := first + Repeated(next, limit);
  }
}
