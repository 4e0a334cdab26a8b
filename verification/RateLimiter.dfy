/** internal/api/ratelimit.go: a sliding-window log per client. The clock is read under the lock, so
    request times do not decrease. */
module RateLimiter {
  import opened Slices

  datatype Request = Request(key: string, now: int)

  /** `t.After(cutoff)` */
  function After(cutoff: int): int -> bool {
    (t: int) => t > cutoff
  }

  /** One decision on the times kept for a client, and the times kept afterwards. */
  function Decide(times: seq<int>, now: int, limit: int, window: int): (bool, seq<int>) {
    var kept := Filter(After(now - window), times);
    if |kept| >= limit then (false, kept) else (true, kept + [now])
  }

  /** The times kept for a client after a sequence of requests by any clients. */
  function Kept(log: seq<Request>, key: string, limit: int, window: int): seq<int> {
    if log == [] then []
    else
      var before, last := Kept(log[..|log| - 1], key, limit, window), log[|log| - 1];
      if last.key == key then Decide(before, last.now, limit, window).1 else before
  }

  predicate Allows(log: seq<Request>, key: string, now: int, limit: int, window: int) {
    Decide(Kept(log, key, limit, window), now, limit, window).0
  }

  /** The times at which a client was let through. */
  function Granted(log: seq<Request>, key: string, limit: int, window: int): seq<int> {
    if log == [] then []
    else
      var init, last := log[..|log| - 1], log[|log| - 1];
      var before := Granted(init, key, limit, window);
      if last.key == key && Allows(init, key, last.now, limit, window) then before + [last.now] else before
  }

  ghost predicate Monotone(log: seq<Request>) {
    forall i, j :: 0 <= i < j < |log| ==> log[i].now <= log[j].now
  }

  // ---------- Filters ----------

  lemma {:induction false} FilterImplies(p: int -> bool, q: int -> bool, s: seq<int>)
    requires forall t :: p(t) ==> q(t)
    ensures |Filter(p, s)| <= |Filter(q, s)|
    ensures Filter(p, Filter(q, s)) == Filter(p, s)
  {
    if s == [] {
    } else {
      var init, last := s[..|s| - 1], s[|s| - 1];
      FilterImplies(p, q, init);
      if q(last) { FilterAppend(p, Filter(q, init), last); }
    }
  }

  // ---------- The window ----------

  /** The clean-up forgets nothing that can still matter: beyond the window of the last request the
      kept times are the granted times. */
  lemma {:induction false} KeptIsGranted(log: seq<Request>, key: string, limit: int, window: int, cutoff: int)
    requires Monotone(log) && (log == [] || cutoff >= log[|log| - 1].now - window)
    ensures Filter(After(cutoff), Kept(log, key, limit, window))
            == Filter(After(cutoff), Granted(log, key, limit, window))
  {
    if log == [] {
    } else {
      var init, last := log[..|log| - 1], log[|log| - 1];
      assert init != [] ==> init[|init| - 1].now <= last.now by {
        if init != [] { assert init[|init| - 1] == log[|log| - 2]; }
      }
      KeptIsGranted(init, key, limit, window, cutoff);
      DecideKeepsRecent(Kept(init, key, limit, window), last.now, limit, window, cutoff);
      FilterAppend(After(cutoff), Granted(init, key, limit, window), last.now);
    }
  }

  lemma DecideKeepsRecent(times: seq<int>, now: int, limit: int, window: int, cutoff: int)
    requires cutoff >= now - window
    ensures var (ok, kept) := Decide(times, now, limit, window);
            Filter(After(cutoff), kept) == Filter(After(cutoff), times) + if ok && now > cutoff then [now] else []
  {
    FilterImplies(After(cutoff), After(now - window), times);
    FilterAppend(After(cutoff), Filter(After(now - window), times), now);
  }

  /** A request is denied exactly when as many requests as the limit, or more, were granted within the
      last window; with a positive limit they are then exactly as many. */
  lemma DeniedIffFull(log: seq<Request>, key: string, now: int, limit: int, window: int)
    requires Monotone(log) && (log == [] || log[|log| - 1].now <= now)
    ensures var recent := |Filter(After(now - window), Granted(log, key, limit, window))|;
            && (!Allows(log, key, now, limit, window) <==> recent >= limit)
            && (!Allows(log, key, now, limit, window) && limit >= 1 ==> recent == limit)
  {
    KeptIsGranted(log, key, limit, window, now - window);
    WindowFilterIsWithin(log, key, limit, window, now);
    AtMostLimit(log, key, limit, window, now - window);
  }

  /** `t` lies in the half-open interval of length `window` after `x`. */
  function Within(x: int, window: int): int -> bool {
    (t: int) => x < t <= x + window
  }

  lemma {:induction false} GrantedBefore(log: seq<Request>, key: string, limit: int, window: int, now: int)
    requires Monotone(log) && (log == [] || log[|log| - 1].now <= now)
    ensures forall t :: t in Granted(log, key, limit, window) ==> t <= now
  {
    if log == [] {
    } else {
      var init := log[..|log| - 1];
      if init != [] { assert init[|init| - 1] == log[|log| - 2]; }
      GrantedBefore(init, key, limit, window, log[|log| - 1].now);
    }
  }

  lemma {:induction false} FilterAgree(p: int -> bool, q: int -> bool, s: seq<int>)
    requires forall t :: t in s ==> p(t) == q(t)
    ensures Filter(p, s) == Filter(q, s)
  {
    if s == [] {
    } else {
      var init, last := s[..|s| - 1], s[|s| - 1];
      assert last in s;
      assert p(last) == q(last);
      forall t | t in init ensures p(t) == q(t) { assert t in s; }
      FilterAgree(p, q, init);
    }
  }

  /** What was granted after `now - window` was granted within the last window. */
  lemma WindowFilterIsWithin(log: seq<Request>, key: string, limit: int, window: int, now: int)
    requires Monotone(log) && (log == [] || log[|log| - 1].now <= now)
    ensures Filter(After(now - window), Granted(log, key, limit, window))
            == Filter(Within(now - window, window), Granted(log, key, limit, window))
  {
    GrantedBefore(log, key, limit, window, now);
    FilterAgree(After(now - window), Within(now - window, window), Granted(log, key, limit, window));
  }

  /** In every half-open interval of the window's length, whenever it starts, a client is let through at
      most `limit` times. */
  lemma {:induction false} AtMostLimit(log: seq<Request>, key: string, limit: int, window: int, x: int)
    requires Monotone(log)
    ensures |Filter(Within(x, window), Granted(log, key, limit, window))| <= if limit > 0 then limit else 0
  {
    if log == [] {
    } else {
      var init, last := log[..|log| - 1], log[|log| - 1];
      var before := Granted(init, key, limit, window);
      AtMostLimit(init, key, limit, window, x);
      if last.key == key && Allows(init, key, last.now, limit, window) {
        FilterAppend(Within(x, window), before, last.now);
        if x < last.now <= x + window {
          if init != [] { assert init[|init| - 1] == log[|log| - 2]; }
          KeptIsGranted(init, key, limit, window, last.now - window);
          FilterImplies(Within(x, window), After(last.now - window), before);
        }
      }
    }
  }

  /** One more request. */
  lemma OneMore(log: seq<Request>, key: string, now: int, limit: int, window: int)
    requires Monotone(log) && (log == [] || log[|log| - 1].now <= now)
    ensures var log' := log + [Request(key, now)];
            && Monotone(log')
            && (forall k :: Kept(log', k, limit, window) ==
                            if k == key then Decide(Kept(log, k, limit, window), now, limit, window).1
                            else Kept(log, k, limit, window))
            && Granted(log', key, limit, window) ==
               Granted(log, key, limit, window) + if Allows(log, key, now, limit, window) then [now] else []
    ensures Allows(log, key, now, limit, window) <==>
            |Filter(Within(now - window, window), Granted(log, key, limit, window))| < limit
  {
    assert (log + [Request(key, now)])[..|log|] == log;
    DeniedIffFull(log, key, now, limit, window);
    WindowFilterIsWithin(log, key, limit, window, now);
  }

  ghost predicate NeverExceeds(log: seq<Request>, key: string, limit: int, window: int) {
    forall x :: |Filter(Within(x, window), Granted(log, key, limit, window))| <= if limit > 0 then limit else 0
  }

  lemma LimitHolds(log: seq<Request>, key: string, limit: int, window: int)
    requires Monotone(log)
    ensures NeverExceeds(log, key, limit, window)
  {
    forall x ensures |Filter(Within(x, window), Granted(log, key, limit, window))| <= if limit > 0 then limit else 0 {
      AtMostLimit(log, key, limit, window, x);
    }
  }

  // ---------- The limiter ----------

  /** A slice: the first `n` elements of a backing array. */
  datatype Times = Times(a: array<int>, n: nat)

  class Limiter {
    const limit: int
    const window: int
    var clients: map<string, Times>
    /** Every request so far. */
    ghost var log: seq<Request>

    ghost function Arrays(): set<object>
      reads this`clients
    {
      set key | key in clients :: clients[key].a as object
    }

    /** Each client has its own backing array. */
    ghost predicate Shape()
      reads this`clients
    {
      && (forall key :: key in clients ==> clients[key].n <= clients[key].a.Length)
      && (forall k1, k2 :: k1 in clients && k2 in clients && k1 != k2 ==> clients[k1].a != clients[k2].a)
    }

    /** The slice of a client, nil when there is none. */
    function Recent(key: string): seq<int>
      requires Shape()
      reads this`clients, Arrays()
    {
      if key in clients then clients[key].a[..clients[key].n] else []
    }

    /** The slices hold what a sequence of requests determines. */
    ghost predicate Tracks(requests: seq<Request>)
      reads this`clients, Arrays()
    {
      Shape() && forall key :: Recent(key) == Kept(requests, key, limit, window)
    }

    ghost predicate Valid()
      reads this, Arrays()
    {
      Monotone(log) && Tracks(log)
    }

    constructor (limit: int, window: int)
      ensures Valid() && log == [] && this.limit == limit && this.window == window
      ensures clients == map[]
    {
      this.limit, this.window := limit, window;
      clients, log := map[], [];
    }

    /** `allow`, with the clock read under the lock. It lets the request through exactly when fewer than
        `limit` requests of the client were let through within the last window. */
    method Allow(key: string, now: int) returns (ok: bool)
      requires Valid() && (log == [] || log[|log| - 1].now <= now)
      modifies this`clients, this`log, Arrays()
      ensures Valid() && fresh(Arrays() - old(Arrays()))
      ensures log == old(log) + [Request(key, now)]
      ensures ok <==> |Filter(Within(now - window, window), Granted(old(log), key, limit, window))| < limit
      ensures Granted(log, key, limit, window) == Granted(old(log), key, limit, window) + if ok then [now] else []
    {
      OneMore(log, key, now, limit, window);
      ok := UpdateTracked(log, key, now);
      log := log + [Request(key, now)];
    }

    method UpdateTracked(ghost requests: seq<Request>, key: string, now: int) returns (ok: bool)
      requires Tracks(requests)
      modifies this`clients, Arrays()
      ensures fresh(Arrays() - old(Arrays()))
      ensures Tracks(requests + [Request(key, now)])
      ensures ok <==> Allows(requests, key, now, limit, window)
    {
      assert (requests + [Request(key, now)])[..|requests|] == requests;
      ok := Update(key, now);
    }

    lemma LimitHoldsNow(key: string)
      requires Valid()
      ensures NeverExceeds(log, key, limit, window)
    {
      LimitHolds(log, key, limit, window);
    }

    /** The body of `allow` after the clock has been read. */
    method Update(key: string, now: int) returns (ok: bool)
      requires Shape()
      modifies this`clients, Arrays()
      ensures Shape() && fresh(Arrays() - old(Arrays()))
      ensures (ok, Recent(key)) == Decide(old(Recent(key)), now, limit, window)
      ensures forall k :: k != key ==> Recent(k) == old(Recent(k))
    {
      var times, n := new int[0], 0;
      if key in clients { times, n := clients[key].a, clients[key].n; }
      assert times[..n] == Recent(key);
      var after;
      ok, after := CleanAndRecord(times, n, now, limit, window);
      clients := clients[key := after];
    }
  }

  /** `filtered := times[:0]`, the loop, and the append. */
  method CleanAndRecord(times: array<int>, n: nat, now: int, limit: int, window: int) returns (ok: bool, after: Times)
    requires n <= times.Length
    modifies times
    ensures after.n <= after.a.Length && (after.a == times || fresh(after.a))
    ensures (ok, after.a[..after.n]) == Decide(old(times[..n]), now, limit, window)
  {
    var cutoff := now - window;
    var m := FilterInPlace(times, n, After(cutoff));
    if m >= limit {
      return false, Times(times, m);
    }
    var grown := Append(times, m, now);
    return true, Times(grown, m + 1);
  }
}
