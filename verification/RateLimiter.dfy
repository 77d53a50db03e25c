/** The two fixed-window rate limiters: login attempts per address, and registration writes per second. */
module RateLimiter {
  import opened Wrappers

  /** An entry of the attempts table, or the Redis counter with its expiry. */
  datatype Window = Window(count: nat, resetAt: int)

  datatype Served = Served(window: Window, allowed: bool)

  predicate Open(w: Option<Window>, now: int) {
    w.Some? && now < w.value.resetAt
  }

  /** rateLimitLogin: a refused attempt is not counted. */
  function LoginStep(w: Option<Window>, now: int, limit: nat, length: nat): Served {
    if !Open(w, now) then Served(Window(1, now + length), true)
    else if w.value.count >= limit then Served(w.value, false)
    else Served(w.value.(count := w.value.count + 1), true)
  }

  /** guardGlobalWriteRate: INCR counts refused attempts as well. */
  function CounterStep(w: Option<Window>, now: int, limit: nat, length: nat): Served {
    var next := if Open(w, now) then w.value.(count := w.value.count + 1) else Window(1, now + length);
    Served(next, next.count <= limit)
  }

  function Step(refusedCount: bool, w: Option<Window>, now: int, limit: nat, length: nat): Served {
    if refusedCount then CounterStep(w, now, limit, length) else LoginStep(w, now, limit, length)
  }

  predicate Monotone(times: seq<int>) {
    forall i, j | 0 <= i < j < |times| :: times[i] <= times[j]
  }

  predicate NotBefore(times: seq<int>, from: int) {
    forall i | 0 <= i < |times| :: times[i] >= from
  }

  function In(x: int, from: int, to: int): nat {
    if from <= x < to then 1 else 0
  }

  /** How many of the requests at the given times fall into [from, to). */
  function Asked(times: seq<int>, from: int, to: int): nat {
    if times == [] then 0 else In(times[0], from, to) + Asked(times[1..], from, to)
  }

  /** How many of them are let through. */
  function Admitted(refusedCount: bool, w: Option<Window>, times: seq<int>, limit: nat, length: nat, from: int,
                    to: int): nat
    decreases times
  {
    if times == [] then 0
    else
      var served := Step(refusedCount, w, times[0], limit, length);
      (if served.allowed then In(times[0], from, to) else 0)
      + Admitted(refusedCount, Some(served.window), times[1..], limit, length, from, to)
  }

  // ---- the two limiters agree ----

  function Capped(w: Option<Window>, limit: nat): Option<Window> {
    match w case None => None case Some(x) => Some(x.(count := if x.count > limit then limit else x.count))
  }

  /** With a limit of at least one, counting the refused attempts changes no answer. */
  lemma {:induction false} CountingRefusalsChangesNothing(w: Option<Window>, times: seq<int>, limit: nat, length: nat,
                                                          from: int, to: int)
    requires limit >= 1
    ensures Admitted(true, w, times, limit, length, from, to)
         == Admitted(false, Capped(w, limit), times, limit, length, from, to)
    decreases times
  {
    if times != [] {
      var served := CounterStep(w, times[0], limit, length);
      assert LoginStep(Capped(w, limit), times[0], limit, length)
          == Served(Capped(Some(served.window), limit).value, served.allowed);
      CountingRefusalsChangesNothing(Some(served.window), times[1..], limit, length, from, to);
    }
  }

  // ---- one window ----

  function Min(a: int, b: int): int {
    if a <= b then a else b
  }

  lemma LaterTimes(times: seq<int>, from: int)
    requires times != [] && Monotone(times) && times[0] >= from
    ensures Monotone(times[1..]) && NotBefore(times, from) && NotBefore(times[1..], from)
  {
  }

  lemma {:induction false} NothingAfter(refusedCount: bool, w: Option<Window>, times: seq<int>, limit: nat,
                                        length: nat, from: int, to: int)
    requires NotBefore(times, to)
    ensures Admitted(refusedCount, w, times, limit, length, from, to) == 0 == Asked(times, from, to)
    decreases times
  {
    if times != [] {
      var served := Step(refusedCount, w, times[0], limit, length);
      NothingAfter(refusedCount, Some(served.window), times[1..], limit, length, from, to);
    }
  }

  /** Up to its reset a window lets through exactly what is left of the limit. */
  lemma {:induction false} WithinWindow(w: Window, times: seq<int>, limit: nat, length: nat, from: int, to: int)
    requires 1 <= limit && w.count <= limit && to <= w.resetAt
    requires NotBefore(times, from)
    requires Monotone(times)
    ensures Admitted(false, Some(w), times, limit, length, from, to) == Min(limit - w.count, Asked(times, from, to))
    decreases times
  {
    if times != [] {
      if times[0] < to {
        WithinWindow(LoginStep(Some(w), times[0], limit, length).window, times[1..], limit, length, from, to);
      } else {
        NothingAfter(false, Some(w), times, limit, length, from, to);
      }
    }
  }

  /** A request that opens a window: of it and those that follow within its length, exactly the first limit pass. */
  lemma WindowIsExact(refusedCount: bool, w: Option<Window>, times: seq<int>, limit: nat, length: nat)
    requires limit >= 1 && length >= 1 && times != [] && Monotone(times) && !Open(w, times[0])
    ensures Admitted(refusedCount, w, times, limit, length, times[0], times[0] + length)
         == Min(limit, Asked(times, times[0], times[0] + length))
  {
    var x := times[0];
    LaterTimes(times, x);
    if refusedCount { CountingRefusalsChangesNothing(w, times, limit, length, x, x + length); }
    WithinWindow(Window(1, x + length), times[1..], limit, length, x, x + length);
  }

  // ---- any interval of one window length ----

  /** From the start of the interval on: what is left of the open window, and then one whole window. */
  lemma {:induction false} FromStart(w: Window, times: seq<int>, limit: nat, length: nat, from: int)
    requires 1 <= w.count <= limit && length >= 1 && w.resetAt < from + length
    requires Monotone(times) && NotBefore(times, from)
    ensures Admitted(false, Some(w), times, limit, length, from, from + length) <= (limit - w.count) + limit
    decreases times
  {
    if times != [] {
      var served := LoginStep(Some(w), times[0], limit, length);
      if times[0] < w.resetAt {
        FromStart(served.window, times[1..], limit, length, from);
      } else {
        WithinWindow(served.window, times[1..], limit, length, from, from + length);
      }
    }
  }

  lemma {:induction false} BeforeStart(w: Option<Window>, times: seq<int>, limit: nat, length: nat, from: int)
    requires limit >= 1 && length >= 1 && Monotone(times)
    requires w.Some? ==> 1 <= w.value.count <= limit && w.value.resetAt < from + length
    ensures Admitted(false, w, times, limit, length, from, from + length) <= 2 * limit - 1
    decreases times
  {
    if times != [] {
      var served := LoginStep(w, times[0], limit, length);
      if times[0] < from {
        BeforeStart(Some(served.window), times[1..], limit, length, from);
      } else {
        LaterTimes(times, from);
        if w.Some? {
          FromStart(w.value, times, limit, length, from);
        } else {
          WithinWindow(served.window, times[1..], limit, length, from, from + length);
        }
      }
    }
  }

  /**
   * Main result: whenever requests come in order of time, any interval of one window length lets through
   * at most twice the limit less one, because the request that opened the first window lies before it.
   */
  lemma IntervalBound(refusedCount: bool, times: seq<int>, limit: nat, length: nat, from: int)
    requires limit >= 1 && length >= 1 && Monotone(times)
    ensures Admitted(refusedCount, None, times, limit, length, from, from + length) <= 2 * limit - 1
  {
    if refusedCount { CountingRefusalsChangesNothing(None, times, limit, length, from, from + length); }
    BeforeStart(None, times, limit, length, from);
  }

  // ---- the bound is reached ----

  /** n requests at time x. */
  function Burst(n: nat, x: int): seq<int> {
    if n == 0 then [] else [x] + Burst(n - 1, x)
  }

  lemma {:induction false} BurstPasses(w: Window, n: nat, x: int, rest: seq<int>, limit: nat, length: nat, from: int,
                                       to: int)
    requires x < w.resetAt && w.count + n <= limit && from <= x < to
    ensures Admitted(false, Some(w), Burst(n, x) + rest, limit, length, from, to)
         == n + Admitted(false, Some(Window(w.count + n, w.resetAt)), rest, limit, length, from, to)
    decreases n
  {
    if n == 0 {
      assert Burst(0, x) + rest == rest;
    } else {
      assert (Burst(n, x) + rest)[1..] == Burst(n - 1, x) + rest;
      BurstPasses(w.(count := w.count + 1), n - 1, x, rest, limit, length, from, to);
    }
  }

  lemma {:induction false} BurstIsFlat(n: nat, x: int)
    ensures |Burst(n, x)| == n && forall i | 0 <= i < n :: Burst(n, x)[i] == x
    decreases n
  {
    if n != 0 { BurstIsFlat(n - 1, x); }
  }

  /** One request at 0, the rest of its window just before the reset, and a whole window at the reset. */
  function WorstCase(limit: nat, length: nat): seq<int>
    requires limit >= 1
  {
    [0] + Burst(limit - 1, length - 1) + Burst(limit, length)
  }

  lemma WorstCaseIsMonotone(limit: nat, length: nat)
    requires limit >= 1 && length >= 1
    ensures Monotone(WorstCase(limit, length))
  {
    BurstIsFlat(limit - 1, length - 1);
    BurstIsFlat(limit, length);
  }

  lemma BoundIsReached(limit: nat, length: nat)
    requires limit >= 1 && length >= 2
    ensures Monotone(WorstCase(limit, length))
    ensures Admitted(false, None, WorstCase(limit, length), limit, length, length - 1, length - 1 + length)
         == 2 * limit - 1
  {
    hide Monotone;
    WorstCaseIsMonotone(limit, length);
    var from, to, tail := length - 1, length - 1 + length, Burst(limit - 1, length) + [];
    assert Burst(limit, length) == [length] + tail;
    var times := WorstCase(limit, length);
    assert times[1..] == Burst(limit - 1, length - 1) + Burst(limit, length);
    BurstPasses(Window(1, length), limit - 1, length - 1, Burst(limit, length), limit, length, from, to);
    assert Burst(limit, length)[1..] == tail;
    BurstPasses(Window(1, length + length), limit - 1, length, [], limit, length, from, to);
  }

  // ---- the login limiter over all addresses ----

  const LOGIN_LIMIT := 5
  const LOGIN_WINDOW := 60_000

  datatype Attempt = Attempt(ip: Option<string>, now: int)

  function AddressOf(ip: Option<string>): string {
    if ip.None? || ip.value == "" then "unknown" else ip.value
  }

  predicate NoAddress(ip: Option<string>) {
    ip in {None, Some(""), Some("unknown")}
  }

  /** Requests share a bucket exactly when they come from the same address, or neither names one. */
  lemma SameBucketExactly(a: Option<string>, b: Option<string>)
    ensures AddressOf(a) == AddressOf(b) <==> a == b || (NoAddress(a) && NoAddress(b))
  {
  }

  function EntryOf(attempts: map<string, Window>, address: string): Option<Window> {
    if address in attempts then Some(attempts[address]) else None
  }

  function TimesOf(requests: seq<Attempt>, address: string): seq<int> {
    if requests == [] then []
    else (if AddressOf(requests[0].ip) == address then [requests[0].now] else []) + TimesOf(requests[1..], address)
  }

  /** The attempts of one address that are let through in [from, to), with all addresses mixed. */
  function LoginsIn(attempts: map<string, Window>, requests: seq<Attempt>, address: string, from: int, to: int): nat
    decreases requests
  {
    if requests == [] then 0
    else
      var key := AddressOf(requests[0].ip);
      var served := LoginStep(EntryOf(attempts, key), requests[0].now, LOGIN_LIMIT, LOGIN_WINDOW);
      (if key == address && served.allowed then In(requests[0].now, from, to) else 0)
      + LoginsIn(attempts[key := served.window], requests[1..], address, from, to)
  }

  /** Addresses do not disturb each other. */
  lemma {:induction false} AddressesAreSeparate(attempts: map<string, Window>, requests: seq<Attempt>, address: string,
                                                from: int, to: int)
    ensures LoginsIn(attempts, requests, address, from, to)
         == Admitted(false, EntryOf(attempts, address), TimesOf(requests, address), LOGIN_LIMIT, LOGIN_WINDOW, from, to)
    decreases requests
  {
    if requests != [] {
      var key := AddressOf(requests[0].ip);
      var served := LoginStep(EntryOf(attempts, key), requests[0].now, LOGIN_LIMIT, LOGIN_WINDOW);
      AddressesAreSeparate(attempts[key := served.window], requests[1..], address, from, to);
      if key == address {
        assert TimesOf(requests, address)[1..] == TimesOf(requests[1..], address);
      } else {
        assert TimesOf(requests, address) == TimesOf(requests[1..], address);
      }
    }
  }

  predicate InOrder(requests: seq<Attempt>) {
    forall i, j | 0 <= i < j < |requests| :: requests[i].now <= requests[j].now
  }

  lemma {:induction false} TimesAreMonotone(requests: seq<Attempt>, address: string, from: int)
    requires InOrder(requests) && forall i | 0 <= i < |requests| :: requests[i].now >= from
    ensures Monotone(TimesOf(requests, address)) && NotBefore(TimesOf(requests, address), from)
    decreases requests
  {
    if requests != [] {
      TimesAreMonotone(requests[1..], address, requests[0].now);
    }
  }

  /** In any 60 seconds at most nine logins of one address pass. */
  lemma LoginBound(requests: seq<Attempt>, address: string, from: int)
    requires InOrder(requests)
    ensures LoginsIn(map[], requests, address, from, from + LOGIN_WINDOW) <= 9
  {
    AddressesAreSeparate(map[], requests, address, from, from + LOGIN_WINDOW);
    TimesAreMonotone(requests, address, if requests == [] then 0 else requests[0].now);
    IntervalBound(false, TimesOf(requests, address), LOGIN_LIMIT, LOGIN_WINDOW, from);
  }

  class LoginRateLimiter {
    var attempts: map<string, Window>

    constructor ()
      ensures attempts == map[]
    {
      attempts := map[];
    }

    /** true: the request goes on; false: 429 TOO_MANY_ATTEMPTS. */
    method RateLimitLogin(ip: Option<string>, now: int) returns (allowed: bool)
      modifies this
      ensures var served := LoginStep(EntryOf(old(attempts), AddressOf(ip)), now, LOGIN_LIMIT, LOGIN_WINDOW);
              allowed == served.allowed && attempts == old(attempts)[AddressOf(ip) := served.window]
    {
      var key := if ip.None? || ip.value == "" then "unknown" else ip.value;
      if key !in attempts || attempts[key].resetAt <= now {
        attempts := attempts[key := Window(1, now + 60_000)];
        return true;
      }
      if attempts[key].count >= 5 { return false; }
      attempts := attempts[key := attempts[key].(count := attempts[key].count + 1)];
      allowed := true;
    }
  }

  class GlobalWriteLimiter {
    const limit: nat
    var counter: Option<Window>

    constructor (limit: nat)
      ensures this.limit == limit && counter == None
    {
      this.limit := limit;
      counter := None;
    }

    /** true: the write goes on; false: 503 REGISTRATION_BUSY. An expired key reads as missing. */
    method GuardGlobalWriteRate(now: int) returns (allowed: bool)
      modifies this`counter
      ensures var served := CounterStep(old(counter), now, limit, 1000);
              allowed == served.allowed && counter == Some(served.window)
    {
      if counter.Some? && counter.value.resetAt <= now { counter := None; }
      var count := if counter.None? then 1 else counter.value.count + 1;
      counter := Some(Window(count, if counter.None? then now + 1000 else counter.value.resetAt));
      allowed := count <= limit;
    }
  }
}
