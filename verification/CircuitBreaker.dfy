/** The payment circuit breaker as functions on the snapshot of its store. */
module CircuitBreaker {
  import opened Wrappers

  datatype State = Closed | Open | HalfOpen

  datatype Config = Config(threshold: int, openSeconds: int, probeLimit: int)

  datatype Snapshot = Snapshot(state: State, openedAt: Option<nat>, openUntil: Option<nat>, probes: nat, failures: nat)

  const INITIAL := Snapshot(Closed, None, None, 0, 0)

  datatype Reason = BreakerOpen | ProbeLimit | StorageUnavailable

  datatype Admission = Allowed(state: State) | Rejected(state: State, retryAfter: int, reason: Reason)

  function AtLeast1(x: int): nat {
    if x >= 1 then x else 1
  }

  // ---- what each store operation does ----

  function Increment(s: Snapshot): Snapshot {
    s.(failures := s.failures + 1)
  }

  function ResetFailures(s: Snapshot): Snapshot {
    s.(failures := 0)
  }

  function ToOpen(now: nat, openSeconds: int): Snapshot {
    Snapshot(Open, Some(now), Some(now + AtLeast1(openSeconds) * 1000), 0, 0)
  }

  function ToHalfOpen(s: Snapshot): Snapshot {
    s.(state := HalfOpen, openUntil := None, probes := 0)
  }

  function TryProbe(s: Snapshot, limit: int): (Snapshot, bool) {
    if s.probes >= AtLeast1(limit) then (s, false) else (s.(probes := s.probes + 1), true)
  }

  // ---- the breaker ----

  function Ceil1000(x: nat): nat {
    (x + 999) / 1000
  }

  /** evaluateAdmission; its call to itself happens once, after the move to half open. */
  function Evaluate(s: Snapshot, cfg: Config, now: nat): (Snapshot, Admission)
    decreases s.state == Open
  {
    match s.state
    case Open =>
      var openUntil := if s.openUntil.Some? then s.openUntil.value else now;
      if openUntil > now then (s, Rejected(Open, AtLeast1(Ceil1000(openUntil - now)), BreakerOpen))
      else Evaluate(ToHalfOpen(s), cfg, now)
    case HalfOpen =>
      var (s2, acquired) := TryProbe(s, cfg.probeLimit);
      if acquired then (s2, Allowed(HalfOpen)) else (s2, Rejected(HalfOpen, 1, ProbeLimit))
    case Closed => (s, Allowed(Closed))
  }

  /** When the open time has elapsed, the one self-call grants the first probe of a new episode. */
  lemma ElapsedGrants(s: Snapshot, cfg: Config, now: nat)
    ensures s.state == Open && (s.openUntil.Some? ==> s.openUntil.value <= now) ==>
      Evaluate(s, cfg, now) == (ToHalfOpen(s).(probes := 1), Allowed(HalfOpen))
  {
  }

  /** recordSuccess; probe says that the call was admitted in half open. */
  function Success(s: Snapshot, probe: bool): Snapshot {
    if probe then INITIAL else ResetFailures(s)
  }

  function Failure(s: Snapshot, cfg: Config, now: nat, probe: bool): Snapshot {
    if probe then ToOpen(now, cfg.openSeconds)
    else if s.failures + 1 >= cfg.threshold then ToOpen(now, cfg.openSeconds)
    else Increment(s)
  }

  // ---- a store that goes away ----

  /** The refusal of the catch branch. */
  function Unavailable(cfg: Config): Admission {
    Rejected(Open, AtLeast1(cfg.openSeconds), StorageUnavailable)
  }

  /** evaluateAdmission when the store answers so many more operations and then fails. */
  function EvaluateWhile(s: Snapshot, cfg: Config, now: nat, operations: nat): (Snapshot, Admission)
    decreases s.state == Open
  {
    if operations == 0 then (s, Unavailable(cfg))
    else
      match s.state
      case Open =>
        if s.openUntil.Some? && s.openUntil.value > now
        then (s, Rejected(Open, AtLeast1(Ceil1000(s.openUntil.value - now)), BreakerOpen))
        else if operations == 1 then (s, Unavailable(cfg))
        else EvaluateWhile(ToHalfOpen(s), cfg, now, operations - 2)
      case HalfOpen =>
        if operations == 1 then (s, Unavailable(cfg))
        else
          var (s2, acquired) := TryProbe(s, cfg.probeLimit);
          (s2, if acquired then Allowed(HalfOpen) else Rejected(HalfOpen, 1, ProbeLimit))
      case Closed => (s, Allowed(Closed))
  }

  function SuccessWhile(s: Snapshot, probe: bool, operations: nat): Snapshot {
    if operations == 0 then s else Success(s, probe)
  }

  function FailureWhile(s: Snapshot, cfg: Config, now: nat, probe: bool, operations: nat): Snapshot {
    if operations == 0 then s
    else if operations == 1 && !probe then Increment(s)
    else Failure(s, cfg, now, probe)
  }

  lemma LossInHalfOpen(s: Snapshot, cfg: Config, now: nat, operations: nat)
    requires s.state == HalfOpen
    ensures var got := EvaluateWhile(s, cfg, now, operations);
      got == if operations >= 2 then Evaluate(s, cfg, now) else (s, Unavailable(cfg))
  {
  }

  /**
   * A store that fails in mid-call never lets a call through that a working one would turn away, nor
   * takes a probe for it: the call gets the answer it would have had, or it is refused and the breaker
   * is as it was, or half open with no probe out.
   */
  lemma LossNeverAdmits(s: Snapshot, cfg: Config, now: nat, operations: nat)
    ensures var got := EvaluateWhile(s, cfg, now, operations);
      got == Evaluate(s, cfg, now) || (got.1 == Unavailable(cfg) && (got.0 == s || got.0 == ToHalfOpen(s)))
    ensures operations >= 4 ==> EvaluateWhile(s, cfg, now, operations) == Evaluate(s, cfg, now)
  {
    ElapsedGrants(s, cfg, now);
    if s.state == Open && operations >= 2 { LossInHalfOpen(ToHalfOpen(s), cfg, now, operations - 2); }
  }

  /** How many operations of the store an admission takes. */
  function Operations(s: Snapshot, now: nat): nat {
    match s.state
    case Closed => 1
    case HalfOpen => 2
    case Open => if s.openUntil.Some? && s.openUntil.value > now then 1 else 4
  }

  /** The answer is the working store's exactly when the store lasts that long; a refusal names the open time. */
  lemma LossExactly(s: Snapshot, cfg: Config, now: nat, operations: nat)
    ensures operations >= Operations(s, now) ==> EvaluateWhile(s, cfg, now, operations) == Evaluate(s, cfg, now)
    ensures operations < Operations(s, now) ==>
      && EvaluateWhile(s, cfg, now, operations).0 == (if operations < 2 then s else ToHalfOpen(s))
      && EvaluateWhile(s, cfg, now, operations).1
           == Rejected(Open, if cfg.openSeconds >= 1 then cfg.openSeconds else 1, StorageUnavailable)
  {
    ElapsedGrants(s, cfg, now);
    if s.state == Open && operations >= 2 { LossInHalfOpen(ToHalfOpen(s), cfg, now, operations - 2); }
  }

  /**
   * A report that the store does not take leaves the breaker as it was, and a whole one is recorded.
   * A failure that is counted, but whose opening is lost, is made up for by the next failure.
   */
  lemma LostReports(s: Snapshot, cfg: Config, now: nat, probe: bool, operations: nat, later: nat)
    ensures SuccessWhile(s, probe, 0) == s && FailureWhile(s, cfg, now, probe, 0) == s
    ensures operations >= 1 ==> SuccessWhile(s, probe, operations) == Success(s, probe)
    ensures operations >= 2 || (operations == 1 && probe) ==>
      FailureWhile(s, cfg, now, probe, operations) == Failure(s, cfg, now, probe)
    ensures var counted := FailureWhile(s, cfg, now, false, 1);
            && counted == s.(failures := s.failures + 1)
            && (counted.failures >= cfg.threshold ==> Failure(counted, cfg, later, probe).state == Open)
  {
  }

  datatype Event = Admit(now: nat) | Succeed(probe: bool) | Fail(now: nat, probe: bool)

  function Step(s: Snapshot, cfg: Config, e: Event): Snapshot {
    match e
    case Admit(now) => Evaluate(s, cfg, now).0
    case Succeed(probe) => Success(s, probe)
    case Fail(now, probe) => Failure(s, cfg, now, probe)
  }

  predicate Grants(s: Snapshot, cfg: Config, e: Event) {
    e.Admit? && Evaluate(s, cfg, e.now).1.Allowed?
  }

  /** The snapshot after a history of calls that do not overlap; outcomes may come late. */
  function After(cfg: Config, h: seq<Event>): Snapshot {
    if h == [] then INITIAL else Step(After(cfg, h[..|h| - 1]), cfg, h[|h| - 1])
  }

  // ---- history invariants ----

  /** The failures of calls admitted while closed, since the last success or probe failure. */
  function ClosedFailures(h: seq<Event>): nat {
    if h == [] then 0
    else match h[|h| - 1]
      case Admit(_) => ClosedFailures(h[..|h| - 1])
      case Succeed(_) => 0
      case Fail(_, probe) => if probe then 0 else ClosedFailures(h[..|h| - 1]) + 1
  }

  lemma TimesAtLeast(t: int, m: int)
    requires t >= 1 && m >= 1
    ensures t * m >= t
  {
    assert t * m == t * (m - 1) + t;
  }

  lemma RemainderIsUnique(t: int, q: int, r: int, a: int, b: int)
    requires t >= 1 && 0 <= r < t && 0 <= b < t && t * q + r == t * a + b
    ensures r == b
  {
    assert t * (a - q) == t * a - t * q && t * (q - a) == t * q - t * a;
    if a > q { TimesAtLeast(t, a - q); }
    if q > a { TimesAtLeast(t, q - a); }
  }

  lemma ModSuccessor(n: nat, t: int)
    requires t >= 1
    ensures (n + 1) % t == if n % t + 1 == t then 0 else n % t + 1
  {
    var q, r, a, b := n / t, n % t, (n + 1) / t, (n + 1) % t;
    assert n + 1 == t * q + (r + 1) && n + 1 == t * a + b;
    if r + 1 == t {
      assert t * q + t == t * (q + 1);
      RemainderIsUnique(t, q + 1, 0, a, b);
    } else {
      RemainderIsUnique(t, q, r + 1, a, b);
    }
  }

  lemma StepFailures(s: Snapshot, cfg: Config, e: Event)
    requires s.failures < cfg.threshold
    ensures Step(s, cfg, e).failures ==
      match e
      case Admit(_) => s.failures
      case Succeed(_) => 0
      case Fail(_, probe) => if probe || s.failures + 1 == cfg.threshold then 0 else s.failures + 1
  {
    if e.Admit? { ElapsedGrants(s, cfg, e.now); }
  }

  /**
   * The counter is the number of closed-context failures since the last reset, modulo the threshold
   * that sends it back to zero; so at rest it is always below the threshold.
   */
  lemma {:induction false} FailureCountIsExact(cfg: Config, h: seq<Event>)
    requires cfg.threshold >= 1
    ensures After(cfg, h).failures == ClosedFailures(h) % cfg.threshold
    ensures After(cfg, h).failures < cfg.threshold
    decreases |h|
  {
    hide Step;
    if h != [] {
      FailureCountIsExact(cfg, h[..|h| - 1]);
      StepFailures(After(cfg, h[..|h| - 1]), cfg, h[|h| - 1]);
      ModSuccessor(ClosedFailures(h[..|h| - 1]), cfg.threshold);
    }
  }

  /** Open goes with an end time, half open with at most the probe limit, closed with neither. */
  predicate WellShaped(s: Snapshot, cfg: Config) {
    && (s.state == Open <==> s.openUntil.Some?)
    && (s.state != HalfOpen ==> s.probes == 0)
    && s.probes <= AtLeast1(cfg.probeLimit)
  }

  lemma StepShape(s: Snapshot, cfg: Config, e: Event)
    requires WellShaped(s, cfg)
    ensures WellShaped(Step(s, cfg, e), cfg)
    ensures Step(s, cfg, e).state == HalfOpen ==>
      Step(s, cfg, e).probes == (if s.state == HalfOpen then s.probes else 0) + if Grants(s, cfg, e) then 1 else 0
  {
    if e.Admit? { ElapsedGrants(s, cfg, e.now); }
  }

  lemma {:induction false} AlwaysWellShaped(cfg: Config, h: seq<Event>)
    ensures WellShaped(After(cfg, h), cfg)
    decreases |h|
  {
    if h != [] {
      AlwaysWellShaped(cfg, h[..|h| - 1]);
      StepShape(After(cfg, h[..|h| - 1]), cfg, h[|h| - 1]);
    }
  }

  /** The admissions granted since the breaker last became half open. */
  function EpisodeGrants(cfg: Config, h: seq<Event>): nat {
    if h == [] || After(cfg, h).state != HalfOpen then 0
    else
      var before := After(cfg, h[..|h| - 1]);
      EpisodeGrants(cfg, h[..|h| - 1]) + if Grants(before, cfg, h[|h| - 1]) then 1 else 0
  }

  /** A half-open episode grants max(limit, 1) probes at most, and counts every one of them. */
  lemma {:induction false} ProbesPerEpisode(cfg: Config, h: seq<Event>)
    ensures After(cfg, h).state == HalfOpen ==> After(cfg, h).probes == EpisodeGrants(cfg, h)
    ensures EpisodeGrants(cfg, h) <= AtLeast1(cfg.probeLimit)
    decreases |h|
  {
    if h != [] {
      ProbesPerEpisode(cfg, h[..|h| - 1]);
      AlwaysWellShaped(cfg, h[..|h| - 1]);
      StepShape(After(cfg, h[..|h| - 1]), cfg, h[|h| - 1]);
    }
  }

  /** Every call of es carries a time from start on, before end, and none goes back. */
  predicate Timely(es: seq<Event>, start: nat, end: nat) {
    es == [] ||
    match es[0]
    case Admit(now) => start <= now < end && Timely(es[1..], now, end)
    case Fail(now, _) => start <= now < end && Timely(es[1..], now, end)
    case Succeed(_) => Timely(es[1..], start, end)
  }

  function Continue(s: Snapshot, cfg: Config, es: seq<Event>): Snapshot
    decreases es
  {
    if es == [] then s else Continue(Step(s, cfg, es[0]), cfg, es[1..])
  }

  predicate NoneGranted(s: Snapshot, cfg: Config, es: seq<Event>)
    decreases es
  {
    es == [] || (!Grants(s, cfg, es[0]) && NoneGranted(Step(s, cfg, es[0]), cfg, es[1..]))
  }

  predicate OpenFrom(s: Snapshot, cfg: Config, start: nat, until: nat) {
    s.state == Open && s.openUntil.Some? && s.openUntil.value >= until
    && until <= start + AtLeast1(cfg.openSeconds) * 1000
  }

  /**
   * Until its end time an open breaker turns every admission away, whatever late failures come in,
   * as long as no outstanding probe reports success.
   */
  lemma {:induction false} OpenTurnsAway(s: Snapshot, cfg: Config, es: seq<Event>, start: nat, until: nat)
    requires OpenFrom(s, cfg, start, until) && Timely(es, start, until)
    requires forall e | e in es :: e != Succeed(true)
    ensures NoneGranted(s, cfg, es)
    ensures Continue(s, cfg, es).state == Open
    decreases es
  {
    if es != [] {
      var s2 := Step(s, cfg, es[0]);
      var next := if es[0].Succeed? then start else es[0].now;
      assert es[0] in es && forall e | e in es[1..] :: e in es;
      assert OpenFrom(s2, cfg, next, until);
      OpenTurnsAway(s2, cfg, es[1..], next, until);
    }
  }

  /** A failure that trips the breaker keeps it shut for the open time, at least one second, and no longer. */
  lemma OpensForItsTerm(s: Snapshot, cfg: Config, tripped: nat, probe: bool, now: nat)
    requires probe || s.failures + 1 >= cfg.threshold
    ensures Grants(Step(s, cfg, Fail(tripped, probe)), cfg, Admit(now))
       <==> now >= tripped + 1000 * (if cfg.openSeconds >= 1 then cfg.openSeconds else 1)
  {
    ElapsedGrants(Step(s, cfg, Fail(tripped, probe)), cfg, now);
  }

  /** The wait told to a refused caller is the least whole number of seconds that reaches the end. */
  lemma RetryAfterIsLeast(s: Snapshot, cfg: Config, now: nat, r: int)
    requires s.state == Open && s.openUntil.Some? && s.openUntil.value > now
    ensures Evaluate(s, cfg, now).1.Rejected? && Evaluate(s, cfg, now).1.reason == BreakerOpen
    ensures now + 1000 * r >= s.openUntil.value <==> r >= Evaluate(s, cfg, now).1.retryAfter
  {
    var x := s.openUntil.value - now;
    assert Ceil1000(x) >= 1;
  }

  /**
   * Before its end time one event makes an open breaker grant the next admission, and only one: the
   * success of a probe that was still out.
   */
  lemma EarlyGrantExactly(s: Snapshot, cfg: Config, e: Event, start: nat, until: nat, now: nat)
    requires OpenFrom(s, cfg, start, until) && Timely([e], start, until) && now < until
    ensures Grants(Step(s, cfg, e), cfg, Admit(now)) <==> e == Succeed(true)
  {
    assert [e][0] == e;
  }
}
