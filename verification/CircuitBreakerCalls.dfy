/** Calls through the circuit breaker, each reporting its outcome with the state its own admission was told. */
module CircuitBreakerCalls {
  import opened Wrappers
  import opened CircuitBreaker

  type CallId = nat

  /** told holds, for every call admitted and not yet reported, the state that came with its admission. */
  datatype Desk = Desk(breaker: Snapshot, told: map<CallId, State>)

  datatype CallEvent = Asked(call: CallId, now: nat) | Succeeded(call: CallId) | Failed(call: CallId, now: nat)

  /** A call asks, and an admitted one reports once; recordSuccess and recordFailure get the state it was told. */
  function DeskStep(d: Desk, cfg: Config, e: CallEvent): Desk {
    match e
    case Asked(c, now) =>
      if c in d.told then d else
      var (breaker, admission) := Evaluate(d.breaker, cfg, now);
      Desk(breaker, if admission.Allowed? then d.told[c := admission.state] else d.told)
    case Succeeded(c) =>
      if c !in d.told then d else Desk(Success(d.breaker, d.told[c] == HalfOpen), d.told - {c})
    case Failed(c, now) =>
      if c !in d.told then d else Desk(Failure(d.breaker, cfg, now, d.told[c] == HalfOpen), d.told - {c})
  }

  function DeskRun(d: Desk, cfg: Config, es: seq<CallEvent>): Desk
    decreases es
  {
    if es == [] then d else DeskRun(DeskStep(d, cfg, es[0]), cfg, es[1..])
  }

  // ---- the answer of one admission ----

  /** The state told with an admission, granted or not, is the state the breaker is left in. */
  lemma AnswerTellsState(s: Snapshot, cfg: Config, now: nat)
    ensures Evaluate(s, cfg, now).1.state == Evaluate(s, cfg, now).0.state
  {
    ElapsedGrants(s, cfg, now);
  }

  /** And so it is for every grant of a store that may fail in mid-call. */
  lemma GrantTellsState(s: Snapshot, cfg: Config, now: nat, operations: nat)
    ensures var (after, admission) := EvaluateWhile(s, cfg, now, operations);
      admission.Allowed? ==> admission.state == after.state
  {
    LossNeverAdmits(s, cfg, now, operations);
    AnswerTellsState(s, cfg, now);
  }

  /**
   * The one answer of each snapshot: closed, always granted; open, refused with the rest of its time
   * until that has passed; half open, or open past its time, granted as a probe while there are any.
   */
  lemma AnswerExactly(s: Snapshot, cfg: Config, now: nat)
    requires WellShaped(s, cfg)
    ensures var (after, admission) := Evaluate(s, cfg, now);
            var shut := s.state == Open && s.openUntil.value > now;
            var limit := if cfg.probeLimit > 1 then cfg.probeLimit else 1;
            && (admission == Allowed(Closed) <==> s.state == Closed)
            && (admission == Allowed(HalfOpen) <==>
                  (s.state == Open && !shut) || (s.state == HalfOpen && s.probes < limit))
            && (admission == Rejected(HalfOpen, 1, ProbeLimit) <==> s.state == HalfOpen && s.probes == limit)
            && (admission.Rejected? && admission.reason == BreakerOpen <==> shut)
            && (admission.Rejected? ==> after == s)
            && (s.state == Closed ==> after == s)
            && (admission == Allowed(HalfOpen) ==>
                  after.state == HalfOpen && after.failures == s.failures
                  && after.probes == 1 + if s.state == HalfOpen then s.probes else 0)
  {
    ElapsedGrants(s, cfg, now);
  }

  // ---- histories with their flags ----

  /** The events of the breaker in a run of calls, each outcome with the flag of its own admission. */
  function Flagged(d: Desk, cfg: Config, es: seq<CallEvent>): seq<Event>
    decreases es
  {
    if es == [] then []
    else
      (match es[0]
       case Asked(c, now) => if c in d.told then [] else [Admit(now)]
       case Succeeded(c) => if c in d.told then [Succeed(d.told[c] == HalfOpen)] else []
       case Failed(c, now) => if c in d.told then [Fail(now, d.told[c] == HalfOpen)] else [])
      + Flagged(DeskStep(d, cfg, es[0]), cfg, es[1..])
  }

  lemma {:induction false} ContinueSplits(s: Snapshot, cfg: Config, h: seq<Event>, e: Event)
    ensures Continue(s, cfg, h + [e]) == Step(Continue(s, cfg, h), cfg, e)
    decreases h
  {
    hide Step;
    if h == [] {
      assert (h + [e])[1..] == [] && Continue(Step(s, cfg, e), cfg, []) == Step(s, cfg, e);
    } else {
      assert (h + [e])[1..] == h[1..] + [e];
      ContinueSplits(Step(s, cfg, h[0]), cfg, h[1..], e);
    }
  }

  lemma {:induction false} AfterIsContinue(cfg: Config, h: seq<Event>)
    ensures After(cfg, h) == Continue(INITIAL, cfg, h)
    decreases |h|
  {
    hide Step;
    if h != [] {
      AfterIsContinue(cfg, h[..|h| - 1]);
      ContinueSplits(INITIAL, cfg, h[..|h| - 1], h[|h| - 1]);
      assert h[..|h| - 1] + [h[|h| - 1]] == h;
    }
  }

  lemma {:induction false} DeskContinues(d: Desk, cfg: Config, es: seq<CallEvent>)
    ensures DeskRun(d, cfg, es).breaker == Continue(d.breaker, cfg, Flagged(d, cfg, es))
    decreases es
  {
    hide Evaluate, Success, Failure;
    if es != [] {
      var next := DeskStep(d, cfg, es[0]);
      DeskContinues(next, cfg, es[1..]);
      var rest := Flagged(next, cfg, es[1..]);
      var all := Flagged(d, cfg, es);
      if all != rest {
        assert all[1..] == rest && Step(d.breaker, cfg, all[0]) == next.breaker;
      }
    }
  }

  const NEW_DESK := Desk(INITIAL, map[])

  /** Runs of calls are histories of the breaker, so what holds after every history holds after every run. */
  lemma DeskIsHistory(cfg: Config, es: seq<CallEvent>)
    ensures DeskRun(NEW_DESK, cfg, es).breaker == After(cfg, Flagged(NEW_DESK, cfg, es))
    ensures WellShaped(DeskRun(NEW_DESK, cfg, es).breaker, cfg)
  {
    DeskContinues(NEW_DESK, cfg, es);
    AfterIsContinue(cfg, Flagged(NEW_DESK, cfg, es));
    AlwaysWellShaped(cfg, Flagged(NEW_DESK, cfg, es));
  }

  // ---- when it opens ----

  predicate ToldClosed(d: Desk) {
    forall c | c in d.told :: d.told[c] == Closed
  }

  /** Only calls that were admitted and have not reported yet report. */
  predicate InTurn(d: Desk, cfg: Config, es: seq<CallEvent>)
    decreases es
  {
    es == [] || ((es[0].Asked? || es[0].call in d.told) && InTurn(DeskStep(d, cfg, es[0]), cfg, es[1..]))
  }

  /** Continuing a streak of that many failures, there are never threshold failures with no success between. */
  predicate Calm(cfg: Config, streak: nat, es: seq<CallEvent>)
    decreases es
  {
    es == [] ||
    match es[0]
    case Asked(_, _) => Calm(cfg, streak, es[1..])
    case Succeeded(_) => Calm(cfg, 0, es[1..])
    case Failed(_, _) => streak + 1 < cfg.threshold && Calm(cfg, streak + 1, es[1..])
  }

  predicate ClosedThroughout(d: Desk, cfg: Config, es: seq<CallEvent>)
    decreases es
  {
    d.breaker.state == Closed && (es == [] || ClosedThroughout(DeskStep(d, cfg, es[0]), cfg, es[1..]))
  }

  lemma ClosedStep(d: Desk, cfg: Config, e: CallEvent)
    requires d.breaker.state == Closed && ToldClosed(d) && (e.Asked? || e.call in d.told)
    ensures var next := DeskStep(d, cfg, e);
      && ToldClosed(next)
      && (next.breaker.state == Closed <==> !(e.Failed? && d.breaker.failures + 1 >= cfg.threshold))
      && (next.breaker.state == Closed ==>
            next.breaker.failures == match e
              case Asked(_, _) => d.breaker.failures
              case Succeeded(_) => 0
              case Failed(_, _) => d.breaker.failures + 1)
  {
  }

  /**
   * A closed breaker stays closed over a run of calls, each admitted while it was closed, if and only
   * if no threshold of them fail with no success between: fewer never open it, and that many do.
   */
  lemma {:induction false} ClosedExactlyWhileCalm(d: Desk, cfg: Config, es: seq<CallEvent>)
    requires d.breaker.state == Closed && ToldClosed(d) && InTurn(d, cfg, es)
    ensures ClosedThroughout(d, cfg, es) <==> Calm(cfg, d.breaker.failures, es)
    ensures ClosedThroughout(d, cfg, es) ==> ToldClosed(DeskRun(d, cfg, es))
    decreases es
  {
    hide DeskStep, ToldClosed;
    if es != [] {
      ClosedStep(d, cfg, es[0]);
      var next := DeskStep(d, cfg, es[0]);
      if next.breaker.state == Closed { ClosedExactlyWhileCalm(next, cfg, es[1..]); }
    }
  }

  /** From the start: the breaker is closed throughout exactly when there is no such streak. */
  lemma CalmFromTheStart(cfg: Config, es: seq<CallEvent>)
    requires InTurn(NEW_DESK, cfg, es)
    ensures ClosedThroughout(NEW_DESK, cfg, es) <==> Calm(cfg, 0, es)
  {
    ClosedExactlyWhileCalm(NEW_DESK, cfg, es);
  }

  /** What a call was told stands until it reports. */
  lemma {:induction false} ToldStays(d: Desk, cfg: Config, es: seq<CallEvent>, c: CallId)
    requires c in d.told && forall e | e in es :: e.call != c
    ensures c in DeskRun(d, cfg, es).told && DeskRun(d, cfg, es).told[c] == d.told[c]
    decreases es
  {
    if es != [] {
      assert es[0] in es && forall e | e in es[1..] :: e in es;
      ToldStays(DeskStep(d, cfg, es[0]), cfg, es[1..], c);
    }
  }

  /** One failure of a call admitted as a probe opens the breaker, whatever else happened; its success closes it. */
  lemma ProbeDecides(d: Desk, cfg: Config, c: CallId, asked: nat, es: seq<CallEvent>, now: nat)
    requires c !in d.told && c in DeskStep(d, cfg, Asked(c, asked)).told
    requires d.breaker.state != Closed && WellShaped(d.breaker, cfg)
    requires forall e | e in es :: e.call != c
    ensures var later := DeskRun(DeskStep(d, cfg, Asked(c, asked)), cfg, es);
      && DeskStep(later, cfg, Failed(c, now)).breaker.state == Open
      && DeskStep(later, cfg, Failed(c, now)).breaker.openUntil
           == Some(now + 1000 * (if cfg.openSeconds >= 1 then cfg.openSeconds else 1))
      && DeskStep(later, cfg, Succeeded(c)).breaker == INITIAL
  {
    AnswerExactly(d.breaker, cfg, asked);
    ToldStays(DeskStep(d, cfg, Asked(c, asked)), cfg, es, c);
  }
}
