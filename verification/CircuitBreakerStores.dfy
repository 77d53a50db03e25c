/** The two stores of the circuit breaker, and the breaker on top of one. */
module CircuitBreakerStores {
  import opened Wrappers
  import opened Decimal
  import opened CircuitBreaker

  class InMemoryStore {
    var state: State
    var openedAt: Option<nat>
    var openUntil: Option<nat>
    var probes: nat
    var failureCount: nat

    function GetSnapshot(): Snapshot
      reads this
    {
      Snapshot(state, openedAt, openUntil, probes, failureCount)
    }

    constructor ()
      ensures GetSnapshot() == INITIAL
    {
      state, openedAt, openUntil, probes, failureCount := Closed, None, None, 0, 0;
    }

    method IncrementFailureCount() returns (count: nat)
      modifies this
      ensures GetSnapshot() == Increment(old(GetSnapshot())) && count == GetSnapshot().failures
    {
      failureCount := failureCount + 1;
      count := failureCount;
    }

    method ResetFailureCount()
      modifies this
      ensures GetSnapshot() == ResetFailures(old(GetSnapshot()))
    {
      failureCount := 0;
    }

    method TransitionToOpen(now: nat, openSeconds: int)
      modifies this
      ensures GetSnapshot() == ToOpen(now, openSeconds)
    {
      state, openedAt, openUntil, probes := Open, Some(now), Some(now + AtLeast1(openSeconds) * 1000), 0;
      failureCount := 0;
    }

    method TransitionToHalfOpen()
      modifies this
      ensures GetSnapshot() == ToHalfOpen(old(GetSnapshot()))
    {
      state, openUntil, probes := HalfOpen, None, 0;
    }

    method TransitionToClosed()
      modifies this
      ensures GetSnapshot() == INITIAL
    {
      state, openedAt, openUntil, probes := Closed, None, None, 0;
      failureCount := 0;
    }

    method TryAcquireProbe(limit: int) returns (acquired: bool)
      modifies this
      ensures (GetSnapshot(), acquired) == TryProbe(old(GetSnapshot()), limit)
    {
      if probes >= AtLeast1(limit) { return false; }
      probes := probes + 1;
      acquired := true;
    }
  }

  /** A Redis hash of strings and a counter key; no TTL fires. */
  class RedisStore {
    var hash: map<string, string>
    var failures: Option<string>

    /** The numeric fields hold decimal numbers, or nothing where the service writes nothing. */
    predicate Valid()
      reads this
    {
      && (forall f | f in hash && (f == "opened_at_ms" || f == "open_until_ms") :: hash[f] == "" || IsDecimal(hash[f]))
      && ("probe_in_flight" in hash ==> IsDecimal(hash["probe_in_flight"]))
      && (failures.Some? ==> IsDecimal(failures.value))
    }

    /** raw ? Number(raw) : null */
    function TimeField(f: string): Option<nat>
      requires Valid() && (f == "opened_at_ms" || f == "open_until_ms")
      reads this
    {
      if f in hash && hash[f] != "" then Some(Parse(hash[f])) else None
    }

    function StateField(): State
      reads this
    {
      if "state" in hash && hash["state"] == "OPEN" then Open
      else if "state" in hash && hash["state"] == "HALF_OPEN" then HalfOpen
      else Closed
    }

    function GetSnapshot(): Snapshot
      requires Valid()
      reads this
    {
      Snapshot(StateField(), TimeField("opened_at_ms"), TimeField("open_until_ms"),
               if "probe_in_flight" in hash then Parse(hash["probe_in_flight"]) else 0,
               if failures.Some? then Parse(failures.value) else 0)
    }

    constructor ()
      ensures Valid() && GetSnapshot() == INITIAL
    {
      hash, failures := map[], None;
    }

    /** INCR. */
    method IncrementFailureCount() returns (count: nat)
      requires Valid()
      modifies this`failures
      ensures Valid() && GetSnapshot() == Increment(old(GetSnapshot())) && count == GetSnapshot().failures
    {
      count := (if failures.Some? then Parse(failures.value) else 0) + 1;
      ParsePrint(count);
      failures := Some(Print(count));
    }

    /** DEL. */
    method ResetFailureCount()
      requires Valid()
      modifies this`failures
      ensures Valid() && GetSnapshot() == ResetFailures(old(GetSnapshot()))
    {
      failures := None;
    }

    /** HSET of the four fields. */
    method SetFields(state: string, openedAt: string, openUntil: string)
      requires (openedAt == "" || IsDecimal(openedAt)) && (openUntil == "" || IsDecimal(openUntil)) && Valid()
      modifies this`hash
      ensures hash
         == old(hash)["state" := state]["opened_at_ms" := openedAt]
              ["open_until_ms" := openUntil]["probe_in_flight" := "0"]
      ensures Valid() && GetSnapshot().probes == 0
    {
      hash := hash["state" := state]["opened_at_ms" := openedAt]
                  ["open_until_ms" := openUntil]["probe_in_flight" := "0"];
      ParsePrint(0);
      assert Print(0) == "0";
    }

    method TransitionToOpen(now: nat, openSeconds: int)
      requires Valid()
      modifies this
      ensures Valid() && GetSnapshot() == ToOpen(now, openSeconds)
    {
      var until := now + AtLeast1(openSeconds) * 1000;
      ParsePrint(now);
      ParsePrint(until);
      SetFields("OPEN", Print(now), Print(until));
      ResetFailureCount();
    }

    method TransitionToHalfOpen()
      requires Valid()
      modifies this
      ensures Valid() && GetSnapshot() == ToHalfOpen(old(GetSnapshot()))
    {
      var existing := if "opened_at_ms" in hash then hash["opened_at_ms"] else "";
      SetFields("HALF_OPEN", existing, "");
    }

    method TransitionToClosed()
      requires Valid()
      modifies this
      ensures Valid() && GetSnapshot() == INITIAL
    {
      SetFields("CLOSED", "", "");
      ResetFailureCount();
    }

    /** The script: compare, then HINCRBY. */
    method TryAcquireProbe(limit: int) returns (acquired: bool)
      requires Valid()
      modifies this`hash
      ensures Valid() && (GetSnapshot(), acquired) == TryProbe(old(GetSnapshot()), limit)
    {
      var current := if "probe_in_flight" in hash then Parse(hash["probe_in_flight"]) else 0;
      if current >= AtLeast1(limit) { return false; }
      ParsePrint(current + 1);
      hash := hash["probe_in_flight" := Print(current + 1)];
      acquired := true;
    }
  }

  // ---- the two stores, driven by the same operations ----

  datatype Op = Incr | Reset | OpenUp(now: nat, openSeconds: int) | HalfOpenUp | CloseUp | Probe(limit: int)

  /** What an operation returns: nothing, the new failure count, or whether the probe was acquired. */
  datatype Answer = Nothing | Count(count: nat) | Acquired(acquired: bool)

  function Apply(s: Snapshot, op: Op): (Snapshot, Answer) {
    match op
    case Incr => (Increment(s), Count(s.failures + 1))
    case Reset => (ResetFailures(s), Nothing)
    case OpenUp(now, openSeconds) => (ToOpen(now, openSeconds), Nothing)
    case HalfOpenUp => (ToHalfOpen(s), Nothing)
    case CloseUp => (INITIAL, Nothing)
    case Probe(limit) => (TryProbe(s, limit).0, Acquired(TryProbe(s, limit).1))
  }

  function AfterOps(ops: seq<Op>): Snapshot {
    if ops == [] then INITIAL else Apply(AfterOps(ops[..|ops| - 1]), ops[|ops| - 1]).0
  }

  function Answers(ops: seq<Op>): seq<Answer> {
    if ops == [] then []
    else Answers(ops[..|ops| - 1]) + [Apply(AfterOps(ops[..|ops| - 1]), ops[|ops| - 1]).1]
  }

  method DriveMemory(store: InMemoryStore, op: Op) returns (answer: Answer)
    modifies store
    ensures (store.GetSnapshot(), answer) == Apply(old(store.GetSnapshot()), op)
  {
    answer := Nothing;
    match op {
      case Incr =>
        var count := store.IncrementFailureCount();
        answer := Count(count);
      case Reset => store.ResetFailureCount();
      case OpenUp(now, openSeconds) => store.TransitionToOpen(now, openSeconds);
      case HalfOpenUp => store.TransitionToHalfOpen();
      case CloseUp => store.TransitionToClosed();
      case Probe(limit) =>
        var acquired := store.TryAcquireProbe(limit);
        answer := Acquired(acquired);
    }
  }

  method DriveRedis(store: RedisStore, op: Op) returns (answer: Answer)
    requires store.Valid()
    modifies store
    ensures store.Valid() && (store.GetSnapshot(), answer) == Apply(old(store.GetSnapshot()), op)
  {
    answer := Nothing;
    match op {
      case Incr =>
        var count := store.IncrementFailureCount();
        answer := Count(count);
      case Reset => store.ResetFailureCount();
      case OpenUp(now, openSeconds) => store.TransitionToOpen(now, openSeconds);
      case HalfOpenUp => store.TransitionToHalfOpen();
      case CloseUp => store.TransitionToClosed();
      case Probe(limit) =>
        var acquired := store.TryAcquireProbe(limit);
        answer := Acquired(acquired);
    }
  }

  /**
   * Driven by the same operations, the string hash and the record give the same answer to each of them
   * and end in the same snapshot, the one the operations call for; so they do after every prefix.
   */
  method DriveBoth(ops: seq<Op>)
    returns (mem: InMemoryStore, redis: RedisStore, told: seq<Answer>, toldByRedis: seq<Answer>)
    ensures fresh(mem) && fresh(redis) && redis.Valid()
    ensures mem.GetSnapshot() == redis.GetSnapshot() == AfterOps(ops)
    ensures told == toldByRedis == Answers(ops)
  {
    mem := new InMemoryStore();
    redis := new RedisStore();
    told, toldByRedis := [], [];
    for i := 0 to |ops|
      invariant fresh(mem) && fresh(redis) && redis.Valid()
      invariant mem.GetSnapshot() == redis.GetSnapshot() == AfterOps(ops[..i])
      invariant told == toldByRedis == Answers(ops[..i])
    {
      assert ops[..i + 1][..i] == ops[..i];
      var a := DriveMemory(mem, ops[i]);
      var b := DriveRedis(redis, ops[i]);
      told, toldByRedis := told + [a], toldByRedis + [b];
    }
    assert ops[..|ops|] == ops;
  }

  /** The breaker over the string-hash store. */
  class PaymentCircuitBreaker {
    const store: RedisStore
    const cfg: Config

    constructor (store: RedisStore, cfg: Config)
      ensures this.store == store && this.cfg == cfg
    {
      this.store, this.cfg := store, cfg;
    }

    /** operations is how many operations the store still answers. */
    method EvaluateAdmission(now: nat, operations: nat) returns (admission: Admission)
      requires store.Valid()
      modifies store
      ensures store.Valid()
      ensures (store.GetSnapshot(), admission) == EvaluateWhile(old(store.GetSnapshot()), cfg, now, operations)
      ensures admission.Allowed? ==> admission.state == store.GetSnapshot().state
      decreases store.GetSnapshot().state == Open
    {
      if operations == 0 { return Unavailable(cfg); }
      var snapshot := store.GetSnapshot();
      if snapshot.state == Open {
        var openUntil := if snapshot.openUntil.Some? then snapshot.openUntil.value else now;
        if openUntil > now {
          return Rejected(Open, AtLeast1(Ceil1000(openUntil - now)), BreakerOpen);
        }
        if operations == 1 { return Unavailable(cfg); }
        store.TransitionToHalfOpen();
        admission := EvaluateAdmission(now, operations - 2);
        return;
      }
      if snapshot.state == HalfOpen {
        if operations == 1 { return Unavailable(cfg); }
        var acquired := store.TryAcquireProbe(cfg.probeLimit);
        if !acquired { return Rejected(HalfOpen, 1, ProbeLimit); }
      }
      admission := Allowed(snapshot.state);
    }

    method RecordSuccess(probe: bool, operations: nat)
      requires store.Valid()
      modifies store
      ensures store.Valid()
      ensures store.GetSnapshot() == SuccessWhile(old(store.GetSnapshot()), probe, operations)
    {
      if operations == 0 { return; }
      if probe { store.TransitionToClosed(); } else { store.ResetFailureCount(); }
    }

    method RecordFailure(now: nat, probe: bool, operations: nat)
      requires store.Valid()
      modifies store
      ensures store.Valid()
      ensures store.GetSnapshot() == FailureWhile(old(store.GetSnapshot()), cfg, now, probe, operations)
    {
      if operations == 0 { return; }
      if probe {
        store.TransitionToOpen(now, cfg.openSeconds);
        return;
      }
      var count := store.IncrementFailureCount();
      if count >= cfg.threshold && operations >= 2 { store.TransitionToOpen(now, cfg.openSeconds); }
    }
  }
}
