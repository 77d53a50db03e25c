/**
 * Admissions and creates that overlap: the snapshot of the seats, the place in the queue, the count
 * of live tokens and the issue of the token are steps of their own, and so are the consumption of a
 * token and the reservation behind it.
 */
module OverlappingAdmission {
  import opened Wrappers
  import opened Sets
  import opened Tables
  import opened SeatInvariants
  import opened RegistrationRuns
  import opened WaitingRooms
  import opened JointAdmission

  /** A request in flight, with what it has read and done so far. */
  datatype Call =
    | Looked(user: UserId, capacity: int, reserved: int)
    | Ranked(user: UserId, capacity: int, reserved: int, rank: nat)
    | Decided(user: UserId)
    | Consumed(q: Request)

  datatype Hall = Hall(db: Db, room: Room, now: int, calls: map<Id, Call>)

  datatype HallEvent =
    | Tick(to: int)
    | Elsewhere(e: Event)
    | Look(k: Id, user: UserId)
    | Queue(k: Id)
    | Decide(k: Id)
    | Issue(k: Id, drawn: Token)
    | Consume(k: Id, q: Request, token: Option<Token>, underLimit: bool)
    | Book(k: Id)
    | Drop(k: Id)

  /** The poll throttle, the two early answers, and the place in the queue. */
  function QueueCall(h: Hall, cfg: Config, k: Id, call: Call): Hall
    requires call.Looked?
  {
    var u, ended := call.user, h.calls - {k};
    if Throttled(h.room.polls, u, h.now) then h.(calls := ended) else
    var polled := h.room.(polls := h.room.polls[u := h.now + cfg.pollSeconds * 1000]);
    if call.reserved >= call.capacity || HoldsToken(polled, u, h.now) then h.(room := polled, calls := ended) else
    var queue := Joined(polled, u, h.now);
    h.(room := polled.(queue := queue),
       calls := h.calls[k := Ranked(u, call.capacity, call.reserved, Rank(queue, u))])
  }

  /** The live tokens are counted now; seats and place are those read before. */
  predicate Granted(h: Hall, cfg: Config, call: Call) {
    call.Ranked? && call.rank < Budget(call.capacity, call.reserved, cfg.bufferSeats, |Live(h.room, h.now)|)
  }

  /** Whoever is granted a token leaves the queue before the token is written. */
  function DecideCall(h: Hall, cfg: Config, k: Id, call: Call): Hall
    requires call.Ranked?
  {
    var trimmed := h.room.(active := Trim(h.room.active, h.now));
    if Granted(h, cfg, call)
    then h.(room := trimmed.(queue := trimmed.queue - {call.user}), calls := h.calls[k := Decided(call.user)])
    else h.(room := trimmed, calls := h.calls - {k})
  }

  function Hand(room: Room, u: UserId, drawn: Token, expiresAt: int): Room {
    room.(userTokens := room.userTokens[u := Grant(drawn, expiresAt)],
          payloads := room.payloads[drawn := Payload(u, expiresAt)],
          active := room.active[drawn := expiresAt],
          issued := room.issued + {drawn})
  }

  ghost function HallStep(h: Hall, e: HallEvent, w: Id, cfg: Config): Hall {
    match e
    case Tick(to) => if to >= h.now then h.(now := to) else h
    case Elsewhere(e) => if Reserves(e, w) || LowersCapacity(h.db, e, w) then h else h.(db := Step(h.db, e))
    case Look(k, u) =>
      if k in h.calls || w !in h.db.workshops || h.db.workshops[w].status != Published then h
      else h.(calls := h.calls[k := Looked(u, h.db.workshops[w].capacity, h.db.workshops[w].reserved)])
    case Queue(k) => if k in h.calls && h.calls[k].Looked? then QueueCall(h, cfg, k, h.calls[k]) else h
    case Decide(k) => if k in h.calls && h.calls[k].Ranked? then DecideCall(h, cfg, k, h.calls[k]) else h
    case Issue(k, drawn) =>
      if k !in h.calls || !h.calls[k].Decided? || drawn in h.room.issued then h
      else h.(room := Hand(h.room, h.calls[k].user, drawn, h.now + cfg.tokenTtlSeconds * 1000), calls := h.calls - {k})
    case Consume(k, q, token, underLimit) =>
      if k in h.calls || q.workshop != w then h else
      var (room, verdict) := Validate(h.room, cfg, q.user, token, h.now, underLimit);
      h.(room := room, calls := if verdict == Accepted then h.calls[k := Consumed(q)] else h.calls)
    case Book(k) =>
      if k in h.calls && h.calls[k].Consumed?
      then h.(db := Step(h.db, Reservation(h.calls[k].q)), calls := h.calls - {k}) else h
    case Drop(k) => h.(calls := h.calls - {k})
  }

  ghost function HallRun(h: Hall, es: seq<HallEvent>, w: Id, cfg: Config): Hall
    decreases es
  {
    if es == [] then h else HallRun(HallStep(h, es[0], w, cfg), es[1..], w, cfg)
  }

  // ---- what holds throughout ----

  /** A live payload has its member in the active set, and every member was drawn. */
  ghost predicate PayloadsActive(room: Room, now: int) {
    && (forall t | t in room.payloads && room.payloads[t].expiresAt > now ::
          t in room.active && room.active[t] == room.payloads[t].expiresAt)
    && room.active.Keys <= room.issued
  }

  /** No call has seen more capacity than there is, and a queued one has seen a free seat. */
  ghost predicate CallsSane(calls: map<Id, Call>, capacity: int, w: Id) {
    forall k <- calls ::
      && (calls[k].Looked? ==> calls[k].capacity <= capacity)
      && (calls[k].Ranked? ==> calls[k].reserved < calls[k].capacity <= capacity)
      && (calls[k].Consumed? ==> calls[k].q.workshop == w)
  }

  ghost predicate HallInv(h: Hall, w: Id) {
    && w in h.db.workshops
    && Inv(h.db)
    && PayloadsActive(h.room, h.now)
    && CallsSane(h.calls, h.db.workshops[w].capacity, w)
  }

  /** The call still owes a token or a seat. */
  predicate Owing(call: Call) {
    call.Decided? || call.Consumed?
  }

  ghost function Pledged(calls: map<Id, Call>): set<Id> {
    set k | k in calls && Owing(calls[k])
  }

  /** Live tokens and reserved seats. */
  ghost function Held(h: Hall, w: Id): int
    requires w in h.db.workshops
  {
    |Live(h.room, h.now)| + h.db.workshops[w].reserved
  }

  /** The capacity and the buffer. */
  ghost function Allowance(h: Hall, w: Id, cfg: Config): int
    requires w in h.db.workshops
  {
    h.db.workshops[w].capacity + cfg.bufferSeats
  }

  /** The reservation would answer with a registration of its own. */
  ghost predicate TakesSeat(db: Db, q: Request) {
    q.newId !in db.registrations && Reserve(db, q).1.Created? && Reserve(db, q).1.reg == q.newId
  }

  /** The step writes a live token, or takes a seat. */
  ghost predicate Adds(h: Hall, e: HallEvent, cfg: Config) {
    || (e.Issue? && e.k in h.calls && h.calls[e.k].Decided? && e.drawn !in h.room.issued && cfg.tokenTtlSeconds >= 1)
    || (e.Book? && e.k in h.calls && h.calls[e.k].Consumed? && TakesSeat(h.db, h.calls[e.k].q))
  }

  // ---- single steps ----

  lemma PledgeDropped(calls: map<Id, Call>, k: Id)
    ensures |Pledged(calls - {k})| == |Pledged(calls)| - if k in Pledged(calls) then 1 else 0
  {
    hide Owing;
    assert Pledged(calls - {k}) == Pledged(calls) - {k};
  }

  lemma PledgeSet(calls: map<Id, Call>, k: Id, call: Call)
    requires k !in Pledged(calls)
    ensures |Pledged(calls[k := call])| == |Pledged(calls)| + if Owing(call) then 1 else 0
  {
    hide Owing;
    if Owing(call) {
      assert Pledged(calls[k := call]) == Pledged(calls) + {k};
    } else {
      assert Pledged(calls[k := call]) == Pledged(calls);
    }
  }

  lemma HandActive(room: Room, u: UserId, drawn: Token, now: int, expiresAt: int)
    requires PayloadsActive(room, now)
    ensures PayloadsActive(Hand(room, u, drawn, expiresAt), now)
  {
  }

  /** A token written adds one to the live ones, unless it is born expired. */
  lemma HandAddsOne(room: Room, u: UserId, drawn: Token, now: int, expiresAt: int)
    requires drawn !in room.active
    ensures |Live(Hand(room, u, drawn, expiresAt), now)| == |Live(room, now)| + if expiresAt > now then 1 else 0
  {
    var after := Live(Hand(room, u, drawn, expiresAt), now);
    if expiresAt > now {
      assert after == Live(room, now) + {drawn};
    } else {
      assert after == Live(room, now);
    }
  }

  lemma ConsumeSpendsOne(room: Room, cfg: Config, u: UserId, token: Option<Token>, now: int, underLimit: bool)
    requires PayloadsActive(room, now)
    ensures var (after, verdict) := Validate(room, cfg, u, token, now, underLimit);
      && PayloadsActive(after, now)
      && |Live(after, now)| == |Live(room, now)| - if verdict == Accepted then 1 else 0
  {
    var (after, verdict) := Validate(room, cfg, u, token, now, underLimit);
    if verdict == Accepted {
      assert token.value in Live(room, now);
      assert Live(after, now) == Live(room, now) - {token.value};
    } else {
      assert Live(after, now) == Live(room, now);
    }
  }

  lemma BookTakesSeat(db: Db, q: Request, w: Id)
    requires w in db.workshops && w == q.workshop
    ensures var db2 := Reserve(db, q).0;
      && w in db2.workshops && db2.workshops[w].capacity == db.workshops[w].capacity
      && db2.workshops[w].reserved == db.workshops[w].reserved + if TakesSeat(db, q) then 1 else 0
  {
    hide KeyTaken;
  }

  /** What a step did to the tables, the live tokens and the calls. */
  ghost predicate Moved(h: Hall, h2: Hall, w: Id, held: int, pledged: int)
    requires w in h.db.workshops
  {
    && HallInv(h2, w)
    && h2.db.workshops[w].capacity >= h.db.workshops[w].capacity
    && Held(h2, w) <= Held(h, w) + held
    && (held == 1 ==> Held(h2, w) == Held(h, w) + 1 && h2.db.workshops[w].capacity == h.db.workshops[w].capacity)
    && Held(h2, w) + |Pledged(h2.calls)| <= Held(h, w) + |Pledged(h.calls)| + pledged
  }

  lemma SaneWith(calls: map<Id, Call>, k: Id, call: Call, capacity: int, more: int, w: Id)
    requires CallsSane(calls, capacity, w) && capacity <= more
    ensures CallsSane(calls - {k}, more, w) && CallsSane(calls, more, w)
    ensures CallsSane(map[k := call], more, w) ==> CallsSane(calls[k := call], more, w)
  {
    assert k in map[k := call];
  }

  lemma TickMoves(h: Hall, to: int, w: Id, cfg: Config)
    requires HallInv(h, w)
    ensures Moved(h, HallStep(h, HallEvent.Tick(to), w, cfg), w, 0, 0)
  {
    hide Inv;
    if to >= h.now {
      assert Live(h.room, to) <= Live(h.room, h.now);
      CardMono(Live(h.room, to), Live(h.room, h.now));
    }
  }

  lemma ElsewhereMoves(h: Hall, e: Event, w: Id, cfg: Config)
    requires HallInv(h, w)
    ensures Moved(h, HallStep(h, HallEvent.Elsewhere(e), w, cfg), w, 0, 0)
  {
    hide Inv, Live, Step, PayloadsActive, CallsSane, Pledged;
    if !Reserves(e, w) && !LowersCapacity(h.db, e, w) {
      StepKeeps(h.db, e);
      StepTakesNoSeat(h.db, e, w);
      SaneWith(h.calls, 0, Decided(0), h.db.workshops[w].capacity, Step(h.db, e).workshops[w].capacity, w);
    }
  }

  lemma LookMoves(h: Hall, k: Id, u: UserId, w: Id, cfg: Config)
    requires HallInv(h, w)
    ensures Moved(h, HallStep(h, Look(k, u), w, cfg), w, 0, 0)
  {
    hide Inv, Live, PayloadsActive;
    if k !in h.calls {
      var row := h.db.workshops[w];
      PledgeSet(h.calls, k, Looked(u, row.capacity, row.reserved));
      SaneWith(h.calls, k, Looked(u, row.capacity, row.reserved), row.capacity, row.capacity, w);
    }
  }

  lemma QueueMoves(h: Hall, k: Id, w: Id, cfg: Config)
    requires HallInv(h, w)
    ensures Moved(h, HallStep(h, Queue(k), w, cfg), w, 0, 0)
  {
    hide Inv, Rank;
    if k in h.calls && h.calls[k].Looked? {
      var h2, capacity := HallStep(h, Queue(k), w, cfg), h.db.workshops[w].capacity;
      PledgeDropped(h.calls, k);
      SaneWith(h.calls, k, Decided(0), capacity, capacity, w);
      if k in h2.calls {
        PledgeSet(h.calls, k, h2.calls[k]);
        SaneWith(h.calls, k, h2.calls[k], capacity, capacity, w);
      }
      assert Live(h2.room, h.now) == Live(h.room, h.now);
    }
  }

  lemma DecideMoves(h: Hall, k: Id, w: Id, cfg: Config)
    requires HallInv(h, w)
    ensures Moved(h, HallStep(h, Decide(k), w, cfg), w, 0, if k in h.calls && Granted(h, cfg, h.calls[k]) then 1 else 0)
  {
    hide Inv, Budget;
    if k in h.calls && h.calls[k].Ranked? {
      var h2, capacity := HallStep(h, Decide(k), w, cfg), h.db.workshops[w].capacity;
      PledgeDropped(h.calls, k);
      PledgeSet(h.calls, k, Decided(h.calls[k].user));
      SaneWith(h.calls, k, Decided(h.calls[k].user), capacity, capacity, w);
      assert Live(h2.room, h.now) == Live(h.room, h.now);
    }
  }

  lemma IssueMoves(h: Hall, k: Id, drawn: Token, w: Id, cfg: Config)
    requires HallInv(h, w)
    ensures Moved(h, HallStep(h, Issue(k, drawn), w, cfg), w, if Adds(h, Issue(k, drawn), cfg) then 1 else 0, 0)
  {
    hide Inv, Hand, Live;
    if k in h.calls && h.calls[k].Decided? && drawn !in h.room.issued {
      var capacity := h.db.workshops[w].capacity;
      HandActive(h.room, h.calls[k].user, drawn, h.now, h.now + cfg.tokenTtlSeconds * 1000);
      HandAddsOne(h.room, h.calls[k].user, drawn, h.now, h.now + cfg.tokenTtlSeconds * 1000);
      PledgeDropped(h.calls, k);
      SaneWith(h.calls, k, Decided(0), capacity, capacity, w);
    }
  }

  lemma ConsumeMoves(h: Hall, k: Id, q: Request, token: Option<Token>, underLimit: bool, w: Id, cfg: Config)
    requires HallInv(h, w)
    ensures Moved(h, HallStep(h, Consume(k, q, token, underLimit), w, cfg), w, 0, 0)
  {
    hide Inv, Live, PayloadsActive, Validate;
    if k !in h.calls && q.workshop == w {
      var capacity := h.db.workshops[w].capacity;
      ConsumeSpendsOne(h.room, cfg, q.user, token, h.now, underLimit);
      PledgeSet(h.calls, k, Consumed(q));
      SaneWith(h.calls, k, Consumed(q), capacity, capacity, w);
    }
  }

  lemma BookMoves(h: Hall, k: Id, w: Id, cfg: Config)
    requires HallInv(h, w)
    ensures Moved(h, HallStep(h, Book(k), w, cfg), w, if Adds(h, Book(k), cfg) then 1 else 0, 0)
  {
    hide Inv, Live, PayloadsActive, Reserve, TakesSeat;
    if k in h.calls && h.calls[k].Consumed? {
      var q, capacity := h.calls[k].q, h.db.workshops[w].capacity;
      StepKeeps(h.db, Reservation(q));
      BookTakesSeat(h.db, q, w);
      PledgeDropped(h.calls, k);
      SaneWith(h.calls, k, Decided(0), capacity, capacity, w);
    }
  }

  lemma DropMoves(h: Hall, k: Id, w: Id, cfg: Config)
    requires HallInv(h, w)
    ensures Moved(h, HallStep(h, Drop(k), w, cfg), w, 0, 0)
  {
    hide Inv, Live, PayloadsActive;
    PledgeDropped(h.calls, k);
    SaneWith(h.calls, k, Decided(0), h.db.workshops[w].capacity, h.db.workshops[w].capacity, w);
  }

  ghost predicate Grants(h: Hall, e: HallEvent, cfg: Config) {
    e.Decide? && e.k in h.calls && Granted(h, cfg, h.calls[e.k])
  }

  lemma StepMoves(h: Hall, e: HallEvent, w: Id, cfg: Config)
    requires HallInv(h, w)
    ensures Moved(h, HallStep(h, e, w, cfg), w, if Adds(h, e, cfg) then 1 else 0, if Grants(h, e, cfg) then 1 else 0)
  {
    hide HallInv, HallStep, Moved, TakesSeat, Granted;
    match e
    case Tick(to) => TickMoves(h, to, w, cfg);
    case Elsewhere(e) => ElsewhereMoves(h, e, w, cfg);
    case Look(k, u) => LookMoves(h, k, u, w, cfg);
    case Queue(k) => QueueMoves(h, k, w, cfg);
    case Decide(k) => DecideMoves(h, k, w, cfg);
    case Issue(k, drawn) => IssueMoves(h, k, drawn, w, cfg);
    case Consume(k, q, token, underLimit) => ConsumeMoves(h, k, q, token, underLimit, w, cfg);
    case Book(k) => BookMoves(h, k, w, cfg);
    case Drop(k) => DropMoves(h, k, w, cfg);
  }

  // ---- the bound, and the steps that break it ----

  /** Live tokens and reserved seats fit in the capacity and the buffer. */
  ghost predicate Fits(h: Hall, w: Id, cfg: Config)
    requires w in h.db.workshops
  {
    Held(h, w) <= Allowance(h, w, cfg)
  }

  /** Nothing is left when the step adds a token or a seat. */
  ghost predicate Overfills(h: Hall, e: HallEvent, w: Id, cfg: Config)
    requires w in h.db.workshops
  {
    Adds(h, e, cfg) && Held(h, w) >= Allowance(h, w, cfg)
  }

  /**
   * A step keeps the bound if and only if it is not a token written, or a seat taken, when capacity and
   * buffer are used up: the check that was made when the admission was decided does not decide it.
   */
  lemma StepFitsUnlessFull(h: Hall, e: HallEvent, w: Id, cfg: Config)
    requires HallInv(h, w) && Fits(h, w, cfg)
    ensures HallInv(HallStep(h, e, w, cfg), w)
    ensures Fits(HallStep(h, e, w, cfg), w, cfg) <==> !Overfills(h, e, w, cfg)
  {
    hide Inv, HallStep, Adds, Held, PayloadsActive, CallsSane;
    StepMoves(h, e, w, cfg);
  }

  ghost predicate NeverOverfills(h: Hall, es: seq<HallEvent>, w: Id, cfg: Config)
    decreases es
  {
    es == [] ||
    (w in h.db.workshops && !Overfills(h, es[0], w, cfg) && NeverOverfills(HallStep(h, es[0], w, cfg), es[1..], w, cfg))
  }

  /** The bound holds at every point of a run. */
  ghost predicate AlwaysFits(h: Hall, es: seq<HallEvent>, w: Id, cfg: Config)
    decreases es
  {
    w in h.db.workshops && Fits(h, w, cfg) && (es == [] || AlwaysFits(HallStep(h, es[0], w, cfg), es[1..], w, cfg))
  }

  lemma {:induction false} RunFitsUnlessFull(h: Hall, es: seq<HallEvent>, w: Id, cfg: Config)
    requires HallInv(h, w) && Fits(h, w, cfg)
    ensures AlwaysFits(h, es, w, cfg) <==> NeverOverfills(h, es, w, cfg)
    decreases es
  {
    hide Inv, HallStep, Adds, Held, PayloadsActive, CallsSane, Overfills;
    if es != [] {
      StepFitsUnlessFull(h, es[0], w, cfg);
      if !Overfills(h, es[0], w, cfg) {
        RunFitsUnlessFull(HallStep(h, es[0], w, cfg), es[1..], w, cfg);
      }
    }
  }

  // ---- how far overlapping requests can go ----

  /**
   * What a decision has not seen: the seats taken since its snapshot, and the calls that already owe a
   * token or a seat.
   */
  ghost function Unseen(h: Hall, k: Id, w: Id): int
    requires w in h.db.workshops && k in h.calls && h.calls[k].Ranked?
  {
    h.db.workshops[w].reserved - h.calls[k].reserved + |Pledged(h.calls)|
  }

  /** No admission is granted over more than m tokens and seats that it has not seen. */
  ghost predicate OverlapsAtMost(h: Hall, es: seq<HallEvent>, w: Id, cfg: Config, m: nat)
    decreases es
  {
    es == [] ||
    (&& (w in h.db.workshops && Grants(h, es[0], cfg) ==> Unseen(h, es[0].k, w) <= m)
     && OverlapsAtMost(HallStep(h, es[0], w, cfg), es[1..], w, cfg, m))
  }

  lemma {:induction false} RunSplits(h: Hall, es: seq<HallEvent>, fs: seq<HallEvent>, w: Id, cfg: Config, m: nat)
    ensures HallRun(h, es + fs, w, cfg) == HallRun(HallRun(h, es, w, cfg), fs, w, cfg)
    ensures OverlapsAtMost(h, es + fs, w, cfg, m)
       <==> OverlapsAtMost(h, es, w, cfg, m) && OverlapsAtMost(HallRun(h, es, w, cfg), fs, w, cfg, m)
    decreases es
  {
    hide HallStep, Grants, Unseen;
    if es == [] {
      assert es + fs == fs;
    } else {
      assert (es + fs)[1..] == es[1..] + fs;
      RunSplits(HallStep(h, es[0], w, cfg), es[1..], fs, w, cfg, m);
    }
  }

  lemma OneStep(h: Hall, e: HallEvent, w: Id, cfg: Config, m: nat)
    ensures HallRun(h, [e], w, cfg) == HallStep(h, e, w, cfg)
    ensures OverlapsAtMost(h, [e], w, cfg, m) <==> (w in h.db.workshops && Grants(h, e, cfg) ==> Unseen(h, e.k, w) <= m)
  {
    hide HallStep, Grants, Unseen;
    assert [e][1..] == [];
  }

  ghost predicate FitsWith(h: Hall, w: Id, cfg: Config, m: nat)
    requires w in h.db.workshops
  {
    Held(h, w) + |Pledged(h.calls)| <= Allowance(h, w, cfg) + m
  }

  /** A grant was decided on a free place in what it has seen. */
  lemma GrantSawRoom(h: Hall, k: Id, w: Id, cfg: Config)
    requires HallInv(h, w) && k in h.calls && Granted(h, cfg, h.calls[k])
    ensures Held(h, w) + |Pledged(h.calls)| + 1 <= Allowance(h, w, cfg) + Unseen(h, k, w)
  {
    hide Inv, PayloadsActive;
    var call := h.calls[k];
    assert call.reserved < call.capacity <= h.db.workshops[w].capacity;
    assert Budget(call.capacity, call.reserved, cfg.bufferSeats, |Live(h.room, h.now)|) >= 1;
  }

  lemma StepFitsWith(h: Hall, e: HallEvent, w: Id, cfg: Config, m: nat)
    requires HallInv(h, w) && FitsWith(h, w, cfg, m)
    requires Grants(h, e, cfg) ==> Unseen(h, e.k, w) <= m
    ensures HallInv(HallStep(h, e, w, cfg), w) && FitsWith(HallStep(h, e, w, cfg), w, cfg, m)
  {
    hide Inv, HallStep, Adds, Held, PayloadsActive, CallsSane, Granted, Unseen;
    StepMoves(h, e, w, cfg);
    if Grants(h, e, cfg) { GrantSawRoom(h, e.k, w, cfg); }
  }

  lemma {:induction false} RunFitsWith(h: Hall, es: seq<HallEvent>, w: Id, cfg: Config, m: nat)
    requires HallInv(h, w) && FitsWith(h, w, cfg, m) && OverlapsAtMost(h, es, w, cfg, m)
    ensures HallInv(HallRun(h, es, w, cfg), w) && FitsWith(HallRun(h, es, w, cfg), w, cfg, m)
    decreases es
  {
    hide Inv, HallStep, FitsWith, PayloadsActive, CallsSane, Grants, Unseen;
    if es != [] {
      StepFitsWith(h, es[0], w, cfg, m);
      RunFitsWith(HallStep(h, es[0], w, cfg), es[1..], w, cfg, m);
    }
  }

  function Opening(db: Db, now: int): Hall {
    Hall(db, VACANT, now, map[])
  }

  lemma OpeningIsGood(db: Db, now: int, w: Id, cfg: Config)
    requires Reachable(db) && w in db.workshops
    ensures HallInv(Opening(db, now), w)
    ensures Fits(Opening(db, now), w, cfg) && Pledged(Opening(db, now).calls) == {}
  {
    ReachableIsGood(db);
    SeatConservation(db, w);
    assert Live(VACANT, now) == {};
    hide Inv;
  }

  /**
   * Main result: from reachable tables and an empty waiting room, over any run whose admissions are each
   * granted over at most m tokens and seats they have not seen, live tokens, reserved seats and what is
   * still owed stay within capacity + buffer + m. Without overlap m is 0.
   */
  lemma OverlapBound(db: Db, es: seq<HallEvent>, w: Id, cfg: Config, now: int, m: nat)
    requires Reachable(db) && w in db.workshops
    requires OverlapsAtMost(Opening(db, now), es, w, cfg, m)
    ensures var h := HallRun(Opening(db, now), es, w, cfg);
      && w in h.db.workshops
      && |Live(h.room, h.now)| + h.db.workshops[w].reserved + |Pledged(h.calls)|
           <= h.db.workshops[w].capacity + cfg.bufferSeats + m
  {
    hide HallRun, OverlapsAtMost, Live, Inv, PayloadsActive, CallsSane;
    OpeningIsGood(db, now, w, cfg);
    RunFitsWith(Opening(db, now), es, w, cfg, m);
  }
}
