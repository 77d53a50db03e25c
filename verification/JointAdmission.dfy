/** The waiting room beside the registration tables: one bound over tokens and reserved seats. */
module JointAdmission {
  import opened Wrappers
  import opened Sets
  import opened Payments
  import opened Tables
  import opened SeatInvariants
  import opened RegistrationRuns
  import opened IdempotentCreate
  import opened WaitingRooms

  /** The tables, the waiting room of workshop w, and the one clock both are read with. */
  datatype Joint = Joint(db: Db, room: Room, now: int)

  datatype JointEvent =
    | Tick(to: int)
    | Elsewhere(e: Event)
    | Ask(user: UserId, drawn: Token)
    | Register(q: Request, token: Option<Token>, underLimit: bool)

  /** A reservation of w; under peak control it happens only behind a consumed token. */
  predicate Reserves(e: Event, w: Id) {
    e.Reservation? && e.q.workshop == w
  }

  predicate LowersCapacity(db: Db, e: Event, w: Id) {
    e.WorkshopEdited? && e.w == w && w in db.workshops && e.capacity < db.workshops[w].capacity
  }

  ghost function JointStep(j: Joint, e: JointEvent, w: Id, cfg: Config): Joint {
    match e
    case Tick(to) => if to >= j.now then j.(now := to) else j
    case Elsewhere(e) => if Reserves(e, w) || LowersCapacity(j.db, e, w) then j else j.(db := Step(j.db, e))
    case Ask(u, drawn) =>
      if w !in j.db.workshops || j.db.workshops[w].status != Published || drawn in j.room.issued then j
      else
        var row := j.db.workshops[w];
        j.(room := RequestAdmission(j.room, cfg, u, j.now, row.capacity, row.reserved, drawn).0)
    case Register(q, token, underLimit) =>
      if q.workshop != w then j else
      var (room, verdict) := Validate(j.room, cfg, q.user, token, j.now, underLimit);
      Joint(if verdict == Accepted then Create(j.db, q).0 else j.db, room, j.now)
  }

  ghost function JointRun(j: Joint, es: seq<JointEvent>, w: Id, cfg: Config): Joint
    decreases es
  {
    if es == [] then j else JointRun(JointStep(j, es[0], w, cfg), es[1..], w, cfg)
  }

  /** Live tokens and reserved seats fit in the capacity and the buffer. */
  ghost predicate WithinBudget(j: Joint, w: Id, cfg: Config) {
    w in j.db.workshops
    && |Live(j.room, j.now)| + j.db.workshops[w].reserved <= j.db.workshops[w].capacity + cfg.bufferSeats
  }

  ghost predicate JointInv(j: Joint, w: Id, cfg: Config) {
    Inv(j.db) && Agrees(j.room, j.now) && WithinBudget(j, w, cfg)
  }

  // ---- what a registration step does to the counters of w ----

  /** Between two states no seat of w was taken and its capacity did not shrink. */
  ghost predicate NoSeatTaken(a: Db, b: Db, w: Id) {
    && w in a.workshops && w in b.workshops
    && b.workshops[w].reserved <= a.workshops[w].reserved
    && b.workshops[w].capacity >= a.workshops[w].capacity
  }

  lemma ChangeTakesNoSeat(a: Db, b: Db, r: Id, w: Id)
    requires RowChange(a, b, r) && w in a.workshops
    ensures NoSeatTaken(a, b, w)
  {
  }

  lemma OrderRowHere(db: Db, order: Order)
    requires Inv(db)
    ensures OrderRow(db, order).Some? ==> OrderRow(db, order).value in db.registrations
  {
  }

  lemma DeliverTakesNoSeat(db: Db, order: Order, amount: Option<int>, code: string, w: Id)
    requires Inv(db) && w in db.workshops
    ensures NoSeatTaken(db, Deliver(db, order, amount, code), w)
  {
    hide Wired, CallsKnown, Seats, AllCoupled, OneActive, UniqueKeys, EventsOnce, OrderRow, ApplyProviderResult,
         RowChange;
    var row := OrderRow(db, order);
    OrderRowHere(db, order);
    if row.Some? {
      ResultIsChange(db, row.value, MapResultCode(code));
      ChangeTakesNoSeat(db, ApplyProviderResult(db, row.value, MapResultCode(code)), row.value, w);
    }
  }

  lemma SweepTakesNoSeat(db: Db, s: set<Id>, w: Id)
    requires w in db.workshops
    ensures NoSeatTaken(db, SweepAll(db, s), w)
  {
  }

  lemma ReserveTakesNoOtherSeat(db: Db, q: Request, w: Id)
    requires w in db.workshops && w != q.workshop
    ensures NoSeatTaken(db, Reserve(db, q).0, w)
  {
    hide KeyTaken, ActiveRow;
  }

  lemma StepTakesNoSeat(db: Db, e: Event, w: Id)
    requires Inv(db) && w in db.workshops && !Reserves(e, w) && !LowersCapacity(db, e, w)
    ensures NoSeatTaken(db, Step(db, e), w)
  {
    hide Inv, SweepAll, Deliver, Reserve, KeyTaken;
    match e
    case Sweep(now, locked) => SweepTakesNoSeat(db, StaleRows(db, now, locked), w);
    case Reservation(q) => ReserveTakesNoOtherSeat(db, q, w);
    case ProviderResult(order, amount, code) => DeliverTakesNoSeat(db, order, amount, code, w);
    case _ =>
  }

  lemma ReserveTakesAtMostOne(db: Db, q: Request, w: Id)
    requires w in db.workshops
    ensures var db2 := Reserve(db, q).0;
      w in db2.workshops && db2.workshops[w].reserved <= db.workshops[w].reserved + 1
      && db2.workshops[w].capacity == db.workshops[w].capacity
  {
    hide KeyTaken, ActiveRow;
  }

  lemma SweepKeepsCapacity(db: Db, s: set<Id>, w: Id)
    requires w in db.workshops
    ensures w in SweepAll(db, s).workshops && SweepAll(db, s).workshops[w].capacity == db.workshops[w].capacity
  {
  }

  lemma CreateTakesAtMostOne(db: Db, q: Request, w: Id)
    requires w in db.workshops
    ensures var db2 := Create(db, q).0;
      w in db2.workshops && db2.workshops[w].reserved <= db.workshops[w].reserved + 1
      && db2.workshops[w].capacity == db.workshops[w].capacity
  {
    hide Reserve, SweepAll, StaleRows, KeyTaken, KeyRow;
    SweepTakesNoSeat(db, StaleRows(db, q.now, q.locked), w);
    SweepKeepsCapacity(db, StaleRows(db, q.now, q.locked), w);
    var swept := Swept(db, q);
    ReserveTakesAtMostOne(swept, q, w);
    if KeyRow(swept, q.key).Some? {
      ReserveTakesAtMostOne(ReleaseKey(swept, KeyRow(swept, q.key).value, q.key, q.tag), q, w);
    }
  }

  // ---- the joint bound ----

  lemma CreateKeeps(db: Db, q: Request)
    requires Inv(db)
    ensures Inv(Create(db, q).0)
  {
    hide Inv, Create, Run;
    var es := CreateIsRun(db, q);
    RunKeeps(db, es);
  }

  lemma RegisterKeeps(j: Joint, q: Request, token: Option<Token>, underLimit: bool, w: Id, cfg: Config)
    requires JointInv(j, w, cfg)
    ensures JointInv(JointStep(j, Register(q, token, underLimit), w, cfg), w, cfg)
  {
    hide Inv, Agrees, Create, Validate, Live;
    ValidateKeeps(j.room, cfg, q.user, token, j.now, underLimit);
    ValidateSpends(j.room, cfg, q.user, token, j.now, underLimit);
    CreateKeeps(j.db, q);
    CreateTakesAtMostOne(j.db, q, w);
  }

  lemma AskKeeps(j: Joint, u: UserId, drawn: Token, w: Id, cfg: Config)
    requires JointInv(j, w, cfg)
    ensures JointInv(JointStep(j, Ask(u, drawn), w, cfg), w, cfg)
  {
    hide Inv, Agrees, RequestAdmission, Live;
    var row := j.db.workshops[w];
    if drawn !in j.room.issued {
      RequestKeeps(j.room, cfg, u, j.now, row.capacity, row.reserved, drawn);
      RequestWithinBudget(j.room, cfg, u, j.now, row.capacity, row.reserved, drawn);
    }
  }

  lemma JointStepKeeps(j: Joint, e: JointEvent, w: Id, cfg: Config)
    requires JointInv(j, w, cfg)
    ensures JointInv(JointStep(j, e, w, cfg), w, cfg)
  {
    hide Inv, Agrees, RequestAdmission, Live, Create, Validate, Step;
    match e
    case Tick(to) =>
      if to >= j.now {
        TimeKeeps(j.room, j.now, to);
        CardMono(Live(j.room, to), Live(j.room, j.now));
      }
    case Elsewhere(x) =>
      if !Reserves(x, w) && !LowersCapacity(j.db, x, w) {
        StepKeeps(j.db, x);
        StepTakesNoSeat(j.db, x, w);
      }
    case Ask(u, drawn) => AskKeeps(j, u, drawn, w, cfg);
    case Register(q, token, underLimit) => RegisterKeeps(j, q, token, underLimit, w, cfg);
  }

  /**
   * From any reachable tables and an empty waiting room, over any interleaving of admissions,
   * token-backed creates, expiries and every other transaction: live tokens and reserved seats of
   * w never exceed its capacity and the buffer.
   */
  lemma {:induction false} JointRunKeeps(j: Joint, es: seq<JointEvent>, w: Id, cfg: Config)
    requires JointInv(j, w, cfg)
    ensures JointInv(JointRun(j, es, w, cfg), w, cfg)
    decreases es
  {
    hide JointInv, JointStep;
    if es != [] {
      JointStepKeeps(j, es[0], w, cfg);
      JointRunKeeps(JointStep(j, es[0], w, cfg), es[1..], w, cfg);
    }
  }

  lemma VacantAgrees(now: int)
    ensures Agrees(VACANT, now)
  {
  }

  lemma TokensAndSeatsBounded(db: Db, es: seq<JointEvent>, w: Id, cfg: Config, now: int)
    requires Reachable(db) && w in db.workshops
    ensures var j := JointRun(Joint(db, VACANT, now), es, w, cfg);
      && w in j.db.workshops
      && |Live(j.room, j.now)| + j.db.workshops[w].reserved <= j.db.workshops[w].capacity + cfg.bufferSeats
  {
    var start := Joint(db, VACANT, now);
    ReachableIsGood(db);
    SeatConservation(db, w);
    assert Live(VACANT, now) == {};
    VacantAgrees(now);
    JointRunKeeps(start, es, w, cfg);
    hide Inv, Agrees;
  }

  /** At every moment of a run no user holds two live tokens, and no holder waits. */
  lemma OneTokenPerUser(db: Db, es: seq<JointEvent>, w: Id, cfg: Config, now: int, t: Token, s: Token)
    requires Reachable(db) && w in db.workshops
    requires var j := JointRun(Joint(db, VACANT, now), es, w, cfg); t in Live(j.room, j.now) && s in Live(j.room, j.now)
    ensures var j := JointRun(Joint(db, VACANT, now), es, w, cfg);
      && t in j.room.payloads && s in j.room.payloads && j.room.payloads[t].user !in j.room.queue
      && (j.room.payloads[t].user == j.room.payloads[s].user ==> t == s)
  {
    ReachableIsGood(db);
    SeatConservation(db, w);
    assert Live(VACANT, now) == {};
    VacantAgrees(now);
    JointRunKeeps(Joint(db, VACANT, now), es, w, cfg);
    hide Inv, JointRun, Live;
    var j := JointRun(Joint(db, VACANT, now), es, w, cfg);
    OneLiveToken(j.room, j.now, t, s);
  }

  /** Once a token was accepted, no later run accepts it again. */
  lemma {:induction false} SpentForever(j: Joint, es: seq<JointEvent>, w: Id, cfg: Config, t: Token)
    requires Spent(j.room, t)
    ensures Spent(JointRun(j, es, w, cfg).room, t)
    decreases es
  {
    hide RequestAdmission, Validate, Create, Step;
    if es != [] {
      match es[0] {
        case Ask(u, drawn) =>
          if w in j.db.workshops && drawn !in j.room.issued {
            SpentAfterRequest(j.room, cfg, u, j.now, j.db.workshops[w].capacity, j.db.workshops[w].reserved, drawn, t);
          }
        case Register(q, token, underLimit) =>
          SpentAfterAttempt(j.room, cfg, q.user, token, j.now, underLimit, t);
        case _ =>
      }
      SpentForever(JointStep(j, es[0], w, cfg), es[1..], w, cfg, t);
    }
  }

  /** After an accepted registration, every later attempt with its token is turned away. */
  lemma TokenWorksOnce(j: Joint, q: Request, t: Token, es: seq<JointEvent>, w: Id, cfg: Config, v: UserId,
                       underLimit: bool)
    requires JointInv(j, w, cfg) && q.workshop == w
    requires Validate(j.room, cfg, q.user, Some(t), j.now, true).1 == Accepted
    ensures var later := JointRun(JointStep(j, Register(q, Some(t), true), w, cfg), es, w, cfg);
      Validate(later.room, cfg, v, Some(t), later.now, underLimit).1 != Accepted
  {
    var next := JointStep(j, Register(q, Some(t), true), w, cfg);
    AcceptedIsSpent(j.room, cfg, q.user, t, j.now);
    hide Inv, Agrees, Create, JointRun;
    SpentForever(next, es, w, cfg, t);
  }
}
