/** Theorems over whole runs of the registration protocol, from the empty tables. */
module RegistrationRuns {
  import opened Wrappers
  import opened Payments
  import opened Tables
  import opened SeatInvariants

  ghost predicate Reachable(db: Db) {
    exists es :: db == Run(EMPTY, es)
  }

  lemma ReachableIsGood(db: Db)
    requires Reachable(db)
    ensures Inv(db)
  {
    var es :| db == Run(EMPTY, es);
    assert Inv(EMPTY);
    RunKeeps(EMPTY, es);
  }

  lemma {:induction false} RunConcat(db: Db, es: seq<Event>, fs: seq<Event>)
    ensures Run(db, es + fs) == Run(Run(db, es), fs)
    decreases es
  {
    hide Step;
    if es == [] {
      assert es + fs == fs;
    } else {
      RunConcat(Step(db, es[0]), es[1..], fs);
      assert (es + fs)[1..] == es[1..] + fs;
    }
  }

  /**
   * No oversell: in every reachable state the two counters count the rows they stand for, and the
   * CHECK constraint on them holds without ever being needed.
   */
  lemma SeatConservation(db: Db, w: Id)
    requires Reachable(db) && w in db.workshops
    ensures db.workshops[w].reserved == |Active(db.registrations, w)|
    ensures db.workshops[w].confirmed == |ConfirmedOf(db.registrations, w)|
    ensures 0 <= db.workshops[w].confirmed <= db.workshops[w].reserved <= db.workshops[w].capacity
    ensures CountsValid(db.workshops[w])
  {
    ReachableIsGood(db);
    ConfirmedAreActive(db.registrations, w);
  }

  /** The clamp GREATEST(reserved_count - 1, 0) never acts: whoever releases a seat holds one. */
  lemma ClampNeverActs(db: Db, r: Id)
    requires Reachable(db) && Pending(db, r)
    ensures db.registrations[r].workshop in db.workshops
    ensures var w := db.workshops[db.registrations[r].workshop];
      Released(w).reserved == w.reserved - 1
  {
    ReachableIsGood(db);
    HoldsSeat(db, r);
  }

  /** The coupling that the unguarded gateway writes cannot break. */
  lemma StatusCoupling(db: Db, r: Id)
    requires Reachable(db) && r in db.registrations
    ensures r in db.payments
    ensures var p := PairOf(db, r);
      && (p.reg == PendingPayment ==> !IsTerminal(p.pay))
      && (p.pay == Completed ==> p.reg == Confirmed)
      && (p.pay == Failed ==> p.reg == Cancelled)
      && (p.pay == PaymentExpired ==> p.reg == Expired)
      && (p.pay == RequiresReview ==> p.reg != PendingPayment)
  {
    ReachableIsGood(db);
    assert Coupled(PairOf(db, r));
  }

  // ---- what later steps keep of a row ----

  /**
   * b is a later state than a: the row is still there for the same user and workshop, a settled
   * status has stayed, and its key has stayed unless the registration ended.
   */
  ghost predicate Follows(a: Db, b: Db, r: Id) {
    && r in a.registrations && r in a.payments && r in b.registrations && r in b.payments
    && var x, y := a.registrations[r], b.registrations[r];
    && x.user == y.user && x.workshop == y.workshop
    && (x.status != PendingPayment ==> y.status == x.status)
    && (b.payments[r].key == a.payments[r].key || !IsActive(y.status))
    && b.payments[r].user == a.payments[r].user && b.payments[r].workshop == a.payments[r].workshop
  }

  lemma SweepFollows(db: Db, s: set<Id>, r: Id)
    requires r in db.registrations && r in db.payments && forall x | x in s :: Pending(db, x)
    ensures Follows(db, SweepAll(db, s), r)
  {
  }

  lemma InsertFollows(db: Db, q: Request, r: Id)
    requires q.workshop in db.workshops && q.newId !in db.registrations && q.newId !in db.payments
    requires r in db.registrations && r in db.payments
    ensures Follows(db, InsertRow(db, q), r)
  {
  }

  lemma ReserveFollows(db: Db, q: Request, r: Id)
    requires r in db.registrations && r in db.payments
    ensures Follows(db, Reserve(db, q).0, r)
  {
    hide InsertRow, ActiveRow, KeyTaken;
    if q.workshop in db.workshops && q.newId !in db.registrations && q.newId !in db.payments {
      InsertFollows(db, q, r);
    }
  }

  lemma ResultFollows(db: Db, c: Id, mapped: PaymentStatus, r: Id)
    requires Inv(db) && c in db.registrations && r in db.registrations
    ensures Follows(db, ApplyProviderResult(db, c, mapped), r)
  {
    ResultIsChange(db, c, mapped);
    hide ApplyProviderResult, Seats, OneActive, UniqueKeys, AllCoupled, EventsOnce;
  }

  lemma DeliverFollows(db: Db, order: Order, amount: Option<int>, code: string, r: Id)
    requires Inv(db) && r in db.registrations
    ensures Follows(db, Deliver(db, order, amount, code), r)
  {
    var row := OrderRow(db, order);
    if row.Some? {
      ResultFollows(db, row.value, MapResultCode(code), r);
      hide ApplyProviderResult, OrderRow, MapResultCode;
    }
  }

  lemma KeyFollows(db: Db, c: Id, key: string, tag: string, r: Id)
    requires r in db.registrations && r in db.payments
    ensures Follows(db, ReleaseKey(db, c, key, tag), r)
  {
  }

  lemma AnswerFollows(db: Db, c: Id, order: Order, url: Option<string>, r: Id)
    requires r in db.registrations && r in db.payments
    ensures Follows(db, WriteAnswer(db, c, order, url), r)
  {
  }

  lemma StepFollows(db: Db, e: Event, r: Id)
    requires Inv(db) && r in db.registrations
    ensures Follows(db, Step(db, e), r)
  {
    assert r in db.payments;
    hide Inv, SweepAll, ReleaseKey, Reserve, Deliver, WriteAnswer;
    match e
    case Sweep(now, locked) => SweepFollows(db, StaleRows(db, now, locked), r);
    case KeyReleased(c, key, tag) => KeyFollows(db, c, key, tag, r);
    case Reservation(q) => ReserveFollows(db, q, r);
    case ProviderResult(order, amount, code) => DeliverFollows(db, order, amount, code, r);
    case GatewayAnswered(c, order, url) => AnswerFollows(db, c, order, url, r);
    case _ =>
  }

  /** Confirmed, cancelled and expired are absorbing, and an active registration keeps its key. */
  lemma {:induction false} RunFollows(db: Db, es: seq<Event>, r: Id)
    requires Inv(db) && r in db.registrations
    ensures Follows(db, Run(db, es), r)
    decreases es
  {
    if es != [] {
      StepKeeps(db, es[0]);
      StepFollows(db, es[0], r);
      RunFollows(Step(db, es[0]), es[1..], r);
    }
  }

  lemma SettledIsAbsorbing(db: Db, es: seq<Event>, r: Id)
    requires Reachable(db) && r in db.registrations && db.registrations[r].status != PendingPayment
    ensures r in Run(db, es).registrations
    ensures Run(db, es).registrations[r].status == db.registrations[r].status
  {
    ReachableIsGood(db);
    RunFollows(db, es, r);
  }

  // ---- confirmation events ----

  ghost function ConfirmedEvents(db: Db, w: Id): set<Id> {
    set r | r in db.confirmations && r in db.registrations && db.registrations[r].workshop == w
  }

  /**
   * Over any interleaving of duplicated or reordered callbacks, reconciliations and sweeps, a
   * registration is announced at most once, and exactly when it is confirmed; confirmed_count is
   * the number of announcements.
   */
  lemma SingleConfirmation(db: Db, r: Id, w: Id)
    requires Reachable(db) && w in db.workshops
    ensures db.confirmations[r] <= 1
    ensures db.confirmations[r] == 1 <==> r in db.registrations && db.registrations[r].status == Confirmed
    ensures db.workshops[w].confirmed == |ConfirmedEvents(db, w)|
  {
    ReachableIsGood(db);
    assert r in db.confirmations ==> r in db.registrations;
    forall x ensures x in ConfirmedEvents(db, w) <==> x in ConfirmedOf(db.registrations, w) {}
    assert ConfirmedEvents(db, w) == ConfirmedOf(db.registrations, w);
    assert |Active(db.registrations, w)| == db.workshops[w].reserved;
  }

  // ---- the coupling the design wants, and exactly when it survives ----

  ghost predicate AllSettled(db: Db) {
    forall r | r in db.registrations && r in db.payments :: Settled(PairOf(db, r))
  }

  lemma SweptPair(db: Db, s: set<Id>, r: Id)
    requires r in db.registrations && r in db.payments && Coupled(PairOf(db, r)) && Settled(PairOf(db, r))
    requires r in s ==> Pending(db, r)
    ensures Settled(PairOf(SweepAll(db, s), r))
  {
    hide OfWorkshop;
  }

  lemma SweepSettles(db: Db, s: set<Id>)
    requires Inv(db) && AllSettled(db) && forall x | x in s :: Pending(db, x)
    ensures AllSettled(SweepAll(db, s))
  {
    hide Settled, Coupled, OfWorkshop, Expire, Seats, OneActive, UniqueKeys, EventsOnce, CallsKnown, Pending;
    var db2 := SweepAll(db, s);
    forall r | r in db2.registrations && r in db2.payments ensures Settled(PairOf(db2, r)) {
      assert Settled(PairOf(db, r)) && Coupled(PairOf(db, r));
      SweptPair(db, s, r);
    }
  }

  lemma ResultKeepsSettled(p: Pair, mapped: PaymentStatus)
    requires Coupled(p) && Settled(p)
    ensures Settled(ApplyResult(p, mapped))
  {
  }

  lemma ResultSettles(db: Db, c: Id, mapped: PaymentStatus)
    requires Inv(db) && AllSettled(db) && c in db.registrations
    ensures AllSettled(ApplyProviderResult(db, c, mapped))
  {
    hide ApplyProviderResult, ApplyResult, Coupled, Settled, Seats, OneActive, UniqueKeys, EventsOnce, CallsKnown,
         Recount;
    var db2 := ApplyProviderResult(db, c, mapped);
    ResultIsChange(db, c, mapped);
    ResultKeepsSettled(PairOf(db, c), mapped);
    forall r | r in db2.registrations && r in db2.payments ensures Settled(PairOf(db2, r)) {
      assert Settled(PairOf(db, r));
      assert r != c ==> PairOf(db2, r) == PairOf(db, r);
    }
  }

  lemma DeliverSettles(db: Db, order: Order, amount: Option<int>, code: string)
    requires Inv(db) && AllSettled(db)
    ensures AllSettled(Deliver(db, order, amount, code))
  {
    hide ApplyProviderResult, AllSettled, MapResultCode, Inv;
    var row := OrderRow(db, order);
    if row.Some? && row.value in db.registrations { ResultSettles(db, row.value, MapResultCode(code)); }
  }

  lemma InsertSettles(db: Db, q: Request)
    requires AllSettled(db) && q.workshop in db.workshops
    requires q.newId !in db.registrations && q.newId !in db.payments
    ensures AllSettled(InsertRow(db, q))
  {
    var db2 := InsertRow(db, q);
    forall r | r in db2.registrations && r in db2.payments ensures Settled(PairOf(db2, r)) {
      assert r != q.newId ==> PairOf(db2, r) == PairOf(db, r);
    }
  }

  lemma ReserveSettles(db: Db, q: Request)
    requires AllSettled(db)
    ensures AllSettled(Reserve(db, q).0)
  {
    hide InsertRow, ActiveRow, KeyTaken;
    if q.workshop in db.workshops && q.newId !in db.registrations && q.newId !in db.payments { InsertSettles(db, q); }
    forall r ensures AllSettled(StartRecovery(db, r)) {
      var db2 := StartRecovery(db, r);
      forall x | x in db2.registrations && x in db2.payments ensures Settled(PairOf(db2, x)) {
        assert PairOf(db2, x) == PairOf(db, x);
      }
    }
  }

  /** A gateway answer keeps the row settled exactly when it finds the registration still pending. */
  lemma AnswerSettles(db: Db, r: Id, order: Order, url: Option<string>)
    requires Inv(db) && AllSettled(db) && r in db.inFlight && order.reg == r
    ensures r in db.registrations
    ensures AllSettled(WriteAnswer(db, r, order, url)) <==> db.registrations[r].status == PendingPayment
  {
    var db2 := WriteAnswer(db, r, order, url);
    assert !Settled(PairOf(db2, r)) || db.registrations[r].status == PendingPayment;
    if db.registrations[r].status == PendingPayment {
      forall x | x in db2.registrations && x in db2.payments ensures Settled(PairOf(db2, x)) {
        assert Settled(PairOf(db, x));
      }
    }
  }

  /** A gateway answer that arrives after its registration was settled by another transaction. */
  predicate LateAnswer(db: Db, e: Event) {
    && e.GatewayAnswered?
    && e.reg in db.inFlight && e.order.reg == e.reg && e.reg in db.payments && e.reg in db.registrations
    && db.registrations[e.reg].status != PendingPayment
  }

  lemma AnswerOnTime(db: Db, r: Id, order: Order, url: Option<string>)
    requires Inv(db) && AllSettled(db)
    ensures AllSettled(WriteAnswer(db, r, order, url)) <==> !LateAnswer(db, GatewayAnswered(r, order, url))
  {
    hide AllSettled;
    if r in db.inFlight && order.reg == r { AnswerSettles(db, r, order, url); }
  }

  lemma KeySettles(db: Db, r: Id, key: string, tag: string)
    requires AllSettled(db)
    ensures AllSettled(ReleaseKey(db, r, key, tag))
  {
    var db2 := ReleaseKey(db, r, key, tag);
    forall x | x in db2.registrations && x in db2.payments ensures Settled(PairOf(db2, x)) {
      assert Settled(PairOf(db, x));
    }
  }

  /**
   * A confirmed registration has a completed payment, and a released one a failed, expired or
   * reviewed one, after a step if and only if the step is not a late gateway answer.
   */
  lemma SettledUnlessLate(db: Db, e: Event)
    requires Inv(db) && AllSettled(db)
    ensures AllSettled(Step(db, e)) <==> !LateAnswer(db, e)
  {
    hide SweepAll, ReleaseKey, Reserve, Deliver, WriteAnswer, Settled, Inv, StaleRows;
    match e
    case Sweep(now, locked) =>
      StaleArePending(db, now, locked);
      SweepSettles(db, StaleRows(db, now, locked));
    case Reservation(q) => ReserveSettles(db, q);
    case ProviderResult(order, amount, code) => DeliverSettles(db, order, amount, code);
    case GatewayAnswered(r, order, url) => AnswerOnTime(db, r, order, url);
    case KeyReleased(r, key, tag) => KeySettles(db, r, key, tag);
    case _ =>
  }

  /** The first n steps of es contain no late gateway answer. */
  ghost predicate NoLateAnswer(db: Db, es: seq<Event>)
    decreases es
  {
    es == [] || (!LateAnswer(db, es[0]) && NoLateAnswer(Step(db, es[0]), es[1..]))
  }

  lemma {:induction false} RunSettles(db: Db, es: seq<Event>)
    requires Inv(db) && AllSettled(db) && NoLateAnswer(db, es)
    ensures AllSettled(Run(db, es))
    decreases es
  {
    if es != [] {
      StepKeeps(db, es[0]);
      SettledUnlessLate(db, es[0]);
      RunSettles(Step(db, es[0]), es[1..]);
    }
  }

  // ---- provider results on one row, over the tables ----

  function ApplyAll(db: Db, r: Id, rs: seq<PaymentStatus>): (db2: Db)
    requires r in db.registrations && r in db.payments && db.registrations[r].workshop in db.workshops
    ensures r in db2.registrations && r in db2.payments && db2.workshops.Keys == db.workshops.Keys
    decreases rs
  {
    if rs == [] then db
    else
      var once := ApplyProviderResult(db, r, rs[0]);
      assert r in once.registrations && once.registrations[r].workshop == db.registrations[r].workshop;
      ApplyAll(once, r, rs[1..])
  }

  lemma OneResult(db: Db, r: Id, mapped: PaymentStatus)
    requires Inv(db) && r in db.registrations
    ensures r in db.payments && db.registrations[r].workshop in db.workshops
    ensures var once := ApplyProviderResult(db, r, mapped);
      && r in once.registrations && r in once.payments && db.registrations[r].workshop in once.workshops
      && PairOf(once, r) == ApplyResult(PairOf(db, r), mapped)
      && Inv(once)
      && once.registrations == db.registrations[r := db.registrations[r].(status := once.registrations[r].status)]
  {
    ResultIsChange(db, r, mapped);
    ResultKeeps(db, r, mapped);
    hide Seats, OneActive, UniqueKeys, AllCoupled, EventsOnce, CallsKnown, Coupled, ApplyResult, ApplyProviderResult;
  }

  lemma {:induction false} ApplyAllIsChange(db: Db, r: Id, rs: seq<PaymentStatus>)
    requires Inv(db) && r in db.registrations && r in db.payments && db.registrations[r].workshop in db.workshops
    ensures var db2 := ApplyAll(db, r, rs);
      && PairOf(db2, r) == ApplyResults(PairOf(db, r), rs)
      && Inv(db2)
      && db2.registrations == db.registrations[r := db.registrations[r].(status := db2.registrations[r].status)]
    decreases rs
  {
    hide Inv, ApplyResult, ApplyProviderResult;
    if rs == [] {
      assert db.registrations == db.registrations[r := db.registrations[r]];
    } else {
      OneResult(db, r, rs[0]);
      ApplyAllIsChange(ApplyProviderResult(db, r, rs[0]), r, rs[1..]);
    }
  }

  /** When one pending row changes its status, the counters can only have followed it. */
  lemma CountsFollowStatus(db: Db, db2: Db, r: Id)
    requires Seats(db.workshops, db.registrations) && Seats(db2.workshops, db2.registrations)
    requires Pending(db, r) && r in db2.registrations
    requires db2.registrations == db.registrations[r := db.registrations[r].(status := db2.registrations[r].status)]
    requires db.registrations[r].workshop in db.workshops && db.registrations[r].workshop in db2.workshops
    ensures var w, got := db.registrations[r].workshop, db2.registrations[r].status;
      && db2.workshops[w].reserved == db.workshops[w].reserved - (if IsActive(got) then 0 else 1)
      && db2.workshops[w].confirmed == db.workshops[w].confirmed + (if got == Confirmed then 1 else 0)
  {
    var w, got := db.registrations[r].workshop, db2.registrations[r].status;
    OneRowMoves(db.registrations, r, got, w);
    assert r in Active(db.registrations, w) && r !in ConfirmedOf(db.registrations, w);
    assert Active(db.registrations, w) + {r} == Active(db.registrations, w);
    assert ConfirmedOf(db.registrations, w) - {r} == ConfirmedOf(db.registrations, w);
    assert db2.workshops[w].reserved == |Active(db2.registrations, w)|;
  }

  /**
   * Any sequence of results for a pending registration settles it by its first conclusive result,
   * gives back at most its own seat and confirms at most once.
   */
  lemma ResultsOnPendingRow(db: Db, r: Id, rs: seq<PaymentStatus>)
    requires Inv(db) && Pending(db, r) && r in db.payments && db.registrations[r].workshop in db.workshops
    ensures
      var k, db2, w := FirstConclusive(rs), ApplyAll(db, r, rs), db.registrations[r].workshop;
      && PairOf(db2, r) == (
           if rs == [] then PairOf(db, r)
           else if k == |rs| then Pair(PendingPayment, Unknown)
           else if rs[k] == Completed then Pair(Confirmed, Completed)
           else Pair(if rs[k] == Failed then Cancelled else Expired,
                     if Completed in rs[k + 1..] then RequiresReview else rs[k]))
      && db2.workshops[w].reserved == db.workshops[w].reserved - (if k < |rs| && rs[k] != Completed then 1 else 0)
      && db2.workshops[w].confirmed == db.workshops[w].confirmed + (if k < |rs| && rs[k] == Completed then 1 else 0)
  {
    HoldsSeat(db, r);
    FirstConclusiveDecides(PairOf(db, r), rs);
    ApplyAllIsChange(db, r, rs);
    hide Wired, Seats, OneActive, UniqueKeys, AllCoupled, EventsOnce, CallsKnown, ApplyAll, ApplyResults;
    CountsFollowStatus(db, ApplyAll(db, r, rs), r);
  }

  /** Delivering a result a second time at once changes no status, no counter and no event. */
  lemma ResultIsIdempotent(db: Db, r: Id, mapped: PaymentStatus)
    requires r in db.registrations && r in db.payments && db.registrations[r].workshop in db.workshops
    requires Coupled(PairOf(db, r))
    ensures var once := ApplyProviderResult(db, r, mapped);
      && r in once.registrations && r in once.payments && once.registrations[r].workshop in once.workshops
      && ApplyProviderResult(once, r, mapped) == once
  {
    var once := ApplyProviderResult(db, r, mapped);
    assert once.registrations[r := once.registrations[r]] == once.registrations;
    assert once.payments[r := once.payments[r]] == once.payments;
  }

  /** An order id leads to at most one payment: the one of the registration it names. */
  lemma OrderFindsItsRow(db: Db, order: Order, r: Id)
    requires Inv(db) && IsOrderRow(db, order, r)
    ensures OrderRow(db, order) == Some(r) && r == order.reg
  {
    assert OrderRow(db, order).Some?;
  }

  /** A callback is obeyed only with the amount that was asked; another amount changes nothing. */
  lemma WrongAmountChangesNothing(db: Db, order: Order, amount: int, code: string, r: Id)
    requires Inv(db) && IsOrderRow(db, order, r)
    ensures amount != db.payments[r].amount ==> Deliver(db, order, Some(amount), code) == db
    ensures amount == db.payments[r].amount ==>
      r in db.registrations && db.registrations[r].workshop in db.workshops
      && Deliver(db, order, Some(amount), code) == ApplyProviderResult(db, r, MapResultCode(code))
  {
    OrderFindsItsRow(db, order, r);
    hide ApplyProviderResult, MapResultCode, Seats, AllCoupled, OneActive, UniqueKeys, EventsOnce, CallsKnown;
  }

  // ---- a reservation keeps its seat for its term ----

  ghost predicate HeldUntil(db: Db, r: Id, term: int) {
    Pending(db, r) && db.registrations[r].expiresAt == Some(term)
  }

  /** No sweep of a time after the term, and no result for an order of r. */
  predicate Spares(e: Event, r: Id, term: int) {
    (e.Sweep? ==> e.now <= term) && (e.ProviderResult? ==> e.order.reg != r)
  }

  lemma SweepSpares(db: Db, now: int, locked: set<Id>, r: Id, term: int)
    requires HeldUntil(db, r, term) && now <= term
    ensures HeldUntil(SweepAll(db, StaleRows(db, now, locked)), r, term)
  {
  }

  lemma DeliverSpares(db: Db, order: Order, amount: Option<int>, code: string, r: Id, term: int)
    requires Inv(db) && HeldUntil(db, r, term) && order.reg != r
    ensures HeldUntil(Deliver(db, order, amount, code), r, term)
  {
    hide ApplyProviderResult, MapResultCode, Seats, AllCoupled, OneActive, UniqueKeys, EventsOnce, CallsKnown, Recount;
    var row := OrderRow(db, order);
    if row.Some? && row.value in db.registrations {
      OrderFindsItsRow(db, order, row.value);
      ResultIsChange(db, row.value, MapResultCode(code));
    }
  }

  lemma StepSpares(db: Db, e: Event, r: Id, term: int)
    requires Inv(db) && HeldUntil(db, r, term) && Spares(e, r, term)
    ensures HeldUntil(Step(db, e), r, term)
  {
    hide Inv, SweepAll, StaleRows, Deliver, ActiveRow, KeyTaken;
    match e
    case Sweep(now, locked) => SweepSpares(db, now, locked, r, term);
    case ProviderResult(order, amount, code) => DeliverSpares(db, order, amount, code, r, term);
    case _ =>
  }

  lemma {:induction false} RunSpares(db: Db, es: seq<Event>, r: Id, term: int)
    requires Inv(db) && HeldUntil(db, r, term) && forall e <- es :: Spares(e, r, term)
    ensures HeldUntil(Run(db, es), r, term)
    decreases es
  {
    hide Inv, HeldUntil, Step, Spares;
    if es != [] {
      assert es[0] in es && forall e <- es[1..] :: e in es;
      StepKeeps(db, es[0]);
      StepSpares(db, es[0], r, term);
      RunSpares(Step(db, es[0]), es[1..], r, term);
    }
  }

  lemma NewIsHeld(db: Db, q: Request)
    requires q.newId !in db.registrations && Reserve(db, q).1 == Created(q.newId, PendingPayment)
    ensures HeldUntil(Reserve(db, q).0, q.newId, q.now + q.ttlMinutes * 60_000)
  {
    hide KeyTaken;
  }

  /**
   * A paid reservation keeps its seat for its term: over any run without a result for its own order and
   * without a sweep after the term it stays pending, and then a sweep expires it exactly when its clock
   * is past the term and the row is not locked.
   */
  lemma SeatIsKeptForItsTerm(db: Db, q: Request, es: seq<Event>, now: int, locked: set<Id>)
    requires Inv(db) && q.newId !in db.registrations && Reserve(db, q).1 == Created(q.newId, PendingPayment)
    requires forall e <- es :: Spares(e, q.newId, q.now + q.ttlMinutes * 60_000)
    ensures var later := Run(Reserve(db, q).0, es);
      && Pending(later, q.newId)
      && (q.newId in StaleRows(later, now, locked) <==> now > q.now + q.ttlMinutes * 60_000 && q.newId !in locked)
  {
    NewIsHeld(db, q);
    ReserveKeeps(db, q);
    hide Inv, Reserve, Run, Spares;
    RunSpares(Reserve(db, q).0, es, q.newId, q.now + q.ttlMinutes * 60_000);
  }
}
