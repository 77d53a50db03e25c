/** What every transaction keeps: seat counters, status coupling, keys, orders and confirmations. */
module SeatInvariants {
  import opened Wrappers
  import opened Sets
  import opened Payments
  import opened Tables

  type Workshops = map<Id, Workshop>
  type Registrations = map<Id, Registration>
  type PaymentRows = map<Id, Payment>

  ghost function Active(regs: Registrations, w: Id): set<Id> {
    set r | r in regs && regs[r].workshop == w && IsActive(regs[r].status)
  }

  ghost function ConfirmedOf(regs: Registrations, w: Id): set<Id> {
    set r | r in regs && regs[r].workshop == w && regs[r].status == Confirmed
  }

  /** Every registration has its workshop, its payment and an order id that names it. */
  ghost predicate Wired(ws: Workshops, regs: Registrations, pays: PaymentRows) {
    && pays.Keys == regs.Keys
    && forall r | r in regs ::
      && regs[r].workshop in ws
      && pays[r].user == regs[r].user
      && pays[r].workshop == regs[r].workshop
      && pays[r].order.reg == r
  }

  ghost predicate CallsKnown(regs: Registrations, calls: multiset<Id>) {
    forall r | r in calls :: r in regs
  }

  /** reserved_count and confirmed_count count the rows they stand for, within capacity. */
  ghost predicate Seats(ws: Workshops, regs: Registrations) {
    forall w {:trigger Active(regs, w)} | w in ws ::
      && ws[w].reserved == |Active(regs, w)|
      && ws[w].confirmed == |ConfirmedOf(regs, w)|
      && ws[w].reserved <= ws[w].capacity
  }

  ghost predicate AllCoupled(regs: Registrations, pays: PaymentRows) {
    forall r | r in regs && r in pays :: Coupled(Pair(regs[r].status, pays[r].status))
  }

  ghost predicate OneActive(regs: Registrations) {
    forall r, s | r in regs && s in regs && r != s ::
      regs[r].user == regs[s].user && regs[r].workshop == regs[s].workshop
      ==> !(IsActive(regs[r].status) && IsActive(regs[s].status))
  }

  ghost predicate UniqueKeys(pays: PaymentRows) {
    forall r, s | r in pays && s in pays && r != s :: pays[r].key != pays[s].key
  }

  ghost predicate EventsOnce(regs: Registrations, events: multiset<Id>) {
    && (forall r | r in regs :: events[r] == if regs[r].status == Confirmed then 1 else 0)
    && (forall r | r in events :: r in regs)
  }

  ghost predicate Inv(db: Db) {
    && Wired(db.workshops, db.registrations, db.payments)
    && CallsKnown(db.registrations, db.inFlight)
    && Seats(db.workshops, db.registrations)
    && AllCoupled(db.registrations, db.payments)
    && OneActive(db.registrations)
    && UniqueKeys(db.payments)
    && EventsOnce(db.registrations, db.confirmations)
  }

  // ---- counting ----

  lemma ConfirmedAreActive(regs: Registrations, w: Id)
    ensures ConfirmedOf(regs, w) <= Active(regs, w)
    ensures |ConfirmedOf(regs, w)| <= |Active(regs, w)|
  {
    CardMono(ConfirmedOf(regs, w), Active(regs, w));
  }

  /** A status change of one row moves only that row in and out of the counted sets. */
  lemma OneRowMoves(regs: Registrations, r: Id, to: RegistrationStatus, w: Id)
    requires r in regs
    ensures var regs2 := regs[r := regs[r].(status := to)];
      && Active(regs2, w) == (if w != regs[r].workshop then Active(regs, w)
                              else if IsActive(to) then Active(regs, w) + {r} else Active(regs, w) - {r})
      && ConfirmedOf(regs2, w) == (if w != regs[r].workshop then ConfirmedOf(regs, w)
                                   else if to == Confirmed then ConfirmedOf(regs, w) + {r}
                                   else ConfirmedOf(regs, w) - {r})
  {
  }

  // ---- one row at a time ----

  /** The counters of a workshop after one of its rows went from status was to status got. */
  function Recount(w: Workshop, was: RegistrationStatus, got: RegistrationStatus): Workshop {
    w.(reserved := w.reserved - if IsActive(was) && !IsActive(got) then 1 else 0,
       confirmed := w.confirmed + if was != Confirmed && got == Confirmed then 1 else 0)
  }

  /**
   * What a transaction may do to one registration and its payment: only a pending registration
   * changes its status, and counters and confirmations follow that status.
   */
  ghost predicate RowChange(db: Db, db2: Db, r: Id) {
    && r in db.registrations && r in db.payments && db.registrations[r].workshop in db.workshops
    && r in db2.registrations && r in db2.payments
    && var was, got := db.registrations[r].status, db2.registrations[r].status;
    && var w, p := db.registrations[r].workshop, db2.payments[r];
    && db2.registrations == db.registrations[r := db.registrations[r].(status := got)]
    && db2.payments == db.payments[r := db.payments[r].(order := p.order, url := p.url, status := p.status)]
    && p.order.reg == r
    && Coupled(PairOf(db2, r))
    && (was != PendingPayment ==> got == was)
    && db2.workshops == db.workshops[w := Recount(db.workshops[w], was, got)]
    && db2.confirmations
         == (if was != Confirmed && got == Confirmed then db.confirmations + multiset{r} else db.confirmations)
    && db2.inFlight <= db.inFlight
  }

  lemma ChangeSeats(ws: Workshops, regs: Registrations, r: Id, to: RegistrationStatus)
    requires Seats(ws, regs) && r in regs && regs[r].workshop in ws
    requires (IsActive(to) ==> IsActive(regs[r].status)) && (regs[r].status == Confirmed ==> to == Confirmed)
    ensures Seats(ws[regs[r].workshop := Recount(ws[regs[r].workshop], regs[r].status, to)],
                  regs[r := regs[r].(status := to)])
  {
    var ws2 := ws[regs[r].workshop := Recount(ws[regs[r].workshop], regs[r].status, to)];
    var regs2 := regs[r := regs[r].(status := to)];
    forall w | w in ws2
      ensures ws2[w].reserved == |Active(regs2, w)| && ws2[w].confirmed == |ConfirmedOf(regs2, w)|
      ensures ws2[w].reserved <= ws2[w].capacity
    {
      OneRowMoves(regs, r, to, w);
      assert w == regs[r].workshop && IsActive(regs[r].status) ==> r in Active(regs, w);
      assert r in Active(regs, w) && IsActive(to) ==> Active(regs, w) + {r} == Active(regs, w);
      assert r in Active(regs, w) ==> IsActive(regs[r].status);
      assert r in ConfirmedOf(regs, w) <==> w == regs[r].workshop && regs[r].status == Confirmed;
    }
  }

  lemma ChangeWired(db: Db, db2: Db, r: Id)
    requires Wired(db.workshops, db.registrations, db.payments) && RowChange(db, db2, r)
    ensures Wired(db2.workshops, db2.registrations, db2.payments)
  {
  }

  lemma ChangeOthers(db: Db, db2: Db, r: Id)
    requires RowChange(db, db2, r)
    requires CallsKnown(db.registrations, db.inFlight) && AllCoupled(db.registrations, db.payments)
    requires OneActive(db.registrations) && UniqueKeys(db.payments)
    ensures CallsKnown(db2.registrations, db2.inFlight) && AllCoupled(db2.registrations, db2.payments)
    ensures OneActive(db2.registrations) && UniqueKeys(db2.payments)
  {
  }

  lemma ChangeEvents(db: Db, db2: Db, r: Id)
    requires RowChange(db, db2, r) && EventsOnce(db.registrations, db.confirmations)
    ensures EventsOnce(db2.registrations, db2.confirmations)
  {
  }

  lemma ChangeKeeps(db: Db, db2: Db, r: Id)
    requires Inv(db) && RowChange(db, db2, r)
    ensures Inv(db2)
  {
    ChangeWired(db, db2, r);
    ChangeSeats(db.workshops, db.registrations, r, db2.registrations[r].status);
    ChangeOthers(db, db2, r);
    ChangeEvents(db, db2, r);
  }

  /** A pending row holds a seat, so releasing it never meets the clamp at zero. */
  lemma ReleaseIsChange(db: Db, r: Id, to: RegistrationStatus, pay: PaymentStatus)
    requires Inv(db) && Pending(db, r)
    requires (to == Cancelled && pay == Failed) || (to == Expired && pay == PaymentExpired)
    ensures RowChange(db, ReleaseRow(db, r, to, pay), r)
    ensures db.workshops[db.registrations[r].workshop].reserved >= 1
  {
    assert r in Active(db.registrations, db.registrations[r].workshop);
  }

  lemma ReleaseKeeps(db: Db, r: Id, to: RegistrationStatus, pay: PaymentStatus)
    requires Inv(db) && Pending(db, r)
    requires (to == Cancelled && pay == Failed) || (to == Expired && pay == PaymentExpired)
    ensures Inv(ReleaseRow(db, r, to, pay))
  {
    ReleaseIsChange(db, r, to, pay);
    ChangeKeeps(db, ReleaseRow(db, r, to, pay), r);
  }

  lemma ConfirmIsChange(db: Db, r: Id)
    requires Inv(db) && Pending(db, r)
    ensures RowChange(db, ConfirmRow(db, r), r)
  {
  }

  /** A write to the payment alone, of a status the registration allows. */
  lemma PayIsChange(db: Db, db2: Db, r: Id, p: Payment)
    requires Inv(db) && r in db.payments && db2.inFlight <= db.inFlight
    requires p == db.payments[r].(status := p.status, order := p.order, url := p.url)
    requires p.order.reg == r && Coupled(Pair(db.registrations[r].status, p.status))
    requires db2 == db.(payments := db.payments[r := p], inFlight := db2.inFlight)
    ensures RowChange(db, db2, r)
  {
    var w := db.registrations[r].workshop;
    assert db.registrations == db.registrations[r := db.registrations[r]];
    assert db.workshops == db.workshops[w := db.workshops[w]];
  }

  lemma NoChange(db: Db, r: Id)
    requires Inv(db) && r in db.registrations
    ensures RowChange(db, db, r)
  {
    assert db.payments == db.payments[r := db.payments[r]];
    assert Coupled(PairOf(db, r));
    PayIsChange(db, db, r, db.payments[r]);
  }

  lemma SetPayIsChange(db: Db, r: Id, pay: PaymentStatus)
    requires Inv(db) && r in db.registrations
    requires Coupled(Pair(db.registrations[r].status, pay))
    ensures RowChange(db, SetPair(db, r, Pair(db.registrations[r].status, pay)), r)
  {
    var db2 := SetPair(db, r, Pair(db.registrations[r].status, pay));
    assert db.registrations[r := db.registrations[r]] == db.registrations;
    PayIsChange(db, db2, r, db.payments[r].(status := pay));
  }

  /** On the row it finds, applyProviderResult acts as ApplyResult on the pair of statuses. */
  lemma ResultIsChange(db: Db, r: Id, mapped: PaymentStatus)
    requires Inv(db) && r in db.registrations
    ensures RowChange(db, ApplyProviderResult(db, r, mapped), r)
    ensures PairOf(ApplyProviderResult(db, r, mapped), r) == ApplyResult(PairOf(db, r), mapped)
  {
    var p := PairOf(db, r);
    assert Coupled(p);
    if p.reg == PendingPayment && mapped == Completed { ConfirmIsChange(db, r); }
    else if p.reg == PendingPayment && mapped == Failed { ReleaseIsChange(db, r, Cancelled, Failed); }
    else if p.reg == PendingPayment && mapped == PaymentExpired { ReleaseIsChange(db, r, Expired, PaymentExpired); }
    else if p.reg == PendingPayment { SetPayIsChange(db, r, Unknown); }
    else if p.pay != Completed && mapped == Completed { SetPayIsChange(db, r, RequiresReview); }
    else { NoChange(db, r); }
  }

  lemma ResultKeeps(db: Db, r: Id, mapped: PaymentStatus)
    requires Inv(db) && r in db.registrations
    ensures Inv(ApplyProviderResult(db, r, mapped))
  {
    ResultIsChange(db, r, mapped);
    ChangeKeeps(db, ApplyProviderResult(db, r, mapped), r);
  }

  lemma AnswerIsChange(db: Db, r: Id, order: Order, url: Option<string>)
    requires Inv(db) && r in db.inFlight && r in db.payments && order.reg == r
    ensures RowChange(db, WriteAnswer(db, r, order, url), r)
  {
    assert Coupled(PairOf(db, r));
    PayIsChange(db, WriteAnswer(db, r, order, url), r, WriteAnswer(db, r, order, url).payments[r]);
  }

  lemma AnswerKeeps(db: Db, r: Id, order: Order, url: Option<string>)
    requires Inv(db)
    ensures Inv(WriteAnswer(db, r, order, url))
  {
    if r in db.inFlight && r in db.payments && order.reg == r {
      AnswerIsChange(db, r, order, url);
      ChangeKeeps(db, WriteAnswer(db, r, order, url), r);
    }
  }

  // ---- the sweep ----

  lemma OneMoreRow(db: Db, s: set<Id>, r: Id, w: Id)
    requires r in db.registrations && r !in s
    ensures |OfWorkshop(db, s + {r}, w)| == |OfWorkshop(db, s, w)| + if db.registrations[r].workshop == w then 1 else 0
  {
    assert OfWorkshop(db, s + {r}, w) == OfWorkshop(db, s, w) + if db.registrations[r].workshop == w then {r} else {};
  }

  lemma SweepTurnCounts(db: Db, s: set<Id>, r: Id, w: Id)
    requires r in db.registrations && r !in s && w in db.workshops
    ensures SweepAll(db, s + {r}).workshops[w].reserved
         == SweepAll(db, s).workshops[w].reserved - if db.registrations[r].workshop == w then 1 else 0
    ensures SweepAll(db, s + {r}).workshops[w].(reserved := 0) == SweepAll(db, s).workshops[w].(reserved := 0)
  {
    OneMoreRow(db, s, r, w);
  }

  lemma SweepTurnRows(db: Db, s: set<Id>, r: Id)
    requires Pending(db, r) && r in db.payments && r !in s && !IsTerminal(db.payments[r].status)
    ensures Pending(SweepAll(db, s), r) && SweepAll(db, s).registrations[r] == db.registrations[r]
    ensures r in SweepAll(db, s).payments
    ensures SetPair(SweepAll(db, s), r, Pair(Expired, PaymentExpired)).registrations
         == SweepAll(db, s + {r}).registrations
    ensures SetPair(SweepAll(db, s), r, Pair(Expired, PaymentExpired)).payments == SweepAll(db, s + {r}).payments
    ensures Expire(SweepAll(db, s).payments[r]) == SweepAll(db, s).payments[r].(status := PaymentExpired)
  {
  }

  /** One turn of the sweep's loop takes the closed form over s to the closed form over s + {r}. */
  lemma SweepTurn(db: Db, s: set<Id>, r: Id)
    requires Pending(db, r) && r in db.payments && r !in s && !IsTerminal(db.payments[r].status)
    requires db.registrations[r].workshop in db.workshops
    requires SweepAll(db, s).workshops[db.registrations[r].workshop].reserved >= 1
    ensures Pending(SweepAll(db, s), r) && SweepAll(db, s).registrations[r] == db.registrations[r]
    ensures ReleaseRow(SweepAll(db, s), r, Expired, PaymentExpired) == SweepAll(db, s + {r})
    ensures Expire(SweepAll(db, s).payments[r]) == SweepAll(db, s).payments[r].(status := PaymentExpired)
  {
    SweepTurnRows(db, s, r);
    var a, b := ReleaseRow(SweepAll(db, s), r, Expired, PaymentExpired), SweepAll(db, s + {r});
    hide OfWorkshop;
    forall w | w in db.workshops ensures a.workshops[w] == b.workshops[w] { SweepTurnCounts(db, s, r, w); }
    assert a.workshops == b.workshops;
  }

  lemma SweepNothing(db: Db)
    ensures SweepAll(db, {}) == db
  {
    forall w | w in db.workshops ensures OfWorkshop(db, {}, w) == {} {}
    assert SweepAll(db, {}).workshops == db.workshops;
    assert SweepAll(db, {}).registrations == db.registrations;
    assert SweepAll(db, {}).payments == db.payments;
  }

  lemma StaleArePending(db: Db, now: int, locked: set<Id>)
    ensures forall x | x in StaleRows(db, now, locked) :: Pending(db, x)
  {
  }

  lemma HoldsSeat(db: Db, r: Id)
    requires Inv(db) && Pending(db, r)
    ensures r in db.payments && db.registrations[r].workshop in db.workshops
    ensures !IsTerminal(db.payments[r].status)
    ensures db.workshops[db.registrations[r].workshop].reserved >= 1
  {
    ReleaseIsChange(db, r, Expired, PaymentExpired);
    assert Coupled(PairOf(db, r));
  }

  lemma StaysPending(db: Db, s: set<Id>, r: Id)
    requires Pending(db, r) && r !in s
    ensures Pending(SweepAll(db, s), r)
    ensures SweepAll(db, s).registrations[r] == db.registrations[r]
  {
  }

  lemma SweepTurnKeeps(db: Db, s: set<Id>, r: Id, mid: Db, got: Db)
    requires Inv(mid) && Pending(mid, r)
    requires Pending(db, r) && mid.registrations[r] == db.registrations[r]
    requires r in db.payments && r !in s && !IsTerminal(db.payments[r].status)
    requires db.registrations[r].workshop in db.workshops
    requires mid == SweepAll(db, s) && got == SweepAll(db, s + {r})
    ensures Inv(got)
  {
    HoldsSeat(mid, r);
    SweepTurn(db, s, r);
    ReleaseKeeps(mid, r, Expired, PaymentExpired);
  }

  lemma SweepGrows(db: Db, s: set<Id>, r: Id)
    requires Inv(db) && Inv(SweepAll(db, s)) && Pending(db, r) && r !in s
    ensures Inv(SweepAll(db, s + {r}))
  {
    hide *;
    HoldsSeat(db, r);
    StaysPending(db, s, r);
    SweepTurnKeeps(db, s, r, SweepAll(db, s), SweepAll(db, s + {r}));
  }

  lemma {:induction false} SweepKeeps(db: Db, s: set<Id>)
    requires Inv(db) && forall x | x in s :: Pending(db, x)
    ensures Inv(SweepAll(db, s))
    decreases s
  {
    hide *;
    if s == {} {
      SweepNothing(db);
    } else {
      var r :| r in s;
      SweepKeeps(db, s - {r});
      SweepGrows(db, s - {r}, r);
      assert s - {r} + {r} == s;
    }
  }

  // ---- create ----

  lemma InsertCounts(regs: Registrations, n: Id, row: Registration, w: Id)
    requires n !in regs && IsActive(row.status)
    ensures Active(regs[n := row], w) == if w == row.workshop then Active(regs, w) + {n} else Active(regs, w)
    ensures ConfirmedOf(regs[n := row], w) ==
      if w == row.workshop && row.status == Confirmed then ConfirmedOf(regs, w) + {n} else ConfirmedOf(regs, w)
    ensures n !in Active(regs, w) && n !in ConfirmedOf(regs, w)
  {
  }

  lemma InsertSeats(ws: Workshops, regs: Registrations, n: Id, row: Registration)
    requires Seats(ws, regs) && row.workshop in ws && IsActive(row.status) && n !in regs
    requires ws[row.workshop].reserved < ws[row.workshop].capacity
    ensures var w := ws[row.workshop];
      Seats(ws[row.workshop :=
                 w.(reserved := w.reserved + 1,
                    confirmed := if row.status == Confirmed then w.confirmed + 1 else w.confirmed)],
            regs[n := row])
  {
    var regs2 := regs[n := row];
    forall w | w in ws
      ensures |Active(regs2, w)| == |Active(regs, w)| + if w == row.workshop then 1 else 0
      ensures |ConfirmedOf(regs2, w)|
         == |ConfirmedOf(regs, w)| + if w == row.workshop && row.status == Confirmed then 1 else 0
    {
      InsertCounts(regs, n, row, w);
    }
  }

  lemma InsertOneActive(db: Db, q: Request)
    requires OneActive(db.registrations) && q.workshop in db.workshops
    requires ActiveRow(db, q.user, q.workshop) == None
    ensures OneActive(InsertRow(db, q).registrations)
  {
    forall r | r in db.registrations && db.registrations[r].user == q.user && db.registrations[r].workshop == q.workshop
      ensures !IsActive(db.registrations[r].status)
    {
      if IsActive(db.registrations[r].status) { assert IsActiveRow(db, q.user, q.workshop, r); }
    }
  }

  lemma InsertKeys(db: Db, q: Request)
    requires UniqueKeys(db.payments) && q.workshop in db.workshops && !KeyTaken(db, q.key)
    ensures UniqueKeys(InsertRow(db, q).payments)
  {
  }

  lemma InsertOthers(db: Db, q: Request)
    requires CallsKnown(db.registrations, db.inFlight) && AllCoupled(db.registrations, db.payments)
    requires q.workshop in db.workshops && q.newId !in db.registrations
    ensures var db2 := InsertRow(db, q);
      CallsKnown(db2.registrations, db2.inFlight) && AllCoupled(db2.registrations, db2.payments)
  {
  }

  lemma InsertEvents(db: Db, q: Request)
    requires EventsOnce(db.registrations, db.confirmations)
    requires q.workshop in db.workshops && q.newId !in db.registrations
    ensures var db2 := InsertRow(db, q); EventsOnce(db2.registrations, db2.confirmations)
  {
    assert q.newId !in db.confirmations;
  }

  lemma InsertWired(db: Db, q: Request)
    requires Inv(db) && q.workshop in db.workshops
    ensures var db2 := InsertRow(db, q); Wired(db2.workshops, db2.registrations, db2.payments)
  {
  }

  lemma InsertKeeps(db: Db, q: Request)
    requires Inv(db) && q.workshop in db.workshops
    requires db.workshops[q.workshop].reserved < db.workshops[q.workshop].capacity
    requires ActiveRow(db, q.user, q.workshop) == None
    requires q.newId !in db.registrations && !KeyTaken(db, q.key)
    ensures Inv(InsertRow(db, q))
  {
    hide Wired, CallsKnown, Seats, AllCoupled, OneActive, UniqueKeys, EventsOnce, KeyTaken, ActiveRow;
    InsertWired(db, q);
    InsertSeats(db.workshops, db.registrations, q.newId, NewRegistration(q, db.workshops[q.workshop].paymentRequired));
    InsertOneActive(db, q);
    InsertKeys(db, q);
    InsertOthers(db, q);
    InsertEvents(db, q);
  }

  lemma RecoveryKeeps(db: Db, r: Id)
    requires Inv(db)
    ensures Inv(StartRecovery(db, r))
  {
  }

  lemma ReserveKeeps(db: Db, q: Request)
    requires Inv(db)
    ensures Inv(Reserve(db, q).0)
  {
    hide Wired, CallsKnown, Seats, AllCoupled, OneActive, UniqueKeys, EventsOnce, KeyTaken, ActiveRow, InsertRow,
         StartRecovery;
    if q.workshop in db.workshops && ActiveRow(db, q.user, q.workshop).Some? {
      RecoveryKeeps(db, ActiveRow(db, q.user, q.workshop).value);
    } else if q.workshop in db.workshops && db.workshops[q.workshop].reserved < db.workshops[q.workshop].capacity
       && q.newId !in db.registrations && !KeyTaken(db, q.key) {
      InsertKeeps(db, q);
    }
  }

  lemma ReleaseKeyRows(db: Db, r: Id, key: string, tag: string)
    requires Wired(db.workshops, db.registrations, db.payments)
    requires AllCoupled(db.registrations, db.payments) && UniqueKeys(db.payments)
    ensures var db2 := ReleaseKey(db, r, key, tag);
      && Wired(db2.workshops, db2.registrations, db2.payments)
      && AllCoupled(db2.registrations, db2.payments) && UniqueKeys(db2.payments)
  {
  }

  lemma ReleaseKeyKeeps(db: Db, r: Id, key: string, tag: string)
    requires Inv(db)
    ensures Inv(ReleaseKey(db, r, key, tag))
  {
    hide Wired, CallsKnown, Seats, AllCoupled, OneActive, UniqueKeys, EventsOnce, KeyTaken;
    ReleaseKeyRows(db, r, key, tag);
  }

  lemma WorkshopSeats(ws: Workshops, regs: Registrations, w: Id, row: Workshop)
    requires Seats(ws, regs)
    requires w in ws ==> row.reserved == ws[w].reserved && row.confirmed == ws[w].confirmed
    requires w !in ws ==> row.reserved == row.confirmed == 0 && Active(regs, w) == {}
    requires row.reserved <= row.capacity
    ensures Seats(ws[w := row], regs)
  {
    forall v | v in ws[w := row]
      ensures ws[w := row][v].reserved == |Active(regs, v)|
      ensures ws[w := row][v].confirmed == |ConfirmedOf(regs, v)|
      ensures ws[w := row][v].reserved <= ws[w := row][v].capacity
    {
      ConfirmedAreActive(regs, v);
    }
  }

  lemma AddKeeps(db: Db, w: Id, capacity: int, price: int, status: WorkshopStatus)
    requires Inv(db)
    ensures Inv(AddWorkshop(db, w, capacity, price, status))
  {
    if w !in db.workshops && capacity > 0 {
      assert Active(db.registrations, w) == {};
      WorkshopSeats(db.workshops, db.registrations, w, Workshop(capacity, 0, 0, price, price > 0, status));
    }
  }

  lemma EditKeeps(db: Db, w: Id, capacity: int, price: int, status: WorkshopStatus)
    requires Inv(db)
    ensures Inv(EditWorkshop(db, w, capacity, price, status))
  {
    if EditWorkshop(db, w, capacity, price, status) != db {
      WorkshopSeats(db.workshops, db.registrations, w, EditWorkshop(db, w, capacity, price, status).workshops[w]);
    }
  }

  lemma CancelKeeps(db: Db, w: Id)
    requires Inv(db)
    ensures Inv(CancelWorkshop(db, w))
  {
    if w in db.workshops {
      assert |Active(db.registrations, w)| <= db.workshops[w].capacity;
      WorkshopSeats(db.workshops, db.registrations, w, db.workshops[w].(status := WorkshopCancelled));
    }
  }

  // ---- every step, every run ----

  lemma DeliverKeeps(db: Db, order: Order, amount: Option<int>, code: string)
    requires Inv(db)
    ensures Inv(Deliver(db, order, amount, code))
  {
    var row := OrderRow(db, order);
    if row.Some? { ResultKeeps(db, row.value, MapResultCode(code)); }
  }

  lemma StepKeeps(db: Db, e: Event)
    requires Inv(db)
    ensures Inv(Step(db, e))
  {
    match e
    case WorkshopAdded(w, capacity, price, status) => AddKeeps(db, w, capacity, price, status);
    case WorkshopEdited(w, capacity, price, status) => EditKeeps(db, w, capacity, price, status);
    case WorkshopCancellation(w) => CancelKeeps(db, w);
    case Sweep(now, locked) => SweepKeeps(db, StaleRows(db, now, locked));
    case KeyReleased(r, key, tag) => ReleaseKeyKeeps(db, r, key, tag);
    case Reservation(q) => ReserveKeeps(db, q);
    case RecoveryStarted(r) => RecoveryKeeps(db, r);
    case ProviderResult(order, amount, code) => DeliverKeeps(db, order, amount, code);
    case GatewayAnswered(r, order, url) => AnswerKeeps(db, r, order, url);
  }

  /** The invariant of every reachable state, over any interleaving. */
  lemma {:induction false} RunKeeps(db: Db, es: seq<Event>)
    requires Inv(db)
    ensures Inv(Run(db, es))
    decreases es
  {
    if es != [] {
      StepKeeps(db, es[0]);
      RunKeeps(Step(db, es[0]), es[1..]);
    }
  }
}
