/** The registration service, statement by statement, against the transactions of Tables. */
module RegistrationServices {
  import opened Wrappers
  import opened Payments
  import opened Tables
  import opened SeatInvariants
  import opened RegistrationRuns
  import opened IdempotentCreate

  // ---- one batch of reconciliation ----

  /** What came of a provider result. */
  datatype Delivery = NoPayment | WrongAmount | Handled

  /** The results the queries give for the scanned rows, one for each that is answered, in their order. */
  function AnswersOf(payments: map<Id, Payment>, rows: seq<Id>, answers: map<Order, string>): seq<Event>
    requires forall r <- rows :: r in payments
    decreases rows
  {
    if rows == [] then []
    else
      var last := payments[rows[|rows| - 1]].order;
      AnswersOf(payments, rows[..|rows| - 1], answers)
      + if last in answers then [ProviderResult(last, None, answers[last])] else []
  }

  lemma OneMoreAnswer(payments: map<Id, Payment>, rows: seq<Id>, i: nat, answers: map<Order, string>)
    requires (forall r <- rows :: r in payments) && i < |rows|
    ensures var order := payments[rows[i]].order;
      AnswersOf(payments, rows[..i + 1], answers)
        == AnswersOf(payments, rows[..i], answers)
           + if order in answers then [ProviderResult(order, None, answers[order])] else []
  {
    assert rows[..i + 1][..i] == rows[..i];
  }

  lemma NoAnswers(db: Db, answers: map<Order, string>)
    ensures AnswersOf(db.payments, [], answers) == [] && Run(db, []) == db
  {
  }

  lemma ResultKeepsOrders(db: Db, r: Id, mapped: PaymentStatus)
    requires r in db.registrations && r in db.payments && db.registrations[r].workshop in db.workshops
    ensures var db2 := ApplyProviderResult(db, r, mapped);
      db2.payments.Keys == db.payments.Keys && forall x <- db.payments :: db2.payments[x].order == db.payments[x].order
  {
    var db2 := ApplyProviderResult(db, r, mapped);
    assert db2.payments == db.payments[r := db.payments[r].(status := db2.payments[r].status)];
  }

  lemma DeliverKeepsOrders(db: Db, order: Order, amount: Option<int>, code: string)
    ensures var db2 := Deliver(db, order, amount, code);
      db2.payments.Keys == db.payments.Keys && forall r <- db.payments :: db2.payments[r].order == db.payments[r].order
  {
    hide MapResultCode, ApplyProviderResult;
    var row := OrderRow(db, order);
    if row.Some? && row.value in db.registrations && db.registrations[row.value].workshop in db.workshops {
      ResultKeepsOrders(db, row.value, MapResultCode(code));
    }
  }

  /** The payment of the order is over another amount. */
  predicate AsksAnother(payments: map<Id, Payment>, order: Order, amount: int) {
    exists r :: r in payments && payments[r].order == order && payments[r].amount != amount
  }

  /** The row is among those taken, or the scan is full of older ones. */
  predicate TakenOrLater(rows: seq<Id>, limit: nat, updatedAt: Id -> int, r: Id) {
    r in rows || (|rows| == limit && forall x <- rows :: updatedAt(x) <= updatedAt(r))
  }

  predicate Oldest(pool: set<Id>, updatedAt: Id -> int, r: Id) {
    r in pool && forall x <- pool :: updatedAt(r) <= updatedAt(x)
  }

  lemma {:induction false} OldestExists(pool: set<Id>, updatedAt: Id -> int)
    requires pool != {}
    ensures exists r: Id :: Oldest(pool, updatedAt, r)
    decreases pool
  {
    var a: Id :| a in pool;
    var rest := pool - {a};
    assert forall x <- pool :: x == a || x in rest;
    if rest == {} {
      assert Oldest(pool, updatedAt, a);
    } else {
      OldestExists(rest, updatedAt);
      var b: Id :| Oldest(rest, updatedAt, b);
      assert Oldest(pool, updatedAt, if updatedAt(a) <= updatedAt(b) then a else b);
    }
  }

  // ---- steps of the proofs below ----

  lemma SweepLoop(db: Db, done: set<Id>, r: Id, stale: set<Id>)
    requires Inv(db) && (forall x | x in stale :: Pending(db, x)) && done <= stale && r in stale && r !in done
    ensures var mid := SweepAll(db, done);
      && Inv(mid) && Pending(mid, r)
      && r in mid.registrations && r in mid.payments && mid.registrations[r].workshop in mid.workshops
      && Expire(mid.payments[r]) == mid.payments[r].(status := PaymentExpired)
      && ReleaseRow(mid, r, Expired, PaymentExpired) == SweepAll(db, done + {r})
  {
    hide Inv, SweepAll, Expire, ReleaseRow, IsTerminal;
    SweepKeeps(db, done);
    HoldsSeat(db, r);
    StaysPending(db, done, r);
    HoldsSeat(SweepAll(db, done), r);
    SweepTurn(db, done, r);
  }

  lemma RunOneMore(db: Db, es: seq<Event>, e: Event)
    requires e.ProviderResult?
    ensures Run(db, es + [e]) == Deliver(Run(db, es), e.order, e.amount, e.code)
  {
    RunConcat(db, es, [e]);
    RunOne(Run(db, es), e);
  }

  lemma PaymentHasRow(db: Db, r: Id)
    requires Inv(db) && r in db.payments
    ensures r in db.registrations && db.registrations[r].workshop in db.workshops
  {
  }

  lemma NoOrderRow(db: Db, order: Order)
    requires forall r | r in db.payments :: db.payments[r].order != order
    ensures OrderRow(db, order) == None
  {
  }

  lemma NothingDelivered(db: Db, order: Order, amount: Option<int>, code: string)
    requires OrderRow(db, order) == None
    ensures Deliver(db, order, amount, code) == db
  {
  }

  lemma DeliverOnRow(db: Db, order: Order, amount: Option<int>, code: string, r: Id)
    requires Inv(db) && IsOrderRow(db, order, r)
    ensures r in db.registrations && db.registrations[r].workshop in db.workshops
    ensures forall x <- db.payments :: db.payments[x].order == order ==> x == r
    ensures Deliver(db, order, amount, code)
         == if amount.Some? && amount.value != db.payments[r].amount then db
            else ApplyProviderResult(db, r, MapResultCode(code))
  {
    OrderFindsItsRow(db, order, r);
    PaymentHasRow(db, r);
    hide ApplyProviderResult, MapResultCode, Seats, AllCoupled, OneActive, UniqueKeys, EventsOnce, CallsKnown;
  }

  lemma ActiveRowIs(db: Db, user: Id, w: Id, r: Id)
    requires OneActive(db.registrations) && IsActiveRow(db, user, w, r)
    ensures ActiveRow(db, user, w) == Some(r)
  {
  }

  lemma NoActiveRow(db: Db, user: Id, w: Id)
    requires forall r | r in db.registrations :: !IsActiveRow(db, user, w, r)
    ensures ActiveRow(db, user, w) == None
  {
  }

  lemma KeyRowIs(db: Db, key: string, r: Id)
    requires Inv(db) && r in db.payments && db.payments[r].key == key
    ensures KeyRow(db, key) == Some(r) && r in db.registrations
  {
    assert IsKeyRow(db, key, r);
  }

  lemma NoKeyRow(db: Db, key: string)
    requires forall r | r in db.payments :: db.payments[r].key != key
    ensures KeyRow(db, key) == None
  {
  }

  class RegistrationService {
    var workshops: map<Id, Workshop>
    var registrations: map<Id, Registration>
    var payments: map<Id, Payment>
    var inFlight: multiset<Id>
    var confirmations: multiset<Id>

    function State(): Db
      reads this
    {
      Db(workshops, registrations, payments, inFlight, confirmations)
    }

    ghost predicate Valid()
      reads this
    {
      Inv(State())
    }

    constructor ()
      ensures Valid() && State() == EMPTY
    {
      workshops, registrations, payments, inFlight, confirmations := map[], map[], map[], multiset{}, multiset{};
    }

    /** One turn of the sweep: the three UPDATEs for a row that is still pending. */
    method ExpireRow(r: Id)
      requires Valid() && r in registrations && r in payments && registrations[r].workshop in workshops
      modifies this
      ensures !Pending(old(State()), r) ==> State() == old(State())
      ensures Pending(old(State()), r) && Expire(old(payments)[r]) == old(payments)[r].(status := PaymentExpired)
        ==> State() == ReleaseRow(old(State()), r, Expired, PaymentExpired)
    {
      if registrations[r].status != PendingPayment { return; }
      var w := registrations[r].workshop;
      registrations := registrations[r := registrations[r].(status := Expired)];
      payments := payments[r := Expire(payments[r])];
      workshops := workshops[w := Released(workshops[w])];
    }

    method ExpireStaleRegistrations(now: int, locked: set<Id>)
      requires Valid()
      modifies this
      ensures Valid()
      ensures State() == SweepAll(old(State()), StaleRows(old(State()), now, locked))
    {
      hide Inv, SweepAll, StaleRows, ReleaseRow, Pending, Expire;
      var todo := StaleRows(State(), now, locked);
      ghost var db, done: set<Id>, stale := State(), {}, todo;
      StaleArePending(db, now, locked);
      SweepNothing(db);
      while todo != {}
        invariant stale == todo + done && todo !! done
        invariant State() == SweepAll(db, done)
        decreases |todo|
      {
        var r :| r in todo;
        SweepLoop(db, done, r, stale);
        todo, done := todo - {r}, done + {r};
        ExpireRow(r);
      }
      assert done == stale;
      SweepKeeps(db, stale);
    }

    /** confirmPendingRegistration. */
    method ConfirmPendingRegistration(r: Id) returns (event: Option<Id>)
      requires Pending(State(), r) && r in payments && registrations[r].workshop in workshops
      modifies this`registrations, this`payments, this`workshops
      ensures event == Some(r)
      ensures State().(confirmations := confirmations + multiset{r}) == ConfirmRow(old(State()), r)
    {
      var w := registrations[r].workshop;
      registrations := registrations[r := registrations[r].(status := Confirmed)];
      payments := payments[r := payments[r].(status := Completed)];
      workshops := workshops[w := workshops[w].(confirmed := workshops[w].confirmed + 1)];
      event := Some(r);
    }

    /** failPendingRegistration: the seat goes back only if the guarded UPDATE met a pending row. */
    method FailPendingRegistration(r: Id, mapped: PaymentStatus)
      requires Pending(State(), r) && r in payments && registrations[r].workshop in workshops
      requires mapped == Failed || mapped == PaymentExpired
      modifies this`registrations, this`payments, this`workshops
      ensures State() == ReleaseRow(old(State()), r, if mapped == PaymentExpired then Expired else Cancelled, mapped)
    {
      var w := registrations[r].workshop;
      var to := if mapped == PaymentExpired then Expired else Cancelled;
      if registrations[r].status == PendingPayment {
        registrations := registrations[r := registrations[r].(status := to)];
        workshops := workshops[w := Released(workshops[w])];
      }
      payments := payments[r := payments[r].(status := mapped)];
    }

    /** applyProviderResult; the event it returns is enqueued by the caller after COMMIT. */
    method ApplyResultTo(r: Id, mapped: PaymentStatus) returns (event: Option<Id>)
      requires r in registrations && r in payments && registrations[r].workshop in workshops
      modifies this`registrations, this`payments, this`workshops
      ensures State().(confirmations := if event.Some? then confirmations + multiset{event.value} else confirmations)
           == ApplyProviderResult(old(State()), r, mapped)
    {
      event := None;
      assert registrations[r := registrations[r]] == registrations;
      if payments[r].status == Completed {
      } else if IsTerminal(payments[r].status) || registrations[r].status != PendingPayment {
        if registrations[r].status != PendingPayment && mapped == Completed {
          payments := payments[r := payments[r].(status := RequiresReview)];
        }
      } else if mapped == Completed {
        event := ConfirmPendingRegistration(r);
      } else if mapped == Failed || mapped == PaymentExpired {
        FailPendingRegistration(r, mapped);
      } else {
        payments := payments[r := payments[r].(status := Unknown)];
      }
    }

    /** A provider result for an order: find the row, compare the amount if one came, apply, enqueue. */
    method DeliverResult(order: Order, amount: Option<int>, code: string) returns (done: Delivery)
      requires Valid()
      modifies this
      ensures Valid() && State() == Deliver(old(State()), order, amount, code)
      ensures done == NoPayment <==> forall r <- old(payments) :: old(payments)[r].order != order
      ensures done == WrongAmount <==>
                (amount.Some? && AsksAnother(old(payments), order, amount.value))
    {
      hide Inv, OrderRow, ApplyProviderResult, Deliver;
      ghost var db := State();
      DeliverKeeps(db, order, amount, code);
      if r :| r in payments && payments[r].order == order {
        DeliverOnRow(db, order, amount, code, r);
        if amount.Some? && amount.value != payments[r].amount { return WrongAmount; }
        var event := ApplyResultTo(r, MapResultCode(code));
        if event.Some? { confirmations := confirmations + multiset{event.value}; }
        done := Handled;
      } else {
        NoOrderRow(db, order);
        NothingDelivered(db, order, amount, code);
        done := NoPayment;
      }
    }

    /** handleMomoCallback, for a callback whose signature was accepted. */
    method HandleMomoCallback(order: Order, amount: int, code: string) returns (done: Delivery)
      requires Valid()
      modifies this
      ensures Valid() && State() == Step(old(State()), ProviderResult(order, Some(amount), code))
      ensures done == NoPayment <==> forall r <- old(payments) :: old(payments)[r].order != order
      ensures done == WrongAmount <==> AsksAnother(old(payments), order, amount)
      ensures done != Handled ==> State() == old(State())
    {
      hide Inv, OrderRow, ApplyProviderResult;
      ghost var db := State();
      done := DeliverResult(order, Some(amount), code);
      if done == NoPayment {
        NoOrderRow(db, order);
      } else if done == WrongAmount {
        ghost var r: Id :| r in db.payments && db.payments[r].order == order && db.payments[r].amount != amount;
        WrongAmountChangesNothing(db, order, amount, code, r);
      }
    }

    /** The rows a reconciliation scan may take: an open provider payment that nobody has locked. */
    predicate Candidate(r: Id, locked: set<Id>)
      reads this
    {
      r in payments && r !in locked && (payments[r].status == PendingProvider || payments[r].status == Unknown)
    }

    /** Those are the unlocked rows that no result has closed, simulated payments aside. */
    lemma CandidateExactly(r: Id, locked: set<Id>)
      ensures Candidate(r, locked)
         <==> && r in payments && r !in locked
              && !IsTerminal(payments[r].status) && payments[r].status != PendingSimulation
    {
    }

    /** The scan takes the candidates with the oldest updated_at, in that order, at most limit of them. */
    method ScanCandidates(limit: nat, locked: set<Id>, updatedAt: Id -> int) returns (rows: seq<Id>)
      ensures |rows| <= limit
      ensures forall r <- rows :: Candidate(r, locked)
      ensures forall i, j | 0 <= i < j < |rows| :: rows[i] != rows[j] && updatedAt(rows[i]) <= updatedAt(rows[j])
      ensures forall r | Candidate(r, locked) :: TakenOrLater(rows, limit, updatedAt, r)
    {
      var pool := set r | r in payments && Candidate(r, locked);
      rows := [];
      while |rows| < limit && pool != {}
        invariant |rows| <= limit
        invariant forall r <- rows :: Candidate(r, locked) && r !in pool
        invariant forall i, j | 0 <= i < j < |rows| :: rows[i] != rows[j] && updatedAt(rows[i]) <= updatedAt(rows[j])
        invariant forall x <- rows, r <- pool :: updatedAt(x) <= updatedAt(r)
        invariant forall r :: r in pool <==> Candidate(r, locked) && r !in rows
        decreases limit - |rows|
      {
        OldestExists(pool, updatedAt);
        var r :| r in pool && Oldest(pool, updatedAt, r);
        pool, rows := pool - {r}, rows + [r];
      }
    }

    /**
     * runReconciliationBatch; an order without an answer is a query that threw. Each scanned row is
     * asked about under its own order, once and in the order of the scan, and each answer is applied.
     */
    method RunReconciliationBatch(limit: nat, locked: set<Id>, updatedAt: Id -> int, answers: map<Order, string>)
      returns (scanned: nat, updated: nat, ghost rows: seq<Id>)
      requires Valid()
      modifies this
      ensures Valid()
      ensures scanned == |rows| <= limit && forall r <- rows :: old(Candidate(r, locked))
      ensures forall i, j | 0 <= i < j < |rows| :: rows[i] != rows[j] && updatedAt(rows[i]) <= updatedAt(rows[j])
      ensures forall r | old(Candidate(r, locked)) :: TakenOrLater(rows, limit, updatedAt, r)
      ensures forall r <- rows :: r in old(payments)
      ensures updated == |AnswersOf(old(payments), rows, answers)|
      ensures State() == Run(old(State()), AnswersOf(old(payments), rows, answers))
    {
      var taken := ScanCandidates(limit, locked, updatedAt);
      scanned, rows := |taken|, taken;
      updated := ApplyAnswers(taken, answers);
    }

    /** The loop over the scanned rows. */
    method ApplyAnswers(rows: seq<Id>, answers: map<Order, string>) returns (updated: nat)
      requires Valid() && forall r <- rows :: r in payments
      modifies this
      ensures Valid()
      ensures updated == |AnswersOf(old(payments), rows, answers)|
      ensures State() == Run(old(State()), AnswersOf(old(payments), rows, answers))
    {
      hide Inv, Deliver, Step, AnswersOf, Run;
      updated := 0;
      NoAnswers(State(), answers);
      ghost var db := State();
      assert rows[..0] == [];
      for i := 0 to |rows|
        invariant Valid() && payments.Keys == db.payments.Keys
        invariant forall r <- payments :: payments[r].order == db.payments[r].order
        invariant updated == |AnswersOf(db.payments, rows[..i], answers)|
        invariant State() == Run(db, AnswersOf(db.payments, rows[..i], answers))
      {
        OneMoreAnswer(db.payments, rows, i, answers);
        ghost var trace := AnswersOf(db.payments, rows[..i], answers);
        var order := payments[rows[i]].order;
        if order in answers {
          RunOneMore(db, trace, ProviderResult(order, None, answers[order]));
          DeliverKeepsOrders(State(), order, None, answers[order]);
          var done := DeliverResult(order, None, answers[order]);
          updated := updated + 1;
        } else {
          assert trace + [] == trace;
        }
      }
      assert rows[..|rows|] == rows;
    }

    /** releaseTerminalIdempotencyKey. */
    method ReleaseTerminalIdempotencyKey(r: Id, key: string, tag: string)
      requires Valid()
      modifies this
      ensures Valid() && State() == ReleaseKey(old(State()), r, key, tag)
    {
      ReleaseKeyKeeps(State(), r, key, tag);
      var archived := key + "::terminal::" + tag;
      if r in payments && r in registrations && payments[r].key == key && !IsActive(registrations[r].status)
         && !KeyTaken(State(), archived) {
        payments := payments[r := payments[r].(key := archived)];
      }
    }

    method StartRecoveryIfMissing(q: Request, r: Id)
      requires Valid()
      modifies this
      ensures Valid() && State() == Recovering(old(State()), q, r)
    {
      RecoveryKeeps(State(), r);
      if q.mode == MomoSandbox && q.adapter && Pending(State(), r) && r in payments && payments[r].url == None {
        inFlight := inFlight + multiset{r};
      }
    }

    /** The inserts and counter updates of the transaction, in the order of the source. */
    method InsertNew(q: Request)
      requires q.workshop in workshops
      modifies this
      ensures State() == InsertRow(old(State()), q)
    {
      hide NewRegistration, NewPayment;
      var w := workshops[q.workshop];
      workshops := workshops[q.workshop := workshops[q.workshop].(reserved := workshops[q.workshop].reserved + 1)];
      registrations := registrations[q.newId := NewRegistration(q, w.paymentRequired)];
      if !w.paymentRequired {
        workshops := workshops[q.workshop := workshops[q.workshop].(confirmed := workshops[q.workshop].confirmed + 1)];
      }
      assert workshops == InsertRow(old(State()), q).workshops;
      payments := payments[q.newId := NewPayment(q, w.paymentRequired, w.price)];
      if !w.paymentRequired {
        confirmations := confirmations + multiset{q.newId};
      } else if q.mode == MomoSandbox && q.adapter {
        inFlight := inFlight + multiset{q.newId};
      }
    }

    method ReserveSeat(q: Request) returns (c: Created)
      requires Valid()
      modifies this
      ensures Valid() && (State(), c) == Reserve(old(State()), q)
    {
      ghost var db := State();
      ReserveKeeps(db, q);
      if q.workshop !in workshops || workshops[q.workshop].status != Published { return Refused(WorkshopNotFound); }
      if workshops[q.workshop].reserved >= workshops[q.workshop].capacity { return Refused(WorkshopFull); }
      if r :| r in registrations && IsActiveRow(State(), q.user, q.workshop, r) {
        ActiveRowIs(db, q.user, q.workshop, r);
        if registrations[r].status == Confirmed { return Refused(AlreadyRegistered); }
        StartRecoveryIfMissing(q, r);
        return Created(r, PendingPayment);
      }
      NoActiveRow(db, q.user, q.workshop);
      var paid := workshops[q.workshop].paymentRequired;
      if paid && q.mode == MomoSandbox && q.adapter && !q.admitted { return Refused(GatewayUnavailable); }
      if q.newId in registrations || q.newId in payments || KeyTaken(State(), q.key) {
        return Refused(ConstraintViolated);
      }
      InsertNew(q);
      c := Created(q.newId, if paid then PendingPayment else Confirmed);
    }

    method CreateRegistration(q: Request) returns (c: Created)
      requires Valid()
      modifies this
      ensures Valid() && (State(), c) == Create(old(State()), q)
    {
      hide Inv, Reserve, ReleaseKey, Recovering, SweepAll, StaleRows, KeyRow;
      ExpireStaleRegistrations(q.now, q.locked);
      ghost var db := State();
      if r :| r in payments && payments[r].key == q.key {
        KeyRowIs(db, q.key, r);
        if payments[r].user != q.user || payments[r].workshop != q.workshop { return Refused(KeyReused); }
        if registrations[r].status == Confirmed { return Created(r, Confirmed); }
        if registrations[r].status == PendingPayment {
          StartRecoveryIfMissing(q, r);
          return Created(r, PendingPayment);
        }
        ReleaseTerminalIdempotencyKey(r, q.key, q.tag);
      } else {
        NoKeyRow(db, q.key);
      }
      c := ReserveSeat(q);
    }

    /** The UPDATE after a create-order call, which carries no guard on the status. */
    method RecordGatewayAnswer(r: Id, order: Order, url: Option<string>)
      requires Valid()
      modifies this
      ensures Valid() && State() == WriteAnswer(old(State()), r, order, url)
    {
      hide Inv;
      AnswerKeeps(State(), r, order, url);
      if r in inFlight && r in payments && order.reg == r {
        var p := payments[r].(order := order);
        payments := payments[r := if url.Some? then p.(url := url, status := PendingProvider)
                                  else p.(status := Unknown)];
        inFlight := inFlight - multiset{r};
      }
    }
  }
}
