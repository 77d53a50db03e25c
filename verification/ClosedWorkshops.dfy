/** What the admin's transactions write in the workshops table, and what a closed workshop no longer takes. */
module ClosedWorkshops {
  import opened Wrappers
  import opened Payments
  import opened Tables
  import opened SeatInvariants
  import opened RegistrationRuns
  import opened CreateAnswers
  import opened JointAdmission

  // ---- the rows the admin writes ----

  /** A workshop is added under a new id with one seat or more, and wants a payment exactly when it has a price. */
  lemma AddedRow(db: Db, w: Id, capacity: int, price: int, status: WorkshopStatus)
    ensures var row := Workshop(capacity, 0, 0, price, price > 0, status);
      Step(db, WorkshopAdded(w, capacity, price, status)) ==
        if w !in db.workshops && capacity >= 1 then db.(workshops := db.workshops[w := row]) else db
  {
  }

  /**
   * An edit is written exactly when the new capacity is positive and holds the active registrations;
   * then the row has the given columns, and its counters stand.
   */
  lemma EditedRow(db: Db, w: Id, capacity: int, price: int, status: WorkshopStatus)
    requires Inv(db) && w in db.workshops
    ensures var (taken, confirmed) := (|Active(db.registrations, w)|, |ConfirmedOf(db.registrations, w)|);
            Step(db, WorkshopEdited(w, capacity, price, status)) ==
              if capacity < 1 || capacity < taken then db
              else db.(workshops := db.workshops[w :=
                         Workshop(capacity, taken, confirmed, price, price > 0, status)])
  {
    SeatsAreCounted(db, w);
    ConfirmedAreActive(db.registrations, w);
  }

  lemma CancelledRow(db: Db, w: Id)
    requires w in db.workshops
    ensures var was, got := db.workshops[w], Step(db, WorkshopCancellation(w));
      && got == db.(workshops := got.workshops)
      && got.workshops == db.workshops[w := Workshop(was.capacity, was.reserved, was.confirmed, was.price,
                                                     was.paymentRequired, WorkshopCancelled)]
  {
  }
  ghost predicate Priced(ws: Workshops) {
    forall w | w in ws :: ws[w].paymentRequired == (ws[w].price > 0)
  }

  lemma SweepPriced(db: Db, s: set<Id>)
    requires Priced(db.workshops)
    ensures Priced(SweepAll(db, s).workshops)
  {
  }

  lemma ChangePriced(db: Db, db2: Db, r: Id)
    requires RowChange(db, db2, r) && Priced(db.workshops)
    ensures Priced(db2.workshops)
  {
  }

  lemma DeliverPriced(db: Db, order: Order, amount: Option<int>, code: string)
    requires Inv(db) && Priced(db.workshops)
    ensures Priced(Deliver(db, order, amount, code).workshops)
  {
    hide Inv, OrderRow, ApplyProviderResult, RowChange, Priced;
    var row := OrderRow(db, order);
    OrderRowHere(db, order);
    if row.Some? {
      ResultIsChange(db, row.value, MapResultCode(code));
      ChangePriced(db, ApplyProviderResult(db, row.value, MapResultCode(code)), row.value);
    }
  }

  lemma ReservePriced(db: Db, q: Request)
    requires Priced(db.workshops)
    ensures Priced(Reserve(db, q).0.workshops)
  {
    hide KeyTaken, ActiveRow;
  }

  lemma StepPriced(db: Db, e: Event)
    requires Inv(db) && Priced(db.workshops)
    ensures Priced(Step(db, e).workshops)
  {
    hide Inv, SweepAll, Deliver, Reserve, KeyTaken;
    match e
    case Sweep(now, locked) => SweepPriced(db, StaleRows(db, now, locked));
    case Reservation(q) => ReservePriced(db, q);
    case ProviderResult(order, amount, code) => DeliverPriced(db, order, amount, code);
    case _ =>
  }

  lemma {:induction false} RunPriced(db: Db, es: seq<Event>)
    requires Inv(db) && Priced(db.workshops)
    ensures Priced(Run(db, es).workshops)
    decreases es
  {
    hide Inv, Priced, Step;
    if es != [] {
      StepPriced(db, es[0]);
      StepKeeps(db, es[0]);
      RunPriced(Step(db, es[0]), es[1..]);
    }
  }

  /** In every reachable state a workshop wants a payment exactly when its price is positive. */
  lemma PaidIsPriced(db: Db, w: Id)
    requires Reachable(db) && w in db.workshops
    ensures db.workshops[w].paymentRequired <==> db.workshops[w].price > 0
  {
    var es :| db == Run(EMPTY, es);
    assert Inv(EMPTY);
    RunPriced(EMPTY, es);
  }

  // ---- a workshop that is not published ----

  ghost predicate Closed(db: Db, w: Id) {
    w in db.workshops && db.workshops[w].status != Published
  }

  predicate Publishes(e: Event, w: Id) {
    e.WorkshopEdited? && e.w == w && e.published == Published
  }

  /** Still closed, and with no more seats taken than before. */
  ghost predicate StaysClosed(a: Db, b: Db, w: Id) {
    Closed(b, w) && w in a.workshops && b.workshops[w].reserved <= a.workshops[w].reserved
  }

  lemma SweepStaysClosed(db: Db, s: set<Id>, w: Id)
    requires Closed(db, w)
    ensures StaysClosed(db, SweepAll(db, s), w)
  {
  }

  lemma ChangeStaysClosed(db: Db, db2: Db, r: Id, w: Id)
    requires RowChange(db, db2, r) && Closed(db, w)
    ensures StaysClosed(db, db2, w)
  {
  }

  lemma DeliverStaysClosed(db: Db, order: Order, amount: Option<int>, code: string, w: Id)
    requires Inv(db) && Closed(db, w)
    ensures StaysClosed(db, Deliver(db, order, amount, code), w)
  {
    hide Inv, OrderRow, ApplyProviderResult, RowChange;
    var row := OrderRow(db, order);
    OrderRowHere(db, order);
    if row.Some? {
      ResultIsChange(db, row.value, MapResultCode(code));
      ChangeStaysClosed(db, ApplyProviderResult(db, row.value, MapResultCode(code)), row.value, w);
    }
  }

  lemma ReserveStaysClosed(db: Db, q: Request, w: Id)
    requires Closed(db, w)
    ensures StaysClosed(db, Reserve(db, q).0, w)
    ensures q.workshop == w ==> Reserve(db, q).1 == Refused(WorkshopNotFound)
  {
    hide KeyTaken, ActiveRow;
  }

  lemma StepStaysClosed(db: Db, e: Event, w: Id)
    requires Inv(db) && Closed(db, w) && !Publishes(e, w)
    ensures StaysClosed(db, Step(db, e), w)
  {
    hide Inv, SweepAll, Deliver, Reserve, KeyTaken;
    match e
    case Sweep(now, locked) => SweepStaysClosed(db, StaleRows(db, now, locked), w);
    case Reservation(q) => ReserveStaysClosed(db, q, w);
    case ProviderResult(order, amount, code) => DeliverStaysClosed(db, order, amount, code, w);
    case _ =>
  }

  lemma {:induction false} RunStaysClosed(db: Db, es: seq<Event>, w: Id)
    requires Inv(db) && Closed(db, w) && forall e <- es :: !Publishes(e, w)
    ensures StaysClosed(db, Run(db, es), w) && Inv(Run(db, es))
    decreases es
  {
    hide Inv, Step, Publishes;
    if es != [] {
      assert es[0] in es && forall e <- es[1..] :: e in es;
      StepStaysClosed(db, es[0], w);
      StepKeeps(db, es[0]);
      RunStaysClosed(Step(db, es[0]), es[1..], w);
    }
  }

  lemma CreateOnClosed(db: Db, q: Request)
    requires Closed(db, q.workshop) && q.newId !in db.registrations
    ensures !(CreateOn(db, q).1.Created? && CreateOn(db, q).1.reg == q.newId)
  {
    hide Reserve, KeyTaken;
    ReserveStaysClosed(db, q, q.workshop);
    if KeyRow(db, q.key).Some? {
      var mid := ReleaseKey(db, KeyRow(db, q.key).value, q.key, q.tag);
      ReserveStaysClosed(mid, q, q.workshop);
    }
  }

  /**
   * Once cancelled, and until an edit publishes it again, a workshop gains no registration over any
   * run, and every create for it is answered with an earlier registration or refused; one whose key
   * is free is told that there is no such workshop.
   */
  lemma CancelledTakesNobody(db: Db, es: seq<Event>, q: Request)
    requires Inv(db) && q.workshop in db.workshops && forall e <- es :: !Publishes(e, q.workshop)
    ensures var later, w := Run(Step(db, WorkshopCancellation(q.workshop)), es), q.workshop;
      && w in later.workshops && |Active(later.registrations, w)| <= |Active(db.registrations, w)|
      && (q.newId !in later.registrations ==>
            !(Create(later, q).1.Created? && Create(later, q).1.reg == q.newId))
      && (KeyIsFree(Swept(later, q), q) ==> Create(later, q).1 == Refused(WorkshopNotFound))
  {
    var w, cancelled := q.workshop, Step(db, WorkshopCancellation(q.workshop));
    StepKeeps(db, WorkshopCancellation(w));
    hide Inv, Step, Run, KeyIsFree, CreateOn;
    CancelledRow(db, w);
    RunStaysClosed(cancelled, es, w);
    var later := Run(cancelled, es);
    SeatsAreCounted(db, w);
    SeatsAreCounted(later, w);
    SweepStaysClosed(later, StaleRows(later, q.now, q.locked), w);
    if q.newId !in later.registrations {
      assert q.newId !in Swept(later, q).registrations;
      CreateOnClosed(Swept(later, q), q);
    }
    if KeyIsFree(Swept(later, q), q) { CreateAnswersRightly(later, q); }
  }
}
