/** The idempotency of createRegistration, alone and among other transactions. */
module IdempotentCreate {
  import opened Wrappers
  import opened Payments
  import opened Tables
  import opened SeatInvariants
  import opened RegistrationRuns

  /** The key leads to its one row, and a user has at most one active row for a workshop. */
  lemma LookupsAreUnique(db: Db, r: Id)
    requires UniqueKeys(db.payments) && OneActive(db.registrations)
    requires r in db.registrations && r in db.payments
    ensures KeyRow(db, db.payments[r].key) == Some(r)
    ensures var x := db.registrations[r];
      IsActive(x.status) ==> ActiveRow(db, x.user, x.workshop) == Some(r)
  {
    var x := db.registrations[r];
    assert IsKeyRow(db, db.payments[r].key, r);
    assert IsActive(x.status) ==> IsActiveRow(db, x.user, x.workshop, r);
  }

  lemma RunOne(db: Db, e: Event)
    ensures Run(db, [e]) == Step(db, e)
  {
    assert [e][1..] == [];
  }

  /** Nothing but a sweep, a key release and a started recovery, and at most a reservation for q at the end. */
  predicate CreateEvents(es: seq<Event>, q: Request) {
    forall i | 0 <= i < |es| ::
      es[i].Sweep? || es[i].KeyReleased? || es[i].RecoveryStarted? || (es[i] == Reservation(q) && i == |es| - 1)
  }

  lemma CreateOnIsRun(db: Db, q: Request) returns (es: seq<Event>)
    ensures CreateOn(db, q).0 == Run(db, es) && CreateEvents(es, q)
  {
    hide Reserve, ReleaseKey, StartRecovery;
    match KeyRow(db, q.key)
    case None =>
      es := [Reservation(q)];
      RunOne(db, es[0]);
    case Some(r) =>
      if db.payments[r].user != q.user || db.payments[r].workshop != q.workshop
         || db.registrations[r].status == Confirmed {
        es := [];
      } else if db.registrations[r].status == PendingPayment {
        es := if q.mode == MomoSandbox && q.adapter then [RecoveryStarted(r)] else [];
        RunOne(db, RecoveryStarted(r));
      } else {
        es := [KeyReleased(r, q.key, q.tag), Reservation(q)];
        assert es[1..] == [Reservation(q)];
        RunOne(ReleaseKey(db, r, q.key, q.tag), Reservation(q));
      }
  }

  /** A create is a run of transactions of the protocol, so what every run keeps it keeps. */
  lemma CreateIsRun(db: Db, q: Request) returns (es: seq<Event>)
    ensures Create(db, q).0 == Run(db, es) && CreateEvents(es, q)
  {
    hide CreateOn, StaleRows, SweepAll;
    var rest := CreateOnIsRun(Swept(db, q), q);
    es := [Sweep(q.now, q.locked)] + rest;
    assert es[1..] == rest;
  }

  /** The workshops, the registrations and the payments of two states agree. */
  ghost predicate SameRows(a: Db, b: Db) {
    a.workshops == b.workshops && a.registrations == b.registrations && a.payments == b.payments
  }

  lemma SweptIsGood(db: Db, q: Request)
    requires Inv(db)
    ensures Inv(Swept(db, q))
  {
    SweepKeeps(db, StaleRows(db, q.now, q.locked));
  }

  lemma ReplayOn(db: Db, q: Request, r: Id)
    requires UniqueKeys(db.payments) && OneActive(db.registrations)
    requires r in db.registrations && r in db.payments && db.payments[r].key == q.key
    requires db.payments[r].user == q.user && db.payments[r].workshop == q.workshop
    requires IsActive(db.registrations[r].status)
    ensures CreateOn(db, q).1 == Created(r, db.registrations[r].status)
    ensures SameRows(CreateOn(db, q).0, db)
  {
    LookupsAreUnique(db, r);
  }

  /** With the key of an active registration of the same pair, create answers with it and reserves nothing. */
  lemma ReplayReservesNothing(db: Db, q: Request, r: Id)
    requires Inv(db) && r in Swept(db, q).registrations && r in Swept(db, q).payments
    requires var p, x := Swept(db, q).payments[r], Swept(db, q).registrations[r];
      p.key == q.key && p.user == q.user && p.workshop == q.workshop && IsActive(x.status)
    ensures Create(db, q).1 == Created(r, Swept(db, q).registrations[r].status)
    ensures SameRows(Create(db, q).0, Swept(db, q))
  {
    SweptIsGood(db, q);
    hide Swept, CreateOn, IsActive, SameRows, UniqueKeys, OneActive;
    ReplayOn(Swept(db, q), q, r);
  }

  /** The key of another user's or workshop's request is refused, and nothing is reserved. */
  lemma OtherRequestIsRefused(db: Db, q: Request, r: Id)
    requires Inv(db) && r in Swept(db, q).registrations && r in Swept(db, q).payments
    requires var p := Swept(db, q).payments[r];
      p.key == q.key && (p.user != q.user || p.workshop != q.workshop)
    ensures Create(db, q) == (Swept(db, q), Refused(KeyReused))
  {
    SweptIsGood(db, q);
    hide Swept, UniqueKeys, OneActive, Wired, Seats, Reserve, ReleaseKey;
    LookupsAreUnique(Swept(db, q), r);
  }

  /** The create answers with the fresh id it drew. */
  ghost predicate NewRow(db: Db, q: Request) {
    q.newId !in db.registrations && Create(db, q).1.Created? && Create(db, q).1.reg == q.newId
  }

  lemma TookRowOn(db: Db, q: Request)
    requires q.newId !in db.registrations && CreateOn(db, q).1.Created? && CreateOn(db, q).1.reg == q.newId
    ensures var mid := CreateOn(db, q).0;
      && q.newId in mid.registrations && q.newId in mid.payments
      && mid.payments[q.newId].key == q.key
      && mid.payments[q.newId].user == q.user && mid.payments[q.newId].workshop == q.workshop
      && mid.registrations[q.newId].user == q.user && mid.registrations[q.newId].workshop == q.workshop
  {
    hide KeyTaken;
  }

  /** The row a create inserted carries the request's key, user and workshop. */
  lemma TookRow(db: Db, q: Request)
    requires NewRow(db, q)
    ensures var mid := Create(db, q).0;
      && q.newId in mid.registrations && q.newId in mid.payments
      && mid.payments[q.newId].key == q.key
      && mid.payments[q.newId].user == q.user && mid.payments[q.newId].workshop == q.workshop
      && mid.registrations[q.newId].user == q.user && mid.registrations[q.newId].workshop == q.workshop
  {
    assert q.newId !in Swept(db, q).registrations;
    hide Swept, CreateOn;
    TookRowOn(Swept(db, q), q);
  }

  lemma SweptFollows(db: Db, q: Request, r: Id)
    requires Inv(db) && r in db.registrations
    ensures Follows(db, Swept(db, q), r)
  {
    StepFollows(db, Sweep(q.now, q.locked), r);
  }

  /**
   * A create that took a row, any transactions of others after it, then a retry with the same key:
   * while the registration is active, the retry answers with the same registration and no new seat.
   */
  lemma RetryAfterAnything(db: Db, first: Request, es: seq<Event>, retry: Request)
    requires Reachable(db) && NewRow(db, first)
    requires retry.key == first.key && retry.user == first.user && retry.workshop == first.workshop
    ensures var later := Run(Create(db, first).0, es);
      && first.newId in Swept(later, retry).registrations
      && var status := Swept(later, retry).registrations[first.newId].status;
      IsActive(status) ==>
        && Create(later, retry).1 == Created(first.newId, status)
        && SameRows(Create(later, retry).0, Swept(later, retry))
  {
    hide Reachable, Swept, SameRows, Create, Run, Inv, Step, NewRow;
    var mid, r := Create(db, first).0, first.newId;
    ReachableIsGood(db);
    var fs := CreateIsRun(db, first);
    RunKeeps(db, fs);
    TookRow(db, first);
    var later := Run(mid, es);
    RunKeeps(mid, es);
    RunFollows(mid, es, r);
    SweptFollows(later, retry, r);
    if IsActive(Swept(later, retry).registrations[r].status) { ReplayReservesNothing(later, retry, r); }
  }

  /** Whatever the keys, a user holds at most one seat of a workshop. */
  lemma OneSeatPerUser(db: Db, user: Id, w: Id)
    requires Reachable(db)
    ensures |set r | r in db.registrations && IsActiveRow(db, user, w, r)| <= 1
  {
    ReachableIsGood(db);
    var held := set r | r in db.registrations && IsActiveRow(db, user, w, r);
    if r :| r in held {
      forall s | s in held ensures s == r {}
      assert held == {r};
    }
  }

  lemma ReserveTakesOneSeat(db: Db, q: Request, w: Id)
    requires w in db.workshops && q.newId !in db.registrations
    ensures w in Reserve(db, q).0.workshops
    ensures Reserve(db, q).0.workshops[w].reserved == db.workshops[w].reserved
      + if w == q.workshop && Reserve(db, q).1.Created? && Reserve(db, q).1.reg == q.newId then 1 else 0
  {
    hide KeyTaken;
  }

  lemma CreateOnTakesOneSeat(db: Db, q: Request, w: Id)
    requires w in db.workshops && q.newId !in db.registrations
    ensures w in CreateOn(db, q).0.workshops
    ensures CreateOn(db, q).0.workshops[w].reserved == db.workshops[w].reserved
      + if w == q.workshop && CreateOn(db, q).1.Created? && CreateOn(db, q).1.reg == q.newId then 1 else 0
  {
    hide Reserve, KeyTaken;
    ReserveTakesOneSeat(db, q, w);
    if KeyRow(db, q.key).Some? { ReserveTakesOneSeat(ReleaseKey(db, KeyRow(db, q.key).value, q.key, q.tag), q, w); }
  }

  /** After its sweep a create takes a seat exactly when it answers with the row it inserted. */
  lemma CreateTakesOneSeat(db: Db, q: Request, w: Id)
    requires w in db.workshops && q.newId !in db.registrations
    ensures w in Create(db, q).0.workshops && w in Swept(db, q).workshops
    ensures Create(db, q).0.workshops[w].reserved == Swept(db, q).workshops[w].reserved
      + if w == q.workshop && NewRow(db, q) then 1 else 0
  {
    assert w in Swept(db, q).workshops && q.newId !in Swept(db, q).registrations;
    hide Swept, CreateOn;
    CreateOnTakesOneSeat(Swept(db, q), q, w);
  }

  lemma KeyReusedOn(db: Db, q: Request, r: Id)
    requires UniqueKeys(db.payments) && OneActive(db.registrations)
    requires r in db.registrations && r in db.payments && db.payments[r].key == q.key
    requires q.newId !in db.registrations && CreateOn(db, q).1.Created? && CreateOn(db, q).1.reg == q.newId
    ensures !IsActive(db.registrations[r].status)
    ensures var after := CreateOn(db, q).0;
      && r in after.payments && after.payments[r].key == q.key + "::terminal::" + q.tag
      && q.newId in after.payments && after.payments[q.newId].key == q.key
  {
    LookupsAreUnique(db, r);
    hide UniqueKeys, OneActive;
  }

  /** A key is taken over only from a registration that ended, whose payment then carries an archived key. */
  lemma KeyReusedAfterEnd(db: Db, q: Request, r: Id)
    requires Inv(db) && NewRow(db, q)
    requires r in Swept(db, q).registrations && r in Swept(db, q).payments
    requires Swept(db, q).payments[r].key == q.key
    ensures !IsActive(Swept(db, q).registrations[r].status)
    ensures var after := Create(db, q).0;
      && r in after.payments && after.payments[r].key == q.key + "::terminal::" + q.tag
      && q.newId in after.payments && after.payments[q.newId].key == q.key
  {
    SweptIsGood(db, q);
    assert q.newId !in Swept(db, q).registrations;
    hide Swept, CreateOn, UniqueKeys, OneActive, Wired, Seats;
    KeyReusedOn(Swept(db, q), q, r);
  }
}
