/** What createRegistration answers when its key is free to use, and what it writes for every request. */
module CreateAnswers {
  import opened Wrappers
  import opened Payments
  import opened Tables
  import opened SeatInvariants
  import opened IdempotentCreate

  /** The user holds a registration of the workshop with this status. */
  ghost predicate Holds(db: Db, user: Id, w: Id, status: RegistrationStatus) {
    exists r :: r in db.registrations && db.registrations[r].user == user && db.registrations[r].workshop == w
      && db.registrations[r].status == status
  }

  ghost predicate OnSale(db: Db, w: Id) {
    w in db.workshops && db.workshops[w].status == Published
  }

  ghost predicate SeatLeft(db: Db, w: Id)
    requires w in db.workshops
  {
    |Active(db.registrations, w)| < db.workshops[w].capacity
  }

  /** A payment through the gateway has to be opened. */
  ghost predicate NeedsGateway(db: Db, q: Request)
    requires q.workshop in db.workshops
  {
    db.workshops[q.workshop].paymentRequired && q.mode == MomoSandbox && q.adapter
  }

  /**
   * The drawn ids are new, and the key is nobody's or that of an ended registration of the same user
   * and workshop.
   */
  ghost predicate KeyIsFree(db: Db, q: Request) {
    && q.newId !in db.registrations
    && (forall r | r in db.payments :: db.payments[r].key != q.key + "::terminal::" + q.tag)
    && (forall r | r in db.payments && db.payments[r].key == q.key ::
          && db.payments[r].user == q.user && db.payments[r].workshop == q.workshop
          && r in db.registrations && db.registrations[r].status != Confirmed
          && db.registrations[r].status != PendingPayment)
  }

  /** The workshop is on sale with a seat left, and the user holds none of its seats. */
  ghost predicate MayBook(db: Db, q: Request) {
    && OnSale(db, q.workshop) && SeatLeft(db, q.workshop)
    && !Holds(db, q.user, q.workshop, Confirmed) && !Holds(db, q.user, q.workshop, PendingPayment)
  }

  /** The one answer that a request gets on the tables db, by cases over what the tables hold. */
  ghost predicate RightAnswer(db: Db, q: Request, c: Created) {
    && (c == Refused(WorkshopNotFound) <==> !OnSale(db, q.workshop))
    && (c == Refused(WorkshopFull) <==>
        OnSale(db, q.workshop) && |Active(db.registrations, q.workshop)| == db.workshops[q.workshop].capacity)
    && (c == Refused(AlreadyRegistered) <==>
        OnSale(db, q.workshop) && SeatLeft(db, q.workshop) && Holds(db, q.user, q.workshop, Confirmed))
    && (c.Created? && c.reg in db.registrations <==>
        OnSale(db, q.workshop) && SeatLeft(db, q.workshop) && Holds(db, q.user, q.workshop, PendingPayment))
    && (c == Refused(GatewayUnavailable) <==> MayBook(db, q) && NeedsGateway(db, q) && !q.admitted)
    && (c.Created? && c.reg == q.newId <==> MayBook(db, q) && (NeedsGateway(db, q) ==> q.admitted))
    && (c.Created? && c.status == Confirmed <==> MayBook(db, q) && !db.workshops[q.workshop].paymentRequired)
    && (c.Created? && c.status != Confirmed ==> c.status == PendingPayment)
    && (c.Created? && c.reg != q.newId ==>
        && c.reg in db.registrations && db.registrations[c.reg].user == q.user
        && db.registrations[c.reg].workshop == q.workshop && db.registrations[c.reg].status == PendingPayment)
  }

  lemma SeatsAreCounted(db: Db, w: Id)
    requires Inv(db) && w in db.workshops
    ensures db.workshops[w].reserved == |Active(db.registrations, w)| <= db.workshops[w].capacity
  {
    assert Seats(db.workshops, db.registrations);
    assert Active(db.registrations, w) == Active(db.registrations, w);
  }

  lemma HeldRow(db: Db, q: Request, r: Id)
    requires OneActive(db.registrations) && IsActiveRow(db, q.user, q.workshop, r)
    ensures ActiveRow(db, q.user, q.workshop) == Some(r)
    ensures Holds(db, q.user, q.workshop, Confirmed) <==> db.registrations[r].status == Confirmed
    ensures Holds(db, q.user, q.workshop, PendingPayment) <==> db.registrations[r].status == PendingPayment
  {
  }

  lemma NothingHeld(db: Db, q: Request)
    requires forall r :: !IsActiveRow(db, q.user, q.workshop, r)
    ensures ActiveRow(db, q.user, q.workshop) == None
    ensures !Holds(db, q.user, q.workshop, Confirmed) && !Holds(db, q.user, q.workshop, PendingPayment)
  {
    if Holds(db, q.user, q.workshop, Confirmed) {
      var r: Id :| r in db.registrations && db.registrations[r].user == q.user
        && db.registrations[r].workshop == q.workshop && db.registrations[r].status == Confirmed;
      assert IsActiveRow(db, q.user, q.workshop, r);
    }
    if Holds(db, q.user, q.workshop, PendingPayment) {
      var r: Id :| r in db.registrations && db.registrations[r].user == q.user
        && db.registrations[r].workshop == q.workshop && db.registrations[r].status == PendingPayment;
      assert IsActiveRow(db, q.user, q.workshop, r);
    }
  }

  lemma ReserveAnswersHolder(db: Db, q: Request, r: Id)
    requires Inv(db) && IsActiveRow(db, q.user, q.workshop, r)
    requires q.newId !in db.registrations
    ensures RightAnswer(db, q, Reserve(db, q).1)
  {
    HeldRow(db, q, r);
    if q.workshop in db.workshops { SeatsAreCounted(db, q.workshop); }
    hide KeyTaken, Holds, Inv, Active, OneActive, Recovering, InsertRow;
  }

  lemma ReserveAnswersNewcomer(db: Db, q: Request)
    requires Inv(db) && forall r :: !IsActiveRow(db, q.user, q.workshop, r)
    requires q.newId !in db.registrations && !KeyTaken(db, q.key)
    ensures RightAnswer(db, q, Reserve(db, q).1)
  {
    NothingHeld(db, q);
    if q.workshop in db.workshops { SeatsAreCounted(db, q.workshop); }
    assert q.newId !in db.payments;
    hide KeyTaken, Holds, Inv, Active, InsertRow, IsActiveRow, ActiveRow;
  }

  lemma ReserveAnswers(db: Db, q: Request)
    requires Inv(db) && q.newId !in db.registrations && !KeyTaken(db, q.key)
    ensures RightAnswer(db, q, Reserve(db, q).1)
  {
    hide Inv, KeyTaken, RightAnswer, Reserve;
    if r: Id :| IsActiveRow(db, q.user, q.workshop, r) {
      ReserveAnswersHolder(db, q, r);
    } else {
      ReserveAnswersNewcomer(db, q);
    }
  }

  /**
   * A reservation that may book, but whose key or id was taken by another transaction since the key
   * was looked up, is aborted by the unique constraints and changes nothing.
   */
  lemma KeyClashAborts(db: Db, q: Request)
    requires Inv(db) && MayBook(db, q) && (NeedsGateway(db, q) ==> q.admitted)
    requires q.newId in db.registrations || exists r :: r in db.payments && db.payments[r].key == q.key
    ensures Reserve(db, q) == (db, Refused(ConstraintViolated))
  {
    SeatsAreCounted(db, q.workshop);
    assert db.payments.Keys == db.registrations.Keys;
    forall r ensures !IsActiveRow(db, q.user, q.workshop, r) {
      if IsActiveRow(db, q.user, q.workshop, r) { HeldRow(db, q, r); }
    }
    NothingHeld(db, q);
    hide Inv, Holds, Active, IsActiveRow, ActiveRow;
  }

  /** Archiving the key of an ended registration changes no registration, no workshop and no answer. */
  lemma ReleasedKey(db: Db, q: Request, r: Id)
    requires Inv(db) && KeyIsFree(db, q) && IsKeyRow(db, q.key, r)
    ensures KeyRow(db, q.key) == Some(r) && !IsActive(db.registrations[r].status)
    ensures db.payments[r].user == q.user && db.payments[r].workshop == q.workshop
    ensures var db2 := ReleaseKey(db, r, q.key, q.tag);
      db2.workshops == db.workshops && db2.registrations == db.registrations && !KeyTaken(db2, q.key)
  {
    LookupsAreUnique(db, r);
  }

  lemma SameAnswer(a: Db, b: Db, q: Request, c: Created)
    requires a.workshops == b.workshops && a.registrations == b.registrations && RightAnswer(a, q, c)
    ensures RightAnswer(b, q, c)
  {
    hide Active;
    assert forall w, status :: Holds(a, q.user, w, status) == Holds(b, q.user, w, status);
  }

  lemma NoKeyRow(db: Db, key: string)
    requires forall r :: !IsKeyRow(db, key, r)
    ensures KeyRow(db, key) == None
  {
  }

  lemma NobodysKey(db: Db, key: string)
    requires Inv(db) && forall r :: !IsKeyRow(db, key, r)
    ensures !KeyTaken(db, key)
  {
    assert forall r | r in db.payments :: IsKeyRow(db, key, r) <==> db.payments[r].key == key;
  }

  lemma CreateOnAnswers(db: Db, q: Request)
    requires Inv(db) && KeyIsFree(db, q)
    ensures RightAnswer(db, q, CreateOn(db, q).1)
  {
    hide RightAnswer, Reserve, Inv, ReleaseKey, KeyRow, IsActive, KeyTaken;
    if r: Id :| IsKeyRow(db, q.key, r) {
      ReleasedKey(db, q, r);
      var db2 := ReleaseKey(db, r, q.key, q.tag);
      ReleaseKeyKeeps(db, r, q.key, q.tag);
      ReserveAnswers(db2, q);
      SameAnswer(db2, db, q, Reserve(db2, q).1);
    } else {
      NoKeyRow(db, q.key);
      NobodysKey(db, q.key);
      ReserveAnswers(db, q);
    }
  }
  /**
   * Main result: with its key free, a create books a new registration if and only if the workshop is
   * published, fewer registrations are active than it has seats, the user holds none of them, and no
   * gateway call is needed or the breaker admitted it; and each refusal has its own exact condition.
   */
  lemma CreateAnswersRightly(db: Db, q: Request)
    requires Inv(db) && KeyIsFree(Swept(db, q), q)
    ensures RightAnswer(Swept(db, q), q, Create(db, q).1)
  {
    hide Swept, CreateOn, KeyIsFree, RightAnswer, Inv;
    SweptIsGood(db, q);
    CreateOnAnswers(Swept(db, q), q);
  }

  // ---- what it writes ----

  /** The payments of two states agree, except that a key equal to key may have been archived. */
  ghost predicate SamePaymentsBut(was: Db, got: Db, key: string, tag: string) {
    forall r | r in was.payments :: r in got.payments &&
      (got.payments[r] == was.payments[r] ||
       (was.payments[r].key == key && got.payments[r] == was.payments[r].(key := key + "::terminal::" + tag)))
  }

  /** The rows, counters, calls and events after a new registration was booked on the tables was. */
  ghost predicate Booked(was: Db, got: Db, q: Request)
    requires q.workshop in was.workshops
  {
    var w, paid := was.workshops[q.workshop], was.workshops[q.workshop].paymentRequired;
    && got.registrations == was.registrations[q.newId :=
         Registration(q.user, q.workshop, if paid then PendingPayment else Confirmed,
                      if paid then Some(q.now + q.ttlMinutes * 60_000) else None)]
    && got.payments.Keys == was.payments.Keys + {q.newId}
    && got.payments[q.newId] ==
         Payment(q.user, q.workshop, q.key, w.price, if paid then Momo(q.newId) else Simulated(q.newId), None,
                 if !paid then Completed else if q.mode == Simulation then PendingSimulation else PendingProvider)
    && SamePaymentsBut(was, got, q.key, q.tag)
    && got.workshops == was.workshops[q.workshop :=
         w.(reserved := w.reserved + 1, confirmed := w.confirmed + if paid then 0 else 1)]
    && got.inFlight == was.inFlight + (if NeedsGateway(was, q) then multiset{q.newId} else multiset{})
    && got.confirmations == was.confirmations + (if paid then multiset{} else multiset{q.newId})
  }

  /** Everything but the payments' keys stands, and at most a gateway call for c's pending row was started. */
  ghost predicate NothingBooked(was: Db, got: Db, q: Request, c: Created) {
    && got.workshops == was.workshops && got.registrations == was.registrations
    && got.confirmations == was.confirmations
    && got.payments.Keys == was.payments.Keys && SamePaymentsBut(was, got, q.key, q.tag)
    && got.inFlight == was.inFlight +
         if c.Created? && c.status == PendingPayment && c.reg in was.payments && was.payments[c.reg].url == None
            && q.mode == MomoSandbox && q.adapter
         then multiset{c.reg} else multiset{}
  }

  ghost predicate RightWrites(was: Db, got: Db, q: Request, c: Created) {
    if c.Created? && c.reg == q.newId then q.workshop in was.workshops && Booked(was, got, q)
    else NothingBooked(was, got, q, c)
  }

  lemma InsertWrites(db: Db, q: Request)
    requires q.workshop in db.workshops && q.newId !in db.registrations && q.newId !in db.payments
    ensures Booked(db, InsertRow(db, q), q)
  {
  }

  lemma RecoveryWrites(db: Db, q: Request, r: Id)
    requires r in db.registrations && r in db.payments && r != q.newId
    requires db.registrations[r].status == PendingPayment
    ensures RightWrites(db, Recovering(db, q, r), q, Created(r, PendingPayment))
  {
  }

  lemma NothingWritten(db: Db, q: Request, c: Created)
    requires c.Refused? || (c.status == Confirmed && c.reg != q.newId)
    ensures RightWrites(db, db, q, c)
  {
  }

  lemma BookedIsRight(was: Db, got: Db, q: Request, c: Created)
    requires c.Created? && c.reg == q.newId && q.workshop in was.workshops && Booked(was, got, q)
    ensures RightWrites(was, got, q, c)
  {
    hide Booked;
  }

  /** A reservation is refused, resumes the user's pending registration, or inserts a new one. */
  lemma ReserveCases(db: Db, q: Request)
    requires q.newId !in db.registrations
    ensures var (got, c) := Reserve(db, q);
      || (c.Refused? && got == db)
      || (c.Created? && c.reg == q.newId && q.workshop in db.workshops && q.newId !in db.payments
          && got == InsertRow(db, q))
      || (c.Created? && c.status == PendingPayment && c.reg in db.registrations
          && db.registrations[c.reg].status == PendingPayment && got == Recovering(db, q, c.reg))
  {
    hide KeyTaken, InsertRow, Recovering;
  }

  lemma ReserveWrites(db: Db, q: Request)
    requires db.payments.Keys == db.registrations.Keys && q.newId !in db.registrations
    ensures RightWrites(db, Reserve(db, q).0, q, Reserve(db, q).1)
  {
    hide RightWrites, Booked, InsertRow, Recovering, Reserve;
    ReserveCases(db, q);
    var c := Reserve(db, q).1;
    if c.Refused? {
      NothingWritten(db, q, c);
    } else if c.reg == q.newId {
      InsertWrites(db, q);
      BookedIsRight(db, InsertRow(db, q), q, c);
    } else {
      RecoveryWrites(db, q, c.reg);
    }
  }

  lemma ArchivedIsAnother(key: string, tag: string)
    ensures key + "::terminal::" + tag != key
  {
    assert |key + "::terminal::" + tag| > |key|;
  }

  lemma SamePaymentsTwice(was: Db, mid: Db, got: Db, key: string, tag: string)
    requires SamePaymentsBut(was, mid, key, tag) && SamePaymentsBut(mid, got, key, tag)
    ensures SamePaymentsBut(was, got, key, tag)
  {
    ArchivedIsAnother(key, tag);
  }

  /** Two states differ at most in archived keys. */
  ghost predicate OnlyKeys(was: Db, mid: Db, key: string, tag: string) {
    && mid.workshops == was.workshops && mid.registrations == was.registrations
    && mid.inFlight == was.inFlight && mid.confirmations == was.confirmations
    && mid.payments.Keys == was.payments.Keys && SamePaymentsBut(was, mid, key, tag)
  }

  lemma ReleaseOnlyKeys(db: Db, r: Id, key: string, tag: string)
    ensures OnlyKeys(db, ReleaseKey(db, r, key, tag), key, tag)
  {
    hide KeyTaken;
  }

  lemma BookedAfterKeys(was: Db, mid: Db, got: Db, q: Request)
    requires OnlyKeys(was, mid, q.key, q.tag) && q.workshop in was.workshops && Booked(mid, got, q)
    ensures Booked(was, got, q)
  {
    SamePaymentsTwice(was, mid, got, q.key, q.tag);
    hide SamePaymentsBut;
  }

  lemma NothingAfterKeys(was: Db, mid: Db, got: Db, q: Request, c: Created)
    requires OnlyKeys(was, mid, q.key, q.tag) && NothingBooked(mid, got, q, c)
    ensures NothingBooked(was, got, q, c)
  {
    assert forall s | s in mid.payments :: mid.payments[s].url == was.payments[s].url;
    SamePaymentsTwice(was, mid, got, q.key, q.tag);
    hide SamePaymentsBut;
  }

  lemma WritesAfterRelease(was: Db, q: Request, r: Id, got: Db, c: Created)
    requires RightWrites(ReleaseKey(was, r, q.key, q.tag), got, q, c)
    ensures RightWrites(was, got, q, c)
  {
    hide ReleaseKey, Booked, NothingBooked;
    var mid := ReleaseKey(was, r, q.key, q.tag);
    ReleaseOnlyKeys(was, r, q.key, q.tag);
    if c.Created? && c.reg == q.newId {
      BookedAfterKeys(was, mid, got, q);
    } else {
      NothingAfterKeys(was, mid, got, q, c);
    }
  }

  lemma KeyRowExists(db: Db, key: string, r: Id)
    requires KeyRow(db, key) == Some(r)
    ensures r in db.registrations && r in db.payments
  {
  }

  lemma CreateOnWrites(db: Db, q: Request)
    requires db.payments.Keys == db.registrations.Keys && q.newId !in db.registrations
    ensures RightWrites(db, CreateOn(db, q).0, q, CreateOn(db, q).1)
  {
    hide RightWrites, Reserve, Recovering, IsKeyRow;
    var c := CreateOn(db, q).1;
    match KeyRow(db, q.key)
    case None =>
      ReserveWrites(db, q);
    case Some(r) =>
      KeyRowExists(db, q.key, r);
      if db.payments[r].user != q.user || db.payments[r].workshop != q.workshop
         || db.registrations[r].status == Confirmed {
        NothingWritten(db, q, c);
      } else if db.registrations[r].status == PendingPayment {
        RecoveryWrites(db, q, r);
      } else {
        var mid := ReleaseKey(db, r, q.key, q.tag);
        ReserveWrites(mid, q);
        WritesAfterRelease(db, q, r, Reserve(mid, q).0, c);
      }
  }

  /**
   * What a create writes after its sweep, whatever its key: the rows, counters, call and event of the
   * new registration it answers with; otherwise nothing but an archived key, and one gateway call
   * exactly when it answers with a pending registration that has no payment link.
   */
  lemma CreateWritesRightly(db: Db, q: Request)
    requires Inv(db) && q.newId !in db.registrations
    ensures RightWrites(Swept(db, q), Create(db, q).0, q, Create(db, q).1)
  {
    SweptIsGood(db, q);
    assert q.newId !in Swept(db, q).registrations;
    assert Swept(db, q).payments.Keys == Swept(db, q).registrations.Keys;
    hide Swept, CreateOn, RightWrites, Inv;
    CreateOnWrites(Swept(db, q), q);
  }
}
