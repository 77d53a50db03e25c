/** A concrete run in which the unguarded gateway write unsettles a paid registration. */
module LateAnswers {
  import opened Wrappers
  import opened Payments
  import opened Tables

  const REQUEST := Request(2, 1, "key", 7, "tag", 0, 10, {}, MomoSandbox, true, true)
  const SECOND_ORDER := MomoRetry(7, "r")

  // The create-order call of registration 7 gets no answer; a retried request recovers a link under a
  // second order; the payer pays it; and then the first call ends in a timeout.
  const OPENED := WorkshopAdded(1, 5, 100, Published)
  const RECOVERED := GatewayAnswered(7, SECOND_ORDER, Some("link"))
  const PAID := ProviderResult(SECOND_ORDER, Some(100), "0")
  const TIMED_OUT := GatewayAnswered(7, SECOND_ORDER, None)
  const QUERIED := ProviderResult(SECOND_ORDER, None, "0")

  const SHOP := map[1 := Workshop(5, 1, 0, 100, true, Published)]
  const PENDING := map[7 := Registration(2, 1, PendingPayment, Some(600000))]
  const UNPAID := Payment(2, 1, "key", 100, Momo(7), None, PendingProvider)
  const LINKED := UNPAID.(order := SECOND_ORDER, url := Some("link"))

  const AFTER_RESERVATION := Db(SHOP, PENDING, map[7 := UNPAID], multiset{7}, multiset{})
  const AFTER_LINK := Db(SHOP, PENDING, map[7 := LINKED], multiset{7}, multiset{})
  const AFTER_PAYMENT := Db(map[1 := Workshop(5, 1, 1, 100, true, Published)],
                            map[7 := Registration(2, 1, Confirmed, Some(600000))],
                            map[7 := LINKED.(status := Completed)], multiset{7}, multiset{7})
  const AFTER_TIMEOUT := AFTER_PAYMENT.(payments := map[7 := LINKED.(status := Unknown)], inFlight := multiset{})
  const AFTER_QUERY := AFTER_TIMEOUT.(payments := map[7 := LINKED.(status := RequiresReview)])

  lemma ReservationStep()
    ensures Step(Step(EMPTY, OPENED), Reservation(REQUEST)) == AFTER_RESERVATION
  {
    var shop := Step(EMPTY, OPENED);
    assert shop == EMPTY.(workshops := map[1 := Workshop(5, 0, 0, 100, true, Published)]);
    var got := Step(shop, Reservation(REQUEST));
    assert ActiveRow(shop, 2, 1) == None;
    assert got.workshops == AFTER_RESERVATION.workshops;
    assert got.registrations == AFTER_RESERVATION.registrations;
    assert got.payments == AFTER_RESERVATION.payments;
    assert got.inFlight == AFTER_RESERVATION.inFlight;
  }

  lemma LinkStep()
    ensures Step(Step(AFTER_RESERVATION, RecoveryStarted(7)), RECOVERED) == AFTER_LINK
  {
    var started := Step(AFTER_RESERVATION, RecoveryStarted(7));
    assert started == AFTER_RESERVATION.(inFlight := multiset{7, 7});
    assert Step(started, RECOVERED).payments == AFTER_LINK.payments;
  }

  lemma PaymentStep()
    ensures Step(AFTER_LINK, PAID) == AFTER_PAYMENT
  {
    assert IsOrderRow(AFTER_LINK, SECOND_ORDER, 7);
    assert OrderRow(AFTER_LINK, SECOND_ORDER) == Some(7);
    hide OrderRow;
    var got := Step(AFTER_LINK, PAID);
    assert got == ConfirmRow(AFTER_LINK, 7);
    assert got.workshops == AFTER_PAYMENT.workshops;
    assert got.payments == AFTER_PAYMENT.payments;
    assert got.registrations == AFTER_PAYMENT.registrations;
  }

  lemma TimeoutStep()
    ensures Step(AFTER_PAYMENT, TIMED_OUT) == AFTER_TIMEOUT
  {
    assert Step(AFTER_PAYMENT, TIMED_OUT).payments == AFTER_TIMEOUT.payments;
  }

  lemma QueryStep()
    ensures Step(AFTER_TIMEOUT, QUERIED) == AFTER_QUERY
  {
    assert IsOrderRow(AFTER_TIMEOUT, SECOND_ORDER, 7);
    assert OrderRow(AFTER_TIMEOUT, SECOND_ORDER) == Some(7);
    hide OrderRow;
    var got := Step(AFTER_TIMEOUT, QUERIED);
    assert got == SetPair(AFTER_TIMEOUT, 7, Pair(Confirmed, RequiresReview));
    assert got.payments == AFTER_QUERY.payments;
    assert got.registrations == AFTER_QUERY.registrations;
  }

  lemma RunCons(db: Db, e: Event, es: seq<Event>)
    ensures Run(db, [e] + es) == Run(Step(db, e), es)
  {
    hide Step;
    assert ([e] + es)[1..] == es;
  }

  /**
   * The late timeout takes the paid registration's payment from completed to unknown, and the next
   * reconciliation, told that the payment succeeded, sends it to review.
   */
  lemma PaidButReviewed()
    ensures PairOf(AFTER_PAYMENT, 7) == Pair(Confirmed, Completed)
    ensures PairOf(AFTER_TIMEOUT, 7) == Pair(Confirmed, Unknown)
    ensures PairOf(AFTER_QUERY, 7) == Pair(Confirmed, RequiresReview)
    ensures Run(EMPTY, [OPENED, Reservation(REQUEST), RecoveryStarted(7), RECOVERED, PAID]) == AFTER_PAYMENT
    ensures Run(AFTER_PAYMENT, [TIMED_OUT]) == AFTER_TIMEOUT && Run(AFTER_TIMEOUT, [QUERIED]) == AFTER_QUERY
  {
    ReservationStep();
    LinkStep();
    PaymentStep();
    TimeoutStep();
    QueryStep();
    hide Step;
    var db1 := Step(EMPTY, OPENED);
    var db3 := Step(AFTER_RESERVATION, RecoveryStarted(7));
    RunCons(AFTER_LINK, PAID, []);
    RunCons(db3, RECOVERED, [PAID]);
    RunCons(AFTER_RESERVATION, RecoveryStarted(7), [RECOVERED] + [PAID]);
    RunCons(db1, Reservation(REQUEST), [RecoveryStarted(7)] + ([RECOVERED] + [PAID]));
    RunCons(EMPTY, OPENED, [Reservation(REQUEST)] + ([RecoveryStarted(7)] + ([RECOVERED] + [PAID])));
    RunCons(AFTER_PAYMENT, TIMED_OUT, []);
    RunCons(AFTER_TIMEOUT, QUERIED, []);
    assert [OPENED] + ([Reservation(REQUEST)] + ([RecoveryStarted(7)] + ([RECOVERED] + [PAID])))
        == [OPENED, Reservation(REQUEST), RecoveryStarted(7), RECOVERED, PAID];
  }
}
