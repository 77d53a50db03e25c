/**
 * The workshops, registrations and payments tables, and every transaction of the registration
 * service as one atomic step on them. A transaction that is refused or aborted leaves the tables
 * as they were.
 */
module Tables {
  import opened Wrappers
  import opened Payments

  type Id = nat

  datatype WorkshopStatus = Draft | Published | WorkshopCancelled

  datatype Workshop = Workshop(capacity: int, reserved: int, confirmed: int, price: int,
                               paymentRequired: bool, status: WorkshopStatus)

  datatype Registration = Registration(user: Id, workshop: Id, status: RegistrationStatus,
                                       expiresAt: Option<int>)

  /** The provider order ids sim-<id>, momo-<id> and momo-<id>-<suffix>. */
  datatype Order = Simulated(reg: Id) | Momo(reg: Id) | MomoRetry(reg: Id, suffix: string)

  /** The request hash is injective in user and workshop, so those two columns stand for it. */
  datatype Payment = Payment(user: Id, workshop: Id, key: string, amount: int, order: Order,
                             url: Option<string>, status: PaymentStatus)

  /**
   * payments is keyed by its UNIQUE registration_id. inFlight holds, for each gateway call that was
   * started and not yet written back, the registration it was made for. confirmations holds the
   * confirmation events handed to the queue.
   */
  datatype Db = Db(workshops: map<Id, Workshop>,
                   registrations: map<Id, Registration>,
                   payments: map<Id, Payment>,
                   inFlight: multiset<Id>,
                   confirmations: multiset<Id>)

  const EMPTY := Db(map[], map[], map[], multiset{}, multiset{})

  datatype GatewayMode = MomoSandbox | Simulation

  /**
   * One registration request. newId and tag are the UUIDs the service draws, now its clock, locked
   * the rows other transactions hold (SKIP LOCKED), admitted the circuit breaker's answer.
   */
  datatype Request = Request(user: Id, workshop: Id, key: string, newId: Id, tag: string, now: int,
                             ttlMinutes: int, locked: set<Id>, mode: GatewayMode, adapter: bool,
                             admitted: bool)

  datatype CreateError = KeyReused | WorkshopNotFound | WorkshopFull | AlreadyRegistered
                       | GatewayUnavailable | ConstraintViolated

  datatype Created = Created(reg: Id, status: RegistrationStatus) | Refused(error: CreateError)

  datatype Event =
    | WorkshopAdded(w: Id, capacity: int, price: int, published: WorkshopStatus)
    | WorkshopEdited(w: Id, capacity: int, price: int, published: WorkshopStatus)
    | WorkshopCancellation(w: Id)
    | Sweep(now: int, locked: set<Id>)
    | KeyReleased(reg: Id, key: string, tag: string)
    | Reservation(q: Request)
    | RecoveryStarted(reg: Id)
    | ProviderResult(order: Order, amount: Option<int>, code: string)
    | GatewayAnswered(reg: Id, order: Order, url: Option<string>)

  // ---- workshops ----

  /** The CHECK constraint chk_workshop_counts_valid. */
  predicate CountsValid(w: Workshop) {
    w.capacity >= 0 && 0 <= w.confirmed <= w.reserved <= w.capacity
  }

  function AddWorkshop(db: Db, w: Id, capacity: int, price: int, status: WorkshopStatus): Db {
    if w in db.workshops || capacity <= 0 then db
    else db.(workshops := db.workshops[w := Workshop(capacity, 0, 0, price, price > 0, status)])
  }

  function EditWorkshop(db: Db, w: Id, capacity: int, price: int, status: WorkshopStatus): Db {
    if w !in db.workshops || capacity <= 0 then db else
    var row := db.workshops[w].(capacity := capacity, price := price, paymentRequired := price > 0, status := status);
    if CountsValid(row) then db.(workshops := db.workshops[w := row]) else db
  }

  function CancelWorkshop(db: Db, w: Id): Db {
    if w !in db.workshops then db
    else db.(workshops := db.workshops[w := db.workshops[w].(status := WorkshopCancelled)])
  }

  // ---- expiry sweep ----

  predicate Pending(db: Db, r: Id) {
    r in db.registrations && db.registrations[r].status == PendingPayment
  }

  predicate Stale(db: Db, r: Id, now: int) {
    Pending(db, r) && db.registrations[r].expiresAt.Some? && db.registrations[r].expiresAt.value < now
  }

  /** The stale rows the sweep gets to lock. */
  function StaleRows(db: Db, now: int, locked: set<Id>): set<Id> {
    set r | r in db.registrations && Stale(db, r, now) && r !in locked
  }

  /** The rows of s that belong to workshop w. */
  function OfWorkshop(db: Db, s: set<Id>, w: Id): set<Id> {
    set r | r in s && r in db.registrations && db.registrations[r].workshop == w
  }

  function Expire(p: Payment): Payment {
    if p.status == PendingProvider || p.status == Unknown || p.status == PendingSimulation
    then p.(status := PaymentExpired) else p
  }

  /** What a sweep over the rows s does, said at once: each row expires and gives back its seat. */
  function SweepAll(db: Db, s: set<Id>): Db {
    Db(map w | w in db.workshops ::
         db.workshops[w].(reserved := db.workshops[w].reserved - |OfWorkshop(db, s, w)|),
       map r | r in db.registrations ::
         if r in s then db.registrations[r].(status := Expired) else db.registrations[r],
       map r | r in db.payments ::
         if r in s then Expire(db.payments[r]) else db.payments[r],
       db.inFlight, db.confirmations)
  }

  // ---- provider results ----

  function Released(w: Workshop): Workshop {
    w.(reserved := if w.reserved - 1 >= 0 then w.reserved - 1 else 0)
  }

  function SetPair(db: Db, r: Id, p: Pair): Db
    requires r in db.registrations && r in db.payments
  {
    db.(registrations := db.registrations[r := db.registrations[r].(status := p.reg)],
        payments := db.payments[r := db.payments[r].(status := p.pay)])
  }

  /** confirmPendingRegistration on a row found pending. */
  function ConfirmRow(db: Db, r: Id): Db
    requires r in db.registrations && r in db.payments && db.registrations[r].workshop in db.workshops
  {
    var w := db.registrations[r].workshop;
    SetPair(db, r, Pair(Confirmed, Completed)).(
      workshops := db.workshops[w := db.workshops[w].(confirmed := db.workshops[w].confirmed + 1)],
      confirmations := db.confirmations + multiset{r})
  }

  /** failPendingRegistration, and one turn of the sweep's loop, on a row found pending. */
  function ReleaseRow(db: Db, r: Id, to: RegistrationStatus, pay: PaymentStatus): Db
    requires r in db.registrations && r in db.payments && db.registrations[r].workshop in db.workshops
  {
    var w := db.registrations[r].workshop;
    SetPair(db, r, Pair(to, pay)).(workshops := db.workshops[w := Released(db.workshops[w])])
  }

  function PairOf(db: Db, r: Id): Pair
    requires r in db.registrations && r in db.payments
  {
    Pair(db.registrations[r].status, db.payments[r].status)
  }

  /** applyProviderResult, with the counters and the confirmation event. */
  function ApplyProviderResult(db: Db, r: Id, mapped: PaymentStatus): Db
    requires r in db.registrations && r in db.payments && db.registrations[r].workshop in db.workshops
  {
    var p := PairOf(db, r);
    if p.pay == Completed then db
    else if IsTerminal(p.pay) || p.reg != PendingPayment then
      if p.reg != PendingPayment && mapped == Completed then SetPair(db, r, p.(pay := RequiresReview)) else db
    else if mapped == Completed then ConfirmRow(db, r)
    else if mapped == Failed then ReleaseRow(db, r, Cancelled, Failed)
    else if mapped == PaymentExpired then ReleaseRow(db, r, Expired, PaymentExpired)
    else SetPair(db, r, p.(pay := Unknown))
  }

  /** The row that findPaymentForProviderOrder returns. */
  predicate IsOrderRow(db: Db, order: Order, r: Id) {
    r in db.payments && db.payments[r].order == order
  }

  ghost function OrderRow(db: Db, order: Order): Option<Id> {
    if r :| IsOrderRow(db, order, r) then Some(r) else None
  }

  /** A signed callback carries an amount to compare; a reconciliation query does not compare. */
  ghost function Deliver(db: Db, order: Order, amount: Option<int>, code: string): Db {
    match OrderRow(db, order)
    case None => db
    case Some(r) =>
      if amount.Some? && amount.value != db.payments[r].amount then db
      else if r in db.registrations && db.registrations[r].workshop in db.workshops
      then ApplyProviderResult(db, r, MapResultCode(code))
      else db
  }

  // ---- gateway calls made after the commit ----

  /** recoverPaymentUrlIfMissing reads a pending row without a link and calls the gateway for it. */
  function StartRecovery(db: Db, r: Id): Db {
    if Pending(db, r) && r in db.payments && db.payments[r].url == None
    then db.(inFlight := db.inFlight + multiset{r}) else db
  }

  /** The unguarded write of a gateway answer: a link makes it pending_provider, no link unknown. */
  function WriteAnswer(db: Db, r: Id, order: Order, url: Option<string>): Db {
    if r !in db.inFlight || r !in db.payments || order.reg != r then db else
    var p := db.payments[r].(order := order);
    db.(payments := db.payments[r := if url.Some? then p.(url := url, status := PendingProvider)
                                                  else p.(status := Unknown)],
        inFlight := db.inFlight - multiset{r})
  }

  // ---- create ----

  predicate IsKeyRow(db: Db, key: string, r: Id) {
    r in db.payments && r in db.registrations && db.payments[r].key == key
  }

  ghost function KeyRow(db: Db, key: string): Option<Id> {
    if r :| IsKeyRow(db, key, r) then Some(r) else None
  }

  predicate KeyTaken(db: Db, key: string) {
    exists r :: r in db.payments && db.payments[r].key == key
  }

  predicate IsActiveRow(db: Db, user: Id, w: Id, r: Id) {
    r in db.registrations && db.registrations[r].user == user && db.registrations[r].workshop == w
    && IsActive(db.registrations[r].status)
  }

  ghost function ActiveRow(db: Db, user: Id, w: Id): Option<Id> {
    if r :| IsActiveRow(db, user, w, r) then Some(r) else None
  }

  /** releaseTerminalIdempotencyKey; a clash with the UNIQUE key aborts. */
  function ReleaseKey(db: Db, r: Id, key: string, tag: string): Db {
    var archived := key + "::terminal::" + tag;
    if r in db.payments && r in db.registrations && db.payments[r].key == key
       && !IsActive(db.registrations[r].status) && !KeyTaken(db, archived)
    then db.(payments := db.payments[r := db.payments[r].(key := archived)])
    else db
  }

  function NewRegistration(q: Request, paid: bool): Registration {
    Registration(q.user, q.workshop, if paid then PendingPayment else Confirmed,
                 if paid then Some(q.now + q.ttlMinutes * 60 * 1000) else None)
  }

  function NewPayment(q: Request, paid: bool, price: int): Payment {
    Payment(q.user, q.workshop, q.key, price,
            if paid then Momo(q.newId) else Simulated(q.newId), None,
            if !paid then Completed else if q.mode == MomoSandbox then PendingProvider else PendingSimulation)
  }

  /** The inserts and the counter updates of a create that passed every check. */
  function InsertRow(db: Db, q: Request): Db
    requires q.workshop in db.workshops
  {
    var w := db.workshops[q.workshop];
    var paid := w.paymentRequired;
    Db(db.workshops[q.workshop :=
         w.(reserved := w.reserved + 1, confirmed := if paid then w.confirmed else w.confirmed + 1)],
       db.registrations[q.newId := NewRegistration(q, paid)],
       db.payments[q.newId := NewPayment(q, paid, w.price)],
       if paid && q.mode == MomoSandbox && q.adapter then db.inFlight + multiset{q.newId} else db.inFlight,
       if paid then db.confirmations else db.confirmations + multiset{q.newId})
  }

  /** The calls to the gateway are made only in sandbox mode with an adapter. */
  function Recovering(db: Db, q: Request, r: Id): Db {
    if q.mode == MomoSandbox && q.adapter then StartRecovery(db, r) else db
  }

  /** The transaction of createRegistration, from the workshop lock to COMMIT or ROLLBACK. */
  ghost function Reserve(db: Db, q: Request): (res: (Db, Created)) {
    if q.workshop !in db.workshops || db.workshops[q.workshop].status != Published then (db, Refused(WorkshopNotFound))
    else if db.workshops[q.workshop].reserved >= db.workshops[q.workshop].capacity then (db, Refused(WorkshopFull))
    else match ActiveRow(db, q.user, q.workshop)
      case Some(r) =>
        if db.registrations[r].status == Confirmed then (db, Refused(AlreadyRegistered))
        else (Recovering(db, q, r), Created(r, PendingPayment))
      case None =>
        var paid := db.workshops[q.workshop].paymentRequired;
        if paid && q.mode == MomoSandbox && q.adapter && !q.admitted then (db, Refused(GatewayUnavailable))
        else if q.newId in db.registrations || q.newId in db.payments || KeyTaken(db, q.key)
        then (db, Refused(ConstraintViolated))
        else (InsertRow(db, q), Created(q.newId, if paid then PendingPayment else Confirmed))
  }

  /** createRegistration after its sweep: look the key up, then replay, refuse or reserve. */
  ghost function CreateOn(db: Db, q: Request): (Db, Created) {
    match KeyRow(db, q.key)
    case None => Reserve(db, q)
    case Some(r) =>
      if db.payments[r].user != q.user || db.payments[r].workshop != q.workshop then (db, Refused(KeyReused))
      else if db.registrations[r].status == Confirmed then (db, Created(r, Confirmed))
      else if db.registrations[r].status == PendingPayment then (Recovering(db, q, r), Created(r, PendingPayment))
      else Reserve(ReleaseKey(db, r, q.key, q.tag), q)
  }

  function Swept(db: Db, q: Request): Db {
    SweepAll(db, StaleRows(db, q.now, q.locked))
  }

  /** createRegistration run without interference. */
  ghost function Create(db: Db, q: Request): (Db, Created) {
    CreateOn(Swept(db, q), q)
  }

  // ---- runs ----

  ghost function Step(db: Db, e: Event): Db {
    match e
    case WorkshopAdded(w, capacity, price, status) => AddWorkshop(db, w, capacity, price, status)
    case WorkshopEdited(w, capacity, price, status) => EditWorkshop(db, w, capacity, price, status)
    case WorkshopCancellation(w) => CancelWorkshop(db, w)
    case Sweep(now, locked) => SweepAll(db, StaleRows(db, now, locked))
    case KeyReleased(r, key, tag) => ReleaseKey(db, r, key, tag)
    case Reservation(q) => Reserve(db, q).0
    case RecoveryStarted(r) => StartRecovery(db, r)
    case ProviderResult(order, amount, code) => Deliver(db, order, amount, code)
    case GatewayAnswered(r, order, url) => WriteAnswer(db, r, order, url)
  }

  /** An interleaving of any number of transactions. */
  ghost function Run(db: Db, es: seq<Event>): Db
    decreases es
  {
    if es == [] then db else Run(Step(db, es[0]), es[1..])
  }
}
