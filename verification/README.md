# UniHub: verified model of registration, admission, check-in and their supports

Dafny 4.11 models of the workshop platform's stateful logic, with proofs over every run. Check all of it with
`dafny verify dfyconfig.toml`.

The models follow the code. Each transaction, Redis command sequence or SQL statement group that the code
runs under one lock is one atomic step; runs are arbitrary sequences of steps, so every interleaving is
covered. Specification functions say what a step does to the tables; classes with the source's methods and
loops are proved against those functions, and the theorems are about the functions and the runs.

| files | what they model |
|---|---|
| Payments, Tables, SeatInvariants, RegistrationRuns, LateAnswers, IdempotentCreate, CreateAnswers, ClosedWorkshops, RegistrationService | Workshops, registrations and payments; create, gateway answers, callbacks, reconciliation, the expiry sweep |
| WaitingRoom, AdmissionReplies, JointAdmission, OverlappingAdmission, AdmissionOverlaps, AdmissionRefinement, TokenAgreement, QueueFairness, PeakAdmissionService | The peak admission queue and its tokens, alone and together with the seat counters, one request at a time and overlapping |
| Checkins, CheckinService, OfflineCheckin, InterleavedSync, DeviceQueue, DeviceRounds | Check-in at the server, the device's queue, and both over a network that loses messages, beside the registration protocol |
| CircuitBreaker, CircuitBreakerCalls, CircuitBreakerStores, Decimal | The payment circuit breaker and its two stores |
| SearchIndex | Admin edits, change events, the index worker and the rebuild |
| AuditLog | Keyset pagination of the audit log and its cursor |
| RateLimiter, CsvLine | The fixed-window limiters and the CSV line parser |
| Wrappers, Sets | Optional values and sizes of sets, shared by the others |

## What the proofs show about the code

- The writes after a create-order call carry no guard on the payment status. A first call that times out after
  the payer paid under a recovered link takes a completed payment back to unknown, and a reconciliation then
  moves it to requires_review although the registration is confirmed (`LateAnswers.PaidButReviewed`).
  `RegistrationRuns.SettledUnlessLate` says that such a late answer is the only step that can break "confirmed
  means paid"; `RegistrationRuns.StatusCoupling` is what holds regardless.
- The seat counters never depend on the CHECK constraint or on GREATEST(.., 0) in the registration code; only
  a capacity edit does, because its own guard reads `confirmed_registrations`, which nothing updates.
- The admission budget is read before the token is issued. With each request taken whole the bound on tokens and
  seats holds. With overlapping requests it does not: m + 1 admissions to one seat can all be granted
  (`AdmissionOverlaps.OverlapIsReached`), and afterwards nothing is in flight that would explain the excess.
  `OverlappingAdmission.StepFitsUnlessFull` names the steps that break the bound, and `OverlapBound` limits the
  excess by the tokens and seats that a granted admission had not seen. Two overlapping requests of one user can
  likewise leave that user with two live tokens (`TokenAgreement.TwoRequestsDouble`).
- Two overlapping edits of one workshop can leave the search index wrong with nothing outstanding, because an
  update writes back every column it read (`SearchIndex.OverlappingEditsLoseAgreement`).
- A device record is rightly marked synced unless its scan id is already carried by another registration's row
  (`Checkins.SettledMeansCheckedIn`, `Checkins.ClashSettlesUnseen`).
- The login limiter lets at most nine, not ten, attempts through in any 60 seconds
  (`RateLimiter.LoginBound`): the request that opens a window lies before the interval that straddles its end.
- A failure that is counted just before the store goes away leaves the breaker closed at its threshold, until the
  next failure opens it (`CircuitBreaker.LostReports`).
- failureCount goes back to zero when the breaker opens, so it is the number of failures since the last reset
  only modulo the threshold (`CircuitBreaker.FailureCountIsExact`).

## Model

| member | source | states |
|---|---|---|
| Payments.MapResultCode | backend/src/modules/payment/payment.types.ts:135-149 | Only code 0 completes, only 99 and -1 stay open, 7002 expires, and every other code, listed or not, fails |
| Payments.FirstConclusiveDecides | backend/src/modules/registration/registration.service.ts:966-1110 | Closed form of any finite sequence of provider results on a pending pair: the first conclusive result decides; a completion stays confirmed and paid, a release stays as it is except that a later completion sends the payment to review |
| Payments.CompletedStays | backend/src/modules/registration/registration.service.ts:998-1000 | No sequence of results moves a confirmed and completed pair |
| Payments.ReleasedStays | backend/src/modules/registration/registration.service.ts:1002-1040 | A cancelled or expired pair changes at most its payment, to requires_review, exactly when a completion is among the results |
| SeatInvariants.ResultIsChange | backend/src/modules/registration/registration.service.ts:966-1110 | applyProviderResult on the tables changes one registration and its payment as the pair function says, with counters and confirmation event following the status |
| SeatInvariants.ReleaseIsChange | backend/src/modules/registration/registration.service.ts:1086-1110 | A pending row holds a counted seat, so failing or expiring it releases exactly that seat |
| SeatInvariants.ChangeKeeps | backend/src/modules/registration/registration.service.ts:966-1110 | Any change of one row that lets only pending registrations change status, with counters and events following, keeps the whole invariant |
| SeatInvariants.SweepTurn | backend/src/modules/registration/registration.service.ts:725-749 | One turn of the sweep's loop takes the closed form over the rows done to the closed form over one row more |
| SeatInvariants.SweepKeeps | backend/src/modules/registration/registration.service.ts:712-757 | A sweep over any set of pending rows keeps every invariant, its counters included |
| SeatInvariants.InsertKeeps | backend/src/modules/registration/registration.service.ts:197-289 | A create that passed the capacity, active-row and key checks keeps every invariant |
| SeatInvariants.ReserveKeeps | backend/src/modules/registration/registration.service.ts:151-305 | The create transaction, committed or rolled back, keeps every invariant |
| SeatInvariants.AnswerKeeps | backend/src/modules/registration/registration.service.ts:334-391 | The unguarded write of a gateway answer keeps counters, keys, events and the one-way status coupling |
| SeatInvariants.EditKeeps | backend/src/modules/admin/admin.service.ts:151-189 | A workshop edit, aborted by the counter CHECK where it would violate it, keeps every invariant |
| SeatInvariants.StepKeeps | backend/src/modules/registration/registration.service.ts:105-1110 | Every transaction of the protocol keeps every invariant |
| SeatInvariants.RunKeeps | backend/src/modules/registration/registration.service.ts:105-1110 | Every interleaving of any number of transactions keeps every invariant |
| RegistrationRuns.SeatConservation | backend/migrations/20260506_add_workshop_reservation_counters.sql:16-23 | In every reachable state reserved_count and confirmed_count are the numbers of active and of confirmed registrations, and 0 <= confirmed <= reserved <= capacity |
| RegistrationRuns.ClampNeverActs | backend/src/modules/registration/registration.service.ts:744-748 | In every reachable state the GREATEST(.., 0) of a release subtracts exactly one |
| RegistrationRuns.StatusCoupling | backend/src/modules/registration/registration.service.ts:334-391 | In every reachable state, whatever the unguarded gateway writes did: pending has a non-terminal payment, completed implies confirmed, failed cancelled, expired expired, and review implies not pending |
| RegistrationRuns.RunFollows | backend/src/modules/registration/registration.service.ts:712-1110 | Over any run a settled status stays, a row keeps its user and workshop, and its payment keeps its key unless the registration ended |
| RegistrationRuns.SettledIsAbsorbing | backend/src/modules/registration/registration.service.ts:998-1084 | Confirmed, cancelled and expired are absorbing over every run |
| RegistrationRuns.SingleConfirmation | backend/src/modules/registration/registration.service.ts:1042-1084 | Each registration is announced at most once, exactly when it is confirmed, and confirmed_count is the number of announcements, over any duplication or reordering of callbacks, reconciliations and sweeps |
| RegistrationRuns.AnswerSettles | backend/src/modules/registration/registration.service.ts:334-391 | A gateway answer keeps the tight coupling (confirmed means paid, released means failed, expired or reviewed) exactly when it finds the registration pending |
| RegistrationRuns.SettledUnlessLate | backend/src/modules/registration/registration.service.ts:334-391 | A step of any kind keeps the tight coupling if and only if it is not a gateway answer that comes after its registration was settled |
| RegistrationRuns.RunSettles | backend/src/modules/registration/registration.service.ts:105-1110 | A run without late gateway answers keeps the tight coupling throughout |
| RegistrationRuns.ResultsOnPendingRow | backend/src/modules/registration/registration.service.ts:966-1110 | On the tables, any sequence of results for a pending row ends as the closed form says, gives back at most its own seat and confirms at most once |
| RegistrationRuns.ResultIsIdempotent | backend/src/modules/registration/registration.service.ts:998-1040 | Delivering any result a second time at once changes no status, counter or event |
| RegistrationRuns.SeatIsKeptForItsTerm | backend/src/modules/registration/registration.service.ts:199-265 | A paid reservation keeps its seat for reservationTtlMinutes: over any run without a result for its own order and without a later sweep it stays pending, and a sweep then expires it exactly when past the term and not locked |
| RegistrationRuns.OrderFindsItsRow | backend/src/modules/registration/registration.service.ts:943-964 | A provider order id leads to at most one payment, that of the registration it names |
| LateAnswers.PaidButReviewed | backend/src/modules/registration/registration.service.ts:830-924 | A run in which a payer pays under a recovered link, and the first create-order call then times out: the timeout takes the confirmed registration's completed payment to unknown, and the next reconciliation sends it to review |
| IdempotentCreate.LookupsAreUnique | backend/migrations/20260506_create_registration_and_payment_simulation_tables.sql:17-26 | A key leads to at most one payment, and a user has at most one active registration of a workshop |
| IdempotentCreate.CreateIsRun | backend/src/modules/registration/registration.service.ts:105-400 | A whole create is a run of the protocol's transactions, so it keeps what every run keeps |
| IdempotentCreate.ReplayReservesNothing | backend/src/modules/registration/registration.service.ts:128-135 | With the key of an active registration of the same user and workshop, create answers with that registration and changes no row or counter |
| IdempotentCreate.OtherRequestIsRefused | backend/src/modules/registration/registration.service.ts:130-132 | A key that belongs to another user or workshop is refused and nothing is reserved |
| IdempotentCreate.RetryAfterAnything | backend/src/modules/registration/registration.service.ts:118-137 | After a create and any run of other transactions, a retry with the same key answers with the same registration and reserves nothing while that registration is active |
| IdempotentCreate.OneSeatPerUser | backend/migrations/20260506_create_registration_and_payment_simulation_tables.sql:17-19 | In every reachable state a user holds at most one seat of a workshop, whatever keys were used |
| IdempotentCreate.CreateTakesOneSeat | backend/src/modules/registration/registration.service.ts:197-289 | After its sweep a create adds one seat to its workshop exactly when it answers with a registration it inserted, and none otherwise |
| IdempotentCreate.KeyReusedAfterEnd | backend/src/modules/registration/registration.service.ts:816-828 | A key is taken over only from a registration that ended, whose payment then carries the archived key |
| CreateAnswers.CreateAnswersRightly | backend/src/modules/registration/registration.service.ts:118-305 | With its key free (nobody's, or that of an ended registration of the same user and workshop) a create books a new registration if and only if the workshop is published, fewer registrations are active than it has seats, the user holds none of them, and no gateway call is needed or the breaker admitted it; not found, full, already registered, an earlier pending registration and gateway unavailable each have their exact condition, in the order of the checks |
| CreateAnswers.CreateWritesRightly | backend/src/modules/registration/registration.service.ts:197-301 | Whatever its key, a create that books writes the one registration and payment with the user, price, order, status and term of the request, raises the counters, and starts a call or hands over an event; any other writes nothing but an archived key, and starts one gateway call exactly when it answers with a pending registration without a link in sandbox mode |
| CreateAnswers.KeyClashAborts | backend/src/modules/registration/registration.service.ts:151-293 | A reservation that may book, but whose key was taken by another transaction since it was looked up, is aborted and changes nothing |
| ClosedWorkshops.AddedRow | backend/src/modules/admin/admin.service.ts:111-141 | A new workshop has the given columns, no seat taken, and wants a payment exactly when its price is positive |
| ClosedWorkshops.EditedRow | backend/src/modules/admin/admin.service.ts:151-189 | An edit of capacity, price and status is written exactly when the new capacity holds the active registrations, and leaves the counters |
| ClosedWorkshops.PaidIsPriced | backend/src/modules/admin/admin.service.ts:111-189 | In every reachable state a workshop wants a payment exactly when its price is positive |
| ClosedWorkshops.CancelledTakesNobody | backend/src/modules/registration/registration.service.ts:928-941 | Once cancelled, and until an edit publishes it again, a workshop gains no registration over any run, no create books one, and one whose key is free is told that there is no such workshop |
| RegistrationServices.RegistrationService.ExpireStaleRegistrations | backend/src/modules/registration/registration.service.ts:712-757 | The sweep's loop does at once what its closed form says: every stale unlocked row expires, its open payment expires, each workshop gets back one seat per row; the invariant is kept |
| RegistrationServices.RegistrationService.ExpireRow | backend/src/modules/registration/registration.service.ts:726-748 | One turn: nothing for a row no longer pending, otherwise the row, its payment and one seat |
| RegistrationServices.RegistrationService.ConfirmPendingRegistration | backend/src/modules/registration/registration.service.ts:1042-1084 | Confirms a pending row, completes its payment, raises confirmed_count by one and returns the event |
| RegistrationServices.RegistrationService.FailPendingRegistration | backend/src/modules/registration/registration.service.ts:1086-1110 | Cancels or expires a pending row with its payment and releases its one seat |
| RegistrationServices.RegistrationService.ApplyResultTo | backend/src/modules/registration/registration.service.ts:966-1040 | The branches of applyProviderResult, with the event to enqueue, agree with the specification on every row |
| RegistrationServices.RegistrationService.DeliverResult | backend/src/modules/registration/registration.service.ts:943-1040 | Finds the payment of an order, compares the amount, applies and enqueues; the invariant is kept |
| RegistrationServices.RegistrationService.HandleMomoCallback | backend/src/modules/registration/registration.service.ts:404-436 | An accepted callback is one step of the protocol and keeps the invariant; it says whether the payment was not found or asks another amount, and then nothing changes |
| RegistrationServices.RegistrationService.CandidateExactly | backend/src/modules/registration/registration.service.ts:609-629 | The rows a scan may take are the unlocked ones that no result has closed, simulated payments aside |
| RegistrationServices.RegistrationService.ScanCandidates | backend/src/modules/registration/registration.service.ts:609-629 | The scan takes distinct unlocked rows with an open provider payment, oldest updated_at first, at most limit; a row is passed over only for limit older ones |
| RegistrationServices.RegistrationService.RunReconciliationBatch | backend/src/modules/registration/registration.service.ts:600-710 | The rows scanned are the limit oldest candidates; the tables end as after one result for each scanned row whose query answered, under that row's order and with that answer, in the order of the scan; scanned and updated count them; the invariant is kept |
| RegistrationServices.RegistrationService.ApplyAnswers | backend/src/modules/registration/registration.service.ts:631-692 | The loop applies each scanned row's answer once, in order, and nothing else |
| RegistrationServices.RegistrationService.ReleaseTerminalIdempotencyKey | backend/src/modules/registration/registration.service.ts:816-828 | Archives the key of an ended registration only; the invariant is kept |
| RegistrationServices.RegistrationService.ReserveSeat | backend/src/modules/registration/registration.service.ts:151-305 | The create transaction statement by statement agrees with its specification, whose answers and writes CreateAnswersRightly and CreateWritesRightly fix |
| RegistrationServices.RegistrationService.CreateRegistration | backend/src/modules/registration/registration.service.ts:105-400 | Sweep, key lookup, replay, refusal or reservation agree with the specification that CreateAnswers is about, and keep the invariant |
| RegistrationServices.RegistrationService.StartRecoveryIfMissing | backend/src/modules/registration/registration.service.ts:830-872 | A pending row without a payment link gets a gateway call in flight, any other row none |
| RegistrationServices.RegistrationService.RecordGatewayAnswer | backend/src/modules/registration/registration.service.ts:874-924 | The write after a create-order call, without a guard on the status, keeps the invariant |
| WaitingRooms.RequestKeeps | backend/src/modules/registration/peak-admission.service.ts:108-209 | After any admission request the user-token keys, the token payloads and the active set agree on every live token, and nobody who holds one waits |
| WaitingRooms.ValidateKeeps | backend/src/modules/registration/peak-admission.service.ts:211-238 | After any registration attempt they still agree |
| JointAdmission.OneTokenPerUser | backend/src/modules/registration/peak-admission.service.ts:124-196 | At every moment of a run of whole requests from reachable tables and an empty room, a user holds at most one live token, and a holder never waits |
| TokenAgreement.StepAgreesUnlessDoubled | backend/src/modules/registration/peak-admission.service.ts:124-196 | With the steps of requests overlapping, a step keeps user-token keys, payloads, active set and queue in agreement if and only if it does not write a token for a user who holds a live one or has joined the queue again |
| TokenAgreement.RunAgreesUnlessDoubled | backend/src/modules/registration/peak-admission.service.ts:108-238 | They agree at every point of a run if and only if no step of it is such a one |
| TokenAgreement.OneTokenPerUser | backend/src/modules/registration/peak-admission.service.ts:108-238 | With one admission request of each user at a time, whatever else overlaps, no user ever holds two live tokens and no holder waits |
| TokenAgreement.TwoRequestsDouble | backend/src/modules/registration/peak-admission.service.ts:124-196 | A run of two overlapping requests of one user, the second as soon as the poll throttle allows it, ends with two live tokens of that user |
| AdmissionReplies.ReplyExactly | backend/src/modules/registration/peak-admission.service.ts:108-209 | The one reply of every room: too soon exactly while the poll key is live, full exactly when no seat is left, the holder's own token, a new token exactly for a place below seats + buffer - live tokens, and otherwise the number of users ahead plus one |
| AdmissionReplies.RequestLeaves | backend/src/modules/registration/peak-admission.service.ts:108-209 | What a request leaves alone: a refused, full or holder's poll changes only the poll key, a waiting one no token, and nobody else's place moves |
| AdmissionReplies.ToldTokenIsAccepted | backend/src/modules/registration/peak-admission.service.ts:126-238 | Whatever token a request tells, new or held, an attempt of the user with it is accepted at any later moment before it runs out, when no write throttle stands against it |
| AdmissionReplies.VerdictExactly | backend/src/modules/registration/peak-admission.service.ts:211-238 | The exact condition of each verdict, and that only an accepted attempt changes more than the write key |
| WaitingRooms.RequestWithinBudget | backend/src/modules/registration/peak-admission.service.ts:154-157 | A request keeps live tokens plus reserved seats within capacity plus buffer |
| WaitingRooms.ValidateSpends | backend/src/modules/registration/peak-admission.service.ts:231-232 | An accepted attempt removes exactly one live token, any other attempt none |
| WaitingRooms.AcceptedIsSpent | backend/src/modules/registration/peak-admission.service.ts:231-232 | The token of an accepted attempt has no payload any more |
| WaitingRooms.SpentAfterRequest | backend/src/modules/registration/peak-admission.service.ts:108-209 | No admission request revives a spent token |
| WaitingRooms.SpentAfterAttempt | backend/src/modules/registration/peak-admission.service.ts:211-238 | A spent token is never accepted and stays spent |
| WaitingRooms.AdmissibleIsPrefix | backend/src/modules/registration/peak-admission.service.ts:154-157 | The users a budget of b admits are downward closed in queue order and number min(b, length): exactly a prefix |
| QueueFairness.RankOverRun | backend/src/modules/registration/peak-admission.service.ts:141-156 | Over any run in which each admission request comes later than the one before, whoever keeps waiting is never further back than at its start |
| QueueFairness.WaitingOnlyGetsShorter | backend/src/modules/registration/peak-admission.service.ts:141-156 | From an empty waiting room, with a clock that moves on between any two requests, a waiting user's rank never rises from any moment of a run to any later one |
| WaitingRooms.PassesAreSpaced | backend/src/modules/registration/peak-admission.service.ts:252-296 | Of one user's throttled calls any two that pass are at least the interval apart, whatever is called between |
| WaitingRooms.SpacedCallPasses | backend/src/modules/registration/peak-admission.service.ts:252-296 | A call passes whenever no call of the user that passed lies less than the interval back |
| WaitingRooms.AcceptedExactly | backend/src/modules/registration/peak-admission.service.ts:211-238 | An attempt is accepted exactly with the one live token its user holds, past both throttles |
| JointAdmission.StepTakesNoSeat | backend/src/modules/registration/registration.service.ts:712-1110 | No transaction but a create takes a seat of a workshop |
| JointAdmission.CreateTakesAtMostOne | backend/src/modules/registration/registration.service.ts:111-305 | A create takes at most one seat |
| JointAdmission.JointStepKeeps | backend/src/modules/registration/registration.service.ts:111-115 | Every step of tables and waiting room together keeps live tokens + reserved_count <= capacity + queueBufferSeats |
| JointAdmission.TokensAndSeatsBounded | backend/src/modules/registration/peak-admission.service.ts:154-238 | From reachable tables and an empty room, over any run of requests, token-backed creates, expiries and other transactions, live tokens + reserved_count never exceeds capacity + queueBufferSeats |
| JointAdmission.TokenWorksOnce | backend/src/modules/registration/peak-admission.service.ts:220-232 | After an accepted attempt no later run accepts its token again, from any user |
| JointAdmission.SpentForever | backend/src/modules/registration/peak-admission.service.ts:211-238 | A spent token stays spent over every run |
| OverlappingAdmission.StepFitsUnlessFull | backend/src/modules/registration/peak-admission.service.ts:108-196 | With snapshot, queue place, count and issue as steps of their own, and token consumption apart from the reservation: a step keeps live tokens + reserved_count <= capacity + buffer if and only if it is not a token written or a seat taken when capacity and buffer are used up |
| OverlappingAdmission.RunFitsUnlessFull | backend/src/modules/registration/peak-admission.service.ts:108-238 | The bound holds at every point of a run if and only if no step of it is such a one |
| OverlappingAdmission.OverlapBound | backend/src/modules/registration/peak-admission.service.ts:108-238 | Over any run from reachable tables and an empty room whose admissions are each granted over at most m tokens and seats they have not seen, live tokens + reserved_count + what is still owed stays within capacity + buffer + m |
| AdmissionRefinement.AdmissionIsRequest | backend/src/modules/registration/peak-admission.service.ts:108-209 | Snapshot, queue place, count and issue in a row are the whole request, over nothing unseen |
| AdmissionRefinement.RunIsHallRun | backend/src/modules/registration/peak-admission.service.ts:108-238 | Every run of whole requests and token-backed creates is a run of their steps in which no admission is granted over anything unseen |
| AdmissionRefinement.WholeRequestsFit | backend/src/modules/registration/peak-admission.service.ts:154-238 | The bound over whole requests is the case of the overlapping bound with m = 0 |
| AdmissionOverlaps.OverlapIsReached | backend/src/modules/registration/peak-admission.service.ts:140-196 | For every m, a run of m + 1 overlapping admissions to one seat without buffer ends with m + 1 live tokens and nothing in flight |
| PeakAdmissionServices.PeakAdmissionService.ActiveTokenCount | backend/src/modules/registration/peak-admission.service.ts:323-328 | Trims the expired tokens and counts exactly the live ones |
| PeakAdmissionServices.PeakAdmissionService.RequestAdmission | backend/src/modules/registration/peak-admission.service.ts:108-209 | The Redis commands in their order agree with the specification of a request, whose replies ReplyExactly fixes, and an unpublished workshop changes nothing |
| PeakAdmissionServices.PeakAdmissionService.ValidateRegistrationAttempt | backend/src/modules/registration/peak-admission.service.ts:211-238 | The Redis commands in their order agree with the specification of an attempt, whose verdicts VerdictExactly fixes |
| Checkins.CheckedInExactly | backend/src/modules/checkin/checkin.service.ts:192-284 | With a scan id new to the table an item is accepted if and only if its token is valid at that time with the claims of its registration, for the requested workshop or none in particular, and the registration is confirmed for a workshop not cancelled; then exactly its row is added or was there, otherwise none changes and each refusal code has its own condition |
| Checkins.ResendIsReplay | backend/src/modules/checkin/checkin.service.ts:197-208 | An item that got a row in is answered, when the same staff member sends it again after any growth of the table, with the same registration and time, and changes no row |
| Checkins.CheckedInOnce | backend/migrations/20260510_create_workshop_checkins.sql:14 | No item adds or changes a row for a registration that has one |
| Checkins.SettledMeansCheckedIn | backend/src/modules/checkin/checkin.service.ts:192-284 | A settling answer means the registration is checked in if and only if it already was or its scan id is not carried by another registration's row |
| Checkins.ClashSettlesUnseen | backend/src/modules/checkin/checkin.service.ts:197-208 | In any table with a row of the same staff member that carries the scan id for another registration, an item whose registration is not checked in is answered with that row and settled, and stays not checked in |
| Checkins.SyncGrows | backend/src/modules/checkin/checkin.service.ts:111-124 | A batch changes and removes no row |
| Checkins.ProcessAdds | backend/src/modules/checkin/checkin.service.ts:192-284 | With unique scan ids an item adds its registration when it is eligible and nothing otherwise |
| Checkins.SyncAddsEligible | backend/src/modules/checkin/checkin.service.ts:111-124 | A batch checks in the eligible registrations beside those that were, no more and no fewer |
| Checkins.SyncIsOrderFree | backend/src/modules/checkin/checkin.service.ts:111-124 | Items handled one after the other, in any permutation and by any devices and staff, leave the same registrations checked in |
| InterleavedSync.InterleavingIsOrderFree | backend/src/modules/checkin/checkin.service.ts:192-284 | Reads and inserts of any number of synchronisations interleaved at will, stopped anywhere, lost and sent again: at every moment exactly those registrations are checked in that were so before or that an answered eligible item asked for |
| InterleavedSync.AnswersStayTrue | backend/src/modules/checkin/checkin.service.ts:361-377 | Over any history every answer that names a registration and a time, replayed or read again after a conflict, names a row of the table with that time |
| Checkins.SyncSplits | backend/src/modules/checkin/checkin.service.ts:111-124 | Splitting a batch into two leaves the same table |
| CheckinServices.CheckinService.InsertIfAbsent | backend/src/modules/checkin/checkin.service.ts:379-409 | A row goes in exactly when neither the registration nor the scan id has one |
| CheckinServices.CheckinService.ProcessSyncItem | backend/src/modules/checkin/checkin.service.ts:192-284 | The queries of one item in their order agree with the specification that CheckedInExactly fixes, conflict re-read included |
| CheckinServices.CheckinService.Sync | backend/src/modules/checkin/checkin.service.ts:111-124 | A batch of 1 to 100 items is answered one for one, each on the rows the items before it left, and loses no row; any other size is refused and changes nothing |
| CheckinServices.CheckinService.Scan | backend/src/modules/checkin/checkin.service.ts:58-109 | Each refusal has its exact condition on token, registration, requested workshop, workshop and status; an admissible scan is answered with the original time of the row there was, or with a check-in now that adds just that row |
| OfflineCheckin.ItemInOnePiece | backend/src/modules/checkin/checkin.service.ts:192-284 | In a history an item read and then written with nothing between leaves the rows and the answer of processSyncItem |
| OfflineCheckin.ScanInOnePiece | backend/src/modules/checkin/checkin.service.ts:58-109 | In a history an online scan in one piece adds exactly the row of an admissible registration that has none |
| OfflineCheckin.TablesRunAlone | backend/src/modules/checkin/checkin.service.ts:58-284 | In any history the registration tables go through a run of their own protocol |
| OfflineCheckin.HistoryKeeps | backend/src/modules/checkin/checkin.service.ts:58-284 | Every history of scans, syncs, lost requests or responses, mid-batch failures, device crashes between two UPDATEs, online scans and registration transactions keeps the world invariant |
| OfflineCheckin.SyncedMeansCheckedIn | mobile/lib/sync.ts:51-88 | Over any such history a record marked synced has its registration checked in at the server |
| OfflineCheckin.AttendanceBounded | backend/src/modules/checkin/checkin.service.ts:217-252 | Every check-in row is a confirmed registration's although eligibility is read before the insert; so check-ins of a workshop <= confirmed_count <= reserved_count <= capacity |
| OfflineCheckin.NothingIsLost | mobile/lib/db.ts:257-431 | Over any history no record is dropped or goes back from synced, and no attendance row changes or disappears |
| OfflineCheckin.ResendInHistory | backend/src/modules/checkin/checkin.service.ts:197-208 | A row that an offline item brought in answers every later sending of it by the same staff member with its registration and time, and adds nothing |
| DeviceQueues.MarkingTheHead | mobile/lib/db.ts:325-359 | Marking the first k pending records takes exactly those off the queue |
| DeviceQueues.SettledRoundShrinks | mobile/lib/sync.ts:51-88 | A round that settles its whole batch takes exactly the head of the queue away |
| DeviceQueues.RoundsDrain | mobile/lib/sync.ts:51-88 | n all-settling rounds of k remove exactly n * k records, or all |
| DeviceQueues.QueueDrains | mobile/lib/sync.ts:36-51 | An all-settling queue of p records is empty after n rounds of 25 if and only if n >= ceil(p / 25) |
| DeviceQueues.AllSettlingRound | mobile/lib/sync.ts:51-68 | A round in which every answer settles, written back answer by answer, is the round that QueueDrains counts |
| DeviceQueues.MarkedLeave | mobile/lib/db.ts:325-359 | Marking any set of pending scans shrinks the queue by exactly its size |
| DeviceQueues.RoundShrinks | mobile/lib/sync.ts:59-68 | A round shrinks the queue by exactly the answers that settle; refused records stay on it |
| DeviceQueues.RoundOutcome | mobile/lib/sync.ts:59-68 | What a round makes of each record of its batch: one attempt more, off the queue without an error when settled, still pending with its code when refused, the scan itself untouched; every other record as it was |
| DeviceRounds.MarksAreTheRound | mobile/lib/db.ts:325-431 | Writing the answers of the head batch back one UPDATE after the other is the round of the device's table |
| DeviceRounds.RoundInHistory | mobile/lib/sync.ts:42-88 | In any history a synchronisation of the head batch, whatever the others do meanwhile, leaves the device's table as that round does, with as many pending rows fewer as answers settle, and keeps the world invariant |
| DeviceQueues.DeviceQueue.Enqueue | mobile/lib/db.ts:257-281 | INSERT OR IGNORE: a known scan id changes nothing, a new one goes in pending at its place in time |
| DeviceQueues.DeviceQueue.ListPending | mobile/lib/db.ts:283-294 | Returns the first limit pending records in order |
| DeviceQueues.DeviceQueue.MarkCheckinsSynced | mobile/lib/db.ts:325-359 | The loop of UPDATEs marks exactly the given scans |
| DeviceQueues.DeviceQueue.MarkPendingCheckinsRetained | mobile/lib/db.ts:398-431 | The loop of UPDATEs keeps exactly the given scans pending, each with its own code |
| DeviceQueues.DeviceQueue.SyncPending | mobile/lib/sync.ts:42-107 | Single flight; a lost request or response changes nothing; otherwise every answer of the head batch is written back and the queue shrinks by the number cleared |
| CircuitBreaker.FailureCountIsExact | backend/src/modules/payment/payment-circuit-breaker.service.ts:103-134 | After any history failureCount is the number of closed-context failures since the last reset, modulo the threshold, hence below it at rest |
| CircuitBreaker.AlwaysWellShaped | backend/src/modules/payment/payment-circuit-breaker.service.ts:39-134 | After any history: open exactly when openUntil is set, probes only while half open and within the limit |
| CircuitBreaker.ProbesPerEpisode | backend/src/modules/payment/payment-circuit-breaker.service.ts:62-67 | Each half-open episode grants at most max(limit, 1) probes, and the probe counter is their exact number |
| CircuitBreaker.OpenTurnsAway | backend/src/modules/payment/payment-circuit-breaker.service.ts:44-50 | Until openUntil an open breaker refuses every admission, whatever late failures arrive, unless an outstanding probe's success comes in |
| CircuitBreaker.EarlyGrantExactly | backend/src/modules/payment/payment-circuit-breaker.service.ts:83-101 | Before openUntil the one event that makes an open breaker grant the next admission is the success of a probe still out |
| CircuitBreaker.OpensForItsTerm | backend/src/modules/payment/payment-circuit-breaker.service.ts:103-134 | After the failure that trips the breaker the next admission is granted exactly from max(openDurationSeconds, 1) seconds on |
| CircuitBreaker.RetryAfterIsLeast | backend/src/modules/payment/payment-circuit-breaker.service.ts:44-50 | A breaker_open refusal returns the least whole r with now + 1000 * r >= openUntil |
| CircuitBreakerCalls.AnswerExactly | backend/src/modules/payment/payment-circuit-breaker.service.ts:39-81 | The one answer of each snapshot: closed always granted, open refused exactly until openUntil, half open or open past its time granted as a probe exactly while fewer than max(limit, 1) are out |
| CircuitBreakerCalls.GrantTellsState | backend/src/modules/payment/payment-circuit-breaker.service.ts:71 | The state told with a grant is the state the breaker is left in, also when the store fails in mid-call |
| CircuitBreakerCalls.DeskIsHistory | backend/src/modules/payment/payment-circuit-breaker.service.ts:39-134 | Runs in which every outcome carries the state its own admission was told, overlapping at will, are histories of the breaker, so the results on histories hold for them |
| CircuitBreakerCalls.ClosedExactlyWhileCalm | backend/src/modules/payment/payment-circuit-breaker.service.ts:103-134 | Over any run of overlapping calls admitted while closed the breaker stays closed if and only if no threshold of them fail with no success between |
| CircuitBreakerCalls.ProbeDecides | backend/src/modules/payment/payment-circuit-breaker.service.ts:83-115 | Whatever else happened since its admission, the failure of a probe opens the breaker for its term and the success of a probe closes it |
| CircuitBreakerStores.DriveBoth | backend/src/modules/payment/payment-circuit-breaker.store.ts:33-182 | Driven by any series of operations, the Redis string hash and the in-memory record give the same answer to each and end in the same snapshot, those that the series calls for |
| CircuitBreakerStores.DriveRedis | backend/src/modules/payment/payment-circuit-breaker.store.ts:33-115 | Each operation on the string hash is the operation on the snapshot, answer included |
| CircuitBreakerStores.DriveMemory | backend/src/modules/payment/payment-circuit-breaker.store.ts:117-182 | So is each operation on the record |
| CircuitBreakerStores.RedisStore.TransitionToOpen | backend/src/modules/payment/payment-circuit-breaker.store.ts:64-74 | HSET of decimal strings, read back through Number, is the transition on the snapshot |
| CircuitBreakerStores.RedisStore.TransitionToHalfOpen | backend/src/modules/payment/payment-circuit-breaker.store.ts:76-84 | The field updates are the transition to half open on the snapshot |
| CircuitBreakerStores.RedisStore.TransitionToClosed | backend/src/modules/payment/payment-circuit-breaker.store.ts:86-94 | The field updates give the initial snapshot |
| CircuitBreakerStores.RedisStore.TryAcquireProbe | backend/src/modules/payment/payment-circuit-breaker.store.ts:96-115 | The script compares and increments the decimal probe counter as the specification does |
| CircuitBreakerStores.RedisStore.IncrementFailureCount | backend/src/modules/payment/payment-circuit-breaker.store.ts:52-58 | INCR on the string counter adds one to the snapshot's failures |
| CircuitBreakerStores.InMemoryStore.TryAcquireProbe | backend/src/modules/payment/payment-circuit-breaker.store.ts:175-182 | Grants and counts a probe exactly while fewer than max(limit, 1) are out |
| CircuitBreakerStores.PaymentCircuitBreaker.EvaluateAdmission | backend/src/modules/payment/payment-circuit-breaker.service.ts:39-81 | The method terminates through its self-call and agrees with the specification over the store, also when the store fails after any number of its operations; a grant tells the state it leaves in the store |
| CircuitBreaker.LossNeverAdmits | backend/src/modules/payment/payment-circuit-breaker.service.ts:73-81 | A store that fails in mid-call never lets a call through that a working one would turn away: the answer is the one it would have been, or a refusal for max(openDurationSeconds, 1) seconds with the breaker as it was or half open with no probe out |
| CircuitBreaker.LossExactly | backend/src/modules/payment/payment-circuit-breaker.service.ts:39-81 | The answer is the working store's exactly when the store lasts for the operations it takes, one, two or four; otherwise it is a storage refusal naming max(openDurationSeconds, 1) seconds |
| CircuitBreaker.LostReports | backend/src/modules/payment/payment-circuit-breaker.service.ts:83-134 | A report the store does not take changes nothing; a failure counted whose opening is lost stays counted, and the next failure opens the breaker |
| CircuitBreakerStores.PaymentCircuitBreaker.RecordSuccess | backend/src/modules/payment/payment-circuit-breaker.service.ts:83-101 | Closes after a probe, resets the counter otherwise; a store out of reach leaves all as it was |
| CircuitBreakerStores.PaymentCircuitBreaker.RecordFailure | backend/src/modules/payment/payment-circuit-breaker.service.ts:103-134 | Reopens after a probe, counts otherwise and opens at the threshold; a store that fails leaves what was done before |
| Decimal.ParsePrint | backend/src/modules/payment/payment-circuit-breaker.store.ts:33-50 | Number(String(n)) is n for every natural number |
| SearchIndex.StepKeepsUnlessSilent | backend/src/modules/admin/admin.service.ts:151-211 | Every step of edits and worker keeps "a workshop with no event outstanding has, or is about to get, the document its row calls for", except exactly a write that changes that document, sends no event and has none outstanding |
| SearchIndex.SerialIsNotSilent | backend/src/modules/admin/admin.service.ts:191-208 | An edit whose row is still as it read it never writes silently: the fields it compares are those the document is made of |
| SearchIndex.OneEditRunKeeps | backend/src/modules/admin/admin.service.ts:109-228 | With one unwritten edit per workshop at a time, every run of edits, events, retries and worker steps keeps the agreement, also when an edit falls between the worker's read and its write |
| SearchIndex.QuietAgrees | backend/src/modules/workshop/workshop-search-index.service.ts:31-41 | After any such run a workshop with nothing outstanding has exactly the document its row calls for, or none if it is not published |
| SearchIndex.OverlappingEditsLoseAgreement | backend/src/modules/admin/admin.service.ts:151-208 | For every published workshop two overlapping edits, of room and of capacity, end with nothing outstanding and a wrong document |
| SearchIndex.SyncAllContent | backend/src/modules/workshop/workshop-search-index.service.ts:31-41 | What a series of events leaves in the index depends neither on their order nor on how often each comes |
| SearchIndex.JobsDrain | backend/src/modules/workshop/workshop-search-index.service.ts:31-41 | The worker's takes, reads and writes over the queue in any order have the effect of that series |
| SearchIndex.DrainRestores | backend/src/modules/workshop/workshop-search-index.service.ts:31-41 | Once no edit owes an event, draining the queue in any order leaves the whole index in agreement |
| SearchIndex.UpdateReachesIndex | backend/src/modules/admin/admin.service.ts:151-211 | After an update and its event, handled among others in any order: each given column has its new value, the rest and all other rows their old ones, and the index lists the workshop with the row's own fields exactly if the row is published |
| SearchIndex.CancellationReachesIndex | backend/src/modules/admin/admin.service.ts:213-228 | After a cancellation and its event the index has no document of the workshop, and no other column or row changed |
| SearchIndex.CreationReachesIndex | backend/src/modules/admin/admin.service.ts:111-149 | After a creation and its event the index lists the workshop exactly if it was created as published |
| SearchIndex.DocumentIsOfRow | backend/src/modules/workshop/workshop-search-index.service.ts:70-82 | Every field of the document is the row's, and it asks for payment exactly when the row has a price |
| SearchIndex.SearchIndexing.CreateWorkshop | backend/src/modules/admin/admin.service.ts:111-149 | Passes exactly with a valid time range, a positive capacity and no workshop that shares room or speaker at the time, each refusal with its own condition; writes the row and its event; keeps the timetable free of double bookings and the agreement with the index |
| SearchIndex.SearchIndexing.UpdateWorkshop | backend/src/modules/admin/admin.service.ts:151-211 | Once done every given column has the given value, every other its old one, payment is required exactly with a price, no other row moved, and one event goes out exactly if a column beside the capacity changed; each refusal has its exact condition on the merged row and changes nothing; timetable and agreement are kept |
| SearchIndex.SearchIndexing.CheckUpdate | backend/src/modules/admin/admin.service.ts:162-167 | The checks of an update in their order, each refusal with its exact condition |
| SearchIndex.SearchIndexing.CancelWorkshop | backend/src/modules/admin/admin.service.ts:213-228 | Changes the status alone, with an event, does nothing to a cancelled workshop, and keeps timetable and agreement |
| SearchIndex.SearchIndexing.SyncWorkshop | backend/src/modules/workshop/workshop-search-index.service.ts:31-41 | Afterwards the workshop's document is what its row calls for and every other document is untouched |
| SearchIndex.SearchIndexing.RebuildIndex | backend/src/modules/workshop/workshop-search-index.service.ts:43-56 | Whatever the index held, after the loop it agrees with the table for every id |
| AuditLog.CursorRoundTrip | backend/src/modules/admin/admin-audit-log-cursor.ts:3-21 | Decoding undoes encoding if and only if timestamp and id are non-empty and the id holds no bar |
| AuditLog.DecodedIsEncoded | backend/src/modules/admin/admin-audit-log-cursor.ts:7-21 | Whatever decodes is the encoding of its parts |
| AuditLog.QueryAnswers | backend/src/modules/admin/admin.service.ts:269-294 | The one answer to every query: a limit outside 1 to 100, a cursor that does not split at its last bar, one whose parts do not cast, and otherwise the page of 25 or of the limit below it |
| AuditLog.ListFromCursor | backend/src/modules/admin/admin.service.ts:269-294 | A cursor the service gave out is read back as the row it was made of |
| AuditLog.PageIsTheGreatest | backend/src/modules/admin/admin.service.ts:279-294 | A page holds the n greatest rows left, in strictly descending order |
| AuditLog.PageEnds | backend/src/modules/admin/admin.service.ts:305-308 | The next cursor is null exactly when fewer rows than the limit were left |
| AuditLog.NextCursor | backend/src/modules/admin/admin.service.ts:305-308 | Below a page's cursor lie exactly the rows that are not on it or above it |
| AuditLog.WalkOrder | backend/src/modules/admin/admin.service.ts:269-310 | Following next_cursor over a growing table gives a strictly descending list of rows of the table |
| AuditLog.WalkCovers | backend/src/modules/admin/admin.service.ts:269-310 | A walk that ended has returned every row below its first cursor that was there at the start |
| AuditLog.WalkIsExactlyOnce | backend/src/modules/admin/admin.service.ts:269-310 | Whatever is inserted between pages: no row twice, strictly descending, and once ended every row that existed at the start |
| AuditLog.WalkEnds | backend/src/modules/admin/admin.service.ts:269-310 | With n rows at the start and nothing inserted below the cursor, the walk ends exactly when the pages on offer have room for more than n rows, and reads no page more than that takes |
| RateLimiter.CountingRefusalsChangesNothing | backend/src/modules/registration/peak-admission.service.ts:298-317 | Counting refused requests, as INCR does, gives the same answers as not counting them |
| RateLimiter.WindowIsExact | backend/src/shared/middleware/rateLimiter.ts:6-25 | Of the requests in one window exactly the first limit pass |
| RateLimiter.IntervalBound | backend/src/shared/middleware/rateLimiter.ts:6-25 | Any half-open interval of one window length lets through at most 2 * limit - 1 requests, for both limiters and any monotone times |
| RateLimiter.BoundIsReached | backend/src/shared/middleware/rateLimiter.ts:6-25 | For every limit a monotone schedule reaches 2 * limit - 1 |
| RateLimiter.AddressesAreSeparate | backend/src/shared/middleware/rateLimiter.ts:6-25 | The attempts of one address are served as if the others were not there |
| RateLimiter.SameBucketExactly | backend/src/shared/middleware/rateLimiter.ts:6-12 | Two requests share a bucket exactly when they come from the same address or neither names one |
| RateLimiter.LoginBound | backend/src/shared/middleware/rateLimiter.ts:6-25 | At most nine logins of one address pass in any 60 seconds |
| RateLimiter.LoginRateLimiter.RateLimitLogin | backend/src/shared/middleware/rateLimiter.ts:6-25 | The update of the attempts map and the answer are one step of the specification for the request's address |
| RateLimiter.GlobalWriteLimiter.GuardGlobalWriteRate | backend/src/modules/registration/peak-admission.service.ts:298-317 | INCR, EXPIRE on the first and the comparison are one step of the counting limiter with a window of one second |
| CsvLine.ParseCsvLine | backend/src/modules/csv-import/csv-import.service.ts:38-64 | The character loop returns the unescaped pieces of the line between its separators |
| CsvLine.SplitsAtEvenCommas | backend/src/modules/csv-import/csv-import.service.ts:38-64 | On every line the cuts are exactly the commas preceded by an even number of quotes, and the pieces joined give the line back |
| CsvLine.UnescapeDropsQuotes | backend/src/modules/csv-import/csv-import.service.ts:45-53 | Reading a piece drops at least half of its quotes and nothing else |
| CsvLine.ParseUndoesPrint | backend/src/modules/csv-import/csv-import.service.ts:38-64 | Parsing undoes the printer of RFC 4180, section 2, rules 5 to 7, on every non-empty list of fields, whichever further fields are quoted |
| CsvLine.BareExactly | backend/src/modules/csv-import/csv-import.service.ts:38-64 | An unquoted field reads as itself if and only if it holds neither quote nor comma |

## Left out

- PostgreSQL and Redis engines: row-locked transactions and Redis commands are atomic, unique and CHECK constraints abort, and an aborted transaction is a step that changes nothing. Lock order and deadlocks are not modelled (create locks workshop then registration, a callback the reverse).
- MoMo, BullMQ, Elasticsearch and JWT: a gateway or query answer is an arbitrary value, a signature was accepted, a QR token maps to its claims or to nothing, the request hash stands for its user and workshop, and UUIDs are fresh names in an order of naturals.
- Enqueueing that fails: a confirmation or change event handed to the queue arrives there; jobs that fail for the third time and a failure between a row's UPDATE and its enqueue are not modelled.
- Payment columns without a part in the protocol: provider_trans_id and its uniqueness, callback metadata, reconciliation_attempts, timestamps, QR columns.
- RegistrationServices.RegistrationService.RunReconciliationBatch: without a MoMo adapter the batch does nothing in the code; the model is of a service that has one.
- RegistrationServices.RegistrationService.CreateRegistration: one uninterrupted call; interleavings with it are covered by the runs of its transactions, and its gateway answer is a step of its own.
- SeatInvariants.EditKeeps: the guard on confirmed_registrations is left out because the registration code never changes that column; room and speaker conflicts are not part of the seat model.
- JointAdmission.TokensAndSeatsBounded: each admission, and each attempt with its create, is one step, peak control stays active and capacity is not lowered; OverlappingAdmission is about the same requests without the first of these.
- OverlappingAdmission.OverlapBound: writing a token is one step, and so is consuming one (its look-up and its deletion); peak control stays active and capacity is not lowered.
- PeakAdmissionServices.PeakAdmissionService.RequestAdmission: the user-queue key, which nothing reads, the remaining lifetime told to a returning user and the retry time told to a waiting one are left out.
- PeakAdmissionServices.PeakAdmissionService.ValidateRegistrationAttempt: one workshop's room, so a token of another workshop is one without a payload here; the answer of the global write limiter is an input, and the limiter itself is part of RateLimiter.
- QueueFairness.WaitingOnlyGetsShorter: assumes that no two admission requests fall into the same millisecond; ties are ordered by user id.
- RegistrationRuns.SingleConfirmation: the events are those handed to the queue; one whose enqueueing fails is logged and lost in the code, so that fewer may be delivered.
- Liveness: nothing is claimed about reaching the head of the waiting room, getting back a probe whose outcome was never recorded, or a device queue whose head batch is refused for ever.
- CircuitBreakerStores.DriveBoth: the failure window and key expiry in Redis do not fire during the operations.
- CircuitBreakerStores.RedisStore.IncrementFailureCount: the expiry of the failure window, set on the first increment, does not fire.
- CircuitBreakerStores.PaymentCircuitBreaker.RecordFailure: an operation of the store happens or fails as a whole; the Redis commands inside a transition are not separated.
- CircuitBreaker.OpenTurnsAway: calls overlap and outcomes may arrive at any later point, but each evaluateAdmission, recordSuccess and recordFailure is one step.
- OfflineCheckin.SyncedMeansCheckedIn: a device sends any of its pending records, at most 25; which 25 is DeviceQueue's part. A malformed item, which makes the server throw, is a job that stops there.
- InterleavedSync.InterleavingIsOrderFree: registrations stand still, nobody scans online and no token runs out while the items are read; AttendanceBounded and SyncedMeansCheckedIn are about histories without these limits.
- DeviceQueues.DeviceQueue.Enqueue: the table is kept in the order that the query asks for instead of being sorted when it is read.
- CheckinServices.CheckinService.Scan: student names, roster entries and the cancelled-since feed are left out, and so is the error when the row cannot be read again after a lost insert.
- DeviceQueues.DeviceQueue.SyncPending: a second caller, who gets the result of the running synchronisation in the code, is told that nothing was cleared; the call is one step here, so the flag it holds meanwhile shows only in OfflineCheckin, where a device with a flight cannot send.
- SearchIndex.QuietAgrees: updatedAt in the document is ignored; change reasons and the notifications they cause are left out.
- SearchIndex.SearchIndexing.UpdateWorkshop: the two seat counters it compares the capacity with are inputs, since the registration service keeps them; the room and speaker query says that there is a clash, not which of the two it names; the timetable is that of edits one at a time, because the query and the UPDATE are not one transaction.
- SearchIndex.SearchIndexing.RebuildIndex: no edit or event falls into the rebuild, which is run as a script.
- AuditLog.WalkIsExactlyOnce: created_at in whole milliseconds, as the admin service writes it; the other columns are copied unchanged. base64url (section 5 of RFC 4648), ISO timestamps and UUID text are inverse pairs.
- AuditLog.ListFromCursor: a limit is a real number, so NaN and the infinities, which the code refuses, do not occur.
- RateLimiter.GlobalWriteLimiter.GuardGlobalWriteRate: INCR and EXPIRE are one step, so a counter never stays without an expiry.
- CsvLine.ParseCsvLine: reading the file by lines, trimming, header matching, row validation, deduplication by student id and the database import are left out.
- Notification paging: its cursor has milliseconds over microsecond rows, so exactly-once does not hold and is not claimed.
- AI summary jobs, refresh tokens, notification retries, cron slots, HTTP routes, the web pages and the phone screens.
