/** What interleaved synchronisations answer, and what they check in. */
module InterleavedSync {
  import opened Wrappers
  import opened Tables
  import opened SeatInvariants
  import opened Checkins
  import opened OfflineCheckin

  // ---- answers stay true ----

  /** The registration and time an answer names are those of the table. */
  predicate Holds(rows: Rows, o: Outcome) {
    match o
    case CheckedIn(r, at) => r in rows && rows[r].at == at
    case AlreadyIn(Some(row)) => row.0 in rows && rows[row.0].at == row.1
    case _ => true
  }

  predicate JobHolds(j: Job, rows: Rows) {
    forall n | 0 <= n < |j.answers| :: Holds(rows, j.answers[n])
  }

  ghost predicate AnswersHold(jobs: seq<Job>, rows: Rows) {
    forall i | 0 <= i < |jobs| :: JobHolds(jobs[i], rows)
  }

  lemma LookUpHolds(db: Db, rows: Rows, tokens: Tokens, staff: Id, item: Item, now: int)
    ensures var look := LookUp(db, rows, tokens, staff, item, now); look.Done? ==> Holds(rows, look.outcome)
  {
  }

  lemma InsertHolds(db: Db, rows: Rows, staff: Id, source: Source, r: Id, now: int)
    ensures var rows2 := InsertCheckin(db, rows, staff, source, r, now);
      Grows(rows, rows2) && Holds(rows2, InsertAnswer(rows, rows2, r, now))
  {
  }

  lemma GrowingHolds(jobs: seq<Job>, rows: Rows, rows2: Rows)
    requires AnswersHold(jobs, rows) && Grows(rows, rows2)
    ensures AnswersHold(jobs, rows2)
  {
    forall k | 0 <= k < |jobs|
      ensures JobHolds(jobs[k], rows2)
    {
      assert JobHolds(jobs[k], rows);
    }
  }

  lemma OneMoreHolds(jobs: seq<Job>, rows: Rows, rows2: Rows, i: nat, j2: Job, o: Outcome)
    requires AnswersHold(jobs, rows) && Grows(rows, rows2) && i < |jobs|
    requires j2.answers == jobs[i].answers || (j2.answers == jobs[i].answers + [o] && Holds(rows2, o))
    ensures AnswersHold(jobs[i := j2], rows2)
  {
    GrowingHolds(jobs, rows, rows2);
    assert JobHolds(jobs[i], rows2);
  }

  lemma ReadHolds(w: World, tokens: Tokens, i: nat, now: int)
    requires AnswersHold(w.jobs, w.rows)
    ensures AnswersHold(ReadItem(w, tokens, i, now).jobs, w.rows) && ReadItem(w, tokens, i, now).rows == w.rows
  {
    hide AnswersHold, LookUp, Holds;
    if i < |w.jobs| && w.jobs[i].ticket == None && |w.jobs[i].answers| < |w.jobs[i].items| {
      var j, j2 := w.jobs[i], ReadItem(w, tokens, i, now).jobs[i];
      var look := LookUp(w.db, w.rows, tokens, j.staff, j.items[|j.answers|], now);
      LookUpHolds(w.db, w.rows, tokens, j.staff, j.items[|j.answers|], now);
      OneMoreHolds(w.jobs, w.rows, w.rows, i, j2, if look.Done? then look.outcome else InvalidQr);
    }
  }

  lemma WriteHolds(w: World, i: nat, now: int)
    requires AnswersHold(w.jobs, w.rows)
    ensures AnswersHold(WriteItem(w, i, now).jobs, WriteItem(w, i, now).rows)
  {
    hide AnswersHold, InsertCheckin, InsertAnswer, Holds;
    if i < |w.jobs| && w.jobs[i].ticket.Some? && |w.jobs[i].answers| < |w.jobs[i].items| {
      var j, j2 := w.jobs[i], WriteItem(w, i, now).jobs[i];
      var r, item := j.ticket.value, j.items[|j.answers|];
      var rows2 := InsertCheckin(w.db, w.rows, j.staff, Offline(item.device, item.scan), r, now);
      InsertHolds(w.db, w.rows, j.staff, Offline(item.device, item.scan), r, now);
      OneMoreHolds(w.jobs, w.rows, rows2, i, j2, InsertAnswer(w.rows, rows2, r, now));
    }
  }

  lemma NextHolds(w: World, tokens: Tokens, a: Act)
    requires AnswersHold(w.jobs, w.rows)
    ensures AnswersHold(Next(w, tokens, a).jobs, Next(w, tokens, a).rows)
  {
    hide LookUp, InsertCheckin, InsertAnswer, ReadItem, WriteItem, Holds, Step, Sendable, Items, Verify, Refusal;
    match a
    case Read(i, now) => ReadHolds(w, tokens, i, now);
    case Write(i, now) => WriteHolds(w, i, now);
    case OnlineWrite(staff, r, now) =>
      InsertHolds(w.db, w.rows, staff, Online, r, now);
      GrowingHolds(w.jobs, w.rows, InsertCheckin(w.db, w.rows, staff, Online, r, now));
    case _ =>
  }

  lemma {:induction false} HistoryHolds(w: World, tokens: Tokens, acts: seq<Act>)
    requires AnswersHold(w.jobs, w.rows)
    ensures AnswersHold(History(w, tokens, acts).jobs, History(w, tokens, acts).rows)
    decreases acts
  {
    hide Next, JobHolds;
    if acts != [] {
      NextHolds(w, tokens, acts[0]);
      HistoryHolds(Next(w, tokens, acts[0]), tokens, acts[1..]);
    }
  }

  /**
   * Whatever happened since it was given, every answer that names a registration and a time, a replayed
   * one and one read again after a conflict included, names a row of the table with that time.
   */
  lemma AnswersStayTrue(tokens: Tokens, acts: seq<Act>, i: nat, n: nat)
    requires i < |History(START, tokens, acts).jobs| && n < |History(START, tokens, acts).jobs[i].answers|
    ensures Holds(History(START, tokens, acts).rows, History(START, tokens, acts).jobs[i].answers[n])
  {
    HistoryHolds(START, tokens, acts);
    assert JobHolds(History(START, tokens, acts).jobs[i], History(START, tokens, acts).rows);
  }

  // ---- the interleaving does not matter ----

  /** Registrations stand still and nobody scans online. */
  predicate SyncAct(a: Act) {
    !a.Server? && !a.OnlineRead? && !a.OnlineWrite?
  }

  /** No token runs out while the items are read: each is as valid as at time now. */
  ghost predicate Steady(tokens: Tokens, acts: seq<Act>, now: int) {
    forall a <- acts ::
      SyncAct(a) && (a.Read? ==> forall t <- tokens :: Verify(tokens, t, a.now) == Verify(tokens, t, now))
  }

  /** A synchronisation asked for registration r with an item that is eligible for it. */
  predicate AsksFor(db: Db, tokens: Tokens, j: Job, n: int, r: Id, now: int) {
    && 0 <= n < |j.items|
    && Eligible(db, tokens, Entry(j.staff, j.items[n], now)) && tokens[j.items[n].token].reg == r
  }

  /** An eligible item for r has been answered, whether or not the answer got back. */
  ghost predicate Asked(db: Db, tokens: Tokens, jobs: seq<Job>, r: Id, now: int) {
    exists i, n :: 0 <= i < |jobs| && n < |jobs[i].answers| && AsksFor(db, tokens, jobs[i], n, r, now)
  }

  /** Eligible items got settling answers, and a ticket is for the item at hand. */
  ghost predicate Dealt(db: Db, tokens: Tokens, j: Job, now: int) {
    && (forall n | 0 <= n < |j.answers| && n < |j.items| ::
          Eligible(db, tokens, Entry(j.staff, j.items[n], now)) ==> SettlesRecord(j.answers[n]))
    && (j.ticket.Some? ==> AsksFor(db, tokens, j, |j.answers|, j.ticket.value, now))
  }

  ghost predicate AllDealt(db: Db, tokens: Tokens, jobs: seq<Job>, now: int) {
    forall i | 0 <= i < |jobs| :: Dealt(db, tokens, jobs[i], now)
  }

  /** Every row is an old one, or an answered item asked for it. */
  ghost predicate RowsAsked(db: Db, tokens: Tokens, jobs: seq<Job>, rows: Rows, initial: Rows, now: int) {
    forall r <- rows :: r in initial || Asked(db, tokens, jobs, r, now)
  }

  ghost predicate Progress(w: World, tokens: Tokens, initial: Rows, now: int) {
    AllDealt(w.db, tokens, w.jobs, now) && RowsAsked(w.db, tokens, w.jobs, w.rows, initial, now)
  }

  lemma AskedStays(db: Db, tokens: Tokens, jobs: seq<Job>, i: nat, j2: Job, r: Id, now: int)
    requires i < |jobs| && j2.items == jobs[i].items && j2.staff == jobs[i].staff && jobs[i].answers <= j2.answers
    requires Asked(db, tokens, jobs, r, now)
    ensures Asked(db, tokens, jobs[i := j2], r, now)
  {
    var k, n :| 0 <= k < |jobs| && n < |jobs[k].answers| && AsksFor(db, tokens, jobs[k], n, r, now);
    assert AsksFor(db, tokens, jobs[i := j2][k], n, r, now);
  }

  lemma AskedOfMore(db: Db, tokens: Tokens, jobs: seq<Job>, j2: Job, r: Id, now: int)
    requires Asked(db, tokens, jobs, r, now)
    ensures Asked(db, tokens, jobs + [j2], r, now)
  {
    var k, n :| 0 <= k < |jobs| && n < |jobs[k].answers| && AsksFor(db, tokens, jobs[k], n, r, now);
    assert AsksFor(db, tokens, (jobs + [j2])[k], n, r, now);
  }

  /** An eligible item is settled at once or gets its ticket. */
  lemma EligibleIsServed(db: Db, rows: Rows, tokens: Tokens, staff: Id, item: Item, now: int)
    ensures var look := LookUp(db, rows, tokens, staff, item, now);
      && (Eligible(db, tokens, Entry(staff, item, now)) && look.Done? ==> SettlesRecord(look.outcome))
      && (look.Insert? ==> Eligible(db, tokens, Entry(staff, item, now)) && tokens[item.token].reg == look.reg)
  {
  }

  lemma EligibleIsSteady(db: Db, tokens: Tokens, staff: Id, item: Item, at: int, now: int)
    requires forall t <- tokens :: Verify(tokens, t, at) == Verify(tokens, t, now)
    ensures Eligible(db, tokens, Entry(staff, item, at)) <==> Eligible(db, tokens, Entry(staff, item, now))
  {
    if item.token in tokens { assert Verify(tokens, item.token, at) == Verify(tokens, item.token, now); }
  }

  lemma JobProgress(w: World, tokens: Tokens, initial: Rows, now: int, i: nat, j2: Job)
    requires Progress(w, tokens, initial, now) && i < |w.jobs|
    requires j2.items == w.jobs[i].items && j2.staff == w.jobs[i].staff && w.jobs[i].answers <= j2.answers
    requires Dealt(w.db, tokens, j2, now)
    ensures AllDealt(w.db, tokens, w.jobs[i := j2], now)
    ensures RowsAsked(w.db, tokens, w.jobs[i := j2], w.rows, initial, now)
  {
    hide Dealt, Asked;
    forall r <- w.rows | r !in initial
      ensures Asked(w.db, tokens, w.jobs[i := j2], r, now)
    {
      AskedStays(w.db, tokens, w.jobs, i, j2, r, now);
    }
  }

  lemma ReadDealt(w: World, tokens: Tokens, i: nat, at: int, now: int)
    requires i < |w.jobs| && w.jobs[i].ticket == None && |w.jobs[i].answers| < |w.jobs[i].items|
    requires Dealt(w.db, tokens, w.jobs[i], now)
    requires forall t <- tokens :: Verify(tokens, t, at) == Verify(tokens, t, now)
    ensures Dealt(w.db, tokens, ReadItem(w, tokens, i, at).jobs[i], now)
  {
    hide LookUp, Eligible;
    var j := w.jobs[i];
    var item := j.items[|j.answers|];
    EligibleIsServed(w.db, w.rows, tokens, j.staff, item, at);
    EligibleIsSteady(w.db, tokens, j.staff, item, at, now);
  }

  lemma ReadProgress(w: World, tokens: Tokens, initial: Rows, i: nat, at: int, now: int)
    requires Progress(w, tokens, initial, now)
    requires forall t <- tokens :: Verify(tokens, t, at) == Verify(tokens, t, now)
    ensures Progress(ReadItem(w, tokens, i, at), tokens, initial, now)
  {
    hide LookUp, Dealt, RowsAsked;
    if i < |w.jobs| && w.jobs[i].ticket == None && |w.jobs[i].answers| < |w.jobs[i].items| {
      ReadDealt(w, tokens, i, at, now);
      JobProgress(w, tokens, initial, now, i, ReadItem(w, tokens, i, at).jobs[i]);
    }
  }

  lemma WriteDealt(w: World, tokens: Tokens, i: nat, at: int, now: int)
    requires i < |w.jobs| && w.jobs[i].ticket.Some? && |w.jobs[i].answers| < |w.jobs[i].items|
    requires Dealt(w.db, tokens, w.jobs[i], now)
    ensures Dealt(w.db, tokens, WriteItem(w, i, at).jobs[i], now)
  {
    hide InsertCheckin, Eligible;
  }

  /** The row that an insert adds is one that the item it answers asked for. */
  lemma WriteAsked(w: World, tokens: Tokens, initial: Rows, i: nat, at: int, now: int)
    requires i < |w.jobs| && w.jobs[i].ticket.Some? && |w.jobs[i].answers| < |w.jobs[i].items|
    requires Dealt(w.db, tokens, w.jobs[i], now)
    requires RowsAsked(w.db, tokens, WriteItem(w, i, at).jobs, w.rows, initial, now)
    ensures RowsAsked(w.db, tokens, WriteItem(w, i, at).jobs, WriteItem(w, i, at).rows, initial, now)
  {
    hide Eligible, SourceTaken;
    var jobs2, r := WriteItem(w, i, at).jobs, w.jobs[i].ticket.value;
    assert AsksFor(w.db, tokens, jobs2[i], |w.jobs[i].answers|, r, now);
    assert Asked(w.db, tokens, jobs2, r, now);
  }

  lemma WriteProgress(w: World, tokens: Tokens, initial: Rows, i: nat, at: int, now: int)
    requires Progress(w, tokens, initial, now)
    ensures Progress(WriteItem(w, i, at), tokens, initial, now)
  {
    hide InsertCheckin, InsertAnswer, Dealt, RowsAsked;
    if i < |w.jobs| && w.jobs[i].ticket.Some? && |w.jobs[i].answers| < |w.jobs[i].items| {
      WriteDealt(w, tokens, i, at, now);
      JobProgress(w, tokens, initial, now, i, WriteItem(w, i, at).jobs[i]);
      WriteAsked(w, tokens, initial, i, at, now);
    }
  }

  lemma SendProgress(w: World, tokens: Tokens, initial: Rows, d: Id, staff: Id, scans: seq<string>, now: int)
    requires Progress(w, tokens, initial, now)
    ensures Progress(Next(w, tokens, Send(d, staff, scans)), tokens, initial, now)
  {
    hide Sendable, Items, Asked, Eligible;
    if Sendable(w, d, scans) {
      var j := Job(staff, Items(w, d, scans), [], None);
      forall r <- w.rows | r !in initial
        ensures Asked(w.db, tokens, w.jobs + [j], r, now)
      {
        AskedOfMore(w.db, tokens, w.jobs, j, r, now);
      }
    }
  }

  lemma SameTables(w: World, tokens: Tokens, i: nat, at: int)
    ensures ReadItem(w, tokens, i, at).db == w.db && WriteItem(w, i, at).db == w.db
  {
    hide LookUp, InsertCheckin, InsertAnswer;
  }

  lemma NextProgress(w: World, tokens: Tokens, initial: Rows, a: Act, now: int)
    requires Progress(w, tokens, initial, now) && Steady(tokens, [a], now)
    ensures Progress(Next(w, tokens, a), tokens, initial, now) && Next(w, tokens, a).db == w.db
  {
    hide ReadItem, WriteItem, AllDealt, RowsAsked, Sendable, Items, Verify;
    assert a in [a];
    match a
    case Read(i, at) =>
      ReadProgress(w, tokens, initial, i, at, now);
      SameTables(w, tokens, i, at);
    case Write(i, at) =>
      WriteProgress(w, tokens, initial, i, at, now);
      SameTables(w, tokens, i, at);
    case Send(d, staff, scans) => SendProgress(w, tokens, initial, d, staff, scans, now);
    case _ =>
  }

  lemma {:induction false} HistoryProgress(w: World, tokens: Tokens, initial: Rows, acts: seq<Act>, now: int)
    requires Progress(w, tokens, initial, now) && Steady(tokens, acts, now)
    ensures Progress(History(w, tokens, acts), tokens, initial, now) && History(w, tokens, acts).db == w.db
    decreases acts
  {
    hide Progress, Next, Verify;
    if acts != [] {
      assert acts[0] in acts && forall a <- acts[1..] :: a in acts;
      NextProgress(w, tokens, initial, acts[0], now);
      HistoryProgress(Next(w, tokens, acts[0]), tokens, initial, acts[1..], now);
    }
  }

  /** An answered eligible item has its registration checked in. */
  lemma AskedIsCheckedIn(w: World, tokens: Tokens, initial: Rows, now: int, r: Id)
    requires WorldInv(w, tokens) && Progress(w, tokens, initial, now)
    requires Asked(w.db, tokens, w.jobs, r, now)
    ensures r in w.rows
  {
    hide Inv, RowsEarned, TicketsEarned, RowsTraced, SyncedAttended, FlightsPending, Eligible, RowsAsked;
    var i, n :| 0 <= i < |w.jobs| && n < |w.jobs[i].answers| && AsksFor(w.db, tokens, w.jobs[i], n, r, now);
    assert Dealt(w.db, tokens, w.jobs[i], now) && JobSound(w.jobs[i], w.rows, w.records, tokens);
    assert SettlesRecord(w.jobs[i].answers[n]);
    assert Attended(w.rows, tokens, w.jobs[i].items[n].token);
  }

  /**
   * Main result: reads and inserts of any number of synchronisations, of any devices and staff, may be
   * interleaved at will, requests may stop anywhere and responses may be lost, items may be sent again.
   * At every moment exactly those registrations are checked in that were so before or that an eligible
   * item asked for and was answered.
   */
  lemma InterleavingIsOrderFree(w: World, tokens: Tokens, acts: seq<Act>, now: int, r: Id)
    requires WorldInv(w, tokens) && w.jobs == [] && Steady(tokens, acts, now)
    ensures var end := History(w, tokens, acts);
      r in end.rows <==> r in w.rows || Asked(w.db, tokens, end.jobs, r, now)
  {
    hide History, Asked, Inv, RowsEarned, TicketsEarned, RowsTraced, SyncedAttended, FlightsPending, Verify;
    assert Progress(w, tokens, w.rows, now);
    HistoryKeeps(w, tokens, acts);
    HistoryProgress(w, tokens, w.rows, acts, now);
    NothingIsLost(w, tokens, acts);
    var end := History(w, tokens, acts);
    if Asked(w.db, tokens, end.jobs, r, now) { AskedIsCheckedIn(end, tokens, w.rows, now, r); }
  }
}
