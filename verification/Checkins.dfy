/** The check-in server: what one scan or one synchronised item does to the attendance rows. */
module Checkins {
  import opened Wrappers
  import opened Payments
  import opened Tables

  datatype Source = Online | Offline(device: Id, scan: string)

  datatype Row = Row(workshop: Id, user: Id, staff: Id, source: Source, at: int)

  /** workshop_checkins, keyed by its UNIQUE registration_id. */
  type Rows = map<Id, Row>

  datatype Claims = Claims(reg: Id, workshop: Id, user: Id, expiresAt: int)

  /** The QR tokens that carry a valid signature, with their claims. */
  type Tokens = map<string, Claims>

  datatype Item = Item(device: Id, scan: string, token: string, workshop: Option<Id>)

  datatype Outcome =
    | CheckedIn(reg: Id, at: int)
    | AlreadyIn(row: Option<(Id, int)>)
    | InvalidQr
    | NotConfirmed
    | WorkshopMismatch
    | WorkshopIsCancelled

  /** The outcomes for which the device marks its record as synced. */
  predicate SettlesRecord(o: Outcome) {
    o.CheckedIn? || o.AlreadyIn?
  }

  predicate IsReplay(rows: Rows, staff: Id, item: Item, r: Id) {
    r in rows && rows[r].staff == staff && rows[r].source == Offline(item.device, item.scan)
  }

  /** getReplayByDevice. */
  ghost function ReplayRow(rows: Rows, staff: Id, item: Item): Option<Id> {
    if r :| IsReplay(rows, staff, item, r) then Some(r) else None
  }

  /** verifyQrToken at time now. */
  function Verify(tokens: Tokens, token: string, now: int): Option<Claims> {
    if token in tokens && now < tokens[token].expiresAt then Some(tokens[token]) else None
  }

  /** The checks on the candidate row, up to the question whether it is checked in already. */
  function Refusal(db: Db, c: Claims, requested: Option<Id>): Option<Outcome> {
    if c.reg !in db.registrations then Some(InvalidQr)
    else
      var x := db.registrations[c.reg];
      if x.user != c.user || x.workshop != c.workshop then Some(InvalidQr)
      else if requested.Some? && requested.value != c.workshop then Some(WorkshopMismatch)
      else if x.workshop in db.workshops && db.workshops[x.workshop].status == WorkshopCancelled
      then Some(WorkshopIsCancelled)
      else if x.status != Confirmed then Some(NotConfirmed)
      else None
  }

  datatype Look = Done(outcome: Outcome) | Insert(reg: Id)

  /** The reading half of processSyncItem: it ends with an answer or with a row to insert. */
  ghost function LookUp(db: Db, rows: Rows, tokens: Tokens, staff: Id, item: Item, now: int): Look {
    match ReplayRow(rows, staff, item)
    case Some(r) => Done(CheckedIn(r, rows[r].at))
    case None =>
      match Verify(tokens, item.token, now)
      case None => Done(InvalidQr)
      case Some(c) =>
        match Refusal(db, c, item.workshop)
        case Some(o) => Done(o)
        case None => if c.reg in rows then Done(AlreadyIn(Some((c.reg, rows[c.reg].at)))) else Insert(c.reg)
  }

  /** The unique index on (staff, device, scan) holds back a second row of one scan. */
  predicate SourceTaken(rows: Rows, staff: Id, source: Source) {
    source.Offline? && exists r :: r in rows && rows[r].staff == staff && rows[r].source == source
  }

  /** INSERT .. ON CONFLICT DO NOTHING. */
  function InsertCheckin(db: Db, rows: Rows, staff: Id, source: Source, r: Id, now: int): Rows {
    if r in rows || SourceTaken(rows, staff, source) || r !in db.registrations then rows
    else rows[r := Row(db.registrations[r].workshop, db.registrations[r].user, staff, source, now)]
  }

  /** The writing half: the answer after the insert, with the row read again on a conflict. */
  function InsertAnswer(rows: Rows, rows2: Rows, r: Id, now: int): Outcome {
    if r !in rows && r in rows2 then CheckedIn(r, now)
    else if r in rows then AlreadyIn(Some((r, rows[r].at)))
    else AlreadyIn(None)
  }

  /** processSyncItem without interference. */
  ghost function Process(db: Db, rows: Rows, tokens: Tokens, staff: Id, item: Item, now: int): (Rows, Outcome) {
    match LookUp(db, rows, tokens, staff, item, now)
    case Done(o) => (rows, o)
    case Insert(r) =>
      var rows2 := InsertCheckin(db, rows, staff, Offline(item.device, item.scan), r, now);
      (rows2, InsertAnswer(rows, rows2, r, now))
  }

  /** Rows are only ever added. */
  ghost predicate Grows(a: Rows, b: Rows) {
    forall r | r in a :: r in b && b[r] == a[r]
  }

  lemma ProcessGrows(db: Db, rows: Rows, tokens: Tokens, staff: Id, item: Item, now: int)
    ensures Grows(rows, Process(db, rows, tokens, staff, item, now).0)
  {
  }

  ghost predicate UniqueSources(rows: Rows) {
    forall r, s | r in rows && s in rows && r != s && rows[r].source.Offline? ::
      !(rows[r].staff == rows[s].staff && rows[r].source == rows[s].source)
  }

  /**
   * An item that got a row in is answered, when the same staff member sends it again after any
   * growth of the table, with the same registration and the original time, and adds no row.
   */
  lemma ResendIsReplay(db: Db, rows: Rows, tokens: Tokens, staff: Id, item: Item, now: int, later: Db, rows2: Rows,
                       again: int)
    requires LookUp(db, rows, tokens, staff, item, now).Insert?
    requires Process(db, rows, tokens, staff, item, now).1.CheckedIn?
    requires Grows(Process(db, rows, tokens, staff, item, now).0, rows2) && UniqueSources(rows2)
    ensures Process(later, rows2, tokens, staff, item, again) == (rows2, Process(db, rows, tokens, staff, item, now).1)
  {
    var r := LookUp(db, rows, tokens, staff, item, now).reg;
    assert IsReplay(rows2, staff, item, r);
  }

  /** Whoever sends an item whose registration has its row, no row is added or changed. */
  lemma CheckedInOnce(db: Db, rows: Rows, tokens: Tokens, staff: Id, item: Item, now: int)
    requires item.token in tokens && tokens[item.token].reg in rows
    ensures Process(db, rows, tokens, staff, item, now).0 == rows
  {
  }

  /** Another registration's row already carries this staff member's scan id. */
  ghost predicate ScanClash(rows: Rows, tokens: Tokens, staff: Id, item: Item)
    requires item.token in tokens
  {
    exists r: Id :: r != tokens[item.token].reg && IsReplay(rows, staff, item, r)
  }

  lemma NoReplayNotTaken(rows: Rows, staff: Id, item: Item)
    requires ReplayRow(rows, staff, item) == None
    ensures !SourceTaken(rows, staff, Offline(item.device, item.scan))
  {
    forall r | r in rows ensures !(rows[r].staff == staff && rows[r].source == Offline(item.device, item.scan)) {
      assert !IsReplay(rows, staff, item, r);
    }
  }

  /**
   * A settling answer means that the item's registration is checked in, if and only if it was so
   * before or the scan id is not one that another registration's row carries.
   */
  lemma SettledMeansCheckedIn(db: Db, rows: Rows, tokens: Tokens, staff: Id, item: Item, now: int)
    requires item.token in tokens && UniqueSources(rows)
    requires SettlesRecord(Process(db, rows, tokens, staff, item, now).1)
    ensures tokens[item.token].reg in Process(db, rows, tokens, staff, item, now).0
       <==> tokens[item.token].reg in rows || !ScanClash(rows, tokens, staff, item)
  {
    var reg := tokens[item.token].reg;
    if ScanClash(rows, tokens, staff, item) {
      var r: Id :| r != reg && IsReplay(rows, staff, item, r);
      assert ReplayRow(rows, staff, item) == Some(r);
    } else if ReplayRow(rows, staff, item).Some? {
      assert ReplayRow(rows, staff, item).value == reg;
    } else {
      NoReplayNotTaken(rows, staff, item);
    }
  }

  /**
   * And with such a scan id it does happen: the record is answered with the other registration's row,
   * and settled, while its own registration is not checked in.
   */
  lemma ClashSettlesUnseen(db: Db, rows: Rows, tokens: Tokens, staff: Id, item: Item, r: Id, now: int)
    requires item.token in tokens && tokens[item.token].reg !in rows
    requires UniqueSources(rows) && IsReplay(rows, staff, item, r)
    ensures ScanClash(rows, tokens, staff, item)
    ensures Process(db, rows, tokens, staff, item, now) == (rows, CheckedIn(r, rows[r].at))
    ensures SettlesRecord(Process(db, rows, tokens, staff, item, now).1)
    ensures tokens[item.token].reg !in Process(db, rows, tokens, staff, item, now).0
  {
    assert ReplayRow(rows, staff, item) == Some(r);
  }

  // ---- who is checked in ----

  /** The token is signed, has not run out, and its claims are those of a registration. */
  predicate Genuine(db: Db, tokens: Tokens, token: string, now: int) {
    && token in tokens && tokens[token].expiresAt > now
    && tokens[token].reg in db.registrations
    && db.registrations[tokens[token].reg].user == tokens[token].user
    && db.registrations[tokens[token].reg].workshop == tokens[token].workshop
  }

  /** The staff member scans for this workshop, or for no workshop in particular. */
  predicate RightDoor(requested: Option<Id>, w: Id) {
    requested == None || requested == Some(w)
  }

  predicate CalledOff(db: Db, w: Id) {
    w in db.workshops && db.workshops[w].status == WorkshopCancelled
  }

  /** The registration that a genuine token is for is confirmed, for this door and for a workshop that takes place. */
  predicate Admissible(db: Db, tokens: Tokens, token: string, requested: Option<Id>, now: int) {
    && Genuine(db, tokens, token, now) && RightDoor(requested, tokens[token].workshop)
    && !CalledOff(db, tokens[token].workshop)
    && db.registrations[tokens[token].reg].status == Confirmed
  }

  /** The answer settles exactly an admissible scan, and each refusal has its own condition. */
  predicate RightOutcome(db: Db, tokens: Tokens, token: string, requested: Option<Id>, now: int, o: Outcome) {
    && (SettlesRecord(o) <==> Admissible(db, tokens, token, requested, now))
    && (o == InvalidQr <==> !Genuine(db, tokens, token, now))
    && (o == WorkshopMismatch <==>
        Genuine(db, tokens, token, now) && !RightDoor(requested, tokens[token].workshop))
    && (o == WorkshopIsCancelled <==>
        && Genuine(db, tokens, token, now) && RightDoor(requested, tokens[token].workshop)
        && CalledOff(db, tokens[token].workshop))
    && (o == NotConfirmed <==>
        && Genuine(db, tokens, token, now) && RightDoor(requested, tokens[token].workshop)
        && !CalledOff(db, tokens[token].workshop)
        && db.registrations[tokens[token].reg].status != Confirmed)
  }

  /** The rows and the answer after an admissible scan of registration r. */
  ghost predicate TakenIn(db: Db, rows: Rows, rows2: Rows, staff: Id, source: Source, r: Id, now: int, o: Outcome) {
    if r in rows then rows2 == rows && o == AlreadyIn(Some((r, rows[r].at)))
    else
      && r in db.registrations && o == CheckedIn(r, now)
      && rows2 == rows[r := Row(db.registrations[r].workshop, db.registrations[r].user, staff, source, now)]
  }

  /**
   * A scan id that is new to the table is accepted if and only if its token is genuine at that time,
   * for the requested workshop, and the registration is confirmed for a workshop not cancelled; then
   * its row is there, and otherwise no row changes and the refusal says which condition failed first.
   */
  lemma CheckedInExactly(db: Db, rows: Rows, tokens: Tokens, staff: Id, item: Item, now: int)
    requires forall r | r in rows :: !(rows[r].staff == staff && rows[r].source == Offline(item.device, item.scan))
    ensures var (rows2, o) := Process(db, rows, tokens, staff, item, now);
            && RightOutcome(db, tokens, item.token, item.workshop, now, o)
            && if SettlesRecord(o)
               then TakenIn(db, rows, rows2, staff, Offline(item.device, item.scan), tokens[item.token].reg, now, o)
               else rows2 == rows
  {
    assert ReplayRow(rows, staff, item) == None;
    NoReplayNotTaken(rows, staff, item);
    hide ReplayRow, SourceTaken;
  }

  // ---- synchronisation does not depend on the order ----

  datatype Entry = Entry(staff: Id, item: Item, now: int)

  /** A batch, or several batches one after the other. */
  ghost function SyncAll(db: Db, rows: Rows, tokens: Tokens, es: seq<Entry>): Rows
    decreases es
  {
    if es == [] then rows
    else SyncAll(db, Process(db, rows, tokens, es[0].staff, es[0].item, es[0].now).0, tokens, es[1..])
  }

  /** A batch changes and removes no row. */
  lemma {:induction false} SyncGrows(db: Db, rows: Rows, tokens: Tokens, es: seq<Entry>)
    ensures Grows(rows, SyncAll(db, rows, tokens, es))
    decreases es
  {
    hide Process;
    if es != [] {
      ProcessGrows(db, rows, tokens, es[0].staff, es[0].item, es[0].now);
      SyncGrows(db, Process(db, rows, tokens, es[0].staff, es[0].item, es[0].now).0, tokens, es[1..]);
    }
  }

  predicate Eligible(db: Db, tokens: Tokens, e: Entry) {
    Admissible(db, tokens, e.item.token, e.item.workshop, e.now)
  }

  ghost function EligibleRegs(db: Db, tokens: Tokens, es: multiset<Entry>): set<Id> {
    set e | e in es && Eligible(db, tokens, e) :: tokens[e.item.token].reg
  }

  /** Scan ids are unique: one (device, scan) belongs to one token, in the batch and in the table. */
  ghost predicate UniqueScans(rows: Rows, tokens: Tokens, es: multiset<Entry>) {
    && (forall d, e | d in es && e in es && d.item.device == e.item.device && d.item.scan == e.item.scan ::
          d.item.token == e.item.token)
    && (forall r, e | r in rows && e in es && rows[r].source == Offline(e.item.device, e.item.scan) ::
          e.item.token in tokens && tokens[e.item.token].reg == r)
  }

  /** One entry adds its registration if it is eligible, and nothing otherwise. */
  lemma ProcessAdds(db: Db, rows: Rows, tokens: Tokens, e: Entry)
    requires UniqueScans(rows, tokens, multiset{e})
    ensures Process(db, rows, tokens, e.staff, e.item, e.now).0.Keys
         == rows.Keys + if Eligible(db, tokens, e) then {tokens[e.item.token].reg} else {}
  {
    if ReplayRow(rows, e.staff, e.item) == None { NoReplayNotTaken(rows, e.staff, e.item); }
    assert e in multiset{e};
  }

  lemma ProcessKeepsUnique(db: Db, rows: Rows, tokens: Tokens, e: Entry, es: multiset<Entry>)
    requires UniqueScans(rows, tokens, es) && e in es
    ensures UniqueScans(Process(db, rows, tokens, e.staff, e.item, e.now).0, tokens, es)
  {
    hide Refusal;
    var rows2 := Process(db, rows, tokens, e.staff, e.item, e.now).0;
    forall r, f | r in rows2 && f in es && rows2[r].source == Offline(f.item.device, f.item.scan)
      ensures f.item.token in tokens && tokens[f.item.token].reg == r
    {
      if r !in rows { assert f.item.token == e.item.token; }
    }
  }

  lemma EligibleSplits(db: Db, tokens: Tokens, e: Entry, rest: multiset<Entry>)
    ensures EligibleRegs(db, tokens, multiset{e} + rest)
         == EligibleRegs(db, tokens, rest) + if Eligible(db, tokens, e) then {tokens[e.item.token].reg} else {}
  {
    var both := multiset{e} + rest;
    assert forall x :: x in both <==> x == e || x in rest;
    if Eligible(db, tokens, e) { assert tokens[e.item.token].reg in EligibleRegs(db, tokens, both); }
  }

  lemma NoneEligible(db: Db, tokens: Tokens, es: seq<Entry>)
    requires es == []
    ensures EligibleRegs(db, tokens, multiset(es)) == {}
  {
  }

  lemma FewerScans(rows: Rows, tokens: Tokens, es: multiset<Entry>, fs: multiset<Entry>)
    requires UniqueScans(rows, tokens, es) && fs <= es
    ensures UniqueScans(rows, tokens, fs)
  {
  }

  lemma {:induction false} SyncAddsEligible(db: Db, rows: Rows, tokens: Tokens, es: seq<Entry>)
    requires UniqueScans(rows, tokens, multiset(es))
    ensures SyncAll(db, rows, tokens, es).Keys == rows.Keys + EligibleRegs(db, tokens, multiset(es))
    decreases es
  {
    hide Process, Eligible, UniqueScans, EligibleRegs;
    if es == [] {
      NoneEligible(db, tokens, es);
    } else {
      var e := es[0];
      assert es == [e] + es[1..];
      assert e in multiset(es) && multiset(es) == multiset{e} + multiset(es[1..]);
      var rows2 := Process(db, rows, tokens, e.staff, e.item, e.now).0;
      FewerScans(rows, tokens, multiset(es), multiset{e});
      ProcessAdds(db, rows, tokens, e);
      ProcessKeepsUnique(db, rows, tokens, e, multiset(es));
      FewerScans(rows2, tokens, multiset(es), multiset(es[1..]));
      SyncAddsEligible(db, rows2, tokens, es[1..]);
      EligibleSplits(db, tokens, e, multiset(es[1..]));
    }
  }

  /** Any reordering of the items, over any devices and staff, checks in the same registrations. */
  lemma SyncIsOrderFree(db: Db, rows: Rows, tokens: Tokens, es: seq<Entry>, fs: seq<Entry>)
    requires UniqueScans(rows, tokens, multiset(es)) && multiset(es) == multiset(fs)
    ensures SyncAll(db, rows, tokens, es).Keys == SyncAll(db, rows, tokens, fs).Keys
         == rows.Keys + EligibleRegs(db, tokens, multiset(es))
  {
    SyncAddsEligible(db, rows, tokens, es);
    SyncAddsEligible(db, rows, tokens, fs);
  }

  /** Splitting a batch in two changes nothing. */
  lemma {:induction false} SyncSplits(db: Db, rows: Rows, tokens: Tokens, es: seq<Entry>, fs: seq<Entry>)
    ensures SyncAll(db, rows, tokens, es + fs) == SyncAll(db, SyncAll(db, rows, tokens, es), tokens, fs)
    decreases es
  {
    hide Process;
    if es == [] {
      assert es + fs == fs;
    } else {
      assert (es + fs)[1..] == es[1..] + fs;
      SyncSplits(db, Process(db, rows, tokens, es[0].staff, es[0].item, es[0].now).0, tokens, es[1..], fs);
    }
  }
}
