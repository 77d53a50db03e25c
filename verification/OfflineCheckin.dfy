/**
 * Offline check-in as a distributed protocol: devices with queues, a server that works items off
 * one read and one write at a time, and a network that loses what it likes, beside the
 * registration protocol.
 */
module OfflineCheckin {
  import opened Wrappers
  import opened Sets
  import opened Payments
  import opened Tables
  import opened SeatInvariants
  import opened RegistrationRuns
  import opened Checkins

  /** A record of the device table, by its device and its UNIQUE scan id. */
  datatype Key = Key(device: Id, scan: string)
  datatype Record = Record(token: string, workshop: Option<Id>, synced: bool)

  /**
   * One request being worked off: its items, the answers so far, and the registration that the
   * current item was found eligible for but not yet inserted. A job that nobody advances is a lost
   * request, a lost response or a failure in mid-batch.
   */
  datatype Job = Job(staff: Id, items: seq<Item>, answers: seq<Outcome>, ticket: Option<Id>)

  /**
   * flights holds, for a device with a sync in flight, the job whose response it waits for.
   * onlineTickets are scans whose eligibility was read and whose insert is still to come.
   */
  datatype World = World(db: Db, rows: Rows, records: map<Key, Record>, jobs: seq<Job>,
                         flights: map<Id, nat>, onlineTickets: set<(Id, Id)>)

  datatype Act =
    | Server(e: Event)
    | Scan(key: Key, token: string, workshop: Option<Id>)
    | Send(device: Id, staff: Id, scans: seq<string>)
    | Read(job: nat, now: int)
    | Write(job: nat, now: int)
    | Mark(device: Id, n: nat)
    | GiveUp(device: Id)
    | OnlineRead(staff: Id, token: string, requested: Option<Id>, now: int)
    | OnlineWrite(staff: Id, reg: Id, now: int)

  predicate PendingRecord(w: World, k: Key) {
    k in w.records && !w.records[k].synced
  }

  function ItemOf(w: World, k: Key): Item
    requires k in w.records
  {
    Item(k.device, k.scan, w.records[k].token, w.records[k].workshop)
  }

  function KeyOf(item: Item): Key {
    Key(item.device, item.scan)
  }

  function SetJob(w: World, i: nat, j: Job): World
    requires i < |w.jobs|
  {
    w.(jobs := w.jobs[i := j])
  }

  /** The job reads for its next item: an answer at once, or a ticket to insert. */
  ghost function ReadItem(w: World, tokens: Tokens, i: nat, now: int): World {
    if i >= |w.jobs| || w.jobs[i].ticket.Some? || |w.jobs[i].answers| >= |w.jobs[i].items| then w else
    var j := w.jobs[i];
    match LookUp(w.db, w.rows, tokens, j.staff, j.items[|j.answers|], now)
    case Done(o) => SetJob(w, i, j.(answers := j.answers + [o]))
    case Insert(r) => SetJob(w, i, j.(ticket := Some(r)))
  }

  function WriteItem(w: World, i: nat, now: int): World {
    if i >= |w.jobs| || w.jobs[i].ticket == None || |w.jobs[i].answers| >= |w.jobs[i].items| then w else
    var j := w.jobs[i];
    var r, item := j.ticket.value, j.items[|j.answers|];
    var rows2 := InsertCheckin(w.db, w.rows, j.staff, Offline(item.device, item.scan), r, now);
    SetJob(w, i, j.(answers := j.answers + [InsertAnswer(w.rows, rows2, r, now)], ticket := None)).(rows := rows2)
  }

  /**
   * markCheckinsSynced and markPendingCheckinsRetained, one UPDATE of one record: a settled answer
   * marks it synced, any other pending.
   */
  function MarkOne(records: map<Key, Record>, k: Key, answer: Outcome): map<Key, Record> {
    if k in records then records[k := records[k].(synced := SettlesRecord(answer))] else records
  }

  /** The device's sync is in flight and the server has answered every item. */
  predicate Deliverable(w: World, device: Id) {
    && device in w.flights && w.flights[device] < |w.jobs|
    && |w.jobs[w.flights[device]].answers| == |w.jobs[w.flights[device]].items|
  }

  predicate Distinct(scans: seq<string>) {
    forall m, n | 0 <= m < n < |scans| :: scans[m] != scans[n]
  }

  /** The device has no sync in flight, and scans are pending records of its own, at most 25. */
  predicate Sendable(w: World, device: Id, scans: seq<string>) {
    && device !in w.flights && 1 <= |scans| <= 25 && Distinct(scans)
    && forall n | 0 <= n < |scans| :: PendingRecord(w, Key(device, scans[n]))
  }

  function Items(w: World, device: Id, scans: seq<string>): (items: seq<Item>)
    requires Sendable(w, device, scans)
    ensures |items| == |scans|
    ensures forall n | 0 <= n < |scans| :: items[n] == ItemOf(w, Key(device, scans[n]))
  {
    seq(|scans|, n requires 0 <= n < |scans| => ItemOf(w, Key(device, scans[n])))
  }

  /** The record of item n after its answer was written back. */
  function MarkItem(w: World, j: Job, n: nat): map<Key, Record>
    requires n < |j.items| == |j.answers|
  {
    MarkOne(w.records, KeyOf(j.items[n]), j.answers[n])
  }

  ghost function Next(w: World, tokens: Tokens, a: Act): World {
    match a
    case Server(e) => w.(db := Step(w.db, e))
    case Scan(k, token, workshop) =>
      if k in w.records then w else w.(records := w.records[k := Record(token, workshop, false)])
    case Send(device, staff, scans) =>
      if Sendable(w, device, scans)
      then w.(jobs := w.jobs + [Job(staff, Items(w, device, scans), [], None)],
              flights := w.flights[device := |w.jobs|])
      else w
    case Read(i, now) => ReadItem(w, tokens, i, now)
    case Write(i, now) => WriteItem(w, i, now)
    case Mark(device, n) =>
      if Deliverable(w, device) && n < |w.jobs[w.flights[device]].items|
      then w.(records := MarkItem(w, w.jobs[w.flights[device]], n))
      else w
    case GiveUp(device) => w.(flights := w.flights - {device})
    case OnlineRead(staff, token, requested, now) =>
      if Admissible(w.db, tokens, token, requested, now) && tokens[token].reg !in w.rows
      then w.(onlineTickets := w.onlineTickets + {(staff, tokens[token].reg)}) else w
    case OnlineWrite(staff, r, now) =>
      if (staff, r) in w.onlineTickets
      then w.(rows := InsertCheckin(w.db, w.rows, staff, Online, r, now),
              onlineTickets := w.onlineTickets - {(staff, r)}) else w
  }

  ghost function History(w: World, tokens: Tokens, acts: seq<Act>): World
    decreases acts
  {
    if acts == [] then w else History(Next(w, tokens, acts[0]), tokens, acts[1..])
  }

  // ---- what the acts amount to ----

  lemma TwoActs(w: World, tokens: Tokens, a: Act, b: Act)
    ensures History(w, tokens, [a, b]) == Next(Next(w, tokens, a), tokens, b)
  {
    hide Next;
    assert [a, b][1..] == [b] && [b][1..] == [];
    var next := Next(w, tokens, a);
    assert History(next, tokens, [b]) == History(Next(next, tokens, b), tokens, []);
  }

  /** An item that is read and, if it has to be, written with nothing between is answered as processSyncItem does. */
  lemma ItemInOnePiece(w: World, tokens: Tokens, i: nat, now: int)
    requires i < |w.jobs| && w.jobs[i].ticket == None && |w.jobs[i].answers| < |w.jobs[i].items|
    ensures var j := w.jobs[i];
            var (rows, o) := Process(w.db, w.rows, tokens, j.staff, j.items[|j.answers|], now);
            History(w, tokens, [Read(i, now), Write(i, now)])
              == w.(rows := rows, jobs := w.jobs[i := j.(answers := j.answers + [o])])
  {
    TwoActs(w, tokens, Read(i, now), Write(i, now));
    hide LookUp, InsertCheckin, InsertAnswer, History;
    var done := Next(Next(w, tokens, Read(i, now)), tokens, Write(i, now));
    assert done.jobs == w.jobs[i := done.jobs[i]];
  }

  /** An online scan in one piece adds the row of an admissible registration that has none, and nothing else. */
  lemma ScanInOnePiece(w: World, tokens: Tokens, staff: Id, token: string, requested: Option<Id>, now: int)
    requires token in tokens && (staff, tokens[token].reg) !in w.onlineTickets
    ensures var r := tokens[token].reg;
            History(w, tokens, [OnlineRead(staff, token, requested, now), OnlineWrite(staff, r, now)])
              == if Admissible(w.db, tokens, token, requested, now) && r !in w.rows
                 then w.(rows := w.rows[r := Row(tokens[token].workshop, tokens[token].user, staff, Online, now)])
                 else w
  {
    var r := tokens[token].reg;
    TwoActs(w, tokens, OnlineRead(staff, token, requested, now), OnlineWrite(staff, r, now));
    hide History;
    var read := Next(w, tokens, OnlineRead(staff, token, requested, now));
    if read != w { assert read.onlineTickets - {(staff, r)} == w.onlineTickets; }
  }

  /** A scan is stored pending under its new id, with what was scanned; a known id changes nothing. */
  lemma ScanIsStored(w: World, tokens: Tokens, k: Key, token: string, workshop: Option<Id>)
    ensures var after := Next(w, tokens, Scan(k, token, workshop));
            && after == w.(records := after.records) && k in after.records
            && (k !in w.records ==>
                  PendingRecord(after, k) && ItemOf(after, k) == Item(k.device, k.scan, token, workshop))
            && (forall x | x in w.records :: x in after.records && after.records[x] == w.records[x])
            && (forall x | x in after.records :: x in w.records || x == k)
  {
  }

  /** The registration transactions among the acts. */
  function EventsOf(acts: seq<Act>): seq<Event> {
    if acts == [] then []
    else (if acts[0].Server? then [acts[0].e] else []) + EventsOf(acts[1..])
  }

  lemma ActKeepsTables(w: World, tokens: Tokens, a: Act)
    ensures Next(w, tokens, a).db == if a.Server? then Step(w.db, a.e) else w.db
  {
    hide LookUp, Step, MarkItem, InsertCheckin, InsertAnswer, Sendable, Admissible;
  }

  /** In any history the registration tables go through a run of their own protocol, check-ins or not. */
  lemma {:induction false} TablesRunAlone(w: World, tokens: Tokens, acts: seq<Act>)
    ensures History(w, tokens, acts).db == Run(w.db, EventsOf(acts))
    decreases acts
  {
    hide Next, Step;
    if acts != [] {
      ActKeepsTables(w, tokens, acts[0]);
      TablesRunAlone(Next(w, tokens, acts[0]), tokens, acts[1..]);
      assert EventsOf(acts) == (if acts[0].Server? then [acts[0].e] else []) + EventsOf(acts[1..]);
      if acts[0].Server? {
        assert EventsOf(acts)[1..] == EventsOf(acts[1..]);
      } else {
        assert EventsOf(acts) == EventsOf(acts[1..]);
      }
    }
  }

  // ---- the invariant ----

  predicate ConfirmedIn(db: Db, r: Id) {
    r in db.registrations && db.registrations[r].status == Confirmed
  }

  /** Every row is a confirmed registration's, and records its workshop. */
  ghost predicate RowsEarned(db: Db, rows: Rows) {
    forall r | r in rows :: ConfirmedIn(db, r) && rows[r].workshop == db.registrations[r].workshop
  }

  /** Every insert still to come is for a confirmed registration. */
  ghost predicate TicketsEarned(db: Db, jobs: seq<Job>, tickets: set<(Id, Id)>) {
    && (forall i | 0 <= i < |jobs| && jobs[i].ticket.Some? :: ConfirmedIn(db, jobs[i].ticket.value))
    && (forall s, r | (s, r) in tickets :: ConfirmedIn(db, r))
  }

  /** The token's registration has its row. */
  predicate Attended(rows: Rows, tokens: Tokens, token: string) {
    token in tokens && tokens[token].reg in rows
  }

  /** A row that came from a device came from that device's record. */
  ghost predicate RowsTraced(rows: Rows, records: map<Key, Record>, tokens: Tokens) {
    forall r | r in rows && rows[r].source.Offline? ::
      var k := Key(rows[r].source.device, rows[r].source.scan);
      k in records && records[k].token in tokens && tokens[records[k].token].reg == r
  }

  /** The items of a job are the device's records, and its settled answers are true. */
  ghost predicate JobSound(j: Job, rows: Rows, records: map<Key, Record>, tokens: Tokens) {
    && |j.answers| <= |j.items|
    && (forall n | 0 <= n < |j.items| ::
          var k := Key(j.items[n].device, j.items[n].scan); k in records && records[k].token == j.items[n].token)
    && (forall n | 0 <= n < |j.answers| :: SettlesRecord(j.answers[n]) ==> Attended(rows, tokens, j.items[n].token))
    && (j.ticket.Some? ==>
          && |j.answers| < |j.items|
          && j.items[|j.answers|].token in tokens && tokens[j.items[|j.answers|].token].reg == j.ticket.value)
  }

  ghost predicate JobsSound(jobs: seq<Job>, rows: Rows, records: map<Key, Record>, tokens: Tokens) {
    forall i | 0 <= i < |jobs| :: JobSound(jobs[i], rows, records, tokens)
  }

  /** A record marked synced has its registration checked in at the server. */
  ghost predicate SyncedAttended(rows: Rows, records: map<Key, Record>, tokens: Tokens) {
    forall k | k in records && records[k].synced :: Attended(rows, tokens, records[k].token)
  }

  /**
   * While a sync is in flight, the records it carries are different ones of the device, and each that
   * has no settling answer is pending.
   */
  ghost predicate FlightPending(j: Job, records: map<Key, Record>, d: Id) {
    && (forall n | 0 <= n < |j.items| :: j.items[n].device == d && KeyOf(j.items[n]) in records)
    && (forall m, n | 0 <= m < n < |j.items| :: j.items[m].scan != j.items[n].scan)
    && (forall n | 0 <= n < |j.items| ::
          n >= |j.answers| || !SettlesRecord(j.answers[n]) ==> !records[KeyOf(j.items[n])].synced)
  }

  ghost predicate FlightsPending(jobs: seq<Job>, records: map<Key, Record>, flights: map<Id, nat>) {
    forall d | d in flights :: flights[d] < |jobs| && FlightPending(jobs[flights[d]], records, d)
  }

  ghost predicate WorldInv(w: World, tokens: Tokens) {
    && Inv(w.db)
    && RowsEarned(w.db, w.rows)
    && TicketsEarned(w.db, w.jobs, w.onlineTickets)
    && RowsTraced(w.rows, w.records, tokens)
    && JobsSound(w.jobs, w.rows, w.records, tokens)
    && SyncedAttended(w.rows, w.records, tokens)
    && FlightsPending(w.jobs, w.records, w.flights)
  }

  // ---- monotone parts ----

  lemma DbStepKeepsEarned(db: Db, e: Event, rows: Rows, jobs: seq<Job>, tickets: set<(Id, Id)>)
    requires Inv(db) && RowsEarned(db, rows) && TicketsEarned(db, jobs, tickets)
    ensures RowsEarned(Step(db, e), rows) && TicketsEarned(Step(db, e), jobs, tickets)
  {
    hide Inv, Step;
    forall r | ConfirmedIn(db, r)
      ensures ConfirmedIn(Step(db, e), r) && Step(db, e).registrations[r].workshop == db.registrations[r].workshop
    {
      StepFollows(db, e, r);
    }
  }

  lemma RowsGrowKeepsJobs(jobs: seq<Job>, rows: Rows, rows2: Rows, records: map<Key, Record>, tokens: Tokens)
    requires Grows(rows, rows2) && JobsSound(jobs, rows, records, tokens) && SyncedAttended(rows, records, tokens)
    ensures JobsSound(jobs, rows2, records, tokens) && SyncedAttended(rows2, records, tokens)
  {
    forall i | 0 <= i < |jobs| ensures JobSound(jobs[i], rows2, records, tokens) {
      assert JobSound(jobs[i], rows, records, tokens);
    }
  }

  /** Records keep their token, whatever else happens to them. */
  ghost predicate Retained(a: map<Key, Record>, b: map<Key, Record>) {
    forall k | k in a ::
      k in b && b[k].token == a[k].token && b[k].workshop == a[k].workshop && (a[k].synced ==> b[k].synced)
  }

  lemma RecordsRetainedKeeps(jobs: seq<Job>, rows: Rows, records: map<Key, Record>, records2: map<Key, Record>,
                             tokens: Tokens)
    requires Retained(records, records2)
    requires JobsSound(jobs, rows, records, tokens) && RowsTraced(rows, records, tokens)
    ensures JobsSound(jobs, rows, records2, tokens) && RowsTraced(rows, records2, tokens)
  {
    forall i | 0 <= i < |jobs| ensures JobSound(jobs[i], rows, records2, tokens) {
      assert JobSound(jobs[i], rows, records, tokens);
    }
  }

  /** One row more, for a confirmed registration, traced to its record when it came from a device. */
  lemma InsertKeeps(db: Db, rows: Rows, records: map<Key, Record>, tokens: Tokens, staff: Id, source: Source, r: Id,
                    now: int)
    requires RowsEarned(db, rows) && RowsTraced(rows, records, tokens) && ConfirmedIn(db, r)
    requires source.Offline? ==>
      var k := Key(source.device, source.scan);
      k in records && records[k].token in tokens && tokens[records[k].token].reg == r
    ensures var rows2 := InsertCheckin(db, rows, staff, source, r, now);
      RowsEarned(db, rows2) && RowsTraced(rows2, records, tokens) && Grows(rows, rows2)
  {
  }

  // ---- one job ----

  /** A settling answer of the reading half is true: a replay row can only be this record's. */
  lemma LookUpIsTrue(db: Db, rows: Rows, records: map<Key, Record>, tokens: Tokens, staff: Id, item: Item, now: int)
    requires RowsTraced(rows, records, tokens)
    requires var k := Key(item.device, item.scan); k in records && records[k].token == item.token
    ensures var look := LookUp(db, rows, tokens, staff, item, now);
      && (look.Done? && SettlesRecord(look.outcome) ==> Attended(rows, tokens, item.token))
      && (look.Insert? ==> item.token in tokens && tokens[item.token].reg == look.reg && ConfirmedIn(db, look.reg))
  {
  }

  /** So is that of the writing half: a conflict that is not on the registration cannot happen. */
  lemma WriteIsTrue(db: Db, rows: Rows, records: map<Key, Record>, tokens: Tokens, staff: Id, item: Item, r: Id,
                    now: int)
    requires RowsTraced(rows, records, tokens) && ConfirmedIn(db, r)
    requires var k := Key(item.device, item.scan); k in records && records[k].token == item.token
    requires item.token in tokens && tokens[item.token].reg == r
    ensures var rows2 := InsertCheckin(db, rows, staff, Offline(item.device, item.scan), r, now);
      r in rows2 && InsertAnswer(rows, rows2, r, now) != AlreadyIn(None)
  {
  }

  /** A job that gets on with the same items keeps every flight pending. */
  lemma JobMoves(jobs: seq<Job>, i: nat, j2: Job, records: map<Key, Record>, flights: map<Id, nat>)
    requires FlightsPending(jobs, records, flights) && i < |jobs|
    requires j2.items == jobs[i].items && jobs[i].answers <= j2.answers
    ensures FlightsPending(jobs[i := j2], records, flights)
  {
    forall d | d in flights
      ensures FlightPending(jobs[i := j2][flights[d]], records, d)
    {
      assert FlightPending(jobs[flights[d]], records, d);
    }
  }

  lemma OneJobSound(jobs: seq<Job>, i: nat, j2: Job, rows: Rows, records: map<Key, Record>, tokens: Tokens)
    requires JobsSound(jobs, rows, records, tokens) && i < |jobs| && JobSound(j2, rows, records, tokens)
    ensures JobsSound(jobs[i := j2], rows, records, tokens)
  {
    hide JobSound;
  }

  lemma SoundAt(w: World, tokens: Tokens, i: nat)
    requires JobsSound(w.jobs, w.rows, w.records, tokens) && i < |w.jobs|
    ensures JobSound(w.jobs[i], w.rows, w.records, tokens)
  {
  }

  lemma ReadKeeps(w: World, tokens: Tokens, i: nat, now: int)
    requires WorldInv(w, tokens)
    ensures WorldInv(ReadItem(w, tokens, i, now), tokens)
  {
    hide Inv, RowsEarned, LookUp, RowsTraced, SyncedAttended, FlightsPending, JobsSound;
    if i < |w.jobs| && w.jobs[i].ticket == None && |w.jobs[i].answers| < |w.jobs[i].items| {
      var j, j2 := w.jobs[i], ReadItem(w, tokens, i, now).jobs[i];
      SoundAt(w, tokens, i);
      LookUpIsTrue(w.db, w.rows, w.records, tokens, j.staff, j.items[|j.answers|], now);
      JobMoves(w.jobs, i, j2, w.records, w.flights);
      OneJobSound(w.jobs, i, j2, w.rows, w.records, tokens);
    }
  }

  lemma WriteKeeps(w: World, tokens: Tokens, i: nat, now: int)
    requires WorldInv(w, tokens)
    ensures WorldInv(WriteItem(w, i, now), tokens)
  {
    hide Inv, RowsEarned, RowsTraced, SyncedAttended, InsertCheckin, InsertAnswer, FlightsPending, JobsSound;
    if i < |w.jobs| && w.jobs[i].ticket.Some? && |w.jobs[i].answers| < |w.jobs[i].items| {
      var j, j2 := w.jobs[i], WriteItem(w, i, now).jobs[i];
      var r, item := j.ticket.value, j.items[|j.answers|];
      var rows2 := InsertCheckin(w.db, w.rows, j.staff, Offline(item.device, item.scan), r, now);
      SoundAt(w, tokens, i);
      InsertKeeps(w.db, w.rows, w.records, tokens, j.staff, Offline(item.device, item.scan), r, now);
      RowsGrowKeepsJobs(w.jobs, w.rows, rows2, w.records, tokens);
      SoundAt(w.(rows := rows2), tokens, i);
      WriteIsTrue(w.db, w.rows, w.records, tokens, j.staff, item, r, now);
      JobMoves(w.jobs, i, j2, w.records, w.flights);
      OneJobSound(w.jobs, i, j2, rows2, w.records, tokens);
    }
  }

  /** A mark never takes a synced record back: a refused item's record is pending while its sync is in flight. */
  lemma MarkRetains(w: World, tokens: Tokens, device: Id, n: nat)
    requires JobsSound(w.jobs, w.rows, w.records, tokens) && SyncedAttended(w.rows, w.records, tokens)
    requires FlightsPending(w.jobs, w.records, w.flights) && Deliverable(w, device)
    requires n < |w.jobs[w.flights[device]].items|
    ensures var records2 := MarkItem(w, w.jobs[w.flights[device]], n);
      Retained(w.records, records2) && SyncedAttended(w.rows, records2, tokens)
  {
    var j := w.jobs[w.flights[device]];
    assert JobSound(j, w.rows, w.records, tokens);
    assert FlightPending(j, w.records, device);
  }

  lemma MarkKeepsFlight(w: World, device: Id, n: nat, d: Id)
    requires FlightsPending(w.jobs, w.records, w.flights) && Deliverable(w, device)
    requires n < |w.jobs[w.flights[device]].items| && d in w.flights
    ensures FlightPending(w.jobs[w.flights[d]], MarkItem(w, w.jobs[w.flights[device]], n), d)
  {
    var j := w.jobs[w.flights[device]];
    assert FlightPending(j, w.records, device);
    assert FlightPending(w.jobs[w.flights[d]], w.records, d);
    assert d == device ==> w.flights[d] == w.flights[device];
  }

  lemma MarkKeeps(w: World, tokens: Tokens, device: Id, n: nat)
    requires WorldInv(w, tokens)
    ensures WorldInv(Next(w, tokens, Mark(device, n)), tokens)
  {
    hide Inv, RowsEarned, TicketsEarned, JobsSound, SyncedAttended, RowsTraced, MarkItem, FlightPending;
    if Deliverable(w, device) && n < |w.jobs[w.flights[device]].items| {
      var records2 := MarkItem(w, w.jobs[w.flights[device]], n);
      MarkRetains(w, tokens, device, n);
      RecordsRetainedKeeps(w.jobs, w.rows, w.records, records2, tokens);
      forall d | d in w.flights
        ensures FlightPending(w.jobs[w.flights[d]], records2, d)
      {
        MarkKeepsFlight(w, device, n, d);
      }
    }
  }

  lemma GiveUpKeeps(w: World, tokens: Tokens, device: Id)
    requires WorldInv(w, tokens)
    ensures WorldInv(Next(w, tokens, GiveUp(device)), tokens)
  {
    hide Inv, RowsEarned, TicketsEarned, JobsSound, SyncedAttended, RowsTraced;
  }

  lemma NewJobIsSound(w: World, tokens: Tokens, device: Id, staff: Id, scans: seq<string>)
    requires Sendable(w, device, scans)
    ensures JobSound(Job(staff, Items(w, device, scans), [], None), w.rows, w.records, tokens)
    ensures FlightPending(Job(staff, Items(w, device, scans), [], None), w.records, device)
  {
  }

  lemma SendKeeps(w: World, tokens: Tokens, device: Id, staff: Id, scans: seq<string>)
    requires WorldInv(w, tokens)
    ensures WorldInv(Next(w, tokens, Send(device, staff, scans)), tokens)
  {
    hide Inv, RowsEarned, RowsTraced, SyncedAttended, Sendable, Items, JobSound, FlightPending;
    if Sendable(w, device, scans) { NewJobIsSound(w, tokens, device, staff, scans); }
  }

  lemma OnlineKeeps(w: World, tokens: Tokens, staff: Id, r: Id, now: int)
    requires WorldInv(w, tokens)
    ensures WorldInv(Next(w, tokens, OnlineWrite(staff, r, now)), tokens)
  {
    hide Inv, RowsEarned, RowsTraced, SyncedAttended, JobsSound, InsertCheckin;
    if (staff, r) in w.onlineTickets {
      var rows2 := InsertCheckin(w.db, w.rows, staff, Online, r, now);
      InsertKeeps(w.db, w.rows, w.records, tokens, staff, Online, r, now);
      RowsGrowKeepsJobs(w.jobs, w.rows, rows2, w.records, tokens);
    }
  }

  lemma OnlineReadKeeps(w: World, tokens: Tokens, staff: Id, token: string, requested: Option<Id>, now: int)
    requires WorldInv(w, tokens)
    ensures WorldInv(Next(w, tokens, OnlineRead(staff, token, requested, now)), tokens)
  {
    hide Inv, RowsEarned, RowsTraced, SyncedAttended, JobsSound;
  }

  lemma ScanKeeps(w: World, tokens: Tokens, k: Key, token: string, workshop: Option<Id>)
    requires WorldInv(w, tokens)
    ensures WorldInv(Next(w, tokens, Scan(k, token, workshop)), tokens)
  {
    hide Inv, RowsEarned, TicketsEarned, JobsSound, RowsTraced;
    RecordsRetainedKeeps(w.jobs, w.rows, w.records, Next(w, tokens, Scan(k, token, workshop)).records, tokens);
  }

  lemma ServerKeeps(w: World, tokens: Tokens, e: Event)
    requires WorldInv(w, tokens)
    ensures WorldInv(w.(db := Step(w.db, e)), tokens)
  {
    hide Inv, RowsEarned, RowsTraced, SyncedAttended, JobsSound, TicketsEarned, Step;
    StepKeeps(w.db, e);
    DbStepKeepsEarned(w.db, e, w.rows, w.jobs, w.onlineTickets);
  }

  lemma NextKeeps(w: World, tokens: Tokens, a: Act)
    requires WorldInv(w, tokens)
    ensures WorldInv(Next(w, tokens, a), tokens)
  {
    match a
    case Server(e) => ServerKeeps(w, tokens, e);
    case Scan(k, token, workshop) => ScanKeeps(w, tokens, k, token, workshop);
    case Send(device, staff, scans) => SendKeeps(w, tokens, device, staff, scans);
    case Read(i, now) => ReadKeeps(w, tokens, i, now);
    case Write(i, now) => WriteKeeps(w, tokens, i, now);
    case Mark(device, n) => MarkKeeps(w, tokens, device, n);
    case GiveUp(device) => GiveUpKeeps(w, tokens, device);
    case OnlineRead(staff, token, requested, now) => OnlineReadKeeps(w, tokens, staff, token, requested, now);
    case OnlineWrite(staff, r, now) => OnlineKeeps(w, tokens, staff, r, now);
  }

  lemma {:induction false} HistoryKeeps(w: World, tokens: Tokens, acts: seq<Act>)
    requires WorldInv(w, tokens)
    ensures WorldInv(History(w, tokens, acts), tokens)
    decreases acts
  {
    hide WorldInv, Next;
    if acts != [] {
      NextKeeps(w, tokens, acts[0]);
      HistoryKeeps(Next(w, tokens, acts[0]), tokens, acts[1..]);
    }
  }

  // ---- the theorems ----

  const START := World(EMPTY, map[], map[], [], map[], {})

  lemma StartIsGood(tokens: Tokens)
    ensures WorldInv(START, tokens)
  {
  }

  /**
   * Over any history of scans, syncs, losses, mid-batch failures and concurrent registrations: a
   * record that its device marks as synced has its registration checked in at the server.
   */
  lemma SyncedMeansCheckedIn(tokens: Tokens, acts: seq<Act>, k: Key)
    requires k in History(START, tokens, acts).records && History(START, tokens, acts).records[k].synced
    ensures var w := History(START, tokens, acts);
      w.records[k].token in tokens && tokens[w.records[k].token].reg in w.rows
  {
    StartIsGood(tokens);
    HistoryKeeps(START, tokens, acts);
  }

  ghost function AttendedOf(rows: Rows, w: Id): set<Id> {
    set r | r in rows && rows[r].workshop == w
  }

  /**
   * Every attendance row is a confirmed registration's, although eligibility is read before the
   * insert; so a workshop has at most as many as confirmations, and no more than its capacity.
   */
  lemma AttendanceBounded(tokens: Tokens, acts: seq<Act>, ws: Id)
    requires ws in History(START, tokens, acts).db.workshops
    ensures var w := History(START, tokens, acts);
      && (forall r | r in w.rows :: ConfirmedIn(w.db, r))
      && |AttendedOf(w.rows, ws)| <= w.db.workshops[ws].confirmed
           <= w.db.workshops[ws].reserved <= w.db.workshops[ws].capacity
  {
    var w := History(START, tokens, acts);
    StartIsGood(tokens);
    HistoryKeeps(START, tokens, acts);
    hide History, RowsTraced, JobsSound, TicketsEarned, SyncedAttended, Wired, OneActive, UniqueKeys, AllCoupled,
         EventsOnce, CallsKnown;
    assert AttendedOf(w.rows, ws) <= ConfirmedOf(w.db.registrations, ws);
    CardMono(AttendedOf(w.rows, ws), ConfirmedOf(w.db.registrations, ws));
    ConfirmedAreActive(w.db.registrations, ws);
  }

  /** What a later moment keeps of an earlier one: rows as they were, and every record. */
  ghost predicate Keeps(a: World, b: World) {
    Grows(a.rows, b.rows) && Retained(a.records, b.records)
  }

  lemma NextRetains(w: World, tokens: Tokens, a: Act)
    requires WorldInv(w, tokens)
    ensures Keeps(w, Next(w, tokens, a))
  {
    hide LookUp, Step, Inv, MarkItem, JobsSound, SyncedAttended, FlightsPending, Refusal, Verify, Sendable, RowsTraced,
         TicketsEarned, RowsEarned;
    if a.Mark? && Deliverable(w, a.device) && a.n < |w.jobs[w.flights[a.device]].items| {
      MarkRetains(w, tokens, a.device, a.n);
    }
  }

  /** No record is dropped or goes back from synced, and no attendance row is changed or removed. */
  lemma {:induction false} NothingIsLost(w: World, tokens: Tokens, acts: seq<Act>)
    requires WorldInv(w, tokens)
    ensures Keeps(w, History(w, tokens, acts))
    decreases acts
  {
    hide Next, WorldInv;
    if acts != [] {
      NextKeeps(w, tokens, acts[0]);
      NextRetains(w, tokens, acts[0]);
      NothingIsLost(Next(w, tokens, acts[0]), tokens, acts[1..]);
    }
  }

  lemma TracedAreUnique(rows: Rows, records: map<Key, Record>, tokens: Tokens)
    requires RowsTraced(rows, records, tokens)
    ensures UniqueSources(rows)
  {
  }

  /**
   * A row that an offline item brought in answers every later sending of that item by the same
   * staff member, with its registration and its time, and the sending adds nothing.
   */
  lemma ResendInHistory(tokens: Tokens, acts: seq<Act>, more: seq<Act>, r: Id, item: Item, now: int)
    requires r in History(START, tokens, acts).rows
    requires History(START, tokens, acts).rows[r].source == Offline(item.device, item.scan)
    ensures var row, later := History(START, tokens, acts).rows[r], History(History(START, tokens, acts), tokens, more);
      Process(later.db, later.rows, tokens, row.staff, item, now) == (later.rows, CheckedIn(r, row.at))
  {
    hide History, Inv, RowsEarned, TicketsEarned, JobsSound, SyncedAttended, FlightsPending, RowsTraced;
    var w := History(START, tokens, acts);
    var later := History(w, tokens, more);
    StartIsGood(tokens);
    HistoryKeeps(START, tokens, acts);
    HistoryKeeps(w, tokens, more);
    NothingIsLost(w, tokens, more);
    TracedAreUnique(later.rows, later.records, tokens);
    assert IsReplay(later.rows, w.rows[r].staff, item, r);
  }
}
