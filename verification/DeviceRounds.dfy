/** A device's table, round by round, inside the histories of offline check-in. */
module DeviceRounds {
  import opened Tables
  import opened SeatInvariants
  import opened Checkins
  import opened OfflineCheckin
  import D = DeviceQueues

  /** The world's records of device d are the rows of its table. */
  ghost predicate Mirrors(records: map<Key, Record>, d: Id, stored: seq<D.Stored>) {
    && (forall i | 0 <= i < |stored| :: Key(d, stored[i].scan) in records
          && records[Key(d, stored[i].scan)].token == stored[i].token
          && records[Key(d, stored[i].scan)].synced == stored[i].synced)
    && (forall k <- records | k.device == d :: exists i :: 0 <= i < |stored| && stored[i].scan == k.scan)
  }

  function ScansIn(batch: seq<D.Stored>): (scans: seq<string>)
    ensures |scans| == |batch| && forall i | 0 <= i < |batch| :: scans[i] == batch[i].scan
  {
    seq(|batch|, i requires 0 <= i < |batch| => batch[i].scan)
  }

  /** The first 25 pending rows are a batch the device may send. */
  lemma HeadIsSendable(w: World, d: Id, stored: seq<D.Stored>)
    requires Mirrors(w.records, d, stored) && D.DistinctScans(stored) && d !in w.flights
    requires D.PendingOf(stored) != []
    ensures Sendable(w, d, ScansIn(D.Head(stored, 25)))
  {
    var head := D.Head(stored, 25);
    D.HeadIsDistinct(stored, 25);
    forall n | 0 <= n < |head|
      ensures PendingRecord(w, Key(d, head[n].scan))
    {
      D.PendingScans(stored, n);
      var i :| 0 <= i < |stored| && stored[i] == head[n];
    }
  }

  // ---- writing the answers back ----

  function Marks(d: Id, n: nat): seq<Act> {
    if n == 0 then [] else Marks(d, n - 1) + [Mark(d, n - 1)]
  }

  /** The records after the first n answers of a job were written back. */
  function Marked(records: map<Key, Record>, j: Job, n: nat): map<Key, Record>
    requires n <= |j.items| == |j.answers|
    decreases n
  {
    if n == 0 then records else MarkOne(Marked(records, j, n - 1), KeyOf(j.items[n - 1]), j.answers[n - 1])
  }

  lemma {:induction false} HistorySplits(w: World, tokens: Tokens, a: seq<Act>, b: seq<Act>)
    ensures History(w, tokens, a + b) == History(History(w, tokens, a), tokens, b)
    decreases a
  {
    hide Next;
    if a == [] {
      assert a + b == b;
    } else {
      assert (a + b)[1..] == a[1..] + b;
      HistorySplits(Next(w, tokens, a[0]), tokens, a[1..], b);
    }
  }

  lemma HistoryOne(w: World, tokens: Tokens, a: Act)
    ensures History(w, tokens, [a]) == Next(w, tokens, a)
  {
    hide Next;
    assert [a][1..] == [];
  }

  lemma NoMarks(w: World, tokens: Tokens, d: Id)
    requires Deliverable(w, d)
    ensures History(w, tokens, Marks(d, 0)) == w.(records := Marked(w.records, w.jobs[w.flights[d]], 0))
  {
  }

  lemma MarkIs(w: World, tokens: Tokens, d: Id, n: nat)
    requires Deliverable(w, d) && n < |w.jobs[w.flights[d]].items|
    ensures var j := w.jobs[w.flights[d]];
      Next(w, tokens, Mark(d, n)) == w.(records := MarkOne(w.records, KeyOf(j.items[n]), j.answers[n]))
  {
    hide MarkOne;
  }

  lemma MarkedNext(records: map<Key, Record>, j: Job, n: nat)
    requires 1 <= n <= |j.items| == |j.answers|
    ensures Marked(records, j, n) == MarkOne(Marked(records, j, n - 1), KeyOf(j.items[n - 1]), j.answers[n - 1])
  {
  }

  lemma {:induction false} MarksAre(w: World, tokens: Tokens, d: Id, n: nat)
    requires Deliverable(w, d) && n <= |w.jobs[w.flights[d]].items|
    ensures History(w, tokens, Marks(d, n)) == w.(records := Marked(w.records, w.jobs[w.flights[d]], n))
    decreases n
  {
    hide Marked, Next, MarkOne;
    var j := w.jobs[w.flights[d]];
    if n == 0 {
      NoMarks(w, tokens, d);
    } else {
      MarksAre(w, tokens, d, n - 1);
      HistorySplits(w, tokens, Marks(d, n - 1), [Mark(d, n - 1)]);
      HistoryOne(History(w, tokens, Marks(d, n - 1)), tokens, Mark(d, n - 1));
      MarkIs(w.(records := Marked(w.records, j, n - 1)), tokens, d, n - 1);
      MarkedNext(w.records, j, n);
    }
  }

  /** Each record ends with its own answer, and the others are as they were. */
  lemma {:induction false} MarkedAt(records: map<Key, Record>, j: Job, n: nat, k: Key)
    requires n <= |j.items| == |j.answers| && k in records
    requires forall m, l | 0 <= m < l < |j.items| :: KeyOf(j.items[m]) != KeyOf(j.items[l])
    ensures Marked(records, j, n).Keys == records.Keys && Marked(records, j, n)[k].token == records[k].token
    ensures forall m | 0 <= m < n && KeyOf(j.items[m]) == k ::
              Marked(records, j, n)[k].synced == SettlesRecord(j.answers[m])
    ensures (forall m | 0 <= m < n :: KeyOf(j.items[m]) != k) ==> Marked(records, j, n)[k] == records[k]
    decreases n
  {
    if n > 0 { MarkedAt(records, j, n - 1, k); }
  }

  /** How the device reads the answers of a job. */
  predicate Reads(answers: seq<Outcome>, replies: seq<D.Reply>) {
    |replies| == |answers| && forall n | 0 <= n < |answers| :: replies[n].Settles? <==> SettlesRecord(answers[n])
  }

  /** The job's items are the head of the table, and replies are its answers as the device reads them. */
  ghost predicate CarriesHead(j: Job, d: Id, stored: seq<D.Stored>, replies: seq<D.Reply>) {
    var head := D.Head(stored, 25);
    && |j.items| == |j.answers| == |head| && Reads(j.answers, replies)
    && (forall n | 0 <= n < |head| :: KeyOf(j.items[n]) == Key(d, head[n].scan))
  }

  lemma HeadRowIs(stored: seq<D.Stored>, m: nat, i: nat)
    requires D.DistinctScans(stored) && m < |D.Head(stored, 25)| && i < |stored|
    ensures D.Head(stored, 25)[m].scan == stored[i].scan ==> D.Head(stored, 25)[m] == stored[i]
  {
    D.HeadInRecords(stored, 25, m);
  }

  lemma RoundAt(records: map<Key, Record>, j: Job, d: Id, stored: seq<D.Stored>, replies: seq<D.Reply>, i: nat)
    requires Mirrors(records, d, stored) && D.DistinctScans(stored) && CarriesHead(j, d, stored, replies)
    requires i < |stored|
    ensures var k, x := Key(d, stored[i].scan), D.AfterRound(stored, D.Head(stored, 25), replies)[i];
      var after := Marked(records, j, |j.items|);
      x.scan == stored[i].scan && k in after && after[k].token == x.token && after[k].synced == x.synced
  {
    var head, k := D.Head(stored, 25), Key(d, stored[i].scan);
    D.HeadIsDistinct(stored, 25);
    D.RoundOutcome(stored, 25, replies, i);
    MarkedAt(records, j, |j.items|, k);
    hide D.AfterRound, Marked;
    if stored[i] in head {
      var m :| 0 <= m < |head| && head[m] == stored[i];
      assert KeyOf(j.items[m]) == k;
    } else {
      forall m | 0 <= m < |j.items|
        ensures KeyOf(j.items[m]) != k
      {
        HeadRowIs(stored, m, i);
      }
    }
  }

  lemma {:induction false} SameKeys(records: map<Key, Record>, j: Job, n: nat)
    requires n <= |j.items| == |j.answers|
    ensures Marked(records, j, n).Keys == records.Keys
    decreases n
  {
    if n > 0 { SameKeys(records, j, n - 1); }
  }

  /** Marking every answered item, one UPDATE after the other, is the round of the device's table. */
  lemma MarksAreTheRound(records: map<Key, Record>, j: Job, d: Id, stored: seq<D.Stored>, replies: seq<D.Reply>)
    requires Mirrors(records, d, stored) && D.DistinctScans(stored) && CarriesHead(j, d, stored, replies)
    ensures Mirrors(Marked(records, j, |j.items|), d, D.AfterRound(stored, D.Head(stored, 25), replies))
    ensures D.DistinctScans(D.AfterRound(stored, D.Head(stored, 25), replies))
  {
    var after, rows := Marked(records, j, |j.items|), D.AfterRound(stored, D.Head(stored, 25), replies);
    D.HeadIsDistinct(stored, 25);
    assert |rows| == |stored|;
    forall i | 0 <= i < |stored|
      ensures var k := Key(d, stored[i].scan);
        && rows[i].scan == stored[i].scan && k in after
        && after[k].token == rows[i].token && after[k].synced == rows[i].synced
    {
      RoundAt(records, j, d, stored, replies, i);
    }
    forall k <- after | k.device == d
      ensures exists i :: 0 <= i < |rows| && rows[i].scan == k.scan
    {
      SameKeys(records, j, |j.items|);
      var i :| 0 <= i < |stored| && stored[i].scan == k.scan;
      assert rows[i].scan == k.scan;
    }
  }

  // ---- while the device waits ----

  /** The act is not this device's. */
  predicate LeavesAlone(a: Act, d: Id) {
    && (a.Scan? ==> a.key.device != d)
    && (a.Send? || a.Mark? || a.GiveUp? ==> a.device != d)
  }

  /** The device's records, its flight and the items it sent are as they were. */
  ghost predicate StillWaits(w: World, w2: World, d: Id) {
    && d in w.flights && d in w2.flights && w2.flights[d] == w.flights[d]
    && w.flights[d] < |w.jobs| && w.flights[d] < |w2.jobs|
    && w2.jobs[w.flights[d]].items == w.jobs[w.flights[d]].items
    && (forall k: Key | k.device == d :: k in w2.records <==> k in w.records)
    && (forall k <- w.records | k.device == d :: w2.records[k] == w.records[k])
  }

  lemma JobsMoveOn(w: World, tokens: Tokens, i: nat, at: int, d: Id)
    requires d in w.flights && w.flights[d] < |w.jobs|
    ensures StillWaits(w, ReadItem(w, tokens, i, at), d) && StillWaits(w, WriteItem(w, i, at), d)
  {
    hide LookUp, InsertCheckin, InsertAnswer;
  }

  lemma OtherSends(w: World, tokens: Tokens, e: Id, staff: Id, scans: seq<string>, d: Id)
    requires d in w.flights && w.flights[d] < |w.jobs| && e != d
    ensures StillWaits(w, Next(w, tokens, Send(e, staff, scans)), d)
  {
    hide Items, Distinct, PendingRecord;
  }

  lemma OtherMarks(w: World, tokens: Tokens, e: Id, n: nat, d: Id)
    requires FlightsPending(w.jobs, w.records, w.flights) && d in w.flights && e != d
    ensures StillWaits(w, Next(w, tokens, Mark(e, n)), d)
  {
    if Deliverable(w, e) && n < |w.jobs[w.flights[e]].items| {
      assert FlightPending(w.jobs[w.flights[e]], w.records, e);
    }
  }

  lemma OthersElsewhere(w: World, tokens: Tokens, a: Act, d: Id)
    requires LeavesAlone(a, d) && d in w.flights && w.flights[d] < |w.jobs|
    requires a.Server? || a.Scan? || a.GiveUp? || a.OnlineRead? || a.OnlineWrite?
    ensures StillWaits(w, Next(w, tokens, a), d)
  {
    hide Step, InsertCheckin, Verify, Refusal;
  }

  lemma NextLeavesAlone(w: World, tokens: Tokens, a: Act, d: Id)
    requires WorldInv(w, tokens) && LeavesAlone(a, d) && d in w.flights
    ensures StillWaits(w, Next(w, tokens, a), d)
  {
    hide Inv, RowsEarned, TicketsEarned, RowsTraced, JobsSound, SyncedAttended, StillWaits, ReadItem, WriteItem,
         FlightPending, Step, InsertCheckin, Sendable, Items, Verify, Refusal, MarkItem;
    match a
    case Read(i, at) => JobsMoveOn(w, tokens, i, at, d);
    case Write(i, at) => JobsMoveOn(w, tokens, i, at, d);
    case Send(e, staff, scans) => OtherSends(w, tokens, e, staff, scans, d);
    case Mark(e, n) => OtherMarks(w, tokens, e, n, d);
    case _ => OthersElsewhere(w, tokens, a, d);
  }

  lemma {:induction false} HistoryLeavesAlone(w: World, tokens: Tokens, acts: seq<Act>, d: Id)
    requires WorldInv(w, tokens) && d in w.flights && forall a <- acts :: LeavesAlone(a, d)
    ensures StillWaits(w, History(w, tokens, acts), d)
    decreases acts
  {
    hide Inv, RowsEarned, TicketsEarned, RowsTraced, JobsSound, SyncedAttended, Next;
    if acts == [] {
      assert FlightPending(w.jobs[w.flights[d]], w.records, d);
    } else {
      assert forall a <- acts[1..] :: a in acts;
      NextKeeps(w, tokens, acts[0]);
      NextLeavesAlone(w, tokens, acts[0], d);
      HistoryLeavesAlone(Next(w, tokens, acts[0]), tokens, acts[1..], d);
    }
  }

  // ---- one round inside a history ----

  lemma SendIs(w: World, tokens: Tokens, d: Id, staff: Id, scans: seq<string>)
    requires Sendable(w, d, scans)
    ensures var sent := Next(w, tokens, Send(d, staff, scans));
      && sent.records == w.records && d in sent.flights && sent.flights[d] == |w.jobs| < |sent.jobs|
      && |sent.jobs[|w.jobs|].items| == |scans|
      && forall n | 0 <= n < |scans| :: KeyOf(sent.jobs[|w.jobs|].items[n]) == Key(d, scans[n])
  {
  }

  lemma MirrorsStay(w: World, w2: World, d: Id, stored: seq<D.Stored>)
    requires Mirrors(w.records, d, stored) && StillWaits(w, w2, d)
    ensures Mirrors(w2.records, d, stored)
  {
    forall i | 0 <= i < |stored|
      ensures var k := Key(d, stored[i].scan); k in w2.records && w2.records[k] == w.records[k]
    {
      assert Key(d, stored[i].scan).device == d;
    }
  }

  /** The device sends its head batch, waits while the others do as they like, and writes every answer back. */
  function Round(d: Id, staff: Id, stored: seq<D.Stored>, others: seq<Act>): seq<Act> {
    [Send(d, staff, ScansIn(D.Head(stored, 25)))] + (others + (Marks(d, |D.Head(stored, 25)|) + [GiveUp(d)]))
  }

  lemma GivenUp(w: World, tokens: Tokens, d: Id)
    ensures d !in Next(w, tokens, GiveUp(d)).flights && Next(w, tokens, GiveUp(d)).records == w.records
  {
  }

  /** While the device waits, its table and the batch it sent stay as they were. */
  lemma WaitingMirrors(sent: World, tokens: Tokens, others: seq<Act>, d: Id, stored: seq<D.Stored>,
                       replies: seq<D.Reply>)
    requires WorldInv(sent, tokens) && d in sent.flights && forall a <- others :: LeavesAlone(a, d)
    requires Mirrors(sent.records, d, stored) && sent.flights[d] < |sent.jobs|
    requires var items := sent.jobs[sent.flights[d]].items;
      |items| == |D.Head(stored, 25)|
      && forall n | 0 <= n < |items| :: KeyOf(items[n]) == Key(d, D.Head(stored, 25)[n].scan)
    requires var answered := History(sent, tokens, others);
      Deliverable(answered, d) && Reads(answered.jobs[answered.flights[d]].answers, replies)
    ensures var answered := History(sent, tokens, others);
      && Mirrors(answered.records, d, stored)
      && |replies| == |D.Head(stored, 25)| == |answered.jobs[answered.flights[d]].items|
      && CarriesHead(answered.jobs[answered.flights[d]], d, stored, replies)
  {
    hide WorldInv, Next, Mirrors, History, D.Head;
    HistoryLeavesAlone(sent, tokens, others, d);
    MirrorsStay(sent, History(sent, tokens, others), d, stored);
  }

  /**
   * Main result: a synchronisation of the head of the queue inside any history is the round of the
   * device's table. Whatever the other devices, the server and the registrations do meanwhile, and
   * however the server's reads and inserts are interleaved with theirs, the table afterwards is
   * AfterRound of the table before, so the queue shrinks by the answers that settle.
   */
  lemma RoundInHistory(w: World, tokens: Tokens, d: Id, staff: Id, stored: seq<D.Stored>, others: seq<Act>,
                       replies: seq<D.Reply>)
    requires WorldInv(w, tokens) && Mirrors(w.records, d, stored) && D.DistinctScans(stored) && d !in w.flights
    requires D.PendingOf(stored) != [] && forall a <- others :: LeavesAlone(a, d)
    requires var answered := History(w, tokens, [Send(d, staff, ScansIn(D.Head(stored, 25)))] + others);
      Deliverable(answered, d) && Reads(answered.jobs[answered.flights[d]].answers, replies)
    ensures |replies| == |D.Head(stored, 25)|
    ensures var end := History(w, tokens, Round(d, staff, stored, others));
      var after := D.AfterRound(stored, D.Head(stored, 25), replies);
      && WorldInv(end, tokens) && d !in end.flights
      && Mirrors(end.records, d, after) && D.DistinctScans(after)
      && |D.PendingOf(after)| == |D.PendingOf(stored)| - |D.SettledScans(D.Head(stored, 25), replies)|
  {
    var head := D.Head(stored, 25);
    var send, marks := Send(d, staff, ScansIn(head)), Marks(d, |head|);
    HeadIsSendable(w, d, stored);
    SendIs(w, tokens, d, staff, ScansIn(head));
    HistoryKeeps(w, tokens, Round(d, staff, stored, others));
    NextKeeps(w, tokens, send);
    GivenUp(History(History(w, tokens, [send] + others), tokens, marks), tokens, d);
    hide WorldInv, Next, Mirrors, D.Head, D.PendingOf, D.AfterRound, D.SettledScans, Sendable, Marked, Marks, History,
         D.DistinctScans, CarriesHead, StillWaits;
    var sent := Next(w, tokens, send);
    var answered := History(w, tokens, [send] + others);
    HistoryOne(w, tokens, send);
    HistorySplits(w, tokens, [send], others);
    WaitingMirrors(sent, tokens, others, d, stored, replies);
    D.RoundShrinks(stored, 25, replies);
    MarksAre(answered, tokens, d, |head|);
    MarksAreTheRound(answered.records, answered.jobs[answered.flights[d]], d, stored, replies);
    HistorySplits(w, tokens, [send], others + (marks + [GiveUp(d)]));
    HistorySplits(sent, tokens, others, marks + [GiveUp(d)]);
    HistorySplits(answered, tokens, marks, [GiveUp(d)]);
    HistoryOne(History(answered, tokens, marks), tokens, GiveUp(d));
  }
}
